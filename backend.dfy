/** The records the client exchanges with the backend (src/frontend/src/backend.d.ts). */
module Backend {
  import opened Wrappers

  /** Nanoseconds since the epoch (`Time = bigint`). */
  type Time = int

  /** Milliseconds (`Date.now()`, `getTime()`) to nanoseconds. */
  const NanosPerMilli: int := 1000000

  datatype ContentType = Bookmark | General

  datatype SavedContent = SavedContent(id: string, content: string, contentType: ContentType, linkTitle: string)

  datatype Reminder = Reminder(id: string, content: string, createdAt: Time, completed: bool, dueDate: Option<Time>)

  datatype Idea = Idea(id: string, content: string, createdAt: Time)

  datatype BusinessCard = BusinessCard(bio: string, title: string, fullName: string, email: string, website: string, phone: string)

  datatype UserProfile = UserProfile(name: string, email: string)

  /** An identity reference; `toString()` gives its text. */
  datatype Principal = Principal(text: string)

  /** The client tests `dueDate` for truthiness, so an absent due date and a
      due date of `0n` both mean "no due date". */
  predicate HasDueDate(r: Reminder) {
    r.dueDate.Some? && r.dueDate.value != 0
  }
}
