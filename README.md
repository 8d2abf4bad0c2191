# cardvault client logic in Dafny

CardVault is a personal organiser: a business card that can be shared on a
public page, saved links and text snippets, bookmarks, ideas and reminders.
The web client talks to a remote backend through an "actor" and caches reads
with a query client. This project models the client's decision and
record-building rules and proves properties of them:

- **Query layer** (`Queries`):
  - what each read returns, with and without an actor;
  - each read's key and options;
  - the client-side content-type filter;
  - the actor guard on every write;
  - the collection key each successful write invalidates.

  A `QueryClient` class records the writes that reached the backend, the
  keys it invalidated and the notifications it showed. Its invariant is that
  every invalidation belongs to a write that reached the backend, in order.
- **Reminders** (`RemindersPage`, `ReminderForm`):
  - the upcoming / overdue / completed buckets, which are proved to
    partition the fetched list;
  - completion toggling;
  - the record the form builds, including the JavaScript `||` fallbacks on
    falsy fields;
  - the form's prefill and reset.
- **Saved content and bookmarks** (`SavedContentPage`, `SavedContentForm`,
  `BookmarksPage`, `BookmarkForm`):
  - the per-page type filter;
  - the link/text tab choice;
  - the items each form submits;
  - unchanged-edit round trips.
- **Ideas** (`IdeasPage`, `IdeaForm`): create/update dispatch and prefill.
- **Business card editor** (`BusinessCardPage`): the `isEditing` / `formData`
  state machine and the editor's view selection.
- **Public card page, app shell and URL helpers** (`PublicCardPage`,
  `AppShell`, `UrlParams`):
  - principal extraction from a `/card/<id>` path;
  - the loading / not-found / display choice;
  - the top-level view chain and when the profile-setup dialog opens.
- **Shared pieces**:
  - `ListDialog`: the list pages' open/edit state, the loading / empty /
    list choice, and the confirm-gated delete;
  - `Seqs`: `filter` and `startsWith`, with lemmas on membership, order
    (subsequence) and multiplicity;
  - `Wrappers`: `Option`, and `Settled`, a promise's outcome;
  - `Backend`: the backend's record types.

Everything outside the client is an input:
- the outcome of every backend call;
- the clock (`Date.now()` in milliseconds);
- `crypto.randomUUID` (a fresh id);
- `Principal.fromText`, as a partial function;
- `new Date(s).getTime()`, as a partial parser;
- the date/time formatting of a due timestamp;
- the answer to `confirm(...)`.

A JavaScript value that may be `null` or `undefined` is an `Option`. Timestamps
are unbounded integers of nanoseconds.

`getPrincipalFromUrl` matches `^\/card\/(.+)$`. In a JavaScript regular
expression `.` matches no line terminator (`\n`, `\r`, U+2028, U+2029), so a
remainder after `/card/` that contains one makes the function return null.

## Model

| member | source | states |
|---|---|---|
| Seqs.Filter | src/frontend/src/hooks/useQueries.ts:104 | `filter` keeps exactly the elements of the input that satisfy the predicate: no more than the input, only satisfying ones |
| Seqs.FilterIsSubsequence | src/frontend/src/pages/RemindersPage.tsx:21-23 | a filter keeps the order of the input (its result is a subsequence) |
| Seqs.FilterMultiset | src/frontend/src/pages/RemindersPage.tsx:21-23 | a filter keeps each satisfying element exactly as often as it occurs and drops the rest |
| Seqs.FilterSplit | src/frontend/src/hooks/useQueries.ts:104 | two complementary filters split a list: lengths and multisets add up to the list's |
| Seqs.FilterPartition | src/frontend/src/pages/RemindersPage.tsx:21-23 | three pairwise exclusive, jointly exhaustive filters split a list: lengths and multisets add up |
| Queries.CollectionNameInjective | src/frontend/src/hooks/useQueries.ts:12 | the five key names ("currentUserProfile" here and the names at lines 52, 99, 174, 245) are pairwise different |
| Queries.ReadKeyHead | src/frontend/src/hooks/useQueries.ts:65 | every read key, the per-principal card key here and the filtered saved-content key at line 99 included, begins with its collection's name |
| Queries.NoRetryReads | src/frontend/src/hooks/useQueries.ts:70-71 | exactly the public-card read and the profile read (line 18) switch retrying off |
| Queries.EnabledNeedsActor | src/frontend/src/hooks/useQueries.ts:70 | no read is enabled without an actor (as at lines 17, 57, 108, 179, 250), and the public-card read is disabled without a principal |
| Queries.SavedContentQueryFn | src/frontend/src/hooks/useQueries.ts:100-107 | no actor gives `[]`; a failed fetch or no filter passes the backend's answer on unchanged; with a filter the result holds exactly the fetched items of that type |
| Queries.ReadsWithoutActor | src/frontend/src/hooks/useQueries.ts:13-16 | without an actor the profile read rejects with "Actor not available" and the card, public-card, saved-content, ideas and reminders reads (lines 54, 67, 101, 176, 247) yield null or `[]` |
| Queries.ReadsWithActor | src/frontend/src/hooks/useQueries.ts:100-106 | with an actor (and a principal) every read passes the backend's answer on, failures included; an unfiltered saved-content read returns the list unchanged |
| Queries.CardByPrincipalWithoutPrincipal | src/frontend/src/hooks/useQueries.ts:67 | a null principal yields null without asking the backend |
| Queries.SavedContentFilterExact | src/frontend/src/hooks/useQueries.ts:103-105 | the filtered read is exactly the fetched items of the type: in fetched order, each as often as fetched, no others |
| Queries.OfTypeSplits | src/frontend/src/backend.d.ts:41-44 | the two content types split the saved content: every item is in exactly one of the bookmark and general filters |
| Queries.ProfileHookStatus | src/frontend/src/hooks/useQueries.ts:21-25 | the profile hook reports loading whenever the actor is being fetched, otherwise the query's loading; reports fetched exactly when there is an actor and the query fetched |
| Queries.InvalidationReachesExactly | src/frontend/src/hooks/useQueries.ts:121-123 | each write invalidates the one key made of its collection's name (as at lines 38, 85, 141, 160, 193, 212, 231, 264, 283, 302), and that key reaches a read if and only if the read is of the same collection |
| Queries.WritesWithoutActor | src/frontend/src/hooks/useQueries.ts:33-36 | without an actor every write rejects with "Actor not available" (the same guard at lines 81, 118, 137, 156, 189, 208, 227, 260, 279, 298) |
| Queries.QueryClient.constructor | src/frontend/src/hooks/useQueries.ts:30 | a fresh client has no calls, invalidations or notices and satisfies its invariant |
| Queries.CollectionName | src/frontend/src/hooks/useQueries.ts:12 | definition of the five key names (also lines 52, 99, 174, 245); stated by `Queries.CollectionNameInjective` and `Queries.ReadKeyHead` |
| Queries.TypeIs | src/frontend/src/hooks/useQueries.ts:104 | definition of `item.contentType === filterType` (also the page filters at src/frontend/src/pages/SavedContentPage.tsx:18 and BookmarksPage.tsx:18); stated by `Queries.SavedContentFilterExact` and `Queries.OfTypeSplits` |
| Queries.OfType | src/frontend/src/hooks/useQueries.ts:104 | definition of the content-type filter (also SavedContentPage.tsx:18 and BookmarksPage.tsx:18); stated by `Queries.SavedContentFilterExact` and `Queries.OfTypeSplits` |
| Queries.ProfileQueryFn | src/frontend/src/hooks/useQueries.ts:13-16 | definition; stated by `Queries.ReadsWithoutActor` and `Queries.ReadsWithActor` |
| Queries.CardQueryFn | src/frontend/src/hooks/useQueries.ts:53-56 | definition; stated by `Queries.ReadsWithoutActor` and `Queries.ReadsWithActor` |
| Queries.CardByPrincipalQueryFn | src/frontend/src/hooks/useQueries.ts:66-69 | definition; stated by `Queries.CardByPrincipalWithoutPrincipal`, `Queries.ReadsWithoutActor` and `Queries.ReadsWithActor` |
| Queries.IdeasQueryFn | src/frontend/src/hooks/useQueries.ts:175-178 | definition; stated by `Queries.ReadsWithoutActor` and `Queries.ReadsWithActor` |
| Queries.RemindersQueryFn | src/frontend/src/hooks/useQueries.ts:246-249 | definition; stated by `Queries.ReadsWithoutActor` and `Queries.ReadsWithActor` |
| Queries.ReadKey | src/frontend/src/hooks/useQueries.ts:64-65 | definition of every read's key (also lines 12, 52, 99, 174, 245); stated by `Queries.ReadKeyHead` and `Queries.InvalidationReachesExactly` |
| Queries.Options | src/frontend/src/hooks/useQueries.ts:64-72 | definition of every read's `enabled` and `retry` (also lines 17-18, 57, 108, 179, 250); stated by `Queries.NoRetryReads` and `Queries.EnabledNeedsActor` |
| Queries.InvalidationKey | src/frontend/src/hooks/useQueries.ts:37-38 | definition of each write's invalidation key (also lines 85, 122, 141, 160, 193, 212, 231, 264, 283, 302); stated by `Queries.InvalidationReachesExactly` |
| Queries.MutationFn | src/frontend/src/hooks/useQueries.ts:33-36 | definition of the write guard shared by all eleven `mutationFn`s; stated by `Queries.WritesWithoutActor` and `Queries.QueryClient.Mutate` |
| Queries.KeysOf | src/frontend/src/hooks/useQueries.ts:121-123 | definition of the invalidation-key log; stated by `Queries.QueryClient.Valid`, kept by `Queries.QueryClient.Mutate` |
| Queries.QueryClient.Valid | src/frontend/src/hooks/useQueries.ts:121-123 | invariant: the invalidated keys are a subsequence of the keys of the writes that reached the backend; kept by `Queries.QueryClient.Mutate` |
| Queries.QueryClient.MutatedBy | src/frontend/src/hooks/useQueries.ts:32-44 | definition of a write's effect on the client; promised by `Queries.QueryClient.Mutate` |
| Queries.QueryClient.Mutate | src/frontend/src/hooks/useQueries.ts:32-44 | a write reaches the backend only with an actor; only a resolved write invalidates its key and shows a success notice; a rejected one shows only an error notice with its message; the invariant is kept |
| ListDialog.DataOrEmpty | src/frontend/src/pages/RemindersPage.tsx:14 | definition of the `data: x = []` default (also SavedContentPage.tsx:13, BookmarksPage.tsx:13, IdeasPage.tsx:12); stated by `RemindersPage.SelectView`, `SavedContentPage.SelectView`, `BookmarksPage.SelectView` and `IdeasPage.SelectView` |
| ListDialog.DialogState.constructor | src/frontend/src/pages/RemindersPage.tsx:17-18 | a list page starts with the form closed and nothing being edited |
| ListDialog.DialogState.HandleEdit | src/frontend/src/pages/RemindersPage.tsx:32-35 | edit opens the form on that item (likewise on the other three list pages) |
| ListDialog.DialogState.HandleFormClose | src/frontend/src/pages/RemindersPage.tsx:43-46 | close shuts the form and forgets the edited item |
| ListDialog.DialogState.HandleAdd | src/frontend/src/pages/RemindersPage.tsx:134 | "Add" opens the form and leaves the edited item as it is |
| ListDialog.SelectListView | src/frontend/src/pages/IdeasPage.tsx:38-75 | skeleton exactly while loading; empty state exactly when not loading and nothing is shown; otherwise exactly the shown items |
| ListDialog.ConfirmedDelete | src/frontend/src/pages/RemindersPage.tsx:37-41 | the delete is sent exactly when confirmed; a declined confirmation changes nothing |
| Backend.HasDueDate | src/frontend/src/pages/RemindersPage.tsx:21-22 | definition of the truthiness test on a due date (also src/frontend/src/components/reminders/ReminderForm.tsx:26); stated by `RemindersPage.BucketMembership`, `RemindersPage.DueBoundary` and `ReminderForm.ZeroDueDateDropped` |
| RemindersPage.NowNanos | src/frontend/src/pages/RemindersPage.tsx:20 | definition: the clock's milliseconds times 1000000 |
| RemindersPage.IsUpcoming | src/frontend/src/pages/RemindersPage.tsx:21 | definition; stated by `RemindersPage.ExactlyOneBucket`, `RemindersPage.BucketMembership` and `RemindersPage.DueBoundary` |
| RemindersPage.IsOverdue | src/frontend/src/pages/RemindersPage.tsx:22 | definition; stated by `RemindersPage.ExactlyOneBucket`, `RemindersPage.BucketMembership` and `RemindersPage.DueBoundary` |
| RemindersPage.IsCompleted | src/frontend/src/pages/RemindersPage.tsx:23 | definition; stated by `RemindersPage.ExactlyOneBucket` and `RemindersPage.BucketMembership` |
| RemindersPage.Upcoming | src/frontend/src/pages/RemindersPage.tsx:21 | definition; stated by `RemindersPage.BucketsPartition` and `RemindersPage.BucketMembership` |
| RemindersPage.Overdue | src/frontend/src/pages/RemindersPage.tsx:22 | definition; stated by `RemindersPage.BucketsPartition` and `RemindersPage.BucketMembership` |
| RemindersPage.Completed | src/frontend/src/pages/RemindersPage.tsx:23 | definition; stated by `RemindersPage.BucketsPartition` and `RemindersPage.BucketMembership` |
| RemindersPage.ExactlyOneBucket | src/frontend/src/pages/RemindersPage.tsx:21-23 | every reminder is in exactly one of upcoming, overdue, completed |
| RemindersPage.BucketsPartition | src/frontend/src/pages/RemindersPage.tsx:21-23 | the three buckets' counts add up to the list's length, together they hold each reminder as often as fetched, and each keeps the fetched order |
| RemindersPage.BucketMembership | src/frontend/src/pages/RemindersPage.tsx:21-23 | completed is exactly the completed reminders; overdue is exactly the open ones with a truthy due date at or before now; upcoming is exactly the open ones with no, zero or later due date |
| RemindersPage.DueBoundary | src/frontend/src/pages/RemindersPage.tsx:21-22 | a reminder due exactly now is overdue, not upcoming; a due date of 0 counts as none |
| RemindersPage.ToggleRequest | src/frontend/src/pages/RemindersPage.tsx:25-30 | toggling sends an update with the same id and a record equal to the original except for the negated `completed` |
| RemindersPage.ToggleInvolution | src/frontend/src/pages/RemindersPage.tsx:25-30 | toggling the record a toggle sent restores the original |
| RemindersPage.HandleToggleComplete | src/frontend/src/pages/RemindersPage.tsx:25-30 | the toggle request is run as a write on the client |
| RemindersPage.HandleDelete | src/frontend/src/pages/RemindersPage.tsx:37-41 | delete of that id only when confirmed; nothing changes otherwise |
| RemindersPage.SelectView | src/frontend/src/pages/RemindersPage.tsx:104-176 | skeleton while loading; empty state exactly when the list is empty; otherwise the three buckets against now, whose counts add up to the list's length |
| ReminderForm.PrefillFields | src/frontend/src/components/reminders/ReminderForm.tsx:23-39 | no edited reminder clears all three fields; an edited one gives its content, and its formatted date and time only when its due date is truthy |
| ReminderForm.DueTimestamp | src/frontend/src/components/reminders/ReminderForm.tsx:44-48 | no due date exactly when the date field is empty; an invalid date is an error; otherwise the parsed milliseconds times 1000000 |
| ReminderForm.DateTimeString | src/frontend/src/components/reminders/ReminderForm.tsx:46 | definition; stated by `ReminderForm.DueDateRules` (an empty time means midnight) |
| ReminderForm.BuildReminder | src/frontend/src/components/reminders/ReminderForm.tsx:50-56 | definition; stated by `ReminderForm.EditKeepsIdentity`, `ReminderForm.FalsyFieldsReplaced` and `ReminderForm.NewReminderDefaults` |
| ReminderForm.SubmitMutation | src/frontend/src/components/reminders/ReminderForm.tsx:58-62 | definition; stated by `ReminderForm.EditKeepsIdentity` and `ReminderForm.NewReminderDefaults` |
| ReminderForm.Submission | src/frontend/src/components/reminders/ReminderForm.tsx:44-62 | definition; stated by `ReminderForm.DueDateRules`, `ReminderForm.ContentVerbatim`, `ReminderForm.UnchangedEditRoundTrip` and `ReminderForm.ZeroDueDateDropped` |
| ReminderForm.EditKeepsIdentity | src/frontend/src/components/reminders/ReminderForm.tsx:50-59 | an edit keeps the reminder's `completed`, its truthy id and its truthy `createdAt`, and is sent as an update keyed by the edited id |
| ReminderForm.FalsyFieldsReplaced | src/frontend/src/components/reminders/ReminderForm.tsx:51-55 | an edited reminder's empty id is replaced by a fresh one (the update key stays empty) and its zero `createdAt` by now |
| ReminderForm.NewReminderDefaults | src/frontend/src/components/reminders/ReminderForm.tsx:50-61 | a new reminder has a fresh id, is not completed, is created now, and is sent as a create |
| ReminderForm.DueDateRules | src/frontend/src/components/reminders/ReminderForm.tsx:44-48 | an empty date field gives no due date whatever the time field holds; a parsable date gives one; with an empty time field the date is parsed at `<date>T00:00`, the same submission as entering 00:00 |
| ReminderForm.ContentVerbatim | src/frontend/src/components/reminders/ReminderForm.tsx:52 | the content field is sent verbatim |
| ReminderForm.UnchangedEditRoundTrip | src/frontend/src/components/reminders/ReminderForm.tsx:23-56 | opening a reminder with a truthy id and `createdAt` and saving it unchanged sends the same reminder back, when formatting and parsing of its due date agree |
| ReminderForm.ZeroDueDateDropped | src/frontend/src/components/reminders/ReminderForm.tsx:26-53 | a due date of 0 is not prefilled, so saving drops it |
| ReminderForm.Form.constructor | src/frontend/src/components/reminders/ReminderForm.tsx:19-21 | the three fields start empty |
| ReminderForm.Form.Prefill | src/frontend/src/components/reminders/ReminderForm.tsx:23-39 | the effect sets the fields to the prefill/reset values |
| ReminderForm.Form.HandleSubmit | src/frontend/src/components/reminders/ReminderForm.tsx:41-65 | an invalid date sends nothing and keeps the dialog open; otherwise the submission is run as a write and the dialog closes exactly when it resolved |
| SavedContentForm.PrefillFields | src/frontend/src/components/content/SavedContentForm.tsx:26-42 | no item resets title, URL and text and selects the link tab; an item gives its title and puts "http…" content in the URL field on the link tab and other content in the text field on the text tab, the other field kept |
| SavedContentForm.BuildItem | src/frontend/src/components/content/SavedContentForm.tsx:46-51 | definition; stated by `SavedContentForm.SubmitRules` and `SavedContentForm.UnchangedEditRoundTrip` |
| SavedContentForm.SubmitMutation | src/frontend/src/components/content/SavedContentForm.tsx:53-57 | definition; stated by `SavedContentForm.SubmitRules` and `SavedContentForm.UnchangedEditRoundTrip` |
| SavedContentForm.SubmitRules | src/frontend/src/components/content/SavedContentForm.tsx:46-57 | the item is always general, has the title as `linkTitle` and the active tab's field as content (the other field does not matter), keeps a truthy edited id; an update keyed by the edited id, else a create with a fresh id |
| SavedContentForm.UnchangedEditRoundTrip | src/frontend/src/components/content/SavedContentForm.tsx:26-57 | opening a general item with a non-empty id and saving it unchanged sends it back as it was |
| SavedContentForm.Form.constructor | src/frontend/src/components/content/SavedContentForm.tsx:21-24 | link tab, empty title, URL and text |
| SavedContentForm.Form.Prefill | src/frontend/src/components/content/SavedContentForm.tsx:26-42 | the effect sets the state to the prefill values |
| SavedContentForm.Form.SelectTab | src/frontend/src/components/content/SavedContentForm.tsx:69 | switching tabs changes only the active tab |
| SavedContentForm.Form.HandleSubmit | src/frontend/src/components/content/SavedContentForm.tsx:44-60 | the submission is run as a write; the dialog closes exactly when it resolved |
| BookmarkForm.PrefillFields | src/frontend/src/components/content/BookmarkForm.tsx:22-30 | definition (title and URL from the bookmark's `linkTitle` and content, or both empty): the state `BookmarkForm.Form.Prefill` sets; stated by `BookmarkForm.UnchangedEditRoundTrip` |
| BookmarkForm.BuildItem | src/frontend/src/components/content/BookmarkForm.tsx:34-39 | definition; stated by `BookmarkForm.SubmitRules` and `BookmarkForm.UnchangedEditRoundTrip` |
| BookmarkForm.SubmitMutation | src/frontend/src/components/content/BookmarkForm.tsx:41-45 | definition; stated by `BookmarkForm.SubmitRules` and `BookmarkForm.UnchangedEditRoundTrip` |
| BookmarkForm.SubmitRules | src/frontend/src/components/content/BookmarkForm.tsx:34-45 | always a bookmark with the URL as content and the title as `linkTitle`; an update keyed by the edited id (keeping a truthy id), else a create with a fresh id |
| BookmarkForm.UnchangedEditRoundTrip | src/frontend/src/components/content/BookmarkForm.tsx:22-45 | opening a bookmark with a non-empty id and saving it unchanged sends it back as it was |
| BookmarkForm.Form.constructor | src/frontend/src/components/content/BookmarkForm.tsx:19-20 | empty title and URL |
| BookmarkForm.Form.Prefill | src/frontend/src/components/content/BookmarkForm.tsx:22-30 | the effect sets the fields to the prefill values |
| BookmarkForm.Form.HandleSubmit | src/frontend/src/components/content/BookmarkForm.tsx:32-48 | the submission is run as a write; the dialog closes exactly when it resolved |
| IdeaForm.PrefillContent | src/frontend/src/components/ideas/IdeaForm.tsx:20-26 | definition (the idea's content, or empty): the state `IdeaForm.Form.Prefill` sets; stated by `IdeaForm.UnchangedEditRoundTrip` |
| IdeaForm.SubmitMutation | src/frontend/src/components/ideas/IdeaForm.tsx:31-35 | `updateIdea` with the edited id exactly when editing, else `createIdea` with a fresh id; the content is the field's |
| IdeaForm.UnchangedEditRoundTrip | src/frontend/src/components/ideas/IdeaForm.tsx:20-35 | opening an idea and saving it unchanged rewrites its content under its id |
| IdeaForm.Form.constructor | src/frontend/src/components/ideas/IdeaForm.tsx:18 | the content starts empty |
| IdeaForm.Form.Prefill | src/frontend/src/components/ideas/IdeaForm.tsx:20-26 | content from the edited idea, or empty |
| IdeaForm.Form.HandleSubmit | src/frontend/src/components/ideas/IdeaForm.tsx:28-38 | the write is run; the dialog closes exactly when it resolved |
| SavedContentPage.PageFilterMatchesQueryFilter | src/frontend/src/pages/SavedContentPage.tsx:13-18 | the page's unfiltered read returns the whole list, and filtering it on the page equals the query's general filter |
| SavedContentPage.Shown | src/frontend/src/pages/SavedContentPage.tsx:18 | definition; stated by `SavedContentPage.PageFilterMatchesQueryFilter` and `SavedContentPage.SelectView` |
| SavedContentPage.ShowsOpenLink | src/frontend/src/pages/SavedContentPage.tsx:111 | definition; stated by `SavedContentPage.OpenLinkMatchesFormTab` |
| SavedContentPage.SelectView | src/frontend/src/pages/SavedContentPage.tsx:36-77 | skeleton while loading; the empty state exactly when no fetched item is general, bookmarks notwithstanding; otherwise only general items, in order, each as often as fetched |
| SavedContentPage.DisplayTitle | src/frontend/src/pages/SavedContentPage.tsx:85 | the shown title is the link title when it is non-empty and "Untitled" when it is empty, so it is never empty |
| SavedContentPage.OpenLinkMatchesFormTab | src/frontend/src/pages/SavedContentPage.tsx:111 | "Open Link" is shown exactly for the items the form reopens on the link tab (content starting with "http") |
| SavedContentPage.HandleDelete | src/frontend/src/pages/SavedContentPage.tsx:25-29 | delete of that id only when confirmed; nothing changes otherwise |
| BookmarksPage.PageFilterMatchesQueryFilter | src/frontend/src/pages/BookmarksPage.tsx:13-18 | filtering on the page equals the query's bookmark filter |
| BookmarksPage.Shown | src/frontend/src/pages/BookmarksPage.tsx:18 | definition; stated by `BookmarksPage.PageFilterMatchesQueryFilter` and `BookmarksPage.SelectView` |
| BookmarksPage.SelectView | src/frontend/src/pages/BookmarksPage.tsx:36-77 | skeleton while loading; the empty state exactly when no fetched item is a bookmark; otherwise only bookmarks, in order, each as often as fetched |
| BookmarksPage.HandleDelete | src/frontend/src/pages/BookmarksPage.tsx:25-29 | delete of that id only when confirmed; nothing changes otherwise |
| IdeasPage.SelectView | src/frontend/src/pages/IdeasPage.tsx:38-75 | skeleton while loading; the empty state exactly when there are no ideas; otherwise all ideas in fetched order |
| IdeasPage.HandleDelete | src/frontend/src/pages/IdeasPage.tsx:22-26 | delete of that id only when confirmed; nothing changes otherwise |
| BusinessCardPage.FieldOf | src/frontend/src/pages/BusinessCardPage.tsx:88-139 | definition of reading one of the six fields; stated by `BusinessCardPage.WithFieldOnlyThatField` and `BusinessCardPage.VisibleFields` |
| BusinessCardPage.WithField | src/frontend/src/pages/BusinessCardPage.tsx:88-139 | definition of `{ ...formData, <field>: value }`; stated by `BusinessCardPage.WithFieldOnlyThatField` and `BusinessCardPage.CardEditor.SetField` |
| BusinessCardPage.WithFieldOnlyThatField | src/frontend/src/pages/BusinessCardPage.tsx:88-139 | a field edit changes exactly that field |
| BusinessCardPage.VisibleFields | src/frontend/src/pages/BusinessCardPage.tsx:187-215 | name and title always shown, first; phone, email, website and bio exactly when non-empty; each field at most once, in the fixed order name, title, phone, email, website, bio |
| BusinessCardPage.CardEditor.constructor | src/frontend/src/pages/BusinessCardPage.tsx:16-24 | not editing, all six fields empty |
| BusinessCardPage.CardEditor.SyncFromFetched | src/frontend/src/pages/BusinessCardPage.tsx:26-30 | a fetched card replaces the form data; no card leaves it |
| BusinessCardPage.CardEditor.StartEditing | src/frontend/src/pages/BusinessCardPage.tsx:180 | enters editing with the form data unchanged (also the create button at line 67) |
| BusinessCardPage.CardEditor.SetField | src/frontend/src/pages/BusinessCardPage.tsx:88-139 | the field takes the typed value and the other five stay |
| BusinessCardPage.CardEditor.HandleCancel | src/frontend/src/pages/BusinessCardPage.tsx:37-42 | back to the fetched card if any, and out of editing |
| BusinessCardPage.CardEditor.HandleSave | src/frontend/src/pages/BusinessCardPage.tsx:32-35 | the form data is saved; editing ends only when the save resolved |
| BusinessCardPage.SelectView | src/frontend/src/pages/BusinessCardPage.tsx:44-175 | skeleton, then no-card-yet, then the form, then the display, each under exactly its condition; the Save and Cancel buttons are disabled exactly while a save is pending (lines 148, 157); the inputs stay enabled |
| PublicCardPage.ParsePrincipal | src/frontend/src/pages/PublicBusinessCardPage.tsx:13-20 | a principal only from a non-empty string the parser accepts; an unparsable one gives null |
| PublicCardPage.SelectView | src/frontend/src/pages/PublicBusinessCardPage.tsx:24-68 | loading first; not found exactly when the read failed, the principal is null or no card came back; otherwise the card with its non-empty optional fields |
| PublicCardPage.PageView | src/frontend/src/pages/PublicBusinessCardPage.tsx:11-68 | definition of the page end to end; stated by `PublicCardPage.GarbagePrincipalNotFound` and `PublicCardPage.DisplayedCardIsFetched` |
| PublicCardPage.GarbagePrincipalNotFound | src/frontend/src/pages/PublicBusinessCardPage.tsx:11-48 | a path without a parsable principal renders "not found" once loading is over |
| PublicCardPage.DisplayedCardIsFetched | src/frontend/src/pages/PublicBusinessCardPage.tsx:11-68 | a shown card comes from a public card route, a parsed principal and an actor, and is the backend's card for that principal |
| PublicCardPage.AdaLovelaceExample | src/frontend/src/pages/PublicBusinessCardPage.tsx:84-116 | a card with only name and title shows just those two |
| AppShell.IsAuthenticated | src/frontend/src/App.tsx:15 | definition; stated by `AppShell.SelectView` and `AppShell.AnonymousIsSignedOut` |
| AppShell.ShowProfileSetup | src/frontend/src/App.tsx:52 | definition; stated by `AppShell.SelectView`, `AppShell.ProfileSetupOnlyInMainLayout` and `AppShell.ProfileSetupNeedsActor` |
| AppShell.SelectView | src/frontend/src/App.tsx:15-60 | public card route first, then initializing, then sign-in when not authenticated, then the main layout, each exactly under its condition; the dialog overlay exactly when not loading, fetched and the profile is null |
| AppShell.ProfileSetupOnlyInMainLayout | src/frontend/src/App.tsx:52-57 | the profile-setup dialog appears only over the main layout, and always when its condition holds there |
| AppShell.ProfileSetupNeedsActor | src/frontend/src/App.tsx:13-52 | fed by the profile hook, the dialog needs an actor that finished loading and a fetched null profile |
| AppShell.AnonymousIsSignedOut | src/frontend/src/App.tsx:15 | an anonymous identity gets the sign-in page |
| UrlParams.IsPublicCardRoute | src/frontend/src/utils/urlParams.ts:10-12 | definition; stated by `UrlParams.PrincipalOnlyOnCardRoute`, `UrlParams.RouteExamples` and `AppShell.SelectView` |
| UrlParams.GetSecretParameter | src/frontend/src/utils/urlParams.ts:6-8 | definition; stated by `UrlParams.SecretParameterIsUrlParam` |
| UrlParams.PrincipalFromUrl | src/frontend/src/utils/urlParams.ts:14-17 | a principal exactly for a public card route with a non-empty, line-terminator-free remainder, and then it is that remainder |
| UrlParams.PrincipalOnlyOnCardRoute | src/frontend/src/utils/urlParams.ts:10-16 | a principal implies a public card route |
| UrlParams.RouteExamples | src/frontend/src/utils/urlParams.ts:10-17 | "/card/" is public without a principal; "/card" and "/cards/x" are neither; "/card/abc/def" gives "abc/def" |
| UrlParams.GetUrlParam | src/frontend/src/utils/urlParams.ts:1-4 | a value exactly when some pair has the name, and then the value of the first such pair |
| UrlParams.SecretParameterIsUrlParam | src/frontend/src/utils/urlParams.ts:6-8 | `getSecretParameter` always agrees with `getUrlParam` |

## Left out

- The remote backend: its persistence and semantics are not part of this
  model. Every call's outcome is an input, and no read-after-write property
  is claimed.
- `getBusinessCardByPrincipal`: src/frontend/src/hooks/useQueries.ts:68 calls
  it, but the interface in src/frontend/src/backend.d.ts:50-74 does not
  declare it. It is modelled as a backend function of the principal.
- react-query internals: caching, retry scheduling, in-flight concurrency and
  the `isLoading` / `isError` / `isPending` flags. The flags are inputs. Only
  the key-prefix match that invalidation applies is modelled (`KeyMatches`).
- Queries.QueryClient.Mutate: the toast texts are not modelled. A notice
  records only success (with the write) or failure (with the error message).
- RemindersPage.NowNanos, ReminderForm.BuildReminder, ReminderForm.DueTimestamp:
  `Date.now() * 1000000` (the reminders page's "now" and a new reminder's
  `createdAt`) and `getTime() * 1000000` (the due date) are computed in
  floating point above 2^53 in the source. The model uses the exact
  products, so it ignores a rounding of well under a microsecond.
- ReminderForm.PrefillFields: the date and time formatting are parameters. The
  prefill takes its date from `toISOString` (the UTC date) and its time from
  `toTimeString().slice(0, 5)` (the local hours and minutes), and submit
  parses `<date>T<time>` as local time. So an unchanged edit keeps the time
  of day, but its date comes back one day off when the local date and the UTC
  date of the due moment differ, and the due date's seconds and milliseconds
  are dropped. ReminderForm.UnchangedEditRoundTrip requires formatting and
  parsing to agree on the due date, which covers the case where the local
  and UTC dates agree and the due date is on a whole minute.
- ReminderForm.DueTimestamp: `new Date(...)` parsing is a parameter, since it
  depends on time zone and locale; `toLocaleDateString` display is left out.
- Browser form validation (`required`, `type="url"`) and Save buttons that are
  disabled while pending are not modelled on the forms. Their `HandleSubmit`
  methods model the handler once the browser lets the form submit.
- `crypto.randomUUID`, `Principal.fromText`, `URLSearchParams` decoding and
  `window.confirm` are inputs. No uniqueness is claimed for generated ids.
  `GetUrlParam` works on the already decoded name/value pairs.
- Rendering: markup, CSS, animation, `ThemeProvider` and the identity
  provider's login flow.
- The bookmark card's rendering (its title shown as stored, and a link to its
  content for every bookmark): markup only, no decision beyond the filter.
- `ShareCardDialog`: clipboard I/O and a timer.
- `SignInPage`, `Header`, `BottomNav`, `AppLayout` and `EmptyState`:
  presentational, static lookups only.
- `ProfileSetupDialog`: a single form whose only logic is a `trim()` check;
  it is not part of this model.
- `UserRole` and the role, admin and single-record read calls of the backend
  interface: the client never uses them.
