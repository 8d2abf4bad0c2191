/** The reminder dialog (src/frontend/src/components/reminders/ReminderForm.tsx):
    its prefill/reset effect, and the record its submit builds and sends. */
module ReminderForm {
  import opened Wrappers
  import opened Backend
  import Queries

  /** The dialog's three inputs. */
  datatype Fields = Fields(content: string, dueDate: string, dueTime: string)

  /** The effect on `editingReminder` / `isOpen`. `dateText` and `timeText`
      stand for the date and time formatting of a due timestamp
      (`toISOString().split('T')[0]`, `toTimeString().slice(0, 5)`). */
  function PrefillFields(editing: Option<Reminder>, dateText: Time -> string, timeText: Time -> string): (f: Fields)
    ensures editing.None? ==> f == Fields("", "", "")
    ensures editing.Some? ==> f.content == editing.value.content
    ensures editing.Some? && !HasDueDate(editing.value) ==> f.dueDate == "" && f.dueTime == ""
    ensures editing.Some? && HasDueDate(editing.value) ==>
              f.dueDate == dateText(editing.value.dueDate.value) && f.dueTime == timeText(editing.value.dueDate.value)
  {
    match editing
    case None => Fields("", "", "")
    case Some(e) =>
      if HasDueDate(e) then Fields(e.content, dateText(e.dueDate.value), timeText(e.dueDate.value))
      else Fields(e.content, "", "")
  }

  /** The string handed to `new Date(...)`: the date, "T", and the time or
      midnight when no time was entered. */
  function DateTimeString(dueDate: string, dueTime: string): string {
    dueDate + "T" + (if dueTime != "" then dueTime else "00:00")
  }

  datatype Due = NoDue | DueAt(nanos: Time) | InvalidDate

  /** `dueDateTimestamp`. `parseLocal` stands for `new Date(s).getTime()`,
      with `None` for an invalid date, on which `BigInt(NaN)` throws. */
  function DueTimestamp(dueDate: string, dueTime: string, parseLocal: string -> Option<int>): (d: Due)
    ensures d.NoDue? <==> dueDate == ""
    ensures dueDate != "" ==> var ms := parseLocal(DateTimeString(dueDate, dueTime));
              (d.InvalidDate? <==> ms.None?) && (d.DueAt? ==> d.nanos == ms.value * NanosPerMilli)
  {
    if dueDate == "" then NoDue
    else
      var ms := parseLocal(DateTimeString(dueDate, dueTime));
      if ms.None? then InvalidDate else DueAt(ms.value * NanosPerMilli)
  }

  /** The submitted record. Each carried-over field uses `||`, so an empty id
      or a zero `createdAt` of the edited reminder is replaced as for a new one. */
  function BuildReminder(editing: Option<Reminder>, content: string, dueDate: Option<Time>,
                         freshId: string, nowMillis: int): Reminder
  {
    Reminder(
      if editing.Some? && editing.value.id != "" then editing.value.id else freshId,
      content,
      if editing.Some? && editing.value.createdAt != 0 then editing.value.createdAt else nowMillis * NanosPerMilli,
      editing.Some? && editing.value.completed,
      dueDate)
  }

  /** Update keyed by the edited reminder's id, or create. */
  function SubmitMutation(editing: Option<Reminder>, record: Reminder): Queries.Mutation {
    if editing.Some? then Queries.UpdateReminder(editing.value.id, record) else Queries.CreateReminder(record)
  }

  /** What `handleSubmit` sends for the given inputs; nothing when the date
      does not parse. */
  function Submission(editing: Option<Reminder>, f: Fields, freshId: string, nowMillis: int,
                      parseLocal: string -> Option<int>): Option<Queries.Mutation>
  {
    match DueTimestamp(f.dueDate, f.dueTime, parseLocal)
    case InvalidDate => None
    case NoDue => Some(SubmitMutation(editing, BuildReminder(editing, f.content, None, freshId, nowMillis)))
    case DueAt(t) => Some(SubmitMutation(editing, BuildReminder(editing, f.content, Some(t), freshId, nowMillis)))
  }

  /** Editing keeps the edited reminder's id, `completed` and `createdAt` when
      they are truthy, and always sends an update keyed by the edited id. */
  lemma EditKeepsIdentity(e: Reminder, content: string, due: Option<Time>, freshId: string, nowMillis: int)
    ensures var r := BuildReminder(Some(e), content, due, freshId, nowMillis);
            && r.completed == e.completed
            && (e.id != "" ==> r.id == e.id)
            && (e.createdAt != 0 ==> r.createdAt == e.createdAt)
            && SubmitMutation(Some(e), r) == Queries.UpdateReminder(e.id, r)
  {
  }

  /** The `||` fallback: an edited reminder with an empty id or a zero
      `createdAt` gets a fresh id or the current time, while the update is
      still keyed by the old (empty) id. */
  lemma FalsyFieldsReplaced(e: Reminder, content: string, due: Option<Time>, freshId: string, nowMillis: int)
    requires e.id == "" || e.createdAt == 0
    ensures var r := BuildReminder(Some(e), content, due, freshId, nowMillis);
            && (e.id == "" ==> r.id == freshId && SubmitMutation(Some(e), r).id == "")
            && (e.createdAt == 0 ==> r.createdAt == nowMillis * NanosPerMilli)
  {
  }

  /** A new reminder: fresh id, not completed, created now, sent as a create. */
  lemma NewReminderDefaults(content: string, due: Option<Time>, freshId: string, nowMillis: int)
    ensures var r := BuildReminder(None, content, due, freshId, nowMillis);
            && r == Reminder(freshId, content, nowMillis * NanosPerMilli, false, due)
            && SubmitMutation(None, r) == Queries.CreateReminder(r)
  {
  }

  /** The record's due date is absent exactly when the date field is empty, and
      then the time field does not matter; an empty time field parses the date
      at "T00:00", exactly as if midnight had been entered. */
  lemma DueDateRules(editing: Option<Reminder>, f: Fields, time: string, freshId: string, nowMillis: int,
                     parseLocal: string -> Option<int>)
    ensures f.dueDate == "" ==>
              Submission(editing, f, freshId, nowMillis, parseLocal)
              == Submission(editing, f.(dueTime := time), freshId, nowMillis, parseLocal)
              == Some(SubmitMutation(editing, BuildReminder(editing, f.content, None, freshId, nowMillis)))
    ensures f.dueDate != "" && parseLocal(DateTimeString(f.dueDate, f.dueTime)).Some? ==>
              var s := Submission(editing, f, freshId, nowMillis, parseLocal);
              s.Some? && s.value.reminder.dueDate.Some?
    ensures f.dueDate != "" && f.dueTime == "" ==>
              var s, ms := Submission(editing, f, freshId, nowMillis, parseLocal), parseLocal(f.dueDate + "T00:00");
              && s == Submission(editing, f.(dueTime := "00:00"), freshId, nowMillis, parseLocal)
              && (s.Some? <==> ms.Some?)
              && (s.Some? ==> s.value.reminder.dueDate == Some(ms.value * NanosPerMilli))
  {
    if f.dueDate != "" && f.dueTime == "" {
      assert DateTimeString(f.dueDate, f.dueTime) == DateTimeString(f.dueDate, "00:00") == f.dueDate + "T00:00";
    }
  }

  /** The content field is sent verbatim, whatever else the form holds. */
  lemma ContentVerbatim(editing: Option<Reminder>, f: Fields, freshId: string, nowMillis: int,
                        parseLocal: string -> Option<int>)
    ensures var s := Submission(editing, f, freshId, nowMillis, parseLocal);
            s.Some? ==> s.value.reminder.content == f.content
  {
  }

  /** Opening an existing reminder and saving it unchanged sends the same
      reminder back, provided its id and `createdAt` are truthy, a due date of
      `0n` is not used, and the date/time formatting and the date parser agree
      on its due date (which therefore is a whole number of milliseconds). */
  lemma UnchangedEditRoundTrip(e: Reminder, dateText: Time -> string, timeText: Time -> string,
                               parseLocal: string -> Option<int>, freshId: string, nowMillis: int)
    requires e.id != "" && e.createdAt != 0 && e.dueDate != Some(0)
    requires HasDueDate(e) ==>
               var t := e.dueDate.value;
               dateText(t) != "" && t % NanosPerMilli == 0
               && parseLocal(DateTimeString(dateText(t), timeText(t))) == Some(t / NanosPerMilli)
    ensures Submission(Some(e), PrefillFields(Some(e), dateText, timeText), freshId, nowMillis, parseLocal)
            == Some(Queries.UpdateReminder(e.id, e))
  {
    if HasDueDate(e) {
      var t := e.dueDate.value;
      assert (t / NanosPerMilli) * NanosPerMilli == t;
    }
  }

  /** A reminder whose due date is `0n` comes back without one. */
  lemma ZeroDueDateDropped(e: Reminder, dateText: Time -> string, timeText: Time -> string,
                           parseLocal: string -> Option<int>, freshId: string, nowMillis: int)
    requires e.dueDate == Some(0)
    ensures var s := Submission(Some(e), PrefillFields(Some(e), dateText, timeText), freshId, nowMillis, parseLocal);
            s.Some? && s.value.reminder.dueDate == None
  {
  }

  /** The dialog's local state. */
  class Form {
    var content: string
    var dueDate: string
    var dueTime: string

    function State(): Fields
      reads this
    {
      Fields(content, dueDate, dueTime)
    }

    constructor ()
      ensures State() == Fields("", "", "")
    {
      content, dueDate, dueTime := "", "", "";
    }

    /** The prefill/reset effect, one state field at a time. */
    method Prefill(editing: Option<Reminder>, dateText: Time -> string, timeText: Time -> string)
      modifies this
      ensures State() == PrefillFields(editing, dateText, timeText)
    {
      if editing.Some? {
        var e := editing.value;
        content := e.content;
        if HasDueDate(e) {
          dueDate := dateText(e.dueDate.value);
          dueTime := timeText(e.dueDate.value);
        } else {
          dueDate := "";
          dueTime := "";
        }
      } else {
        content := "";
        dueDate := "";
        dueTime := "";
      }
    }

    /** `handleSubmit`: compute the due timestamp, build the record, await the
        create or update, and only then close (`closed`). An invalid date
        throws before anything is sent; a rejected write leaves the dialog open. */
    method HandleSubmit(editing: Option<Reminder>, freshId: string, nowMillis: int,
                        parseLocal: string -> Option<int>, client: Queries.QueryClient,
                        actorAvailable: bool, remote: Settled<()>) returns (closed: bool)
      requires client.Valid()
      modifies client
      ensures client.Valid()
      ensures var s := Submission(editing, State(), freshId, nowMillis, parseLocal);
              && (s.None? ==> !closed && unchanged(client))
              && (s.Some? ==> client.MutatedBy(s.value, actorAvailable, remote)
                              && (closed <==> Queries.MutationFn(actorAvailable, remote).Resolved?))
    {
      var dueDateTimestamp: Option<Time> := None;
      if dueDate != "" {
        var ms := parseLocal(DateTimeString(dueDate, dueTime));
        if ms.None? {
          return false;
        }
        dueDateTimestamp := Some(ms.value * NanosPerMilli);
      }
      var reminder := BuildReminder(editing, content, dueDateTimestamp, freshId, nowMillis);
      var settled := client.Mutate(SubmitMutation(editing, reminder), actorAvailable, remote);
      closed := settled.Resolved?;
    }
  }
}
