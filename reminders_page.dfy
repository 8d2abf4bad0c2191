/** The reminders page (src/frontend/src/pages/RemindersPage.tsx): the
    upcoming / overdue / completed buckets, completion toggling, delete, and
    the loading / empty / tabs choice. */
module RemindersPage {
  import opened Wrappers
  import opened Backend
  import Queries
  import Seqs
  import ListDialog

  /** `Date.now() * 1000000`, with the clock as an input. */
  function NowNanos(nowMillis: int): Time {
    nowMillis * NanosPerMilli
  }

  /** Not completed, and either no due date or one strictly after now. */
  function IsUpcoming(now: Time): Reminder -> bool {
    (r: Reminder) => !r.completed && (!HasDueDate(r) || r.dueDate.value > now)
  }

  /** Not completed, with a due date at or before now. */
  function IsOverdue(now: Time): Reminder -> bool {
    (r: Reminder) => !r.completed && HasDueDate(r) && r.dueDate.value <= now
  }

  /** Completed, whatever the due date. */
  function IsCompleted(): Reminder -> bool {
    (r: Reminder) => r.completed
  }

  function Upcoming(rs: seq<Reminder>, now: Time): seq<Reminder> { Seqs.Filter(IsUpcoming(now), rs) }
  function Overdue(rs: seq<Reminder>, now: Time): seq<Reminder> { Seqs.Filter(IsOverdue(now), rs) }
  function Completed(rs: seq<Reminder>): seq<Reminder> { Seqs.Filter(IsCompleted(), rs) }

  /** Every reminder is in exactly one bucket. */
  lemma ExactlyOneBucket(r: Reminder, now: Time)
    ensures IsUpcoming(now)(r) || IsOverdue(now)(r) || IsCompleted()(r)
    ensures !(IsUpcoming(now)(r) && IsOverdue(now)(r))
    ensures !(IsUpcoming(now)(r) && IsCompleted()(r))
    ensures !(IsOverdue(now)(r) && IsCompleted()(r))
  {
  }

  /** The three buckets partition the fetched list: their counts add up to its
      length, together they hold each reminder exactly as often as it was
      fetched, and each keeps the fetched order. */
  lemma BucketsPartition(rs: seq<Reminder>, now: Time)
    ensures |Upcoming(rs, now)| + |Overdue(rs, now)| + |Completed(rs)| == |rs|
    ensures multiset(Upcoming(rs, now)) + multiset(Overdue(rs, now)) + multiset(Completed(rs)) == multiset(rs)
    ensures Seqs.IsSubsequence(Upcoming(rs, now), rs)
    ensures Seqs.IsSubsequence(Overdue(rs, now), rs)
    ensures Seqs.IsSubsequence(Completed(rs), rs)
  {
    forall i | 0 <= i < |rs| ensures IsUpcoming(now)(rs[i]) || IsOverdue(now)(rs[i]) || IsCompleted()(rs[i]) {
      ExactlyOneBucket(rs[i], now);
    }
    Seqs.FilterPartition(IsUpcoming(now), IsOverdue(now), IsCompleted(), rs);
    Seqs.FilterIsSubsequence(IsUpcoming(now), rs);
    Seqs.FilterIsSubsequence(IsOverdue(now), rs);
    Seqs.FilterIsSubsequence(IsCompleted(), rs);
  }

  /** The completed bucket is exactly the completed reminders; the other two
      hold exactly the open ones, split by the due date. */
  lemma BucketMembership(rs: seq<Reminder>, now: Time, x: Reminder)
    ensures x in Completed(rs) <==> x in rs && x.completed
    ensures x in Overdue(rs, now) <==> x in rs && !x.completed && HasDueDate(x) && x.dueDate.value <= now
    ensures x in Upcoming(rs, now) <==> x in rs && !x.completed && (x.dueDate == None || x.dueDate == Some(0) || x.dueDate.value > now)
  {
  }

  /** A reminder due exactly now is overdue, not upcoming; one whose due date
      is `0n` counts as having none and is upcoming, however late it is. */
  lemma DueBoundary(r: Reminder, now: Time)
    requires !r.completed
    ensures r.dueDate == Some(now) && now != 0 ==> Overdue([r], now) == [r] && Upcoming([r], now) == []
    ensures r.dueDate == Some(0) ==> Upcoming([r], now) == [r] && Overdue([r], now) == []
  {
    assert [r][1..] == [];
  }

  /** `handleToggleComplete`: an update of the same id whose record differs
      from the original only in `completed`. */
  function ToggleRequest(r: Reminder): (m: Queries.Mutation)
    ensures m.UpdateReminder? && m.id == r.id
    ensures m.reminder.completed == !r.completed
    ensures m.reminder.(completed := r.completed) == r
  {
    Queries.UpdateReminder(r.id, r.(completed := !r.completed))
  }

  /** Toggling the record a toggle sent gives back the original. */
  lemma ToggleInvolution(r: Reminder)
    ensures ToggleRequest(ToggleRequest(r).reminder) == Queries.UpdateReminder(r.id, r)
  {
  }

  method HandleToggleComplete(client: Queries.QueryClient, r: Reminder, actorAvailable: bool, remote: Settled<()>)
    returns (settled: Settled<()>)
    requires client.Valid()
    modifies client
    ensures client.Valid()
    ensures client.MutatedBy(ToggleRequest(r), actorAvailable, remote)
    ensures settled == Queries.MutationFn(actorAvailable, remote)
  {
    settled := client.Mutate(ToggleRequest(r), actorAvailable, remote);
  }

  /** `handleDelete`, gated on the confirmation. */
  method HandleDelete(client: Queries.QueryClient, id: string, confirmed: bool, actorAvailable: bool, remote: Settled<()>)
    returns (r: Option<Settled<()>>)
    requires client.Valid()
    modifies client
    ensures client.Valid()
    ensures r.Some? <==> confirmed
    ensures confirmed ==> client.MutatedBy(Queries.DeleteReminder(id), actorAvailable, remote)
    ensures !confirmed ==> unchanged(client)
  {
    r := ListDialog.ConfirmedDelete(client, Queries.DeleteReminder(id), confirmed, actorAvailable, remote);
  }

  datatype View = Skeleton | EmptyState | Tabs(upcoming: seq<Reminder>, overdue: seq<Reminder>, completed: seq<Reminder>)

  /** Loading first; the empty state exactly when the fetched list is empty;
      otherwise the three tabs, whose counts add up to the list's length. */
  function SelectView(isLoading: bool, data: Option<seq<Reminder>>, nowMillis: int): (v: View)
    ensures v.Skeleton? <==> isLoading
    ensures v.EmptyState? <==> !isLoading && ListDialog.DataOrEmpty(data) == []
    ensures v.Tabs? ==> var rs, now := ListDialog.DataOrEmpty(data), NowNanos(nowMillis);
                        v.upcoming == Upcoming(rs, now) && v.overdue == Overdue(rs, now) && v.completed == Completed(rs)
                        && |v.upcoming| + |v.overdue| + |v.completed| == |rs|
  {
    var rs := ListDialog.DataOrEmpty(data);
    var now := NowNanos(nowMillis);
    if isLoading then Skeleton
    else if |rs| == 0 then EmptyState
    else
      BucketsPartition(rs, now);
      Tabs(Upcoming(rs, now), Overdue(rs, now), Completed(rs))
  }
}
