/** The query/mutation layer (src/frontend/src/hooks/useQueries.ts): what each
    read returns, with which key and options it is cached, what each write does
    when there is no actor, and which cached collection a successful write marks
    stale. The backend calls themselves are opaque: their outcomes are inputs. */
module Queries {
  import opened Wrappers
  import opened Backend
  import Seqs

  const ActorNotAvailable: string := "Actor not available"

  /** The cached collections. */
  datatype Collection = CurrentUserProfile | BusinessCards | SavedContents | Ideas | Reminders

  /** The name that heads every key of the collection. */
  function CollectionName(c: Collection): string {
    match c
    case CurrentUserProfile => "currentUserProfile"
    case BusinessCards => "businessCard"
    case SavedContents => "savedContent"
    case Ideas => "ideas"
    case Reminders => "reminders"
  }

  /** Different collections have different names. */
  lemma CollectionNameInjective(c: Collection, d: Collection)
    requires c != d
    ensures CollectionName(c) != CollectionName(d)
  {
  }

  /** One element of a query key; `undefined` parts are `None`. */
  datatype KeyPart = Name(name: string) | FilterPart(filter: Option<ContentType>) | PrincipalPart(text: Option<string>)

  type QueryKey = seq<KeyPart>

  /** The reads the hooks perform. */
  datatype Read =
    | ProfileRead                                   // useGetCallerUserProfile
    | CardRead                                      // useGetBusinessCard
    | CardByPrincipalRead(principal: Option<Principal>) // useGetBusinessCardByPrincipal
    | SavedContentRead(filter: Option<ContentType>) // useListSavedContent
    | IdeasRead                                     // useListIdeas
    | RemindersRead                                 // useGetReminders

  /** The collection a read belongs to. */
  function ReadCollection(q: Read): Collection {
    match q
    case ProfileRead => CurrentUserProfile
    case CardRead => BusinessCards
    case CardByPrincipalRead(_) => BusinessCards
    case SavedContentRead(_) => SavedContents
    case IdeasRead => Ideas
    case RemindersRead => Reminders
  }

  /** The `queryKey` of each read. */
  function ReadKey(q: Read): QueryKey {
    match q
    case ProfileRead => [Name("currentUserProfile")]
    case CardRead => [Name("businessCard")]
    case CardByPrincipalRead(p) => [Name("businessCard"), PrincipalPart(if p.Some? then Some(p.value.text) else None)]
    case SavedContentRead(f) => [Name("savedContent"), FilterPart(f)]
    case IdeasRead => [Name("ideas")]
    case RemindersRead => [Name("reminders")]
  }

  /** Every read key begins with its collection's name. */
  lemma ReadKeyHead(q: Read)
    ensures |ReadKey(q)| >= 1 && ReadKey(q)[0] == Name(CollectionName(ReadCollection(q)))
  {
  }

  datatype Retry = DefaultRetry | NoRetry

  datatype QueryOptions = QueryOptions(key: QueryKey, enabled: bool, retry: Retry)

  /** The options each hook passes to `useQuery`. */
  function Options(q: Read, actorAvailable: bool, actorFetching: bool): QueryOptions {
    match q
    case ProfileRead => QueryOptions(ReadKey(q), actorAvailable && !actorFetching, NoRetry)
    case CardByPrincipalRead(p) => QueryOptions(ReadKey(q), actorAvailable && p.Some?, NoRetry)
    case _ => QueryOptions(ReadKey(q), actorAvailable && !actorFetching, DefaultRetry)
  }

  /** Exactly the profile read and the public-card read never retry. */
  lemma NoRetryReads(q: Read, actorAvailable: bool, actorFetching: bool)
    ensures Options(q, actorAvailable, actorFetching).retry == NoRetry <==> q.ProfileRead? || q.CardByPrincipalRead?
  {
  }

  /** No read is enabled without an actor; the public-card read is disabled without a principal. */
  lemma EnabledNeedsActor(q: Read, actorAvailable: bool, actorFetching: bool)
    ensures Options(q, actorAvailable, actorFetching).enabled ==> actorAvailable
    ensures q.CardByPrincipalRead? && q.principal.None? ==> !Options(q, actorAvailable, actorFetching).enabled
  {
  }

  // ----- query functions -----

  /** The profile read is the one read that fails without an actor. */
  function ProfileQueryFn(actorAvailable: bool, remote: Settled<Option<UserProfile>>): Settled<Option<UserProfile>> {
    if !actorAvailable then Rejected(ActorNotAvailable) else remote
  }

  function CardQueryFn(actorAvailable: bool, remote: Settled<Option<BusinessCard>>): Settled<Option<BusinessCard>> {
    if !actorAvailable then Resolved(None) else remote
  }

  /** `fetch(p)` is the backend's answer for principal `p`. */
  function CardByPrincipalQueryFn(actorAvailable: bool, principal: Option<Principal>,
                                  fetch: Principal -> Settled<Option<BusinessCard>>): Settled<Option<BusinessCard>> {
    if !actorAvailable || principal.None? then Resolved(None) else fetch(principal.value)
  }

  /** `item.contentType === t` as a function. */
  function TypeIs(t: ContentType): SavedContent -> bool {
    (item: SavedContent) => item.contentType == t
  }

  /** The saved content of one type, in the fetched order. */
  function OfType(items: seq<SavedContent>, t: ContentType): seq<SavedContent> {
    Seqs.Filter(TypeIs(t), items)
  }

  /** The saved-content read filters client-side after fetching everything. */
  function SavedContentQueryFn(actorAvailable: bool, filter: Option<ContentType>,
                               remote: Settled<seq<SavedContent>>): (r: Settled<seq<SavedContent>>)
    ensures !actorAvailable ==> r == Resolved([])
    ensures actorAvailable && (remote.Rejected? || filter.None?) ==> r == remote
    ensures actorAvailable && remote.Resolved? && filter.Some? ==>
              r.Resolved? && forall x :: x in r.value <==> x in remote.value && x.contentType == filter.value
  {
    if !actorAvailable then Resolved([])
    else match remote
      case Rejected(e) => Rejected(e)
      case Resolved(all) => if filter.Some? then Resolved(OfType(all, filter.value)) else Resolved(all)
  }

  function IdeasQueryFn(actorAvailable: bool, remote: Settled<seq<Idea>>): Settled<seq<Idea>> {
    if !actorAvailable then Resolved([]) else remote
  }

  function RemindersQueryFn(actorAvailable: bool, remote: Settled<seq<Reminder>>): Settled<seq<Reminder>> {
    if !actorAvailable then Resolved([]) else remote
  }

  /** Without an actor every read but the profile read resolves to null or
      `[]`, whatever the backend would have said; the profile read rejects. */
  lemma ReadsWithoutActor(rp: Settled<Option<UserProfile>>, rc: Settled<Option<BusinessCard>>,
                          p: Option<Principal>, fetch: Principal -> Settled<Option<BusinessCard>>,
                          f: Option<ContentType>, rs: Settled<seq<SavedContent>>,
                          ri: Settled<seq<Idea>>, rr: Settled<seq<Reminder>>)
    ensures ProfileQueryFn(false, rp) == Rejected(ActorNotAvailable)
    ensures CardQueryFn(false, rc) == Resolved(None)
    ensures CardByPrincipalQueryFn(false, p, fetch) == Resolved(None)
    ensures SavedContentQueryFn(false, f, rs) == Resolved([])
    ensures IdeasQueryFn(false, ri) == Resolved([])
    ensures RemindersQueryFn(false, rr) == Resolved([])
  {
  }

  /** With an actor every read passes the backend's answer on, failure
      included; only the saved-content read may narrow it (by its filter). */
  lemma ReadsWithActor(rp: Settled<Option<UserProfile>>, rc: Settled<Option<BusinessCard>>,
                       p: Principal, fetch: Principal -> Settled<Option<BusinessCard>>,
                       rs: Settled<seq<SavedContent>>, ri: Settled<seq<Idea>>, rr: Settled<seq<Reminder>>)
    ensures ProfileQueryFn(true, rp) == rp
    ensures CardQueryFn(true, rc) == rc
    ensures CardByPrincipalQueryFn(true, Some(p), fetch) == fetch(p)
    ensures SavedContentQueryFn(true, None, rs) == rs
    ensures IdeasQueryFn(true, ri) == ri
    ensures RemindersQueryFn(true, rr) == rr
  {
  }

  /** Without a principal the public-card read yields null without asking the backend. */
  lemma CardByPrincipalWithoutPrincipal(actorAvailable: bool, fetch: Principal -> Settled<Option<BusinessCard>>)
    ensures CardByPrincipalQueryFn(actorAvailable, None, fetch) == Resolved(None)
  {
  }

  /** With a filter, the saved-content read gives exactly the fetched items of
      that type: each as often as fetched, in the fetched order. */
  lemma SavedContentFilterExact(t: ContentType, all: seq<SavedContent>)
    ensures SavedContentQueryFn(true, Some(t), Resolved(all)) == Resolved(OfType(all, t))
    ensures Seqs.IsSubsequence(OfType(all, t), all)
    ensures forall x :: multiset(OfType(all, t))[x] == if x.contentType == t then multiset(all)[x] else 0
  {
    Seqs.FilterIsSubsequence(TypeIs(t), all);
    forall x ensures multiset(OfType(all, t))[x] == if x.contentType == t then multiset(all)[x] else 0 {
      Seqs.FilterMultiset(TypeIs(t), all, x);
    }
  }

  /** The two content types split the collection: every fetched item is in exactly one of the two filtered reads. */
  lemma OfTypeSplits(all: seq<SavedContent>)
    ensures |OfType(all, Bookmark)| + |OfType(all, General)| == |all|
    ensures multiset(OfType(all, Bookmark)) + multiset(OfType(all, General)) == multiset(all)
  {
    Seqs.FilterSplit(TypeIs(Bookmark), TypeIs(General), all);
  }

  /** How the profile hook reports its state: loading while the actor is being
      fetched, and never fetched while there is no actor. */
  datatype ProfileStatus = ProfileStatus(isLoading: bool, isFetched: bool)

  function ProfileHookStatus(actorAvailable: bool, actorFetching: bool, queryLoading: bool, queryFetched: bool): (s: ProfileStatus)
    ensures actorFetching ==> s.isLoading
    ensures !actorFetching ==> (s.isLoading <==> queryLoading)
    ensures s.isFetched <==> actorAvailable && queryFetched
  {
    ProfileStatus(actorFetching || queryLoading, actorAvailable && queryFetched)
  }

  // ----- mutations -----

  /** The writes the hooks perform, with their arguments. */
  datatype Mutation =
    | SaveProfile(profile: UserProfile)
    | SaveCard(card: BusinessCard)
    | CreateSavedContent(item: SavedContent)
    | UpdateSavedContent(id: string, item: SavedContent)
    | DeleteSavedContent(id: string)
    | CreateIdea(id: string, content: string)
    | UpdateIdea(id: string, content: string)
    | DeleteIdea(id: string)
    | CreateReminder(reminder: Reminder)
    | UpdateReminder(id: string, reminder: Reminder)
    | DeleteReminder(id: string)

  /** The collection each write belongs to. */
  function WriteCollection(m: Mutation): Collection {
    match m
    case SaveProfile(_) => CurrentUserProfile
    case SaveCard(_) => BusinessCards
    case CreateSavedContent(_) => SavedContents
    case UpdateSavedContent(_, _) => SavedContents
    case DeleteSavedContent(_) => SavedContents
    case CreateIdea(_, _) => Ideas
    case UpdateIdea(_, _) => Ideas
    case DeleteIdea(_) => Ideas
    case CreateReminder(_) => Reminders
    case UpdateReminder(_, _) => Reminders
    case DeleteReminder(_) => Reminders
  }

  /** The key each write's `onSuccess` passes to `invalidateQueries`. */
  function InvalidationKey(m: Mutation): QueryKey {
    match m
    case SaveProfile(_) => [Name("currentUserProfile")]
    case SaveCard(_) => [Name("businessCard")]
    case CreateSavedContent(_) | UpdateSavedContent(_, _) | DeleteSavedContent(_) => [Name("savedContent")]
    case CreateIdea(_, _) | UpdateIdea(_, _) | DeleteIdea(_) => [Name("ideas")]
    case CreateReminder(_) | UpdateReminder(_, _) | DeleteReminder(_) => [Name("reminders")]
  }

  /** A key filter matches every key it is a prefix of (the partial matching
      `invalidateQueries` applies to keys made of strings). */
  predicate KeyMatches(filter: QueryKey, key: QueryKey) {
    |filter| <= |key| && key[..|filter|] == filter
  }

  /** A write's invalidation key is exactly its collection's name, so it
      reaches a read if and only if the read belongs to the same collection:
      every saved-content write reaches the read under any filter, every card
      write reaches the read of any principal's card. */
  lemma InvalidationReachesExactly(m: Mutation, q: Read)
    ensures InvalidationKey(m) == [Name(CollectionName(WriteCollection(m)))]
    ensures KeyMatches(InvalidationKey(m), ReadKey(q)) <==> WriteCollection(m) == ReadCollection(q)
  {
    ReadKeyHead(q);
    if WriteCollection(m) != ReadCollection(q) {
      CollectionNameInjective(WriteCollection(m), ReadCollection(q));
      assert ReadKey(q)[..1][0] == ReadKey(q)[0];
    }
  }

  /** The `mutationFn` guard: without an actor the write rejects before the
      backend is called; otherwise it settles as the backend call does. */
  function MutationFn(actorAvailable: bool, remote: Settled<()>): Settled<()> {
    if !actorAvailable then Rejected(ActorNotAvailable) else remote
  }

  /** Every write fails with "Actor not available" when there is no actor. */
  lemma WritesWithoutActor(remote: Settled<()>)
    ensures MutationFn(false, remote) == Rejected(ActorNotAvailable)
  {
  }

  /** The user-facing notification a write emits. */
  datatype Notice = SuccessNotice(mutation: Mutation) | ErrorNotice(message: string)

  /** The invalidation keys of a series of writes. */
  function KeysOf(ms: seq<Mutation>): seq<QueryKey> {
    seq(|ms|, i requires 0 <= i < |ms| => InvalidationKey(ms[i]))
  }

  /** The shared query client, as far as writes touch it: the writes that
      reached the backend, the keys invalidated, and the notifications shown,
      each in order. */
  class QueryClient {
    var backendCalls: seq<Mutation>
    var invalidated: seq<QueryKey>
    var notices: seq<Notice>

    /** Every invalidation belongs to a write that reached the backend, in the
        order the writes were sent. */
    ghost predicate Valid()
      reads this
    {
      Seqs.IsSubsequence(invalidated, KeysOf(backendCalls))
    }

    constructor ()
      ensures Valid()
      ensures backendCalls == [] && invalidated == [] && notices == []
    {
      backendCalls, invalidated, notices := [], [], [];
    }

    /** What running write `m` does to the client, given whether an actor is
        available and how the backend call settles. */
    twostate predicate MutatedBy(m: Mutation, actorAvailable: bool, remote: Settled<()>)
      reads this
    {
      var r := MutationFn(actorAvailable, remote);
      && backendCalls == old(backendCalls) + (if actorAvailable then [m] else [])
      && invalidated == old(invalidated) + (if r.Resolved? then [InvalidationKey(m)] else [])
      && notices == old(notices) + [if r.Resolved? then SuccessNotice(m) else ErrorNotice(r.message)]
    }

    /** `mutateAsync`: run the guard and the backend call, then `onSuccess`
        (invalidate, notify) or `onError` (notify only). */
    method Mutate(m: Mutation, actorAvailable: bool, remote: Settled<()>) returns (r: Settled<()>)
      requires Valid()
      modifies this
      ensures Valid()
      ensures r == MutationFn(actorAvailable, remote)
      ensures MutatedBy(m, actorAvailable, remote)
    {
      if !actorAvailable {
        r := Rejected(ActorNotAvailable);
      } else {
        Seqs.SubsequenceAppendRight(invalidated, KeysOf(backendCalls), InvalidationKey(m));
        backendCalls := backendCalls + [m];
        assert KeysOf(backendCalls) == old(KeysOf(backendCalls)) + [InvalidationKey(m)];
        r := remote;
      }
      if r.Resolved? {
        Seqs.SubsequenceAppendBoth(old(invalidated), old(KeysOf(backendCalls)), InvalidationKey(m));
        invalidated := invalidated + [InvalidationKey(m)];
        notices := notices + [SuccessNotice(m)];
      } else {
        notices := notices + [ErrorNotice(r.message)];
      }
    }
  }
}
