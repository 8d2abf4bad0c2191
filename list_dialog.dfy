/** What the four list pages (reminders, saved content, bookmarks, ideas)
    share: the open/edit state of their form dialog, the default for data not
    yet loaded, the loading / empty / list choice, and the confirm-gated delete. */
module ListDialog {
  import opened Wrappers
  import Queries

  /** The page's `isFormOpen` and `editing…` state. */
  class DialogState<T> {
    var isFormOpen: bool
    var editing: Option<T>

    constructor ()
      ensures !isFormOpen && editing == None
    {
      isFormOpen, editing := false, None;
    }

    /** `handleEdit`: edit this item in an open form. */
    method HandleEdit(item: T)
      modifies this
      ensures isFormOpen && editing == Some(item)
    {
      editing := Some(item);
      isFormOpen := true;
    }

    /** `handleFormClose`: close the form and forget the edited item. */
    method HandleFormClose()
      modifies this
      ensures !isFormOpen && editing == None
    {
      isFormOpen := false;
      editing := None;
    }

    /** The "Add" buttons: open the form, leaving `editing` as it is. */
    method HandleAdd()
      modifies this
      ensures isFormOpen && editing == old(editing)
    {
      isFormOpen := true;
    }
  }

  /** `const { data: items = [] } = useQuery(...)`: no data yet (loading,
      disabled or failed) reads as the empty list. */
  function DataOrEmpty<T>(data: Option<seq<T>>): seq<T> {
    if data.Some? then data.value else []
  }

  datatype ListView<T> = Skeleton | EmptyState | Items(items: seq<T>)

  /** A list page renders the skeleton while loading, else the empty state when
      nothing is to be shown, else the items in the given order. */
  function SelectListView<T>(isLoading: bool, shown: seq<T>): (v: ListView<T>)
    ensures v.Skeleton? <==> isLoading
    ensures v.EmptyState? <==> !isLoading && shown == []
    ensures v.Items? <==> !isLoading && shown != []
    ensures v.Items? ==> v.items == shown
  {
    if isLoading then Skeleton
    else if |shown| == 0 then EmptyState
    else Items(shown)
  }

  /** `handleDelete`: the delete write is dispatched only when `confirm(...)`
      returned true; a declined confirmation changes nothing. */
  method ConfirmedDelete(client: Queries.QueryClient, delete: Queries.Mutation, confirmed: bool,
                         actorAvailable: bool, remote: Settled<()>) returns (r: Option<Settled<()>>)
    requires client.Valid()
    modifies client
    ensures client.Valid()
    ensures r.Some? <==> confirmed
    ensures confirmed ==> r == Some(Queries.MutationFn(actorAvailable, remote))
                          && client.MutatedBy(delete, actorAvailable, remote)
    ensures !confirmed ==> unchanged(client)
  {
    if confirmed {
      var settled := client.Mutate(delete, actorAvailable, remote);
      r := Some(settled);
    } else {
      r := None;
    }
  }
}
