/** The ideas page (src/frontend/src/pages/IdeasPage.tsx): the fetched ideas
    in the backend's order, with edit and delete. */
module IdeasPage {
  import opened Wrappers
  import opened Backend
  import Queries
  import ListDialog

  /** Loading first; the empty state exactly when there are no ideas (still
      unloaded or failed data counts as none); otherwise every idea, in
      fetched order, unfiltered. */
  function SelectView(isLoading: bool, data: Option<seq<Idea>>): (v: ListDialog.ListView<Idea>)
    ensures v.Skeleton? <==> isLoading
    ensures v.EmptyState? <==> !isLoading && (data.None? || data.value == [])
    ensures v.Items? ==> data.Some? && v.items == data.value
  {
    ListDialog.SelectListView(isLoading, ListDialog.DataOrEmpty(data))
  }

  /** `handleDelete`: delete by id once confirmed. */
  method HandleDelete(client: Queries.QueryClient, id: string, confirmed: bool, actorAvailable: bool, remote: Settled<()>)
    returns (r: Option<Settled<()>>)
    requires client.Valid()
    modifies client
    ensures client.Valid()
    ensures r.Some? <==> confirmed
    ensures confirmed ==> client.MutatedBy(Queries.DeleteIdea(id), actorAvailable, remote)
    ensures !confirmed ==> unchanged(client)
  {
    r := ListDialog.ConfirmedDelete(client, Queries.DeleteIdea(id), confirmed, actorAvailable, remote);
  }
}
