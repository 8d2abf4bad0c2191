/** The bookmarks page (src/frontend/src/pages/BookmarksPage.tsx): the
    bookmark items of the unfiltered saved-content list, each rendered as a
    link to its content. */
module BookmarksPage {
  import opened Wrappers
  import opened Backend
  import Queries
  import Seqs
  import ListDialog

  /** `bookmarks`: the page asks for the whole list and keeps the bookmarks. */
  function Shown(data: Option<seq<SavedContent>>): seq<SavedContent> {
    Queries.OfType(ListDialog.DataOrEmpty(data), Bookmark)
  }

  /** Filtering on the page gives exactly what the query would with a bookmark filter. */
  lemma PageFilterMatchesQueryFilter(all: seq<SavedContent>)
    ensures Queries.SavedContentQueryFn(true, Some(Bookmark), Resolved(all)) == Resolved(Shown(Some(all)))
  {
  }

  /** Loading first; the empty state exactly when no fetched item is a
      bookmark; otherwise only bookmarks, in fetched order, each with its full
      multiplicity. */
  function SelectView(isLoading: bool, data: Option<seq<SavedContent>>): (v: ListDialog.ListView<SavedContent>)
    ensures v.Skeleton? <==> isLoading
    ensures v.EmptyState? <==> !isLoading && forall x :: x in ListDialog.DataOrEmpty(data) ==> x.contentType != Bookmark
    ensures v.Items? ==> (forall x :: x in v.items ==> x.contentType == Bookmark)
                         && Seqs.IsSubsequence(v.items, ListDialog.DataOrEmpty(data))
                         && forall x: SavedContent :: x.contentType == Bookmark ==> multiset(v.items)[x] == multiset(ListDialog.DataOrEmpty(data))[x]
  {
    var all := ListDialog.DataOrEmpty(data);
    Queries.SavedContentFilterExact(Bookmark, all);
    assert Shown(data) == [] <==> forall x :: x in all ==> x.contentType != Bookmark by {
      if Shown(data) != [] {
        assert Shown(data)[0] in Shown(data);
      }
    }
    ListDialog.SelectListView(isLoading, Shown(data))
  }

  /** `handleDelete`: delete by id once confirmed. */
  method HandleDelete(client: Queries.QueryClient, id: string, confirmed: bool, actorAvailable: bool, remote: Settled<()>)
    returns (r: Option<Settled<()>>)
    requires client.Valid()
    modifies client
    ensures client.Valid()
    ensures r.Some? <==> confirmed
    ensures confirmed ==> client.MutatedBy(Queries.DeleteSavedContent(id), actorAvailable, remote)
    ensures !confirmed ==> unchanged(client)
  {
    r := ListDialog.ConfirmedDelete(client, Queries.DeleteSavedContent(id), confirmed, actorAvailable, remote);
  }
}
