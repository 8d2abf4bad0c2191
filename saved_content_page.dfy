/** The saved-content page (src/frontend/src/pages/SavedContentPage.tsx): the
    general items of the unfiltered saved-content list, with edit, delete and
    an "Open Link" for items that look like links. */
module SavedContentPage {
  import opened Wrappers
  import opened Backend
  import Queries
  import Seqs
  import ListDialog
  import SavedContentForm

  /** `generalContent`: the page asks for the whole list and keeps the general items. */
  function Shown(data: Option<seq<SavedContent>>): seq<SavedContent> {
    Queries.OfType(ListDialog.DataOrEmpty(data), General)
  }

  /** Filtering on the page gives exactly what the query would with a general filter. */
  lemma PageFilterMatchesQueryFilter(all: seq<SavedContent>)
    ensures Queries.SavedContentQueryFn(true, None, Resolved(all)) == Resolved(all)
    ensures Queries.SavedContentQueryFn(true, Some(General), Resolved(all)) == Resolved(Shown(Some(all)))
  {
  }

  /** Loading first; the empty state exactly when no fetched item is general
      (bookmarks alone leave the page empty); otherwise only general items, in
      fetched order, each with its full multiplicity. */
  function SelectView(isLoading: bool, data: Option<seq<SavedContent>>): (v: ListDialog.ListView<SavedContent>)
    ensures v.Skeleton? <==> isLoading
    ensures v.EmptyState? <==> !isLoading && forall x :: x in ListDialog.DataOrEmpty(data) ==> x.contentType != General
    ensures v.Items? ==> (forall x :: x in v.items ==> x.contentType == General)
                         && Seqs.IsSubsequence(v.items, ListDialog.DataOrEmpty(data))
                         && forall x: SavedContent :: x.contentType == General ==> multiset(v.items)[x] == multiset(ListDialog.DataOrEmpty(data))[x]
  {
    var all := ListDialog.DataOrEmpty(data);
    Queries.SavedContentFilterExact(General, all);
    assert Shown(data) == [] <==> forall x :: x in all ==> x.contentType != General by {
      if Shown(data) != [] {
        assert Shown(data)[0] in Shown(data);
      }
    }
    ListDialog.SelectListView(isLoading, Shown(data))
  }

  /** The card title: the link title, or "Untitled" when it is empty. */
  function DisplayTitle(item: SavedContent): (t: string)
    ensures t != ""
    ensures item.linkTitle != "" ==> t == item.linkTitle
    ensures item.linkTitle == "" ==> t == "Untitled"
  {
    if item.linkTitle != "" then item.linkTitle else "Untitled"
  }

  /** The "Open Link" anchor is rendered for content starting with "http". */
  predicate ShowsOpenLink(item: SavedContent) {
    Seqs.StartsWith(item.content, "http")
  }

  /** An item shows "Open Link" exactly when editing it opens the form on the link tab. */
  lemma OpenLinkMatchesFormTab(item: SavedContent, before: SavedContentForm.Fields)
    ensures ShowsOpenLink(item) <==> SavedContentForm.PrefillFields(Some(item), before).activeTab == SavedContentForm.LinkTab
  {
  }

  /** `handleDelete`: delete by id once confirmed. */
  method HandleDelete(client: Queries.QueryClient, id: string, confirmed: bool, actorAvailable: bool, remote: Settled<()>)
    returns (r: Option<Settled<()>>)
    requires client.Valid()
    modifies client
    ensures client.Valid()
    ensures r.Some? <==> confirmed
    ensures confirmed ==> client.MutatedBy(Queries.DeleteSavedContent(id), actorAvailable, remote)
    ensures !confirmed ==> unchanged(client)
  {
    r := ListDialog.ConfirmedDelete(client, Queries.DeleteSavedContent(id), confirmed, actorAvailable, remote);
  }
}
