/** The bookmark dialog (src/frontend/src/components/content/BookmarkForm.tsx). */
module BookmarkForm {
  import opened Wrappers
  import opened Backend
  import Queries

  /** The dialog's state: title and URL. */
  datatype Fields = Fields(title: string, url: string)

  /** The effect on `editingBookmark` / `isOpen`: the bookmark's title and
      content, or both empty. */
  function PrefillFields(editing: Option<SavedContent>): Fields {
    if editing.Some? then Fields(editing.value.linkTitle, editing.value.content) else Fields("", "")
  }

  /** The submitted item: the URL as content, the title as `linkTitle`, always
      a bookmark; the edited id unless it is empty. */
  function BuildItem(editing: Option<SavedContent>, f: Fields, freshId: string): SavedContent {
    SavedContent(if editing.Some? && editing.value.id != "" then editing.value.id else freshId, f.url, Bookmark, f.title)
  }

  function SubmitMutation(editing: Option<SavedContent>, f: Fields, freshId: string): Queries.Mutation {
    var item := BuildItem(editing, f, freshId);
    if editing.Some? then Queries.UpdateSavedContent(editing.value.id, item) else Queries.CreateSavedContent(item)
  }

  /** What the form sends: always a bookmark with the URL and title; an update
      with the edited id when editing, a create with a fresh id otherwise. */
  lemma SubmitRules(editing: Option<SavedContent>, f: Fields, freshId: string)
    ensures var m := SubmitMutation(editing, f, freshId);
            && m.item.contentType == Bookmark
            && m.item.content == f.url && m.item.linkTitle == f.title
            && (editing.Some? ==> m == Queries.UpdateSavedContent(editing.value.id, m.item))
            && (editing.Some? && editing.value.id != "" ==> m.item.id == editing.value.id)
            && (editing.None? ==> m == Queries.CreateSavedContent(m.item) && m.item.id == freshId)
  {
  }

  /** Opening a bookmark and saving it unchanged sends it back as it was. */
  lemma UnchangedEditRoundTrip(e: SavedContent, freshId: string)
    requires e.contentType == Bookmark && e.id != ""
    ensures SubmitMutation(Some(e), PrefillFields(Some(e)), freshId) == Queries.UpdateSavedContent(e.id, e)
  {
  }

  class Form {
    var title: string
    var url: string

    function State(): Fields
      reads this
    {
      Fields(title, url)
    }

    constructor ()
      ensures State() == Fields("", "")
    {
      title, url := "", "";
    }

    method Prefill(editing: Option<SavedContent>)
      modifies this
      ensures State() == PrefillFields(editing)
    {
      if editing.Some? {
        title := editing.value.linkTitle;
        url := editing.value.content;
      } else {
        title := "";
        url := "";
      }
    }

    /** `handleSubmit`: send the item, and close only once the write resolved. */
    method HandleSubmit(editing: Option<SavedContent>, freshId: string, client: Queries.QueryClient,
                        actorAvailable: bool, remote: Settled<()>) returns (closed: bool)
      requires client.Valid()
      modifies client
      ensures client.Valid()
      ensures client.MutatedBy(SubmitMutation(editing, State(), freshId), actorAvailable, remote)
      ensures closed <==> Queries.MutationFn(actorAvailable, remote).Resolved?
    {
      var settled := client.Mutate(SubmitMutation(editing, State(), freshId), actorAvailable, remote);
      closed := settled.Resolved?;
    }
  }
}
