/** The saved-content dialog (src/frontend/src/components/content/SavedContentForm.tsx):
    a link tab and a text tab over one title, the prefill effect, and the
    general item its submit sends. */
module SavedContentForm {
  import opened Wrappers
  import opened Backend
  import Queries
  import Seqs

  datatype Tab = LinkTab | TextTab

  /** The dialog's state: active tab, title, URL and text. */
  datatype Fields = Fields(activeTab: Tab, title: string, url: string, text: string)

  const InitialFields: Fields := Fields(LinkTab, "", "", "")

  /** The effect on `editingContent` / `isOpen`. An item whose content starts
      with "http" goes to the URL field on the link tab, anything else to the
      text field on the text tab; the field not chosen keeps its old value.
      Without an item everything is reset. */
  function PrefillFields(editing: Option<SavedContent>, before: Fields): (f: Fields)
    ensures editing.None? ==> f == InitialFields
    ensures editing.Some? ==> f.title == editing.value.linkTitle
    ensures editing.Some? && Seqs.StartsWith(editing.value.content, "http") ==>
              f.activeTab == LinkTab && f.url == editing.value.content && f.text == before.text
    ensures editing.Some? && !Seqs.StartsWith(editing.value.content, "http") ==>
              f.activeTab == TextTab && f.text == editing.value.content && f.url == before.url
  {
    match editing
    case None => InitialFields
    case Some(e) =>
      if Seqs.StartsWith(e.content, "http") then Fields(LinkTab, e.linkTitle, e.content, before.text)
      else Fields(TextTab, e.linkTitle, before.url, e.content)
  }

  /** The submitted item: the active tab's field as content, the title as
      `linkTitle`, always general; the edited id unless it is empty. */
  function BuildItem(editing: Option<SavedContent>, f: Fields, freshId: string): SavedContent {
    SavedContent(
      if editing.Some? && editing.value.id != "" then editing.value.id else freshId,
      if f.activeTab == LinkTab then f.url else f.text,
      General,
      f.title)
  }

  /** Update keyed by the edited id, or create. */
  function SubmitMutation(editing: Option<SavedContent>, f: Fields, freshId: string): Queries.Mutation {
    var item := BuildItem(editing, f, freshId);
    if editing.Some? then Queries.UpdateSavedContent(editing.value.id, item) else Queries.CreateSavedContent(item)
  }

  /** What the form sends: always general, the active tab's field (the other
      one is discarded), the title, the edited id or a fresh one; an update
      when editing and a create otherwise. */
  lemma SubmitRules(editing: Option<SavedContent>, f: Fields, freshId: string, other: string)
    ensures var m := SubmitMutation(editing, f, freshId);
            && m.item.contentType == General
            && m.item.linkTitle == f.title
            && m.item.content == (if f.activeTab == LinkTab then f.url else f.text)
            && (editing.Some? ==> m == Queries.UpdateSavedContent(editing.value.id, m.item))
            && (editing.Some? && editing.value.id != "" ==> m.item.id == editing.value.id)
            && (editing.None? ==> m == Queries.CreateSavedContent(m.item) && m.item.id == freshId)
    ensures f.activeTab == LinkTab ==> SubmitMutation(editing, f, freshId) == SubmitMutation(editing, f.(text := other), freshId)
    ensures f.activeTab == TextTab ==> SubmitMutation(editing, f, freshId) == SubmitMutation(editing, f.(url := other), freshId)
  {
  }

  /** Opening a general item and saving it unchanged sends it back as it was,
      whichever tab the prefill chose and whatever the other field held. */
  lemma UnchangedEditRoundTrip(e: SavedContent, before: Fields, freshId: string)
    requires e.contentType == General && e.id != ""
    ensures SubmitMutation(Some(e), PrefillFields(Some(e), before), freshId) == Queries.UpdateSavedContent(e.id, e)
  {
  }

  /** The dialog's local state. */
  class Form {
    var activeTab: Tab
    var title: string
    var url: string
    var text: string

    function State(): Fields
      reads this
    {
      Fields(activeTab, title, url, text)
    }

    constructor ()
      ensures State() == InitialFields
    {
      activeTab, title, url, text := LinkTab, "", "", "";
    }

    /** The prefill/reset effect. */
    method Prefill(editing: Option<SavedContent>)
      modifies this
      ensures State() == PrefillFields(editing, old(State()))
    {
      if editing.Some? {
        title := editing.value.linkTitle;
        if Seqs.StartsWith(editing.value.content, "http") {
          url := editing.value.content;
          activeTab := LinkTab;
        } else {
          text := editing.value.content;
          activeTab := TextTab;
        }
      } else {
        title := "";
        url := "";
        text := "";
        activeTab := LinkTab;
      }
    }

    /** The tabs' `onValueChange`. */
    method SelectTab(t: Tab)
      modifies this
      ensures State() == old(State()).(activeTab := t)
    {
      activeTab := t;
    }

    /** `handleSubmit`: send the item, and close only once the write resolved. */
    method HandleSubmit(editing: Option<SavedContent>, freshId: string, client: Queries.QueryClient,
                        actorAvailable: bool, remote: Settled<()>) returns (closed: bool)
      requires client.Valid()
      modifies client
      ensures client.Valid()
      ensures client.MutatedBy(SubmitMutation(editing, State(), freshId), actorAvailable, remote)
      ensures closed <==> Queries.MutationFn(actorAvailable, remote).Resolved?
    {
      var settled := client.Mutate(SubmitMutation(editing, State(), freshId), actorAvailable, remote);
      closed := settled.Resolved?;
    }
  }
}
