/** The idea dialog (src/frontend/src/components/ideas/IdeaForm.tsx). */
module IdeaForm {
  import opened Wrappers
  import opened Backend
  import Queries

  /** The effect on `editingIdea` / `isOpen`: the idea's content, or empty. */
  function PrefillContent(editing: Option<Idea>): string {
    if editing.Some? then editing.value.content else ""
  }

  /** `updateIdea` with the edited id, or `createIdea` with a fresh id; the
      content is the text field either way. */
  function SubmitMutation(editing: Option<Idea>, content: string, freshId: string): (m: Queries.Mutation)
    ensures editing.Some? <==> m.UpdateIdea?
    ensures editing.None? <==> m.CreateIdea?
    ensures m.content == content
    ensures m.id == if editing.Some? then editing.value.id else freshId
  {
    if editing.Some? then Queries.UpdateIdea(editing.value.id, content) else Queries.CreateIdea(freshId, content)
  }

  /** Opening an idea and saving it unchanged rewrites the same content under the same id. */
  lemma UnchangedEditRoundTrip(e: Idea, freshId: string)
    ensures SubmitMutation(Some(e), PrefillContent(Some(e)), freshId) == Queries.UpdateIdea(e.id, e.content)
  {
  }

  class Form {
    var content: string

    constructor ()
      ensures content == ""
    {
      content := "";
    }

    method Prefill(editing: Option<Idea>)
      modifies this
      ensures content == PrefillContent(editing)
    {
      if editing.Some? {
        content := editing.value.content;
      } else {
        content := "";
      }
    }

    /** `handleSubmit`: send the write, and close only once it resolved. */
    method HandleSubmit(editing: Option<Idea>, freshId: string, client: Queries.QueryClient,
                        actorAvailable: bool, remote: Settled<()>) returns (closed: bool)
      requires client.Valid()
      modifies client
      ensures client.Valid()
      ensures client.MutatedBy(SubmitMutation(editing, content, freshId), actorAvailable, remote)
      ensures closed <==> Queries.MutationFn(actorAvailable, remote).Resolved?
    {
      var settled := client.Mutate(SubmitMutation(editing, content, freshId), actorAvailable, remote);
      closed := settled.Resolved?;
    }
  }
}
