/** The business-card page (src/frontend/src/pages/BusinessCardPage.tsx): the
    editor's `isEditing` / `formData` state, its field setters, save and cancel,
    and the choice of what the page shows. */
module BusinessCardPage {
  import opened Wrappers
  import opened Backend
  import Queries

  /** The six fields of a card, in the order the page lists them. */
  datatype CardField = FullName | Title | Phone | Email | Website | Bio

  function FieldOf(c: BusinessCard, f: CardField): string {
    match f
    case FullName => c.fullName
    case Title => c.title
    case Phone => c.phone
    case Email => c.email
    case Website => c.website
    case Bio => c.bio
  }

  /** A field's position in the page's fixed listing order. */
  function Rank(f: CardField): nat {
    match f
    case FullName => 0
    case Title => 1
    case Phone => 2
    case Email => 3
    case Website => 4
    case Bio => 5
  }

  /** `{ ...formData, <field>: value }`. */
  function WithField(c: BusinessCard, f: CardField, value: string): BusinessCard {
    match f
    case FullName => c.(fullName := value)
    case Title => c.(title := value)
    case Phone => c.(phone := value)
    case Email => c.(email := value)
    case Website => c.(website := value)
    case Bio => c.(bio := value)
  }

  /** A field edit changes exactly that field. */
  lemma WithFieldOnlyThatField(c: BusinessCard, f: CardField, value: string, g: CardField)
    ensures FieldOf(WithField(c, f, value), g) == if g == f then value else FieldOf(c, g)
  {
  }

  /** Name and title are always shown; the other four only when non-empty.
      Each appears at most once, in the fixed order name, title, phone,
      email, website, bio. The public card page shows a card the same way. */
  function VisibleFields(c: BusinessCard): (fs: seq<CardField>)
    ensures forall f :: f in fs <==> f == FullName || f == Title || FieldOf(c, f) != ""
    ensures |fs| >= 2 && fs[0] == FullName && fs[1] == Title
    ensures forall i, j :: 0 <= i < j < |fs| ==> Rank(fs[i]) < Rank(fs[j])
  {
    [FullName, Title]
    + (if c.phone != "" then [Phone] else [])
    + (if c.email != "" then [Email] else [])
    + (if c.website != "" then [Website] else [])
    + (if c.bio != "" then [Bio] else [])
  }

  const EmptyCard: BusinessCard := BusinessCard("", "", "", "", "", "")

  /** The page's local state. */
  class CardEditor {
    var isEditing: bool
    var formData: BusinessCard

    /** The form starts closed with all six fields empty. */
    constructor ()
      ensures !isEditing && formData == EmptyCard
      ensures forall f :: FieldOf(formData, f) == ""
    {
      isEditing := false;
      formData := EmptyCard;
    }

    /** The effect on `businessCard`: a fetched card replaces the form data;
        no card leaves it as it is. */
    method SyncFromFetched(fetched: Option<BusinessCard>)
      modifies this
      ensures formData == (if fetched.Some? then fetched.value else old(formData))
      ensures isEditing == old(isEditing)
    {
      if fetched.Some? {
        formData := fetched.value;
      }
    }

    /** The "Create Business Card" and "Edit" buttons. */
    method StartEditing()
      modifies this
      ensures isEditing && formData == old(formData)
    {
      isEditing := true;
    }

    /** An input's `onChange`: that field takes the typed value, the other five stay. */
    method SetField(f: CardField, value: string)
      modifies this
      ensures formData == WithField(old(formData), f, value)
      ensures forall g :: g != f ==> FieldOf(formData, g) == FieldOf(old(formData), g)
      ensures FieldOf(formData, f) == value && isEditing == old(isEditing)
    {
      formData := WithField(formData, f, value);
    }

    /** `handleCancel`: back to the fetched card, if any, and out of editing. */
    method HandleCancel(fetched: Option<BusinessCard>)
      modifies this
      ensures formData == (if fetched.Some? then fetched.value else old(formData))
      ensures !isEditing
    {
      if fetched.Some? {
        formData := fetched.value;
      }
      isEditing := false;
    }

    /** `handleSave`: send the form data; only once the save has resolved does
        the page leave editing, and a rejected save stays in editing. */
    method HandleSave(client: Queries.QueryClient, actorAvailable: bool, remote: Settled<()>) returns (r: Settled<()>)
      requires client.Valid()
      modifies this, client
      ensures client.Valid()
      ensures client.MutatedBy(Queries.SaveCard(old(formData)), actorAvailable, remote)
      ensures r == Queries.MutationFn(actorAvailable, remote)
      ensures isEditing == (old(isEditing) && r.Rejected?)
      ensures formData == old(formData)
    {
      r := client.Mutate(Queries.SaveCard(formData), actorAvailable, remote);
      if r.Resolved? {
        isEditing := false;
      }
    }
  }

  /** What the page renders. */
  datatype View =
    | Skeleton
    | NoCardYet
    | EditForm(form: BusinessCard, buttonsEnabled: bool)
    | Display(card: BusinessCard, fields: seq<CardField>)

  /** The page's if-chain: loading, then no card and not editing, then editing,
      then the card. Save and Cancel are disabled while a save is pending. The
      source's final `return null` cannot be reached: the display branch always
      has a card. */
  function SelectView(isLoading: bool, fetched: Option<BusinessCard>, isEditing: bool,
                      formData: BusinessCard, savePending: bool): (v: View)
    ensures v.Skeleton? <==> isLoading
    ensures v.NoCardYet? <==> !isLoading && fetched.None? && !isEditing
    ensures v.EditForm? <==> !isLoading && isEditing
    ensures v.Display? <==> !isLoading && !isEditing && fetched.Some?
    ensures v.EditForm? ==> v.form == formData && (v.buttonsEnabled <==> !savePending)
    ensures v.Display? ==> v.card == fetched.value && v.fields == VisibleFields(fetched.value)
  {
    if isLoading then Skeleton
    else if fetched.None? && !isEditing then NoCardYet
    else if isEditing then EditForm(formData, !savePending)
    else Display(fetched.value, VisibleFields(fetched.value))
  }
}
