/** The public, read-only card page (src/frontend/src/pages/PublicBusinessCardPage.tsx). */
module PublicCardPage {
  import opened Wrappers
  import opened Backend
  import UrlParams
  import Queries
  import BusinessCardPage

  /** `Principal.fromText` inside try/catch: a text that does not parse (the
      parser answers `None`) leaves the principal null; the error is only logged.
      An absent or empty principal string is not parsed at all. */
  function ParsePrincipal(principalString: Option<string>, fromText: string -> Option<Principal>): (p: Option<Principal>)
    ensures p.Some? ==> principalString.Some? && principalString.value != "" && fromText(principalString.value) == p
    ensures principalString.Some? && principalString.value != "" ==> p == fromText(principalString.value)
  {
    if principalString.Some? && principalString.value != "" then fromText(principalString.value) else None
  }

  datatype View = Loading | NotFound | Display(card: BusinessCard, fields: seq<BusinessCardPage.CardField>)

  /** Loading comes first; then "not found" when the read failed, the principal
      is null or no card came back; otherwise the card, showing its optional
      fields only when non-empty. */
  function SelectView(isLoading: bool, isError: bool, principal: Option<Principal>, card: Option<BusinessCard>): (v: View)
    ensures isLoading <==> v.Loading?
    ensures v.NotFound? <==> !isLoading && (isError || principal.None? || card.None?)
    ensures v.Display? <==> !isLoading && !isError && principal.Some? && card.Some?
    ensures v.Display? ==> v.card == card.value && v.fields == BusinessCardPage.VisibleFields(card.value)
  {
    if isLoading then Loading
    else if isError || principal.None? || card.None? then NotFound
    else Display(card.value, BusinessCardPage.VisibleFields(card.value))
  }

  /** The page end to end, for a given pathname: the principal taken from the
      path and parsed, the public-card read's outcome, and the view. `fetch`
      is the backend's answer per principal; `isLoading` and `isError` are the
      query's flags, with `isError` set when the read rejected. */
  function PageView(pathname: string, fromText: string -> Option<Principal>, actorAvailable: bool,
                    fetch: Principal -> Settled<Option<BusinessCard>>, isLoading: bool): View
  {
    var principal := ParsePrincipal(UrlParams.PrincipalFromUrl(pathname), fromText);
    var result := Queries.CardByPrincipalQueryFn(actorAvailable, principal, fetch);
    SelectView(isLoading, result.Rejected?, principal, if result.Resolved? then result.value else None)
  }

  /** A path without a usable principal ("/card/", or a text the parser
      rejects) renders "not found", never a card, once loading is over. */
  lemma GarbagePrincipalNotFound(pathname: string, fromText: string -> Option<Principal>, actorAvailable: bool,
                                 fetch: Principal -> Settled<Option<BusinessCard>>)
    requires UrlParams.PrincipalFromUrl(pathname).None? || fromText(UrlParams.PrincipalFromUrl(pathname).value).None?
    ensures PageView(pathname, fromText, actorAvailable, fetch, false) == NotFound
  {
  }

  /** The card is shown only for a principal parsed from the path, and it is the
      backend's card for exactly that principal. */
  lemma DisplayedCardIsFetched(pathname: string, fromText: string -> Option<Principal>, actorAvailable: bool,
                               fetch: Principal -> Settled<Option<BusinessCard>>, isLoading: bool)
    ensures var v := PageView(pathname, fromText, actorAvailable, fetch, isLoading);
            v.Display? ==>
              && UrlParams.IsPublicCardRoute(pathname)
              && var s := UrlParams.PrincipalFromUrl(pathname);
                 s.Some? && fromText(s.value).Some? && actorAvailable
                 && fetch(fromText(s.value).value) == Resolved(Some(v.card))
  {
  }

  /** A card with only a name and a title shows those two and none of the
      four empty fields. */
  lemma AdaLovelaceExample()
    ensures var c := BusinessCard("", "Engineer", "Ada Lovelace", "", "", "");
            SelectView(false, false, Some(Principal("p")), Some(c))
              == Display(c, [BusinessCardPage.FullName, BusinessCardPage.Title])
  {
  }
}
