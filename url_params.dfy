/** Route and query-string helpers (src/frontend/src/utils/urlParams.ts), as
    functions of the page's pathname and of its parsed query string. */
module UrlParams {
  import opened Wrappers
  import Seqs

  const CardPrefix: string := "/card/"

  /** `isPublicCardRoute`: the pathname starts with "/card/". */
  predicate IsPublicCardRoute(pathname: string) {
    Seqs.StartsWith(pathname, CardPrefix)
  }

  /** The characters a JavaScript regular expression's `.` does not match. */
  predicate IsLineTerminator(c: char) {
    c == '\n' || c == '\r' || c == '\U{2028}' || c == '\U{2029}'
  }

  /** `getPrincipalFromUrl`: the pathname matched against `^\/card\/(.+)$`.
      The group is everything after "/card/", further slashes included, and it
      must be non-empty and free of line terminators. */
  function PrincipalFromUrl(pathname: string): (r: Option<string>)
    ensures r.Some? <==>
              IsPublicCardRoute(pathname) && |pathname| > |CardPrefix|
              && forall i :: |CardPrefix| <= i < |pathname| ==> !IsLineTerminator(pathname[i])
    ensures r.Some? ==> pathname == CardPrefix + r.value && r.value != []
  {
    if IsPublicCardRoute(pathname) && |pathname| > |CardPrefix|
       && forall i :: |CardPrefix| <= i < |pathname| ==> !IsLineTerminator(pathname[i])
    then Some(pathname[|CardPrefix|..])
    else None
  }

  /** A principal is only ever read from a public card route. */
  lemma PrincipalOnlyOnCardRoute(pathname: string)
    ensures PrincipalFromUrl(pathname).Some? ==> IsPublicCardRoute(pathname)
  {
  }

  /** The route and its principal on a few paths: "/card/" is a public route
      without a principal; "/card" and "/cards/x" are neither; a principal may
      contain further slashes. */
  lemma RouteExamples()
    ensures IsPublicCardRoute("/card/") && PrincipalFromUrl("/card/") == None
    ensures !IsPublicCardRoute("/card") && PrincipalFromUrl("/card") == None
    ensures !IsPublicCardRoute("/cards/x") && PrincipalFromUrl("/cards/x") == None
    ensures PrincipalFromUrl("/card/abc/def") == Some("abc/def")
  {
    assert "/card/abc/def"[|CardPrefix|..] == "abc/def";
    assert "/cards/x"[..|CardPrefix|] != CardPrefix by {
      assert "/cards/x"[5] != CardPrefix[5];
    }
  }

  /** `URLSearchParams.get(name)` over the already decoded query string:
      the value of the first pair with that name, or null. */
  function GetUrlParam(search: seq<(string, string)>, name: string): (r: Option<string>)
    ensures r.Some? <==> exists i :: 0 <= i < |search| && search[i].0 == name
    ensures r.Some? ==> exists i :: 0 <= i < |search| && search[i] == (name, r.value)
                                    && forall j :: 0 <= j < i ==> search[j].0 != name
  {
    if search == [] then None
    else if search[0].0 == name then Some(search[0].1)
    else
      var r := GetUrlParam(search[1..], name);
      assert r.Some? ==> exists i :: 1 <= i < |search| && search[i] == (name, r.value)
                                     && forall j :: 0 <= j < i ==> search[j].0 != name by {
        if r.Some? {
          var k :| 0 <= k < |search[1..]| && search[1..][k] == (name, r.value)
                   && forall j :: 0 <= j < k ==> search[1..][j].0 != name;
          assert search[k + 1] == (name, r.value);
          assert forall j :: 0 <= j < k + 1 ==> search[j].0 != name by {
            forall j | 0 <= j < k + 1 ensures search[j].0 != name {
              if j > 0 { assert search[j] == search[1..][j - 1]; }
            }
          }
        }
      }
      assert (exists i :: 0 <= i < |search| && search[i].0 == name) ==>
               exists i :: 0 <= i < |search[1..]| && search[1..][i].0 == name by {
        if exists i :: 0 <= i < |search| && search[i].0 == name {
          var i :| 0 <= i < |search| && search[i].0 == name;
          assert search[1..][i - 1].0 == name;
        }
      }
      r
  }

  /** `getSecretParameter` is `getUrlParam` under another name. */
  function GetSecretParameter(search: seq<(string, string)>, name: string): Option<string> {
    GetUrlParam(search, name)
  }

  lemma SecretParameterIsUrlParam(search: seq<(string, string)>, name: string)
    ensures GetSecretParameter(search, name) == GetUrlParam(search, name)
  {
  }
}
