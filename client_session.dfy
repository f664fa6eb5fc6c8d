/** The browser's session (public/js/utils.js): the token and the user record
    that `TokenManager` and `UserManager` keep in `localStorage`, the
    `AuthGuard` page checks, and the headers `API.request` sends. The user
    record is kept decoded; its JSON text encoding is not part of this model. */
module ClientSession {
  import opened Common
  import Gates
  import AuthRoutes

  /** The JSON values the stored user record holds. */
  datatype Json = Null | Bool(b: bool) | Num(n: int) | Str(s: string)

  /** A JSON object: the user record as `JSON.parse` returns it. */
  type Fields = map<string, Json>

  /** JavaScript truthiness of a JSON value. */
  predicate IsTruthy(j: Json) {
    match j
    case Null => false
    case Bool(b) => b
    case Num(n) => n != 0
    case Str(s) => s != ""
  }

  /** `{ ...user, ...updates }`: every key of `updates` takes the update's value,
      every other key of `user` keeps its own, and no other key appears. */
  function Merge(user: Fields, updates: Fields): (r: Fields)
    ensures r.Keys == user.Keys + updates.Keys
    ensures forall k :: k in updates ==> r[k] == updates[k]
    ensures forall k :: k in user && k !in updates ==> r[k] == user[k]
  {
    user + updates
  }

  /** Merging the same updates twice is merging them once. */
  lemma MergeIdempotent(user: Fields, updates: Fields)
    ensures Merge(Merge(user, updates), updates) == Merge(user, updates)
  {
  }

  /** The two `localStorage` entries: `earnlang_token` and the decoded
      `earnlang_user`; `None` is an absent entry (or a stored `null` user). */
  class Session {
    var token: Option<string>
    var user: Option<Fields>

    /** A browser with nothing stored. */
    constructor ()
      ensures token.None? && user.None?
    {
      token := None;
      user := None;
    }

    /** `isAuthenticated`: `!!getToken()`, the truthiness of the stored token,
        so an empty token does not authenticate. */
    predicate IsAuthenticated()
      reads this
      ensures IsAuthenticated() <==> AuthRoutes.Truthy(token)
    {
      token.Some? && token.value != ""
    }

    method SetToken(t: string)
      modifies this
      ensures token == Some(t) && user == old(user)
    {
      token := Some(t);
    }

    method SetUser(u: Fields)
      modifies this
      ensures user == Some(u) && token == old(token)
    {
      user := Some(u);
    }

    /** `updateUser(updates)`: with no stored user, nothing is stored and the
        answer is `null`; otherwise the merged record is stored and returned. */
    method UpdateUser(updates: Fields) returns (r: Option<Fields>)
      modifies this
      ensures old(user).None? ==> r.None? && user.None?
      ensures old(user).Some? ==> r == Some(Merge(old(user).value, updates)) && user == r
      ensures token == old(token)
    {
      if user.Some? {
        var updated := Merge(user.value, updates);
        user := Some(updated);
        r := Some(updated);
      } else {
        r := None;
      }
    }

    /** `AuthGuard.checkAuth`: true on a signed-in browser; otherwise false and
        a redirect to the landing page. */
    function CheckAuth(): (r: (bool, Option<string>))
      reads this
      ensures r.0 <==> IsAuthenticated()
      ensures r.1.Some? <==> !r.0
      ensures r.1.Some? ==> r.1.value == "/index.html"
    {
      if !IsAuthenticated() then (false, Some("/index.html")) else (true, None)
    }

    /** `AuthGuard.checkGuest`: true on a signed-out browser; otherwise false and
        a redirect to the dashboard. */
    function CheckGuest(): (r: (bool, Option<string>))
      reads this
      ensures r.0 <==> !IsAuthenticated()
      ensures r.1.Some? <==> !r.0
      ensures r.1.Some? ==> r.1.value == "/dashboard.html"
    {
      if IsAuthenticated() then (false, Some("/dashboard.html")) else (true, None)
    }

    /** `AuthGuard.logout`: both entries removed, then the landing page. */
    method Logout() returns (redirect: string)
      modifies this
      ensures token.None? && user.None? && !IsAuthenticated()
      ensures redirect == "/index.html"
    {
      token := None;
      user := None;
      redirect := "/index.html";
    }

    /** `API.request`'s headers in the current state. */
    function Headers(custom: map<string, string>): (h: map<string, string>)
      reads this
      ensures "Authorization" in h <==> "Authorization" in custom || IsAuthenticated()
    {
      RequestHeaders(token, custom)
    }
  }

  /** Exactly one of the two guards lets a page load, in any state. */
  lemma GuardsAreOpposite(s: Session)
    ensures s.CheckAuth().0 != s.CheckGuest().0
    ensures s.CheckAuth().1.Some? != s.CheckGuest().1.Some?
  {
  }

  /** The headers of a request: `Content-Type: application/json` and, with a
      truthy token, `Authorization: Bearer <token>`, then the caller's own
      headers on top. */
  function RequestHeaders(token: Option<string>, custom: map<string, string>): (h: map<string, string>)
    ensures h.Keys == custom.Keys + {"Content-Type"} + (if token.Some? && token.value != "" then {"Authorization"} else {})
    ensures forall k :: k in custom ==> h[k] == custom[k]
    ensures "Content-Type" !in custom ==> h["Content-Type"] == "application/json"
    ensures "Authorization" !in custom && token.Some? && token.value != "" ==>
              h["Authorization"] == "Bearer " + token.value
  {
    var defaults := map["Content-Type" := "application/json"];
    var withAuth := if token.Some? && token.value != "" then defaults["Authorization" := "Bearer " + token.value] else defaults;
    withAuth + custom
  }

  /** The token the browser stores is the token the server's middleware reads
      back out of the request it sends, unless the caller set its own
      `Authorization` header. */
  lemma SentTokenIsReceived(token: string, custom: map<string, string>)
    requires token != "" && "Authorization" !in custom
    ensures var h := RequestHeaders(Some(token), custom);
            "Authorization" in h && Gates.TokenOf(Some(h["Authorization"])) == Some(token)
  {
    Gates.TokenOfHeader(token, "");
  }
}
