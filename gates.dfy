/** The access gates in front of the handlers: the token middleware
    (middleware/auth.js), the administrator middleware
    (middleware/adminAuth.js), and the in-memory server's `simpleAuth` with its
    administrator check (server-simple.js). Each is a decision over the
    `Authorization` header and the looked-up account: deny with a status, or
    pass with what the handler gets in `req`. Token signatures are abstracted:
    `verify` stands for `jwt.verify` with the server's secret, `None` for a
    token it throws on. */
module Gates {
  import opened Common
  import opened Ledger

  /** The outcome of a middleware: `next()` with a value, or an error reply. */
  datatype Gate<+T> = Pass(value: T) | Deny(status: int, message: string)

  /** The result of `findById`: the document, `null`, or an exception. */
  datatype Lookup<+T> = Found(doc: T) | Missing | Broken

  /** Whether `pat` occurs in `s` at position `i`. */
  predicate OccursAt(s: string, pat: string, i: nat) {
    i + |pat| <= |s| && s[i..i + |pat|] == pat
  }

  /** The first position at or after `from` where `pat` occurs in `s`, if any. */
  function FindFrom(s: string, pat: string, from: nat): (r: Option<nat>)
    requires from <= |s|
    ensures r.Some? ==> from <= r.value && OccursAt(s, pat, r.value)
    ensures r.Some? ==> forall i :: from <= i < r.value ==> !OccursAt(s, pat, i)
    ensures r.None? ==> forall i :: from <= i ==> !OccursAt(s, pat, i)
    decreases |s| - from
  {
    if from + |pat| > |s| then None
    else if OccursAt(s, pat, from) then Some(from)
    else FindFrom(s, pat, from + 1)
  }

  /** `s.indexOf(pat)`: the first position where `pat` occurs in `s`, if any. */
  function Find(s: string, pat: string): (r: Option<nat>)
    ensures r.Some? ==> OccursAt(s, pat, r.value) && forall i :: 0 <= i < r.value ==> !OccursAt(s, pat, i)
    ensures r.None? ==> forall i :: 0 <= i ==> !OccursAt(s, pat, i)
  {
    FindFrom(s, pat, 0)
  }

  /** `s.replace(pat, by)` with a string pattern: only the first occurrence is
      replaced. */
  function ReplaceFirst(s: string, pat: string, replacement: string): string {
    match Find(s, pat)
    case None => s
    case Some(i) => s[..i] + replacement + s[i + |pat|..]
  }

  /** `req.header('Authorization')?.replace('Bearer ', '')`: the header with its
      first "Bearer " removed, wherever it stands; `None` without a header. */
  function TokenOf(header: Option<string>): Option<string> {
    match header
    case None => None
    case Some(h) => Some(ReplaceFirst(h, "Bearer ", ""))
  }

  /** A well-formed header yields the token after the scheme; a header without
      "Bearer " anywhere is taken whole as the token. */
  lemma TokenOfHeader(t: string, h: string)
    ensures TokenOf(Some("Bearer " + t)) == Some(t)
    ensures (forall i :: 0 <= i ==> !OccursAt(h, "Bearer ", i)) ==> TokenOf(Some(h)) == Some(h)
  {
    var h := "Bearer " + t;
    assert OccursAt(h, "Bearer ", 0);
    assert Find(h, "Bearer ") == Some(0);
    assert h[..0] + "" + h[|"Bearer "|..] == t;
    assert ReplaceFirst(h, "Bearer ", "") == t;
  }

  /** The header carries a non-empty token that verifies, and its `userId`
      names an account that is banned. */
  predicate NamesBannedAccount(header: Option<string>, verify: string -> Option<Payload>, users: map<Id, User>) {
    && TokenOf(header).Some? && TokenOf(header).value != ""
    && verify(TokenOf(header).value).Some?
    && Claim(verify(TokenOf(header).value).value, "userId").Some?
    && Claim(verify(TokenOf(header).value).value, "userId").value in users
    && users[Claim(verify(TokenOf(header).value).value, "userId").value].isBanned
  }

  /** The token middleware of the database routes. It denies with 401 when the
      header yields no token or an empty one, when the token does not verify, or
      when its `userId` names no account; with 403 when the account is banned;
      otherwise `req.user` is the decoded payload. */
  function Auth(header: Option<string>, verify: string -> Option<Payload>, users: map<Id, User>): (r: Gate<Payload>)
    ensures r.Pass? <==>
      && TokenOf(header).Some? && TokenOf(header).value != ""
      && verify(TokenOf(header).value).Some?
      && Claim(verify(TokenOf(header).value).value, "userId").Some?
      && Claim(verify(TokenOf(header).value).value, "userId").value in users
      && !users[Claim(verify(TokenOf(header).value).value, "userId").value].isBanned
    ensures r.Pass? ==> r.value == verify(TokenOf(header).value).value
    ensures r.Deny? ==> r.status == 401 || (r.status == 403 && r.message == "Account is banned")
    ensures TokenOf(header).None? || TokenOf(header).value == "" ==>
              r == Deny(401, "No token, authorization denied")
    ensures r == Deny(403, "Account is banned") <==> NamesBannedAccount(header, verify, users)
    ensures (r.Deny? && TokenOf(header).Some? && TokenOf(header).value != ""
             && !NamesBannedAccount(header, verify, users)) ==> r == Deny(401, "Token is not valid")
  {
    var token := TokenOf(header);
    if token.None? || token.value == "" then Deny(401, "No token, authorization denied")
    else match verify(token.value)
      case None => Deny(401, "Token is not valid")
      case Some(decoded) =>
        var id := Claim(decoded, "userId");
        if id.None? || id.value !in users then Deny(401, "Token is not valid")
        else if users[id.value].isBanned then Deny(403, "Account is banned")
        else Pass(decoded)
  }

  /** The administrator middleware, after `Auth`: 500 when the lookup throws,
      401 without an account, 403 for a non-administrator (checked before the
      ban), 403 for a banned administrator; otherwise `req.adminUser` is the
      account. */
  function AdminAuth(found: Lookup<User>): (r: Gate<User>)
    ensures r.Pass? <==> found.Found? && found.doc.isAdmin && !found.doc.isBanned
    ensures r.Pass? ==> r.value == found.doc
    ensures found.Found? && !found.doc.isAdmin ==> r == Deny(403, "Admin access required")
    ensures found.Broken? <==> r.Deny? && r.status == 500
    ensures found.Missing? ==> r == Deny(401, "User not found")
    ensures found.Found? && found.doc.isAdmin && found.doc.isBanned ==> r == Deny(403, "Account is banned")
  {
    match found
    case Broken => Deny(500, "Server error")
    case Missing => Deny(401, "User not found")
    case Found(u) =>
      if !u.isAdmin then Deny(403, "Admin access required")
      else if u.isBanned then Deny(403, "Account is banned")
      else Pass(u)
  }

  /** The pair of middlewares every administrator route runs, over one state of
      the user collection: the account is looked up by the payload's `userId`. */
  function AdminGate(header: Option<string>, verify: string -> Option<Payload>, users: map<Id, User>): Gate<(Payload, User)> {
    match Auth(header, verify, users)
    case Deny(s, m) => Deny(s, m)
    case Pass(payload) =>
      var id := Claim(payload, "userId");
      var found := if id.Some? && id.value in users then Found(users[id.value]) else Missing;
      match AdminAuth(found)
      case Deny(s, m) => Deny(s, m)
      case Pass(admin) => Pass((payload, admin))
  }

  /** Through both middlewares, exactly the verified tokens of unbanned
      administrators pass, with the account they name; the administrator
      middleware's own ban check and its 401 and 500 answers can never fire,
      because the token middleware has already turned those requests away. */
  lemma AdminGateExactly(header: Option<string>, verify: string -> Option<Payload>, users: map<Id, User>)
    ensures var r := AdminGate(header, verify, users);
            var a := Auth(header, verify, users);
            && (r.Pass? <==> a.Pass? && users[Claim(a.value, "userId").value].isAdmin)
            && (r.Pass? ==> r.value == (a.value, users[Claim(a.value, "userId").value]))
            && (r.Deny? && a.Pass? ==> r == Deny(403, "Admin access required"))
            && (a.Deny? ==> r == Deny(a.status, a.message))
  {
  }

  /** `simpleAuth` of the in-memory server: the token is the account id itself.
      401 without a (non-empty) token or when no account has that id;
      otherwise `req.userData` is the account. */
  function SimpleAuth(header: Option<string>, users: map<Id, User>): (r: Gate<User>)
    ensures r.Pass? <==> TokenOf(header).Some? && TokenOf(header).value in users && TokenOf(header).value != ""
    ensures r.Pass? ==> r.value == users[TokenOf(header).value]
    ensures r.Deny? ==> r.status == 401
  {
    var token := TokenOf(header);
    if token.None? || token.value == "" then Deny(401, "No token provided")
    else if token.value !in users then Deny(401, "Invalid token")
    else Pass(users[token.value])
  }

  /** The administrator check of the in-memory server's admin routes. */
  function SimpleAdmin(header: Option<string>, users: map<Id, User>): (r: Gate<User>)
    ensures r.Pass? <==> SimpleAuth(header, users).Pass? && SimpleAuth(header, users).value.isAdmin
    ensures SimpleAuth(header, users).Pass? && !r.Pass? ==> r == Deny(403, "Admin access required")
    ensures r.Pass? ==> r == SimpleAuth(header, users)
  {
    match SimpleAuth(header, users)
    case Deny(s, m) => Deny(s, m)
    case Pass(u) => if u.isAdmin then Pass(u) else Deny(403, "Admin access required")
  }
}
