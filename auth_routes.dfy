/** The decisions of the database server's account routes
    (routes/authRoutes.js): which registration bodies are refused and with what
    message, and how a login attempt is answered. The store changes that follow
    these decisions are `Store.Register` and `Store.Login` in store.dfy. */
module AuthRoutes {
  import opened Common
  import opened Ledger

  /** A string field of a JSON body is truthy: present and not empty. */
  predicate Truthy(v: Option<string>) {
    v.Some? && v.value != ""
  }

  /** The fields of a registration body; `None` is a field the client left out. */
  datatype RegisterBody = RegisterBody(
    username: Option<string>,
    email: Option<string>,
    password: Option<string>,
    referralCode: Option<string>)

  /** The input checks of registration, made before any lookup: the message of
      the 400 answer, or `None` when the body may go on to the duplicate check. */
  function RegisterInputError(b: RegisterBody): (r: Option<string>)
    ensures r == Some("All fields are required") <==>
              !Truthy(b.username) || !Truthy(b.email) || !Truthy(b.password)
    ensures r == Some("Password must be at least 6 characters") <==>
              Truthy(b.username) && Truthy(b.email) && Truthy(b.password) && |b.password.value| < 6
    ensures r.None? <==>
              Truthy(b.username) && Truthy(b.email) && Truthy(b.password) && |b.password.value| >= 6
  {
    if !Truthy(b.username) || !Truthy(b.email) || !Truthy(b.password) then Some("All fields are required")
    else if |b.password.value| < 6 then Some("Password must be at least 6 characters")
    else None
  }

  /** An existing account the registration clashes with: same email or same username. */
  predicate Clashes(u: User, email: string, username: string) {
    u.email == email || u.username == username
  }

  /** The message for a clash with the account the lookup found. */
  function DuplicateMessage(existing: User, email: string): string {
    if existing.email == email then "Email already registered" else "Username already taken"
  }

  /** The message is truthful for whichever clashing account the lookup finds:
      it names the email exactly when that account has the requested email,
      and otherwise that account has the requested username. */
  lemma DuplicateMessageIsTruthful(existing: User, email: string, username: string)
    requires Clashes(existing, email, username)
    ensures DuplicateMessage(existing, email) == "Email already registered" <==> existing.email == email
    ensures DuplicateMessage(existing, email) == "Username already taken" ==> existing.username == username
  {
  }

  /** The answer to a login attempt, given what `findOne({ email })` found and
      `compare`, which stands for `bcrypt.compare` of a password with a stored
      hash. The ban is checked before the password; on success the answer
      carries the account. */
  function LoginCheck(email: Option<string>, password: Option<string>, found: Option<User>,
                      compare: (string, string) -> bool): (r: Reply<User>)
    ensures r.Ok? <==>
              Truthy(email) && Truthy(password) && found.Some? && !found.value.isBanned
              && compare(password.value, found.value.password)
    ensures r.Ok? ==> r == Ok(200, found.value)
    ensures r == Fail(400, "Email and password are required") <==> !Truthy(email) || !Truthy(password)
    ensures r.Fail? && r.status == 403 <==>
              Truthy(email) && Truthy(password) && found.Some? && found.value.isBanned
    ensures r.Fail? ==> r.status == 403 || r.status == 400
  {
    if !Truthy(email) || !Truthy(password) then Fail(400, "Email and password are required")
    else match found
      case None => Fail(400, "Invalid credentials")
      case Some(u) =>
        if u.isBanned then Fail(403, "Account is banned")
        else if !compare(password.value, u.password) then Fail(400, "Invalid credentials")
        else Ok(200, u)
  }

  /** An unknown email and a wrong password for an account that is not banned
      get the same answer, so the answer does not reveal which accounts exist. */
  lemma UnknownEmailLooksLikeWrongPassword(email: Option<string>, password: Option<string>, u: User,
                                           compare: (string, string) -> bool)
    requires Truthy(email) && Truthy(password)
    requires !u.isBanned && !compare(password.value, u.password)
    ensures LoginCheck(email, password, None, compare) == LoginCheck(email, password, Some(u), compare)
    ensures LoginCheck(email, password, None, compare) == Fail(400, "Invalid credentials")
  {
  }

  /** A banned account is refused with 403 whatever password is offered and
      however the hash comparison would come out. */
  lemma BannedWhateverThePassword(email: Option<string>, p1: string, p2: string, u: User,
                                  c1: (string, string) -> bool, c2: (string, string) -> bool)
    requires Truthy(email) && p1 != "" && p2 != "" && u.isBanned
    ensures LoginCheck(email, Some(p1), Some(u), c1) == LoginCheck(email, Some(p2), Some(u), c2)
    ensures LoginCheck(email, Some(p1), Some(u), c1) == Fail(403, "Account is banned")
  {
  }
}
