/** The sign-in, sign-up and change-email forms (public/js/auth.js): the order
    of their checks, the body they send, and what is stored and where the
    browser goes afterwards. A form field is `None` when its element is not on
    the page; the request itself and the notifications are not part of this
    model. */
module AuthForms {
  import opened Common
  import opened Validation
  import opened ClientSession
  import AuthRoutes
  import Ledger

  /** The error notifications of the three forms. */
  datatype FormError =
    | FillAllFields | FillRequiredFields | InvalidEmail | InvalidUsername
    | ShortPassword | PasswordsDiffer | TermsNotAccepted

  /** The text each error notification shows. */
  function Message(e: FormError): string {
    match e
    case FillAllFields => "Please fill in all fields"
    case FillRequiredFields => "Please fill in all required fields"
    case InvalidEmail => "Please enter a valid email address"
    case InvalidUsername => "Username must be 3-20 characters and contain only letters, numbers, and underscores"
    case ShortPassword => "Password must be at least 6 characters long"
    case PasswordsDiffer => "Passwords do not match"
    case TermsNotAccepted => "Please accept the Terms of Service"
  }

  /** The outcome of submitting a form: an error notification, or the request
      body that is sent. */
  datatype Outcome = Refuse(error: FormError) | Submit(body: map<string, string>)

  /** A string is truthy when it is not empty; `None` is `undefined`. */
  predicate Filled(v: Option<string>) {
    v.Some? && v.value != ""
  }

  /** `a?.value.trim()`. */
  function TrimmedValue(a: Option<string>): (r: Option<string>)
    ensures r.Some? <==> a.Some?
    ensures r.Some? ==> r.value == Trim(a.value)
  {
    match a
    case None => None
    case Some(v) => Some(Trim(v))
  }

  /** `x || y` on two optional strings: `x` when it is truthy, else `y`. */
  function Or(x: Option<string>, y: Option<string>): (r: Option<string>)
    ensures Filled(x) ==> r == x
    ensures !Filled(x) ==> r == y
  {
    if Filled(x) then x else y
  }

  // ---------------------------------------------------------------------------
  // Sign in

  /** `handleLogin`: the email is trimmed and the password taken as typed. */
  function LoginForm(emailField: string, password: string): (r: Outcome)
    ensures r == Refuse(FillAllFields) <==> Trim(emailField) == "" || password == ""
    ensures r == Refuse(InvalidEmail) <==>
              Trim(emailField) != "" && password != "" && !IsValidEmail(Trim(emailField))
    ensures r.Submit? <==> password != "" && IsValidEmail(Trim(emailField))
    ensures r.Submit? ==> r.body == map["email" := Trim(emailField), "password" := password]
  {
    var email := Trim(emailField);
    if email == "" || password == "" then Refuse(FillAllFields)
    else if !IsValidEmail(email) then Refuse(InvalidEmail)
    else Submit(map["email" := email, "password" := password])
  }

  /** A sign-in the form lets through is never refused by the server for a
      missing field. */
  lemma SubmittedLoginHasFields(emailField: string, password: string, found: Option<Ledger.User>,
                                compare: (string, string) -> bool)
    requires LoginForm(emailField, password).Submit?
    ensures var b := LoginForm(emailField, password).body;
            AuthRoutes.LoginCheck(Some(b["email"]), Some(b["password"]), found, compare)
              != Fail(400, "Email and password are required")
  {
    EmailCheckMatchesPattern(Trim(emailField));
  }

  // ---------------------------------------------------------------------------
  // Sign up

  /** The sign-up form's elements. Two pages carry it, with different element
      ids; the first present and non-empty one is used. */
  datatype SignupFields = SignupFields(
    signupUsername: Option<string>, username: Option<string>,
    signupEmail: Option<string>, email: Option<string>,
    signupPassword: Option<string>, password: Option<string>,
    confirmPassword: Option<string>,
    referralCode: Option<string>,
    termsAccepted: Option<bool>)

  function SignupUsername(f: SignupFields): Option<string> {
    Or(TrimmedValue(f.signupUsername), TrimmedValue(f.username))
  }

  function SignupEmail(f: SignupFields): Option<string> {
    Or(TrimmedValue(f.signupEmail), TrimmedValue(f.email))
  }

  function SignupPassword(f: SignupFields): Option<string> {
    Or(f.signupPassword, f.password)
  }

  /** The checks before the passwords are compared. */
  predicate FieldsValid(f: SignupFields) {
    && Filled(SignupUsername(f)) && Filled(SignupEmail(f)) && Filled(SignupPassword(f))
    && IsValidUsername(SignupUsername(f).value)
    && IsValidEmail(SignupEmail(f).value)
    && IsValidPassword(SignupPassword(f).value)
  }

  /** The passwords disagree: only checked when a confirmation was typed. */
  predicate Mismatch(f: SignupFields)
    requires Filled(SignupPassword(f))
  {
    Filled(f.confirmPassword) && f.confirmPassword.value != SignupPassword(f).value
  }

  /** The registration body: the three fields, and the referral code only when
      it is not blank. */
  function SignupBody(username: string, email: string, password: string, referral: Option<string>): (b: map<string, string>)
    ensures "referralCode" in b <==> Filled(referral)
    ensures b.Keys - {"referralCode"} == {"username", "email", "password"}
    ensures b["username"] == username && b["email"] == email && b["password"] == password
    ensures Filled(referral) ==> b["referralCode"] == referral.value
  {
    var b := map["username" := username, "email" := email, "password" := password];
    if Filled(referral) then b["referralCode" := referral.value] else b
  }

  /** `handleSignup`: six checks in a fixed order, the first failure decides. */
  function SignupForm(f: SignupFields): (r: Outcome)
    ensures r == Refuse(FillRequiredFields) <==>
              !Filled(SignupUsername(f)) || !Filled(SignupEmail(f)) || !Filled(SignupPassword(f))
    ensures r == Refuse(InvalidUsername) <==>
              Filled(SignupUsername(f)) && Filled(SignupEmail(f)) && Filled(SignupPassword(f))
              && !IsValidUsername(SignupUsername(f).value)
    ensures r == Refuse(InvalidEmail) <==>
              Filled(SignupUsername(f)) && Filled(SignupEmail(f)) && Filled(SignupPassword(f))
              && IsValidUsername(SignupUsername(f).value) && !IsValidEmail(SignupEmail(f).value)
    ensures r == Refuse(ShortPassword) <==>
              Filled(SignupUsername(f)) && Filled(SignupEmail(f)) && Filled(SignupPassword(f))
              && IsValidUsername(SignupUsername(f).value) && IsValidEmail(SignupEmail(f).value)
              && !IsValidPassword(SignupPassword(f).value)
    ensures r == Refuse(PasswordsDiffer) <==> FieldsValid(f) && Mismatch(f)
    ensures r == Refuse(TermsNotAccepted) <==>
              FieldsValid(f) && !Mismatch(f) && f.termsAccepted == Some(false)
    ensures r.Submit? <==> FieldsValid(f) && !Mismatch(f) && f.termsAccepted != Some(false)
    ensures r.Submit? ==>
              r.body == SignupBody(SignupUsername(f).value, SignupEmail(f).value, SignupPassword(f).value,
                                   TrimmedValue(f.referralCode))
  {
    var username := SignupUsername(f);
    var email := SignupEmail(f);
    var password := SignupPassword(f);
    if !Filled(username) || !Filled(email) || !Filled(password) then
      Refuse(FillRequiredFields)
    else if !IsValidUsername(username.value) then Refuse(InvalidUsername)
    else if !IsValidEmail(email.value) then Refuse(InvalidEmail)
    else if !IsValidPassword(password.value) then Refuse(ShortPassword)
    else if Filled(f.confirmPassword) && password.value != f.confirmPassword.value then Refuse(PasswordsDiffer)
    else if f.termsAccepted == Some(false) then Refuse(TermsNotAccepted)
    else Submit(SignupBody(username.value, email.value, password.value, TrimmedValue(f.referralCode)))
  }

  /** A sign-up the form lets through passes the server's own input checks, and
      its username and email are sent already trimmed. */
  lemma SubmittedSignupPassesServerChecks(f: SignupFields)
    requires SignupForm(f).Submit?
    ensures var b := SignupForm(f).body;
            && AuthRoutes.RegisterInputError(AuthRoutes.RegisterBody(
                 Some(b["username"]), Some(b["email"]), Some(b["password"]),
                 if "referralCode" in b then Some(b["referralCode"]) else None)).None?
            && Trim(b["username"]) == b["username"] && Trim(b["email"]) == b["email"]
  {
    var b := SignupForm(f).body;
    AcceptedValuesAreTrimmed(b["username"]);
    AcceptedValuesAreTrimmed(b["email"]);
  }

  /** `!response.user.isVerified`: an unverified account (or one whose answer
      does not say) goes to the verification page, a verified one to the
      dashboard. */
  function RedirectAfterSignup(user: Fields): (page: string)
    ensures page == "/dashboard.html" <==> "isVerified" in user && IsTruthy(user["isVerified"])
    ensures page != "/dashboard.html" ==> page == "/verify.html"
  {
    if "isVerified" in user && IsTruthy(user["isVerified"]) then "/dashboard.html" else "/verify.html"
  }

  /** After a successful sign-in or sign-up: the answer's token and user are
      stored, and the browser is sent on. */
  method StoreSession(s: Session, token: string, user: Fields, signup: bool) returns (redirect: string)
    modifies s
    ensures s.token == Some(token) && s.user == Some(user)
    ensures s.IsAuthenticated() <==> token != ""
    ensures redirect == (if signup then RedirectAfterSignup(user) else "/dashboard.html")
  {
    s.SetToken(token);
    s.SetUser(user);
    redirect := if signup then RedirectAfterSignup(user) else "/dashboard.html";
  }

  // ---------------------------------------------------------------------------
  // Change email

  /** `handleChangeEmail`'s checks before the request. */
  function ChangeEmailForm(newEmailField: string, currentPassword: string): (r: Outcome)
    ensures r == Refuse(FillAllFields) <==> Trim(newEmailField) == "" || currentPassword == ""
    ensures r == Refuse(InvalidEmail) <==>
              Trim(newEmailField) != "" && currentPassword != "" && !IsValidEmail(Trim(newEmailField))
    ensures r.Submit? <==> currentPassword != "" && IsValidEmail(Trim(newEmailField))
    ensures r.Submit? ==> r.body == map["email" := Trim(newEmailField), "currentPassword" := currentPassword]
  {
    var email := Trim(newEmailField);
    if email == "" || currentPassword == "" then Refuse(FillAllFields)
    else if !IsValidEmail(email) then Refuse(InvalidEmail)
    else Submit(map["email" := email, "currentPassword" := currentPassword])
  }

  /** After the server accepted the new email: the stored user, if any, gets
      the new email and is marked unverified; everything else it holds stays. */
  method ApplyEmailChange(s: Session, newEmail: string)
    modifies s
    ensures old(s.user).None? ==> s.user.None?
    ensures old(s.user).Some? ==>
              && s.user.Some?
              && s.user.value.Keys == old(s.user).value.Keys + {"email", "isVerified"}
              && s.user.value["email"] == Str(newEmail) && s.user.value["isVerified"] == Bool(false)
              && forall k :: k in old(s.user).value && k != "email" && k != "isVerified" ==>
                   s.user.value[k] == old(s.user).value[k]
    ensures s.token == old(s.token)
  {
    var _ := s.UpdateUser(map["email" := Str(newEmail), "isVerified" := Bool(false)]);
  }
}
