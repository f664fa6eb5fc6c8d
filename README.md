# EARNLANG rewards platform: payout lifecycle, points ledger, gates and form checks

EARNLANG pays its users in points for completing learning tasks. Points can be
cashed out to a GCash wallet at ten points per peso. An administrator approves
or rejects each cash-out request; a rejection refunds the points. This Dafny
project models the part of the system that decides who may do what and how
the balances move:

- **Common** (`common.dfy`): identifiers, HTTP replies, token payload claims,
  JavaScript's `\s` class and `String.prototype.trim`.
- **Validation** (`validation.dfy`): the browser's validators for e-mail,
  password, username and GCash number. The e-mail check is proved equal to
  the language of its regular expression.
- **Format** (`format.dfy`): the relative-time text ("3 hours ago") and its
  inverse reading.
- **Ledger** (`ledger.dfy`): the user, task and payout records, the payout
  status machine, the single-record debit, credit and refund, and the points a
  user's pending payouts hold back.
- **Gates** (`gates.dfy`): the token middleware, the administrator middleware,
  and the in-memory server's `simpleAuth` and administrator check.
- **AuthRoutes** (`auth_routes.dfy`): the input checks of registration and
  sign-in in the database routes.
- **AdminQueries** (`admin_queries.dfy`): paging and status filters of the
  administrator listings.
- **Server** (`store.dfy`): the class `Store` holding users, tasks and payouts.
  Its methods are the handlers that change them. These are the in-memory
  server's sign-in, registration, task completion, payout request and
  dashboard, and the database routes' payout decisions, account and task
  administration, registration, sign-in and e-mail verification.
- **ClientSession** (`client_session.dfy`): the browser's stored token and
  user, the page guards, logout and the request headers.
- **PayoutPage** (`payout_page.dfy`): the cash-out form, the history filter,
  the history rendering loop and the status summary.
- **AuthForms** (`auth_forms.dfy`): the sign-in, sign-up and change-of-e-mail
  forms, and what they store after success.

How outside calls are represented:

- Password hashing and token signing are parameters. `hashed` is the stored
  hash, `compare` stands for `bcrypt.compare`, and `verify` for `jwt.verify`
  with the server secret (`None` for a token it rejects).
- Clocks and new identifiers are parameters: `now`, `newId`, `payoutId`.
- A database lookup by a non-key field, such as `findOne({ email })`, may
  return any matching document. The methods expose the one they used as an
  out-parameter.
- The database handlers receive what the gates passed on: the
  administrator's account, or the caller's id.
- The validators carry no contract of their own:
  - `IsValidUsername` and `IsValidGCashNumber` read their regular
    expressions directly.
  - `IsValidPassword` is the length check: at least six characters.
  - `IsValidEmail` scans the address. It is proved equal to
    `MatchesEmailPattern`, the direct reading of its regular expression.
  - The lemmas below pin them down.

## Model

| member | source | states |
|---|---|---|
| Common.Trim | public/js/auth.js:59 | the trimmed value is a slice of the input with only whitespace cut off on either side, and neither of its ends is whitespace |
| Common.TrimIdempotent | public/js/auth.js:103-106 | trimming an already trimmed value changes nothing |
| Validation.EmailCheckMatchesPattern | public/js/utils.js:216-219 | the e-mail check accepts exactly the strings of the form local@domain.tld, where each part is non-empty and has no whitespace or `@`, and the dot is some dot after the `@` |
| Validation.EmailExamples | public/js/utils.js:216-219 | `a@b.c` is accepted; an empty part on either side of the dot is refused |
| Validation.EmailAtSignExamples | public/js/utils.js:216-219 | a missing local part, a second `@` and inner whitespace are refused |
| Validation.UsernameExamples | public/js/utils.js:225-228 | names of 3 and 20 word characters are accepted, of 2 and 21 refused, and a hyphen is refused |
| Validation.GCashExamples | public/js/utils.js:230-233 | an `09` prefix and exactly eleven digits are required |
| Validation.AcceptedValuesAreTrimmed | public/js/utils.js:225-233 | a username or GCash number the validators accept is non-empty and left unchanged by trimming |
| Format.ElapsedOf | public/js/utils.js:263-276 | "just now" exactly below 60 seconds (negative differences included); otherwise the count of whole units, for the largest unit the difference reaches, is between 1 and the number that fits |
| Format.NatTextValue | public/js/utils.js:269 | the decimal text of a count denotes that count |
| Format.TextRoundTrip | public/js/utils.js:265-276 | reading a relative-time text back gives the bucket it was made from, so no two buckets share a text |
| Format.PluralExactlyAboveOne | public/js/utils.js:269 | the text ends in "s ago" exactly when the count is above one |
| Format.FormatRelativeTime | public/js/utils.js:260-277 | the text is "Just now" exactly when less than a minute has passed, a moment in the future included |
| Format.JustNowExamples | public/js/utils.js:263-266 | 59.999 s ago and a moment 10 s in the future both read "Just now" |
| Format.MinuteExample | public/js/utils.js:267-269 | exactly one minute reads "1 minute ago", in the singular |
| Format.HoursExample | public/js/utils.js:270-272 | two hours read "2 hours ago", in the plural |
| Format.DayExample | public/js/utils.js:273-275 | exactly one day reads "1 day ago" |
| Ledger.Decide | routes/adminRoutes.js:342-346 | a decision is accepted exactly on a pending payout; approval completes it and rejection rejects it |
| Ledger.DecidedIsFinal | routes/adminRoutes.js:342-344 | a payout that is no longer pending stays as it is under any series of decisions |
| Ledger.LeavesPendingAtMostOnce | routes/adminRoutes.js:375-386 | of any series of approvals and rejections, at most one is accepted, and exactly one when the payout was pending |
| Ledger.NewPayout | server-simple.js:218-227 | a new request is pending and unprocessed, and uses ten points per peso |
| Ledger.Decided | routes/adminRoutes.js:346-349 | a decision sets the status and the time, decider and notes stamps, and keeps the owner, amount and points |
| Ledger.RequestThenRejectRestores | routes/adminRoutes.js:380-384 | the refund on rejection gives back exactly what the request debited |
| Ledger.DecidedBy | routes/adminRoutes.js:346-349 | the decision stamp names the deciding administrator |
| Ledger.ProcessedByIsLost | routes/adminRoutes.js:348 | for every token the system issues, the stamp as written names nobody |
| Ledger.TotalRemove | server-simple.js:254 | a sum over the records does not depend on the order they are taken in |
| Ledger.TotalUpdate | server-simple.js:254 | replacing one record changes a sum by the difference of its two values |
| Ledger.HeldAfterRequest | server-simple.js:218-228 | recording a new pending payout raises what its owner holds back by its points, and nobody else's |
| Ledger.HeldAfterDecision | routes/adminRoutes.js:380-389 | deciding a pending payout releases its points from what its owner holds back |
| Gates.Find | middleware/auth.js:6 | the first position where the pattern occurs, and none when it occurs nowhere |
| Gates.TokenOfHeader | middleware/auth.js:6 | "Bearer t" yields the token t; a header without "Bearer " is taken whole |
| Gates.Auth | middleware/auth.js:4-33 | a request passes exactly with a verified token whose `userId` names an unbanned account, and carries the payload on. A missing or empty token gets 401 "No token, authorization denied"; a verified token naming a banned account gets exactly 403 "Account is banned"; every other refusal of a non-empty token is 401 "Token is not valid" |
| Gates.AdminAuth | middleware/adminAuth.js:4-28 | passes exactly an unbanned administrator; 500 exactly when the lookup throws; 401 "User not found" without an account; 403 "Admin access required" for a non-administrator, checked before the ban; 403 "Account is banned" for a banned administrator |
| Gates.AdminGateExactly | routes/adminRoutes.js:12-13 | through both middlewares exactly the unbanned administrators pass; the second middleware's ban, 401 and 500 answers can never fire |
| Gates.SimpleAuth | server-simple.js:68-84 | the in-memory token is an account id; it passes exactly for a non-empty id that has an account, otherwise 401 |
| Gates.SimpleAdmin | server-simple.js:246-248 | passes exactly the administrators that `simpleAuth` lets through; any other authenticated account gets 403 |
| AuthRoutes.RegisterInputError | routes/authRoutes.js:15-21 | 400 "All fields are required" exactly when a field is falsy; the password-length message exactly for a filled body with a password under six characters |
| AuthRoutes.DuplicateMessageIsTruthful | routes/authRoutes.js:24-32 | the duplicate message says "Email" exactly when the clash is on the e-mail, and "Username" only on a username clash |
| AuthRoutes.LoginCheck | routes/authRoutes.js:79-98 | sign-in succeeds exactly for a found, unbanned account whose password compares equal; 400 for missing fields or bad credentials, 403 for a banned account |
| AuthRoutes.UnknownEmailLooksLikeWrongPassword | routes/authRoutes.js:84-98 | an unknown e-mail and a wrong password get the same answer |
| AuthRoutes.BannedWhateverThePassword | routes/authRoutes.js:90-98 | a banned account gets 403 whichever password is given |
| AdminQueries.IntParam | routes/adminRoutes.js:84-85 | an absent or zero parameter falls back to the default, like `parseInt(q) \|\| d` |
| AdminQueries.Page | routes/adminRoutes.js:84 | the page number is never zero, and 1 by default |
| AdminQueries.Limit | routes/adminRoutes.js:85 | the page size is never zero, and 20 by default |
| AdminQueries.Pages | routes/adminRoutes.js:120 | `Math.ceil(total / limit)`: with a positive limit, the fewest pages that hold the total, and 0 exactly for an empty listing |
| AdminQueries.Window | routes/adminRoutes.js:106-110 | a negative skip is refused; otherwise the page is the slice starting at skip, of at most `limit` records |
| AdminQueries.PageHoldsSomethingIffCounted | routes/adminRoutes.js:106-120 | a page holds records exactly when its number is at most the page count |
| AdminQueries.FirstPagesArePrefix | routes/adminRoutes.js:307-311 | the first n pages put together are the listing's first n·limit records |
| AdminQueries.PagesCoverListing | routes/adminRoutes.js:307-321 | the reported number of pages covers the whole listing |
| AdminQueries.UserStatusFilter | routes/adminRoutes.js:98-104 | "banned" and "active" select on the ban flag; any other status adds no constraint, so the listing is not filtered |
| AdminQueries.UsersWhere | routes/adminRoutes.js:98-107 | the selected accounts are exactly those matching the filter, each without its password hash |
| AdminQueries.ViewLosesOnlyPassword | routes/adminRoutes.js:107 | the projection drops the password hash and nothing else: two accounts look the same exactly when they differ at most in it |
| AdminQueries.UserStatusMeaning | routes/adminRoutes.js:98-104 | "banned" lists the banned accounts, "active" the others, any other value all of them |
| AdminQueries.PayoutsWhere | routes/adminRoutes.js:298-305 | the selected payouts are exactly those whose status string equals the filter, or all of them without one |
| AdminQueries.UnknownPayoutStatusSelectsNothing | routes/adminRoutes.js:303-305 | an empty filter lists every payout; a status no payout can have lists none |
| ClientSession.Merge | public/js/utils.js:43 | `{...user, ...updates}`: every key of either side, with the update's value winning |
| ClientSession.MergeIdempotent | public/js/utils.js:40-48 | applying the same update twice is the same as applying it once |
| ClientSession.Session.SetToken | public/js/utils.js:12-14 | stores the token and leaves the user as it was |
| ClientSession.Session.SetUser | public/js/utils.js:32-34 | stores the user and leaves the token as it was |
| ClientSession.Session.UpdateUser | public/js/utils.js:40-48 | without a stored user nothing changes and the result is null; otherwise the stored user becomes the merge, which is returned |
| ClientSession.Session.IsAuthenticated | public/js/utils.js:20-22 | `!!getToken()`: authenticated exactly when the stored token is truthy, so an empty stored token does not count |
| ClientSession.Session.CheckAuth | public/js/utils.js:191-197 | lets the page stay exactly when a token is stored, and otherwise sends the browser to the sign-in page |
| ClientSession.Session.CheckGuest | public/js/utils.js:199-205 | lets the page stay exactly when no token is stored, and otherwise sends the browser to the dashboard |
| ClientSession.GuardsAreOpposite | public/js/utils.js:191-205 | of the two guards, exactly one lets the page stay |
| ClientSession.Session.Logout | public/js/utils.js:207-211 | forgets the token and the user and goes to the sign-in page |
| ClientSession.Session.Headers | public/js/utils.js:53-70 | the request carries an `Authorization` header exactly when the caller gave one or a token is stored |
| ClientSession.RequestHeaders | public/js/utils.js:56-70 | the caller's headers win; otherwise the JSON content type and, with a non-empty token, "Bearer " and the token are added |
| ClientSession.SentTokenIsReceived | public/js/utils.js:59 | the header the browser sends yields, through the token middleware, the token it stored |
| PayoutPage.AmountError | public/js/payout.js:299-307 | below 50 and above 10000 pesos the amount is refused with the minimum or maximum message |
| PayoutPage.AmountBoundaries | public/js/payout.js:271-277 | 50 and 10000 are accepted; 49 and 10001 are not |
| PayoutPage.UpdatePointsRequired | public/js/payout.js:257-278 | the hint shows ten points per peso (0 for an empty field) and the same bound messages as the submission |
| PayoutPage.CheckPayoutForm | public/js/payout.js:284-316 | each refusal message exactly when its check is the first to fail; otherwise the trimmed number, the amount and ten points per peso go to confirmation |
| PayoutPage.ConfirmedMatchesHint | public/js/payout.js:318-335 | the points shown for confirmation equal the points the hint showed |
| PayoutPage.StatusClass | public/js/payout.js:178-185 | the style class for each known status, and none otherwise |
| PayoutPage.StatusIcon | public/js/payout.js:187-194 | the icon for each known status, and the question mark otherwise |
| PayoutPage.MappersSeparateStatuses | public/js/payout.js:178-194 | different statuses get different classes and different icons |
| PayoutPage.WithStatus | public/js/payout.js:417 | the kept entries are exactly those with the status, in order |
| PayoutPage.WithStatusAppend | public/js/payout.js:417 | filtering distributes over concatenation |
| PayoutPage.FilterHistory | public/js/payout.js:415-417 | "all" keeps everything; any other filter keeps exactly the entries with that status |
| PayoutPage.FilterIdempotent | public/js/payout.js:415-417 | filtering a filtered history again changes nothing |
| PayoutPage.CardOf | public/js/payout.js:106-133 | a card shows the payout's own amount, number, points and status; a cancel button exactly when pending; notes exactly when truthy |
| PayoutPage.Render | public/js/payout.js:427-465 | the listing has one card per entry, in order, or the empty text when there is none |
| PayoutPage.CancelOnlyWhenPending | public/js/payout.js:449-453 | a rendered card offers cancellation exactly for a pending payout |
| PayoutPage.FindStatus | public/js/payout.js:169 | the first entry with the status, and none when no entry has it |
| PayoutPage.LastPayoutOf | public/js/payout.js:168-175 | the first completed payout of the history, or "No payouts yet" |
| PayoutPage.PendingWarning | public/js/payout.js:469-475 | the warning shows exactly when some payout is pending |
| PayoutPage.CountIn | public/js/payout.js:155-160 | the count of the first summary row for the status, and 0 without one |
| PayoutPage.Page.Load | public/js/payout.js:95-144 | keeps the fetched history and renders all of it |
| PayoutPage.Page.ApplyFilter | public/js/payout.js:409-466 | renders the filtered history and keeps the full one |
| AuthForms.LoginForm | public/js/auth.js:59-71 | "fill in all fields" exactly when a field is empty; the e-mail message exactly for an invalid e-mail; otherwise the trimmed e-mail and the password are sent |
| AuthForms.SubmittedLoginHasFields | public/js/auth.js:63-79 | a submitted sign-in never meets the server's "Email and password are required" |
| AuthForms.SignupBody | public/js/auth.js:147-155 | the body holds username, e-mail and password, plus a referral code exactly when one was entered |
| AuthForms.SignupForm | public/js/auth.js:103-142 | each refusal exactly when its check is the first to fail, in the page's order; otherwise the body is sent |
| AuthForms.SubmittedSignupPassesServerChecks | public/js/auth.js:114-132 | a submitted sign-up passes the server's own field and password-length checks |
| AuthForms.RedirectAfterSignup | public/js/auth.js:166-172 | a verified user goes to the dashboard and everyone else to the verification page |
| AuthForms.StoreSession | public/js/auth.js:159-161 | stores the token and user from the reply and picks the next page |
| AuthForms.ChangeEmailForm | public/js/auth.js:247-258 | "fill in all fields" exactly when a field is empty; otherwise the e-mail check; otherwise the trimmed e-mail and the current password are sent |
| AuthForms.ApplyEmailChange | public/js/auth.js:269 | the stored user gets the new e-mail and loses its verified flag, and nothing else changes |
| Server.SimpleAccount | server-simple.js:123-132 | a registered account is verified, unbanned, not an administrator and without points |
| Server.NewAccount | routes/authRoutes.js:39-44 | a registered account has the hashed password, the referral code and the schema's defaults |
| Server.Patched | routes/adminRoutes.js:172-176 | every supplied field is replaced and every other one kept |
| Server.EmptyPatchKeepsUser | routes/adminRoutes.js:172-176 | an update that supplies nothing leaves the account as it is |
| Server.PatchedTask | routes/adminRoutes.js:254-260 | every supplied task field is replaced and every other one kept, the author included |
| Server.NewTask | routes/adminRoutes.js:214-227 | refused exactly when title, description or points are falsy; otherwise the defaults for type, activity, repetition and cooldown |
| Server.CreatedByIsLost | routes/adminRoutes.js:226 | for every token the system issues, the author as written is nobody |
| Server.Store.Seeded | server-simple.js:14-65 | the demo administrator with 1000 points, the demo user with 500, and three active tasks |
| Server.Store.SimpleLogin | server-simple.js:94-113 | succeeds exactly when some account has that e-mail and password, and returns that account; otherwise 400 |
| Server.Store.SimpleRegister | server-simple.js:116-147 | refused with 400 when the e-mail or the username is taken; otherwise exactly one new account is added |
| Server.Store.CompleteTask | server-simple.js:158-173 | 401 from the gate, 404 for an unknown task, otherwise the caller is credited the task's points and nothing else changes |
| Server.Store.RequestPayout | server-simple.js:210-230 | refused with 400 when the cost exceeds the balance; otherwise the balance drops by ten points per peso, a pending payout is recorded, and balance plus held points is conserved for every user |
| Server.Store.DashboardStats | server-simple.js:245-257 | for administrators, the number of users, the number of active tasks and the sum of all balances, beside the fixed figures the server reports (0 pending payouts, 5 completions and 0 payouts today); anyone else gets the gate's refusal |
| Server.Store.SimpleUserListing | server-simple.js:260-287 | for administrators, one row per account copying its id, username, e-mail, administrator and verified flags, points and total earned, without its password and shown as not banned, all on a single page of 20 whatever their number; anyone else gets the gate's refusal |
| Server.Store.ActiveTasks | server-simple.js:150-156 | exactly the active tasks, for any authenticated caller |
| Server.Store.ApprovePayout | routes/adminRoutes.js:332-362 | 404 for an unknown payout, 400 for a decided one; otherwise the payout completes with the deciding administrator's stamp, no balance moves and the owner's held points drop by its cost |
| Server.Store.RejectPayout | routes/adminRoutes.js:365-402 | 404 and 400 as for approval; otherwise the payout is rejected with the administrator's stamp and its points go back to the owner's balance, so balance plus held points is conserved |
| Server.Store.UpdateUser | routes/adminRoutes.js:161-196 | 404 for an unknown account; otherwise the account becomes its patched self and nothing else changes |
| Server.Store.UpdateTask | routes/adminRoutes.js:243-273 | 404 for an unknown task; otherwise the task becomes its patched self |
| Server.Store.CreateTask | routes/adminRoutes.js:210-240 | adds exactly the new task, authored by the creating administrator, or nothing when the body is refused |
| Server.Store.DeleteTask | routes/adminRoutes.js:276-293 | 404 for an unknown task; otherwise exactly that task is removed |
| Server.Store.Register | routes/authRoutes.js:10-71 | input errors first; then 400 with the truthful duplicate message when an account clashes; otherwise exactly one new account with the defaults, answered with 201 |
| Server.Store.Login | routes/authRoutes.js:74-128 | the answer is the sign-in check on the account found by e-mail; on success only that account's last-login time changes |
| Server.Store.VerifyEmail | routes/authRoutes.js:145-161 | 404 for an unknown account; otherwise the account is verified, and an already verified one is left unchanged |
| Server.Store.ResendVerification | routes/authRoutes.js:164-177 | succeeds exactly for a known account and changes nothing |
| Server.RequestThenRejectScenario | server-simple.js:210-230 | the demo administrator, holding 1000 points, is left with 0 after cashing out 100 pesos, and has 1000 again after the rejection |
| Server.InsufficientPointsScenario | server-simple.js:214-216 | a request above the balance is refused and the balance stays 500 |
| Server.NegativeAmountScenario | server-simple.js:212-218 | a request for -100 pesos raises the balance from 500 to 1500, because nothing bounds the amount |

## Left out

- HTTP transport, Express routing, JSON parsing and serialisation are not modelled. Handlers take typed arguments, and replies are a status with a value or a message.
- The browser's DOM work is not modelled: `innerHTML` markup, notifications, modals, loading overlays, timers and the actual navigation. Rendering is the `Card` record and the page the browser is sent to.
- `formatPoints`, `formatCurrency` and `formatDate` use locale formatting that is not modelled. Dates are integer milliseconds.
- Amounts are whole numbers. `parseFloat` fractions, `NaN`, and a string amount coerced by `amount * 10` are not modelled.
- bcrypt and jwt are parameters (`hashed`, `compare`, `verify`). Token signing and expiry are not modelled. The payload the server signs is `Ledger.IssuedPayload`.
- Database exceptions are not modelled, except the lookup in the administrator middleware. The 500 replies of every handler's `catch` are therefore not modelled. Neither is the token middleware's 401 when its user lookup throws.
- MongoDB text search (`$regex` on username and e-mail), sort orders, `populate`, and the aggregate and count routes are not modelled. These are the admin dashboard statistics, recent activity, single-user and task listings, and the user profile and statistics routes. They only read the store.
- Fresh identifiers (`Date.now()`, ObjectIds) are parameters that the requires clauses demand be unused; collisions are not modelled.
- The in-memory server's payout route does not keep the payout it returns. The model records it in `payouts`, so the decision handlers and the held-points invariant can refer to it.
- The cancel route the payout page calls is not among the handlers shown. Only the page's offer of a cancel button is modelled.
- Task completion in the in-memory server credits any known task. It does not look at the task's own `isActive`, `isRepeatable` or `cooldownHours` fields, so an inactive task can be completed, and any task can be completed again at once. The model follows the code.
- The in-memory payout reply (server-simple.js:220-229) carries no `newBalance` field, although the payout page reads one (public/js/payout.js:357). Only a database payout route would carry it, and none is among the handlers modelled. The token and user fields of the sign-in and registration replies are not modelled either.
- String lengths count characters. JavaScript counts UTF-16 code units, which differs for characters outside the Basic Multilingual Plane (the password and username lengths).
- Header names are matched case-sensitively in `ClientSession.RequestHeaders`; browsers treat them case-insensitively.
- Concurrent requests are not modelled. Each handler runs to completion on one state, and the rejection's refund and payout save are one step.
- The account and task schema defaults come from the model files, which are not part of this model. The defaults used are: unverified, unbanned, not an administrator, no points; task type "custom", active, not repeatable, no cooldown.
- `PayoutPage.CountIn` reads a missing `byStatus` array as an empty one. Both give 0.
- Server.Store.SimpleLogin: the in-memory server returns the first matching account in array order. The model returns some matching account, because the store is a map.
- Server.Store.Register: which clashing account `findOne` returns is left open. The message is proved truthful about whichever it is.
- Server.Store.Login: which account `findOne({ email })` returns is left open. E-mails are unique under registration, so at most one matches in practice.

## Findings

| source | as written | input that shows it | evidently intended | confidence | as-written member | corrected member |
|---|---|---|---|---|---|---|
| routes/adminRoutes.js:348 | an approval records `processedBy` from `req.user.username`. `req.user` is the decoded token, whose payload is only `{ userId }` (routes/authRoutes.js:49-50, 105-106), so the stamp is always undefined | any approval of a pending payout by an administrator signed in through `/login` | the approving administrator's username, which the administrator middleware has already looked up as `req.adminUser` | high; not executed | Ledger.ProcessedByIsLost | Server.Store.ApprovePayout |
| routes/adminRoutes.js:388 | a rejection records `processedBy` the same way, so it is always undefined | any rejection of a pending payout by an administrator signed in through `/login` | the rejecting administrator's username | high; not executed | Ledger.ProcessedByIsLost | Server.Store.RejectPayout |
| routes/adminRoutes.js:226 | a new task's `createdBy` is `req.user.username`, which is always undefined for the same reason | any task creation by an administrator signed in through `/login` | the creating administrator's username | high; not executed | Server.CreatedByIsLost | Server.Store.CreateTask |
