/** The records of the points ledger (users, tasks, payouts), the payout
    status machine, and the single-record transitions the handlers apply:
    debit on request, credit on task completion, refund on rejection. The
    store that holds these records is the class in store.dfy. */
module Ledger {
  import opened Common

  /** Ten points buy one peso: a payout of `amount` pesos costs `amount * 10` points. */
  const PointsPerPeso: int := 10

  /** A user account. `password` is the plain text in the in-memory server and
      the bcrypt hash in the database routes. */
  datatype User = User(
    id: Id,
    username: string,
    email: string,
    password: string,
    isAdmin: bool,
    isVerified: bool,
    isBanned: bool,
    points: int,
    totalPointsEarned: int,
    lastLogin: Option<Time>,
    referredBy: Option<string>)

  /** A task definition; `kind` is the document's `type` field. */
  datatype Task = Task(
    id: Id,
    title: string,
    description: string,
    kind: string,
    points: int,
    isActive: bool,
    isRepeatable: bool,
    cooldownHours: int,
    createdBy: Option<string>)

  datatype PayoutStatus = Pending | Completed | Rejected

  /** A cash-out request. `processedAt`, `processedBy` and `notes` stay unset
      until an administrator decides on it. */
  datatype Payout = Payout(
    id: Id,
    userId: Id,
    amount: int,
    gcashNumber: string,
    pointsUsed: int,
    status: PayoutStatus,
    requestedAt: Time,
    processedAt: Option<Time>,
    processedBy: Option<string>,
    notes: Option<string>)

  /** The `status` string a payout document carries. */
  function StatusName(s: PayoutStatus): string {
    match s
    case Pending => "pending"
    case Completed => "completed"
    case Rejected => "rejected"
  }

  // ---------------------------------------------------------------------------
  // The status machine

  /** The two administrator decisions on a payout. */
  datatype Decision = Approve | Reject

  /** The status a decision moves a payout to; `None` is the 400 "Payout is not
      pending" answer, which changes nothing. */
  function Decide(s: PayoutStatus, d: Decision): (r: Option<PayoutStatus>)
    ensures r.Some? <==> s == Pending
    ensures r.Some? ==> r.value != Pending && (r.value == Completed <==> d == Approve)
  {
    if s != Pending then None
    else if d == Approve then Some(Completed)
    else Some(Rejected)
  }

  /** Applies a series of decisions to one payout: the final status and the
      number of decisions that were accepted. */
  function Run(s: PayoutStatus, ds: seq<Decision>): (PayoutStatus, nat)
    decreases |ds|
  {
    if ds == [] then (s, 0)
    else match Decide(s, ds[0])
      case None => Run(s, ds[1..])
      case Some(t) => var (f, n) := Run(t, ds[1..]); (f, n + 1)
  }

  /** A decided payout stays as it is whatever is decided later. */
  lemma {:induction false} DecidedIsFinal(s: PayoutStatus, ds: seq<Decision>)
    requires s != Pending
    ensures Run(s, ds) == (s, 0)
    decreases |ds|
  {
    if ds != [] {
      DecidedIsFinal(s, ds[1..]);
    }
  }

  /** A payout leaves `pending` at most once: of any series of approvals and
      rejections, at most one is accepted, and exactly one when the payout was
      pending and anything was decided. */
  lemma {:induction false} LeavesPendingAtMostOnce(s: PayoutStatus, ds: seq<Decision>)
    ensures Run(s, ds).1 <= 1
    ensures Run(s, ds).1 == 1 <==> s == Pending && ds != []
    ensures Run(s, ds).0 == Pending <==> s == Pending && ds == []
  {
    if ds != [] {
      if s == Pending {
        DecidedIsFinal(Decide(s, ds[0]).value, ds[1..]);
      } else {
        DecidedIsFinal(s, ds);
      }
    }
  }

  // ---------------------------------------------------------------------------
  // Single-record transitions

  /** A new payout request: pending, unprocessed, costing ten points per peso. */
  function NewPayout(id: Id, userId: Id, amount: int, gcashNumber: string, now: Time): (p: Payout)
    ensures p.status == Pending && p.pointsUsed == amount * PointsPerPeso
    ensures p.processedAt.None? && p.processedBy.None? && p.notes.None?
  {
    Payout(id, userId, amount, gcashNumber, amount * PointsPerPeso, Pending, now, None, None, None)
  }

  /** The payout after a decision was taken: its new status and the stamps of
      who decided, when, and with what notes; nothing else about it changes. */
  function Decided(p: Payout, to: PayoutStatus, decider: Option<string>, notes: Option<string>, now: Time): (q: Payout)
    ensures q.id == p.id && q.userId == p.userId && q.amount == p.amount && q.pointsUsed == p.pointsUsed
    ensures q.status == to && q.processedAt == Some(now) && q.processedBy == decider && q.notes == notes
  {
    p.(status := to, processedAt := Some(now), processedBy := decider, notes := notes)
  }

  /** The user after a payout of `pointsRequired` points was granted. */
  function Debited(u: User, pointsRequired: int): User {
    u.(points := u.points - pointsRequired)
  }

  /** The user after completing a task worth `earned` points. */
  function Credited(u: User, earned: int): User {
    u.(points := u.points + earned, totalPointsEarned := u.totalPointsEarned + earned)
  }

  /** The owner after the rejection of payout `p`. */
  function Refunded(u: User, p: Payout): User {
    u.(points := u.points + p.pointsUsed)
  }

  /** Points are neither destroyed nor duplicated by a request followed by its
      rejection: the refund gives back exactly what the request took, and the
      account is otherwise as it was. */
  lemma RequestThenRejectRestores(u: User, p: Payout)
    ensures Refunded(Debited(u, p.pointsUsed), p) == u
  {
  }

  /** What `req.user.username` reads in the administrator handlers: the
      `username` claim of the decoded token. */
  function ClaimedUsername(payload: Payload): Option<string> {
    Claim(payload, "username")
  }

  /** The payload the server signs at login and registration: `{ userId }`. */
  function IssuedPayload(userId: Id): Payload {
    map["userId" := userId]
  }

  /** The decision stamps as the handlers write them, with `processedBy` taken
      from the token's claims. */
  function DecidedAsWritten(p: Payout, to: PayoutStatus, payload: Payload, notes: Option<string>, now: Time): Payout {
    Decided(p, to, ClaimedUsername(payload), notes, now)
  }

  /** The decision stamps with `processedBy` taken from the administrator's
      account that the admin gate looked up. */
  function DecidedBy(p: Payout, to: PayoutStatus, admin: User, notes: Option<string>, now: Time): (q: Payout)
    ensures q.processedBy == Some(admin.username)
  {
    Decided(p, to, Some(admin.username), notes, now)
  }

  /** For every token this system issues, the handlers as written record no
      administrator on a decided payout, while the intended stamp names one. */
  lemma ProcessedByIsLost(p: Payout, to: PayoutStatus, admin: User, notes: Option<string>, now: Time)
    ensures DecidedAsWritten(p, to, IssuedPayload(admin.id), notes, now).processedBy == None
    ensures DecidedBy(p, to, admin, notes, now).processedBy == Some(admin.username)
  {
  }

  // ---------------------------------------------------------------------------
  // Sums over a collection

  ghost function Pick<V>(m: map<Id, V>): (k: Id)
    requires m != map[]
    ensures k in m
  {
    var k :| k in m; k
  }

  /** The sum of `f` over the records of `m`. */
  ghost function Total<V>(m: map<Id, V>, f: V -> int): int
    decreases |m|
  {
    if m == map[] then 0
    else var k := Pick(m); f(m[k]) + Total(m - {k}, f)
  }

  /** The sum does not depend on which record is taken out first. */
  lemma {:induction false} TotalRemove<V>(m: map<Id, V>, k: Id, f: V -> int)
    requires k in m
    ensures Total(m, f) == f(m[k]) + Total(m - {k}, f)
    decreases |m|
  {
    var j := Pick(m);
    if j != k {
      assert m - {j} - {k} == m - {k} - {j};
      TotalRemove(m - {j}, k, f);
      TotalRemove(m - {k}, j, f);
    }
  }

  /** Replacing or adding one record changes the sum by the difference of the
      two values of `f`. */
  lemma TotalUpdate<V>(m: map<Id, V>, k: Id, v: V, f: V -> int)
    ensures Total(m[k := v], f) == Total(m, f) - (if k in m then f(m[k]) else 0) + f(v)
  {
    TotalRemove(m[k := v], k, f);
    assert m[k := v] - {k} == m - {k};
    if k in m {
      TotalRemove(m, k, f);
    } else {
      assert m - {k} == m;
    }
  }

  /** The points a user's pending payouts hold back: debited from the balance,
      and either refunded or paid out once the payout is decided. */
  ghost function Held(payouts: map<Id, Payout>, userId: Id): int {
    Total(payouts, (p: Payout) => if p.userId == userId && p.status == Pending then p.pointsUsed else 0)
  }

  /** Recording a new pending payout raises what its owner has held back by its
      points, and nobody else's. */
  lemma HeldAfterRequest(payouts: map<Id, Payout>, p: Payout, userId: Id)
    requires p.id !in payouts && p.status == Pending
    ensures Held(payouts[p.id := p], userId) == Held(payouts, userId) + (if p.userId == userId then p.pointsUsed else 0)
  {
    TotalUpdate(payouts, p.id, p, (q: Payout) => if q.userId == userId && q.status == Pending then q.pointsUsed else 0);
  }

  /** Deciding a pending payout releases its points from what its owner has
      held back, and changes nobody else's. */
  lemma HeldAfterDecision(payouts: map<Id, Payout>, id: Id, q: Payout, userId: Id)
    requires id in payouts && payouts[id].status == Pending
    requires q.status != Pending && q.userId == payouts[id].userId
    ensures Held(payouts[id := q], userId)
            == Held(payouts, userId) - (if q.userId == userId then payouts[id].pointsUsed else 0)
  {
    TotalUpdate(payouts, id, q, (p: Payout) => if p.userId == userId && p.status == Pending then p.pointsUsed else 0);
  }

  function PointsOf(u: User): int {
    u.points
  }

  /** The points of all users together, as the dashboard reports them. */
  ghost function TotalPoints(users: map<Id, User>): int {
    Total(users, PointsOf)
  }
}
