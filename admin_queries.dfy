/** The query side of the administrator routes (routes/adminRoutes.js):
    reading `page` and `limit`, the page window and the page count, and the
    status filters of the user and payout listings. Sorting by date and the
    `search` regular expression are not part of this model; a listing is a
    sequence already in the order the database returns. */
module AdminQueries {
  import opened Common
  import opened Ledger

  /** `parseInt(q) || fallback`: `None` is a parameter that is absent or does not
      parse (NaN); NaN and 0 are falsy and give the fallback. */
  function IntParam(q: Option<int>, fallback: int): (r: int)
    ensures q.None? || q.value == 0 ==> r == fallback
    ensures q.Some? && q.value != 0 ==> r == q.value
  {
    if q.None? || q.value == 0 then fallback else q.value
  }

  /** The page number; 1 by default. */
  function Page(q: Option<int>): (r: int)
    ensures r != 0
    ensures q.None? ==> r == 1
  {
    IntParam(q, 1)
  }

  /** The page size; 20 by default, never 0. */
  function Limit(q: Option<int>): (r: int)
    ensures r != 0
    ensures q.None? ==> r == 20
  {
    IntParam(q, 20)
  }

  /** `(page - 1) * limit`: how many documents the page skips. */
  function Skip(page: int, limit: int): int {
    (page - 1) * limit
  }

  /** `Math.ceil(total / limit)` for a non-zero limit. */
  function Pages(total: nat, limit: int): (r: int)
    requires limit != 0
    ensures limit > 0 ==> r >= 0 && total <= r * limit && (r == 0 || (r - 1) * limit < total)
    ensures limit > 0 ==> (r == 0 <==> total == 0)
    ensures limit < 0 ==> r <= 0
  {
    if limit > 0 then (total + limit - 1) / limit else -(total / -limit)
  }

  /** The documents of one page of a listing: `.skip(skip).limit(limit)`.
      MongoDB refuses a negative skip (the handler then answers 500, `None`
      here) and reads a negative limit as its absolute value. */
  function Window<T>(xs: seq<T>, skip: int, limit: int): (r: Option<seq<T>>)
    ensures r.None? <==> skip < 0
    ensures r.Some? && skip <= |xs| ==>
              var n := if limit < 0 then -limit else limit;
              && |r.value| == (if skip + n < |xs| then n else |xs| - skip)
              && r.value == xs[skip..skip + |r.value|]
    ensures r.Some? && skip >= |xs| ==> r.value == []
  {
    if skip < 0 then None
    else
      var n := if limit < 0 then -limit else limit;
      var from := if skip < |xs| then skip else |xs|;
      var to := if from + n < |xs| then from + n else |xs|;
      Some(xs[from..to])
  }

  lemma {:induction false} MulMonotone(a: int, b: int, c: int)
    requires a <= b && c > 0
    ensures a * c <= b * c
    decreases b - a
  {
    if a < b {
      MulMonotone(a + 1, b, c);
      assert (a + 1) * c == a * c + c;
    }
  }

  /** With a positive limit, a page holds something exactly when its number is
      between 1 and the page count the response reports. */
  lemma PageHoldsSomethingIffCounted<T>(xs: seq<T>, page: int, limit: int)
    requires limit > 0
    ensures var w := Window(xs, Skip(page, limit), limit);
            (w.Some? && w.value != []) <==> 1 <= page <= Pages(|xs|, limit)
  {
    var total := |xs|;
    var pages := Pages(total, limit);
    var skip := Skip(page, limit);
    if 1 <= page {
      MulMonotone(0, page - 1, limit);
      // The page skips fewer documents than there are exactly when page <= pages.
      if page <= pages {
        MulMonotone(page - 1, pages - 1, limit);
        assert skip < total;
      } else {
        MulMonotone(pages, page - 1, limit);
        assert skip >= total;
      }
    } else {
      MulMonotone(page - 1, -1, limit);
      assert skip < 0;
    }
  }

  /** The first `n` pages of a listing, one after the other. */
  function FirstPages<T>(xs: seq<T>, limit: int, n: nat): seq<T>
    requires limit > 0
  {
    if n == 0 then [] else FirstPages(xs, limit, n - 1) + Window(xs, Skip(n, limit), limit).value
  }

  /** The first `n` pages are the first `n * limit` documents, or all of them. */
  lemma {:induction false} FirstPagesArePrefix<T>(xs: seq<T>, limit: int, n: nat)
    requires limit > 0
    ensures FirstPages(xs, limit, n) == xs[..if n * limit < |xs| then n * limit else |xs|]
  {
    if n > 0 {
      FirstPagesArePrefix(xs, limit, n - 1);
      var a := (n - 1) * limit;
      var b := n * limit;
      assert b == a + limit && Skip(n, limit) == a && a >= 0;
      var w := Window(xs, a, limit).value;
      if a < |xs| {
        var e := if b < |xs| then b else |xs|;
        assert FirstPages(xs, limit, n - 1) == xs[..a];
        assert w == xs[a..e];
        assert xs[..a] + xs[a..e] == xs[..e];
      } else {
        assert FirstPages(xs, limit, n - 1) == xs[..|xs|];
        assert w == [] && b >= |xs|;
      }
    }
  }

  /** Walking the pages from 1 to the reported page count lists every document
      once, in order: no document is skipped or shown twice. */
  lemma PagesCoverListing<T>(xs: seq<T>, limit: int)
    requires limit > 0
    ensures FirstPages(xs, limit, Pages(|xs|, limit)) == xs
  {
    FirstPagesArePrefix(xs, limit, Pages(|xs|, limit));
  }

  /** The `isBanned` constraint of the user listing: "banned" and "active" add
      one, any other value (the empty default included) adds none. */
  function UserStatusFilter(status: string): (r: Option<bool>)
    ensures r == Some(true) <==> status == "banned"
    ensures r == Some(false) <==> status == "active"
  {
    if status == "banned" then Some(true)
    else if status == "active" then Some(false)
    else None
  }

  /** An account as the user listing returns it: every stored field except the
      password hash, which the query's projection drops. */
  datatype AccountView = AccountView(
    id: Id,
    username: string,
    email: string,
    isAdmin: bool,
    isVerified: bool,
    isBanned: bool,
    points: int,
    totalPointsEarned: int,
    lastLogin: Option<Time>,
    referredBy: Option<string>)

  function WithoutPassword(u: User): AccountView {
    AccountView(u.id, u.username, u.email, u.isAdmin, u.isVerified, u.isBanned,
                u.points, u.totalPointsEarned, u.lastLogin, u.referredBy)
  }

  /** The projection loses the password hash and nothing else: two accounts
      look the same in the listing exactly when they differ at most in it. */
  lemma ViewLosesOnlyPassword(u: User, v: User)
    ensures WithoutPassword(u) == WithoutPassword(v) <==> u.(password := v.password) == v
  {
  }

  /** The users of the collection the user listing's query selects, each
      without its password hash. */
  function UsersWhere(users: map<Id, User>, status: string): (r: map<Id, AccountView>)
    ensures forall k :: k in r <==> k in users && (UserStatusFilter(status).None? || users[k].isBanned == UserStatusFilter(status).value)
    ensures forall k :: k in r ==> r[k] == WithoutPassword(users[k])
  {
    var f := UserStatusFilter(status);
    map k | k in users && (f.None? || users[k].isBanned == f.value) :: WithoutPassword(users[k])
  }

  /** "banned" lists exactly the banned users, "active" exactly the others, and
      any other value lists everyone. */
  lemma UserStatusMeaning(users: map<Id, User>, status: string)
    ensures status == "banned" ==> UsersWhere(users, status).Keys == set k | k in users && users[k].isBanned
    ensures status == "active" ==> UsersWhere(users, status).Keys == set k | k in users && !users[k].isBanned
    ensures status != "banned" && status != "active" ==> UsersWhere(users, status).Keys == users.Keys
  {
  }

  /** The payouts the payout listing's query selects: a non-empty `status` is
      compared with the stored status string as it is. */
  function PayoutsWhere(payouts: map<Id, Payout>, status: string): (r: map<Id, Payout>)
    ensures forall k :: k in r <==> k in payouts && (status == "" || StatusName(payouts[k].status) == status)
    ensures forall k :: k in r ==> r[k] == payouts[k]
  {
    map k | k in payouts && (status == "" || StatusName(payouts[k].status) == status) :: payouts[k]
  }

  /** Unlike the user listing, an unknown status is not ignored: it selects no
      payout at all, while the empty status selects every payout. */
  lemma UnknownPayoutStatusSelectsNothing(payouts: map<Id, Payout>, status: string)
    ensures status == "" ==> PayoutsWhere(payouts, status) == payouts
    ensures status != "" && status != "pending" && status != "completed" && status != "rejected"
            ==> PayoutsWhere(payouts, status) == map[]
  {
  }
}
