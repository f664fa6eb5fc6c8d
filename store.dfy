/** The server's store and the handlers that change it: the in-memory server
    (server-simple.js) with its sign-in, registration, task completion, payout
    request and administrator views, and the database routes for payout
    decisions, account and task administration (routes/adminRoutes.js) and
    account registration, sign-in and verification (routes/authRoutes.js).
    Handlers of the database routes receive what the access gates passed on:
    the administrator's account or the caller's id. */
module Server {
  import opened Common
  import opened Ledger
  import opened Gates
  import opened AuthRoutes

  // ---------------------------------------------------------------------------
  // Records the handlers build

  /** A user of the in-memory server's registration: verified from the start,
      no points, not an administrator. */
  function SimpleAccount(id: Id, username: string, email: string, password: string): (u: User)
    ensures u.id == id && u.username == username && u.email == email && u.password == password
    ensures u.points == 0 && u.totalPointsEarned == 0 && !u.isAdmin && u.isVerified && !u.isBanned
  {
    User(id, username, email, password, false, true, false, 0, 0, None, None)
  }

  /** A user of the database registration, with the account schema's defaults
      for what the body does not set. */
  function NewAccount(id: Id, username: string, email: string, hashed: string, referral: Option<string>): (u: User)
    ensures u.id == id && u.username == username && u.email == email && u.password == hashed
    ensures u.referredBy == referral && u.lastLogin.None?
    ensures u.points == 0 && u.totalPointsEarned == 0 && !u.isAdmin && !u.isVerified && !u.isBanned
  {
    User(id, username, email, hashed, false, false, false, 0, 0, None, referral)
  }

  /** The fields of an account update; `None` is a field the body leaves out. */
  datatype UserPatch = UserPatch(
    username: Option<string>,
    email: Option<string>,
    points: Option<int>,
    isBanned: Option<bool>,
    isAdmin: Option<bool>)

  /** The account with the supplied fields replaced and every other one kept. */
  function Patched(u: User, p: UserPatch): (v: User)
    ensures v.username == (if p.username.Some? then p.username.value else u.username)
    ensures v.email == (if p.email.Some? then p.email.value else u.email)
    ensures v.points == (if p.points.Some? then p.points.value else u.points)
    ensures v.isBanned == (if p.isBanned.Some? then p.isBanned.value else u.isBanned)
    ensures v.isAdmin == (if p.isAdmin.Some? then p.isAdmin.value else u.isAdmin)
    ensures v.(username := u.username, email := u.email, points := u.points, isBanned := u.isBanned,
               isAdmin := u.isAdmin) == u
  {
    u.(username := if p.username.Some? then p.username.value else u.username,
       email := if p.email.Some? then p.email.value else u.email,
       points := if p.points.Some? then p.points.value else u.points,
       isBanned := if p.isBanned.Some? then p.isBanned.value else u.isBanned,
       isAdmin := if p.isAdmin.Some? then p.isAdmin.value else u.isAdmin)
  }

  /** An update that supplies nothing leaves the account as it is. */
  lemma EmptyPatchKeepsUser(u: User)
    ensures Patched(u, UserPatch(None, None, None, None, None)) == u
  {
  }

  /** The fields of a task update or creation; `None` is a field the body
      leaves out. `kind` is the body's `type`. */
  datatype TaskFields = TaskFields(
    title: Option<string>,
    description: Option<string>,
    kind: Option<string>,
    points: Option<int>,
    isActive: Option<bool>,
    isRepeatable: Option<bool>,
    cooldownHours: Option<int>)

  /** The task with the supplied fields replaced and every other one kept. */
  function PatchedTask(t: Task, p: TaskFields): (v: Task)
    ensures v.title == (if p.title.Some? then p.title.value else t.title)
    ensures v.description == (if p.description.Some? then p.description.value else t.description)
    ensures v.kind == (if p.kind.Some? then p.kind.value else t.kind)
    ensures v.points == (if p.points.Some? then p.points.value else t.points)
    ensures v.isActive == (if p.isActive.Some? then p.isActive.value else t.isActive)
    ensures v.isRepeatable == (if p.isRepeatable.Some? then p.isRepeatable.value else t.isRepeatable)
    ensures v.cooldownHours == (if p.cooldownHours.Some? then p.cooldownHours.value else t.cooldownHours)
    ensures v.id == t.id && v.createdBy == t.createdBy
  {
    Task(t.id,
         if p.title.Some? then p.title.value else t.title,
         if p.description.Some? then p.description.value else t.description,
         if p.kind.Some? then p.kind.value else t.kind,
         if p.points.Some? then p.points.value else t.points,
         if p.isActive.Some? then p.isActive.value else t.isActive,
         if p.isRepeatable.Some? then p.isRepeatable.value else t.isRepeatable,
         if p.cooldownHours.Some? then p.cooldownHours.value else t.cooldownHours,
         t.createdBy)
  }

  /** A new task from a creation body: refused when the title, the description
      or the points are falsy (so 0 points are refused too); otherwise the type
      defaults to "custom", the task is active unless the body says otherwise,
      not repeatable and without cooldown unless the body gives truthy values. */
  function NewTask(id: Id, b: TaskFields, createdBy: Option<string>): (r: Reply<Task>)
    ensures r.Fail? <==> b.title.None? || b.title.value == "" || b.description.None? || b.description.value == ""
                         || b.points.None? || b.points.value == 0
    ensures r.Fail? ==> r == Fail(400, "Title, description, and points are required")
    ensures r.Ok? ==> r.status == 201 && r.value.id == id && r.value.createdBy == createdBy
    ensures r.Ok? ==> r.value.title == b.title.value && r.value.description == b.description.value
                      && r.value.points == b.points.value
    ensures r.Ok? ==> r.value.kind == (if b.kind.None? || b.kind.value == "" then "custom" else b.kind.value)
    ensures r.Ok? ==> r.value.isActive == (b.isActive.None? || b.isActive.value)
    ensures r.Ok? ==> r.value.isRepeatable == (b.isRepeatable.Some? && b.isRepeatable.value)
    ensures r.Ok? ==> r.value.cooldownHours == (if b.cooldownHours.Some? then b.cooldownHours.value else 0)
  {
    if b.title.None? || b.title.value == "" || b.description.None? || b.description.value == ""
       || b.points.None? || b.points.value == 0 then
      Fail(400, "Title, description, and points are required")
    else
      Ok(201, Task(id, b.title.value, b.description.value,
                   if b.kind.None? || b.kind.value == "" then "custom" else b.kind.value,
                   b.points.value,
                   b.isActive.None? || b.isActive.value,
                   b.isRepeatable.Some? && b.isRepeatable.value,
                   if b.cooldownHours.Some? then b.cooldownHours.value else 0,
                   createdBy))
  }

  /** The task creation as written records `req.user.username` as its author:
      for every token this system issues that is no author at all, while the
      administrator's account names one. */
  lemma CreatedByIsLost(id: Id, b: TaskFields, admin: User)
    requires NewTask(id, b, None).Ok?
    ensures NewTask(id, b, ClaimedUsername(IssuedPayload(admin.id))).value.createdBy == None
    ensures NewTask(id, b, Some(admin.username)).value.createdBy == Some(admin.username)
  {
  }

  /** The in-memory server's dashboard figures. */
  datatype Stats = Stats(
    totalUsers: int,
    activeTasks: int,
    pendingPayouts: int,
    totalPoints: int,
    todayCompletions: int,
    todayPayouts: int)

  /** What a task completion answers. */
  datatype Completion = Completion(pointsEarned: int, newBalance: int)

  /** A row of the in-memory server's user listing: no password, and never
      shown as banned. */
  datatype UserRow = UserRow(
    id: Id, username: string, email: string, isAdmin: bool, isVerified: bool,
    isBanned: bool, points: int, totalPointsEarned: int)

  /** The in-memory server's user listing with its pagination figures. */
  datatype UserListing = UserListing(rows: map<Id, UserRow>, page: int, limit: int, total: int, pages: int)

  ghost function ActiveIds(tasks: map<Id, Task>): set<Id> {
    set k | k in tasks && tasks[k].isActive
  }

  // ---------------------------------------------------------------------------
  // The store

  class Store {
    var users: map<Id, User>
    var tasks: map<Id, Task>
    var payouts: map<Id, Payout>

    /** Every record is filed under its own id, and every payout costs ten
        points per peso. */
    ghost predicate Valid()
      reads this
    {
      && (forall k :: k in users ==> users[k].id == k)
      && (forall k :: k in tasks ==> tasks[k].id == k)
      && (forall k :: k in payouts ==> payouts[k].id == k && payouts[k].pointsUsed == payouts[k].amount * PointsPerPeso)
    }

    ghost function State(): (map<Id, User>, map<Id, Task>, map<Id, Payout>)
      reads this
    {
      (users, tasks, payouts)
    }

    /** The in-memory server as it starts: an administrator with 1000 points, a
        demo user with 500, and three active tasks. */
    constructor Seeded()
      ensures Valid() && payouts == map[]
      ensures users.Keys == {"1", "2"} && users["1"].isAdmin && !users["2"].isAdmin
      ensures users["1"].points == 1000 && users["2"].points == 500
      ensures tasks.Keys == {"1", "2", "3"} && forall k :: k in tasks ==> tasks[k].isActive
    {
      users := map[
        "1" := User("1", "admin", "admin@earnlang.com", "admin123", true, true, false, 1000, 1000, None, None),
        "2" := User("2", "demo_user", "demo@earnlang.com", "demo123", false, true, false, 500, 500, None, None)];
      tasks := map[
        "1" := Task("1", "Daily Login", "Log in to the platform and earn points", "login", 10, true, true, 0, None),
        "2" := Task("2", "Complete Your First Task", "Complete any task to get started", "custom", 50, true, false, 0, None),
        "3" := Task("3", "Refer a Friend", "Invite a friend to join EARNLANG", "referral", 100, true, true, 0, None)];
      payouts := map[];
    }

    // -------------------------------------------------------------------------
    // The in-memory server

    /** Sign-in of the in-memory server: some account with both this email and
        this password; its id is the token. Nothing changes. */
    method SimpleLogin(email: string, password: string) returns (r: Reply<User>)
      requires Valid()
      ensures r.Ok? <==> exists k :: k in users && users[k].email == email && users[k].password == password
      ensures r.Ok? ==> r.status == 200 && r.value.id in users && users[r.value.id] == r.value
                        && r.value.email == email && r.value.password == password
      ensures r.Fail? ==> r == Fail(400, "Invalid credentials")
    {
      if k :| k in users && users[k].email == email && users[k].password == password {
        r := Ok(200, users[k]);
      } else {
        r := Fail(400, "Invalid credentials");
      }
    }

    /** Registration of the in-memory server: refused when an account has the
        email or the username; otherwise exactly one account is added. */
    method SimpleRegister(username: string, email: string, password: string, newId: Id) returns (r: Reply<User>)
      requires Valid() && newId !in users
      modifies this
      ensures Valid() && tasks == old(tasks) && payouts == old(payouts)
      ensures (exists k :: k in old(users) && Clashes(old(users)[k], email, username)) ==>
                r == Fail(400, "User already exists") && users == old(users)
      ensures (forall k :: k in old(users) ==> !Clashes(old(users)[k], email, username)) ==>
                && users == old(users)[newId := SimpleAccount(newId, username, email, password)]
                && |users| == |old(users)| + 1
                && r == Ok(201, users[newId])
    {
      if exists k :: k in users && Clashes(users[k], email, username) {
        r := Fail(400, "User already exists");
      } else {
        users := users[newId := SimpleAccount(newId, username, email, password)];
        r := Ok(201, users[newId]);
      }
    }

    /** Task completion of the in-memory server: the task's points are added to
        the caller's balance and to their total earned, whatever the task's
        state; an unknown task is a 404 and changes nothing. */
    method CompleteTask(header: Option<string>, taskId: Id) returns (r: Reply<Completion>)
      requires Valid()
      modifies this
      ensures Valid() && tasks == old(tasks) && payouts == old(payouts)
      ensures old(SimpleAuth(header, users)).Deny? ==>
                r == Fail(old(SimpleAuth(header, users)).status, old(SimpleAuth(header, users)).message)
                && users == old(users)
      ensures old(SimpleAuth(header, users)).Pass? && taskId !in tasks ==>
                r == Fail(404, "Task not found") && users == old(users)
      ensures old(SimpleAuth(header, users)).Pass? && taskId in tasks ==>
                var uid := old(SimpleAuth(header, users)).value.id;
                && users == old(users)[uid := Credited(old(users)[uid], tasks[taskId].points)]
                && r == Ok(200, Completion(tasks[taskId].points, users[uid].points))
    {
      var gate := SimpleAuth(header, users);
      if gate.Deny? {
        return Fail(gate.status, gate.message);
      }
      if taskId !in tasks {
        return Fail(404, "Task not found");
      }
      var uid := gate.value.id;
      var earned := tasks[taskId].points;
      users := users[uid := Credited(users[uid], earned)];
      r := Ok(200, Completion(earned, users[uid].points));
    }

    /** The payout request of the in-memory server: refused when the balance is
        below ten points per peso; otherwise that many points are debited and a
        pending payout is recorded. Whatever the balance was, it is not negative
        afterwards, and each user's balance plus what their pending payouts hold
        stays the same. */
    method RequestPayout(header: Option<string>, gcashNumber: string, amount: int, payoutId: Id, now: Time)
      returns (r: Reply<Payout>)
      requires Valid() && payoutId !in payouts
      modifies this
      ensures Valid() && tasks == old(tasks) && users.Keys == old(users).Keys
      ensures old(SimpleAuth(header, users)).Deny? ==>
                r == Fail(old(SimpleAuth(header, users)).status, old(SimpleAuth(header, users)).message)
                && State() == old(State())
      ensures old(SimpleAuth(header, users)).Pass? &&
              old(SimpleAuth(header, users)).value.points < amount * PointsPerPeso ==>
                r == Fail(400, "Insufficient points") && State() == old(State())
      ensures old(SimpleAuth(header, users)).Pass? &&
              old(SimpleAuth(header, users)).value.points >= amount * PointsPerPeso ==>
                var uid := old(SimpleAuth(header, users)).value.id;
                && users == old(users)[uid := Debited(old(users)[uid], amount * PointsPerPeso)]
                && payouts == old(payouts)[payoutId := NewPayout(payoutId, uid, amount, gcashNumber, now)]
                && r == Ok(201, payouts[payoutId])
                && users[uid].points >= 0
      ensures forall u :: u in users ==>
                users[u].points + Held(payouts, u) == old(users[u].points + Held(payouts, u))
    {
      var gate := SimpleAuth(header, users);
      if gate.Deny? {
        return Fail(gate.status, gate.message);
      }
      var uid := gate.value.id;
      var pointsRequired := amount * PointsPerPeso;
      if users[uid].points < pointsRequired {
        return Fail(400, "Insufficient points");
      }
      var p := NewPayout(payoutId, uid, amount, gcashNumber, now);
      forall u | u in users
        ensures Held(payouts[payoutId := p], u) == Held(payouts, u) + (if uid == u then pointsRequired else 0)
      {
        HeldAfterRequest(payouts, p, u);
      }
      users := users[uid := Debited(users[uid], pointsRequired)];
      payouts := payouts[payoutId := p];
      r := Ok(201, p);
    }

    /** The in-memory server's dashboard, for administrators only: the number
        of users, of active tasks, and the sum of all balances; the pending and
        daily figures are fixed. */
    method DashboardStats(header: Option<string>) returns (r: Reply<Stats>)
      requires Valid()
      ensures SimpleAdmin(header, users).Deny? ==>
                r == Fail(SimpleAdmin(header, users).status, SimpleAdmin(header, users).message)
      ensures SimpleAdmin(header, users).Pass? ==>
                r == Ok(200, Stats(|users|, |ActiveIds(tasks)|, 0, TotalPoints(users), 5, 0))
    {
      var gate := SimpleAdmin(header, users);
      if gate.Deny? {
        return Fail(gate.status, gate.message);
      }
      var total := 0;
      var rest := users;
      while rest != map[]
        invariant total + TotalPoints(rest) == TotalPoints(users)
        decreases |rest|
      {
        var k :| k in rest;
        TotalRemove(rest, k, PointsOf);
        total := total + rest[k].points;
        rest := rest - {k};
      }
      var active := 0;
      var left := tasks;
      while left != map[]
        invariant left.Keys <= tasks.Keys && forall k :: k in left ==> left[k] == tasks[k]
        invariant active + |ActiveIds(left)| == |ActiveIds(tasks)|
        decreases |left|
      {
        var k :| k in left;
        assert ActiveIds(left - {k}) == ActiveIds(left) - {k};
        if left[k].isActive {
          active := active + 1;
        }
        left := left - {k};
      }
      r := Ok(200, Stats(|users|, active, 0, total, 5, 0));
    }

    /** The in-memory server's user listing, for administrators only: every
        account, without its password and shown as not banned, all on one page
        of 20 whatever their number. */
    function SimpleUserListing(header: Option<string>): (r: Reply<UserListing>)
      reads this
      ensures r.Ok? <==> SimpleAdmin(header, users).Pass?
      ensures r.Fail? ==> r == Fail(SimpleAdmin(header, users).status, SimpleAdmin(header, users).message)
      ensures r.Ok? ==> r.value.rows.Keys == users.Keys && r.value.total == |users|
                        && r.value.page == 1 && r.value.limit == 20 && r.value.pages == 1
      ensures r.Ok? ==> forall k :: k in r.value.rows ==>
                          r.value.rows[k] == UserRow(users[k].id, users[k].username, users[k].email, users[k].isAdmin,
                                                     users[k].isVerified, false, users[k].points, users[k].totalPointsEarned)
    {
      match SimpleAdmin(header, users)
      case Deny(s, m) => Fail(s, m)
      case Pass(_) =>
        var rows := map k | k in users ::
          UserRow(users[k].id, users[k].username, users[k].email, users[k].isAdmin, users[k].isVerified,
                  false, users[k].points, users[k].totalPointsEarned);
        Ok(200, UserListing(rows, 1, 20, |users|, 1))
    }

    /** The in-memory server's task list: the active tasks, for any caller
        with a valid token. */
    function ActiveTasks(header: Option<string>): (r: Reply<map<Id, Task>>)
      reads this
      ensures r.Ok? <==> SimpleAuth(header, users).Pass?
      ensures r.Ok? ==> r.value.Keys == ActiveIds(tasks) && forall k :: k in r.value ==> r.value[k] == tasks[k]
    {
      match SimpleAuth(header, users)
      case Deny(s, m) => Fail(s, m)
      case Pass(_) => Ok(200, map k | k in tasks && tasks[k].isActive :: tasks[k])
    }

    // -------------------------------------------------------------------------
    // Payout decisions of the database routes

    /** Approval: an unknown payout is a 404, a decided one a 400, and neither
        changes anything; otherwise the payout is completed and stamped, and
        no balance changes: the points it held are paid out. */
    method ApprovePayout(payoutId: Id, admin: User, notes: Option<string>, now: Time) returns (r: Reply<Payout>)
      requires Valid()
      modifies this
      ensures payoutId in old(payouts) ==>
                var to := Decide(old(payouts)[payoutId].status, Approve);
                (r.Ok? <==> to.Some?) && (r.Ok? ==> r.value.status == to.value)
      ensures Valid() && users == old(users) && tasks == old(tasks)
      ensures payoutId !in old(payouts) ==> r == Fail(404, "Payout not found") && State() == old(State())
      ensures payoutId in old(payouts) && old(payouts)[payoutId].status != Pending ==>
                r == Fail(400, "Payout is not pending") && State() == old(State())
      ensures payoutId in old(payouts) && old(payouts)[payoutId].status == Pending ==>
                && payouts == old(payouts)[payoutId := DecidedBy(old(payouts)[payoutId], Completed, admin, notes, now)]
                && r == Ok(200, payouts[payoutId])
                && forall u :: Held(payouts, u) == old(Held(payouts, u)) -
                                 (if u == old(payouts)[payoutId].userId then old(payouts)[payoutId].pointsUsed else 0)
    {
      if payoutId !in payouts {
        return Fail(404, "Payout not found");
      }
      var p := payouts[payoutId];
      if p.status != Pending {
        return Fail(400, "Payout is not pending");
      }
      var q := DecidedBy(p, Completed, admin, notes, now);
      forall u
        ensures Held(payouts[payoutId := q], u) == Held(payouts, u) - (if u == p.userId then p.pointsUsed else 0)
      {
        HeldAfterDecision(payouts, payoutId, q, u);
      }
      payouts := payouts[payoutId := q];
      r := Ok(200, q);
    }

    /** Rejection: the same refusals as approval; otherwise the owner, if the
        account still exists, gets back exactly the payout's points, and the
        payout is rejected and stamped. Each user's balance plus what their
        pending payouts hold stays the same. */
    method RejectPayout(payoutId: Id, admin: User, notes: Option<string>, now: Time) returns (r: Reply<Payout>)
      requires Valid()
      modifies this
      ensures payoutId in old(payouts) ==>
                var to := Decide(old(payouts)[payoutId].status, Reject);
                (r.Ok? <==> to.Some?) && (r.Ok? ==> r.value.status == to.value)
      ensures Valid() && tasks == old(tasks) && users.Keys == old(users).Keys
      ensures payoutId !in old(payouts) ==> r == Fail(404, "Payout not found") && State() == old(State())
      ensures payoutId in old(payouts) && old(payouts)[payoutId].status != Pending ==>
                r == Fail(400, "Payout is not pending") && State() == old(State())
      ensures payoutId in old(payouts) && old(payouts)[payoutId].status == Pending ==>
                var p := old(payouts)[payoutId];
                && users == (if p.userId in old(users) then old(users)[p.userId := Refunded(old(users)[p.userId], p)]
                             else old(users))
                && payouts == old(payouts)[payoutId := DecidedBy(p, Rejected, admin, notes, now)]
                && r == Ok(200, payouts[payoutId])
      ensures forall u :: u in users ==>
                users[u].points + Held(payouts, u) == old(users[u].points + Held(payouts, u))
    {
      if payoutId !in payouts {
        return Fail(404, "Payout not found");
      }
      var p := payouts[payoutId];
      if p.status != Pending {
        return Fail(400, "Payout is not pending");
      }
      if p.userId in users {
        users := users[p.userId := Refunded(users[p.userId], p)];
      }
      var q := DecidedBy(p, Rejected, admin, notes, now);
      forall u
        ensures Held(payouts[payoutId := q], u) == Held(payouts, u) - (if u == p.userId then p.pointsUsed else 0)
      {
        HeldAfterDecision(payouts, payoutId, q, u);
      }
      payouts := payouts[payoutId := q];
      r := Ok(200, q);
    }

    // -------------------------------------------------------------------------
    // Account and task administration of the database routes

    /** An account update: a 404 for an unknown account, otherwise only the
        supplied fields change. */
    method UpdateUser(userId: Id, patch: UserPatch) returns (r: Reply<User>)
      requires Valid()
      modifies this
      ensures Valid() && tasks == old(tasks) && payouts == old(payouts)
      ensures userId !in old(users) ==> r == Fail(404, "User not found") && users == old(users)
      ensures userId in old(users) ==>
                users == old(users)[userId := Patched(old(users)[userId], patch)] && r == Ok(200, users[userId])
    {
      if userId !in users {
        return Fail(404, "User not found");
      }
      users := users[userId := Patched(users[userId], patch)];
      r := Ok(200, users[userId]);
    }

    /** A task update: a 404 for an unknown task, otherwise only the supplied
        fields change. */
    method UpdateTask(taskId: Id, patch: TaskFields) returns (r: Reply<Task>)
      requires Valid()
      modifies this
      ensures Valid() && users == old(users) && payouts == old(payouts)
      ensures taskId !in old(tasks) ==> r == Fail(404, "Task not found") && tasks == old(tasks)
      ensures taskId in old(tasks) ==>
                tasks == old(tasks)[taskId := PatchedTask(old(tasks)[taskId], patch)] && r == Ok(200, tasks[taskId])
    {
      if taskId !in tasks {
        return Fail(404, "Task not found");
      }
      tasks := tasks[taskId := PatchedTask(tasks[taskId], patch)];
      r := Ok(200, tasks[taskId]);
    }

    /** Task creation, with the administrator who created it as its author. */
    method CreateTask(body: TaskFields, newId: Id, admin: User) returns (r: Reply<Task>)
      requires Valid() && newId !in tasks
      modifies this
      ensures Valid() && users == old(users) && payouts == old(payouts)
      ensures r == NewTask(newId, body, Some(admin.username))
      ensures r.Fail? ==> tasks == old(tasks)
      ensures r.Ok? ==> tasks == old(tasks)[newId := r.value]
    {
      r := NewTask(newId, body, Some(admin.username));
      if r.Ok? {
        tasks := tasks[newId := r.value];
      }
    }

    /** Task deletion: a 404 for an unknown task, otherwise that task is gone
        and nothing else changes. */
    method DeleteTask(taskId: Id) returns (r: Reply<string>)
      requires Valid()
      modifies this
      ensures Valid() && users == old(users) && payouts == old(payouts)
      ensures taskId !in old(tasks) ==> r == Fail(404, "Task not found") && tasks == old(tasks)
      ensures taskId in old(tasks) ==> tasks == old(tasks) - {taskId} && r == Ok(200, "Task deleted successfully")
    {
      if taskId !in tasks {
        return Fail(404, "Task not found");
      }
      tasks := tasks - {taskId};
      r := Ok(200, "Task deleted successfully");
    }

    // -------------------------------------------------------------------------
    // Accounts of the database routes

    /** Registration: the input checks first; then `existing` is the account
        the lookup by email or username found, if any, and a clash is refused
        with a message about that account; otherwise one account is added with
        the hashed password `hashed`. */
    method Register(body: RegisterBody, newId: Id, hashed: string) returns (existing: Option<User>, r: Reply<User>)
      requires Valid() && newId !in users
      modifies this
      ensures Valid() && tasks == old(tasks) && payouts == old(payouts)
      ensures RegisterInputError(body).Some? ==>
                r == Fail(400, RegisterInputError(body).value) && users == old(users) && existing.None?
      ensures RegisterInputError(body).None? ==>
                && (existing.Some? <==> exists k :: k in old(users) && Clashes(old(users)[k], body.email.value, body.username.value))
                && (existing.Some? ==> existing.value in old(users).Values
                                       && Clashes(existing.value, body.email.value, body.username.value)
                                       && r == Fail(400, DuplicateMessage(existing.value, body.email.value))
                                       && users == old(users))
                && (existing.None? ==>
                      users == old(users)[newId := NewAccount(newId, body.username.value, body.email.value, hashed, body.referralCode)]
                      && r == Ok(201, users[newId]))
    {
      existing := None;
      var err := RegisterInputError(body);
      if err.Some? {
        return existing, Fail(400, err.value);
      }
      var email := body.email.value;
      var username := body.username.value;
      if k :| k in users && Clashes(users[k], email, username) {
        existing := Some(users[k]);
        return existing, Fail(400, DuplicateMessage(users[k], email));
      }
      users := users[newId := NewAccount(newId, username, email, hashed, body.referralCode)];
      r := Ok(201, users[newId]);
    }

    /** Sign-in: `found` is the account the lookup by email found, if any, and
        the answer is `LoginCheck`'s; on success only that account's last sign-in
        time changes. */
    method Login(email: Option<string>, password: Option<string>, compare: (string, string) -> bool, now: Time)
      returns (found: Option<User>, r: Reply<User>)
      requires Valid()
      modifies this
      ensures Valid() && tasks == old(tasks) && payouts == old(payouts)
      ensures Truthy(email) ==>
                && (found.None? <==> forall k :: k in old(users) ==> old(users)[k].email != email.value)
                && (found.Some? ==> found.value in old(users).Values && found.value.email == email.value)
      ensures r.Fail? ==> r == LoginCheck(email, password, found, compare) && users == old(users)
      ensures r.Ok? <==> LoginCheck(email, password, found, compare).Ok?
      ensures r.Ok? ==>
                && users == old(users)[found.value.id := found.value.(lastLogin := Some(now))]
                && r == Ok(200, users[found.value.id])
    {
      found := None;
      if Truthy(email) {
        if k :| k in users && users[k].email == email.value {
          found := Some(users[k]);
        }
      }
      r := LoginCheck(email, password, found, compare);
      if r.Ok? {
        var u := found.value;
        users := users[u.id := u.(lastLogin := Some(now))];
        r := Ok(200, users[u.id]);
      }
    }

    /** Email verification: a 404 for an unknown account; otherwise the account
        is marked verified, and a second verification changes nothing. */
    method VerifyEmail(userId: Id) returns (r: Reply<string>)
      requires Valid()
      modifies this
      ensures Valid() && tasks == old(tasks) && payouts == old(payouts)
      ensures userId !in old(users) ==> r == Fail(404, "User not found") && users == old(users)
      ensures userId in old(users) ==>
                && users == old(users)[userId := old(users)[userId].(isVerified := true)]
                && r == Ok(200, "Email verified successfully")
      ensures userId in old(users) && old(users)[userId].isVerified ==> users == old(users)
    {
      if userId !in users {
        return Fail(404, "User not found");
      }
      users := users[userId := users[userId].(isVerified := true)];
      r := Ok(200, "Email verified successfully");
    }

    /** Resending the verification email changes nothing; it fails only for an
        unknown account. */
    function ResendVerification(userId: Id): (r: Reply<string>)
      reads this
      ensures r.Ok? <==> userId in users
      ensures r.Fail? ==> r == Fail(404, "User not found")
    {
      if userId !in users then Fail(404, "User not found") else Ok(200, "Verification email sent")
    }
  }

  // ---------------------------------------------------------------------------
  // Worked scenarios on the seeded in-memory server

  /** The administrator (1000 points) requests 100 pesos (1000 points) and is
      left with 0; the rejection gives the 1000 back. */
  method RequestThenRejectScenario() returns (afterRequest: int, afterReject: int)
    ensures afterRequest == 0 && afterReject == 1000
  {
    var s := new Store.Seeded();
    TokenOfHeader("1", "");
    assert SimpleAuth(Some("Bearer 1"), s.users).Pass?;
    var admin := s.users["1"];
    assert admin.points == 1000;
    var r1 := s.RequestPayout(Some("Bearer 1"), "09123456789", 100, "p1", 0);
    assert r1.Ok?;
    afterRequest := s.users["1"].points;
    assert afterRequest == 0;
    assert s.payouts["p1"].status == Pending && s.payouts["p1"].userId == "1" && s.payouts["p1"].pointsUsed == 1000;
    var r2 := s.RejectPayout("p1", admin, None, 1);
    afterReject := s.users["1"].points;
  }

  /** The demo user (500 points) is refused 60 pesos (600 points) and keeps
      500. */
  method InsufficientPointsScenario() returns (refused: bool, after: int)
    ensures refused && after == 500
  {
    var s := new Store.Seeded();
    TokenOfHeader("2", "");
    assert SimpleAuth(Some("Bearer 2"), s.users).Pass?;
    var r := s.RequestPayout(Some("Bearer 2"), "09123456789", 60, "p1", 0);
    refused := r.Fail?;
    after := s.users["2"].points;
  }

  /** The server does not bound the amount: a request of -100 pesos credits
      the demo user 1000 points. */
  method NegativeAmountScenario() returns (after: int)
    ensures after == 1500
  {
    var s := new Store.Seeded();
    TokenOfHeader("2", "");
    assert SimpleAuth(Some("Bearer 2"), s.users).Pass?;
    var r := s.RequestPayout(Some("Bearer 2"), "09123456789", -100, "p1", 0);
    after := s.users["2"].points;
  }
}
