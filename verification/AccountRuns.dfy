/** Runs of the account service: the last admin, live sessions, and the lockout's bounds. */
module AccountRuns {
  import opened Wrappers
  import opened Accounts

  datatype Request =
    | SetupReq(token: string, typed: string, password: string, ip: string, sid: string)
    | LoginReq(typed: string, password: string, ip: string, sid: string)
    | LogoutReq(sid: string)
    | AuthedReq(sid: string)
    | AdminReq(sid: string, r: AdminRequest)
    | Prune
    | Purge

  datatype Timed = At(now: int, req: Request)

  const IDLE: int := 30 * 24 * 60 * 60

  function Step(c: Config, a: Auth, t: Timed): (Auth, Status) {
    match t.req
    case SetupReq(token, typed, password, ip, sid) => Setup(c, a, token, Trim(typed), password, ip, sid, t.now)
    case LoginReq(typed, password, ip, sid) => Login(c, a, Trim(typed), password, ip, sid, t.now)
    case LogoutReq(sid) => Logout(a, sid)
    case AuthedReq(sid) =>
      var (b, role) := Authenticate(a, sid, t.now);
      (b, if role.Some? then Ok else Unauthorized)
    case AdminReq(sid, r) => Administer(c, a, sid, r, t.now)
    case Prune => (PruneAttempts(a, t.now - KEEP), NoContent)
    case Purge => (PurgeIdle(a, t.now - IDLE), NoContent)
  }

  const NOBODY := Auth(map[], map[], [])

  function Run(c: Config, a: Auth, ts: seq<Timed>): (r: (Auth, seq<Status>))
    ensures |r.1| == |ts|
  {
    if ts == [] then (a, [])
    else
      var n := |ts| - 1;
      var (b, ss) := Run(c, a, ts[..n]);
      var (d, s) := Step(c, b, ts[n]);
      (d, ss + [s])
  }

  // ----- the last admin and live sessions -----

  ghost predicate Governed(a: Auth) {
    && (a.users != map[] ==> ActiveAdmins(a) != {})
    && (forall s :: s in a.sessions ==> a.sessions[s].username in a.users && a.users[a.sessions[s].username].active)
  }

  /** Changing one user leaves an active admin when there were two, or that user is not one of them or stays one. */
  lemma AdminRemains(a: Auth, b: Auth, name: string)
    requires forall u :: u != name && u in a.users ==> u in b.users && b.users[u] == a.users[u]
    requires ActiveAdmins(a) != {}
    requires name in ActiveAdmins(a) ==> |ActiveAdmins(a)| > 1 || name in ActiveAdmins(b)
    ensures ActiveAdmins(b) != {}
  {
    if name in ActiveAdmins(a) && name !in ActiveAdmins(b) {
      assert |ActiveAdmins(a) - {name}| == |ActiveAdmins(a)| - 1;
      var u :| u in ActiveAdmins(a) - {name};
      assert u in ActiveAdmins(b);
    } else {
      var u :| u in ActiveAdmins(a);
      assert u in ActiveAdmins(b) || name in ActiveAdmins(b);
    }
  }

  /** What a patch that goes through does to the tables. */
  lemma PatchChanges(c: Config, a: Auth, name: string, password: Option<string>, newRole: Option<Role>,
                     deactivated: Option<bool>)
    requires DoPatchUser(c, a, name, password, newRole, deactivated).1 == Ok
    ensures var b := DoPatchUser(c, a, name, password, newRole, deactivated).0;
            && name in a.users && b.users.Keys == a.users.Keys
            && (forall u :: u in a.users && u != name ==> b.users[u] == a.users[u])
            && b.users[name].role == (if newRole.Some? then newRole.value else a.users[name].role)
            && b.users[name].active == (if deactivated.Some? then !deactivated.value else a.users[name].active)
            && (forall s :: s in b.sessions ==> s in a.sessions && b.sessions[s] == a.sessions[s])
            && (deactivated == Some(true) ==> forall s :: s in b.sessions ==> b.sessions[s].username != name)
  {
  }

  lemma PatchGoverned(c: Config, a: Auth, name: string, password: Option<string>, newRole: Option<Role>,
                      deactivated: Option<bool>)
    requires Governed(a)
    ensures Governed(DoPatchUser(c, a, name, password, newRole, deactivated).0)
  {
    var (b, status) := DoPatchUser(c, a, name, password, newRole, deactivated);
    if status == Ok {
      PatchChanges(c, a, name, password, newRole, deactivated);
      AdminRemains(a, b, name);
    }
  }

  lemma DeleteLeavesAdmin(a: Auth, b: Auth, name: string)
    requires b.users == a.users - {name} && ActiveAdmins(a) != {}
    requires name in ActiveAdmins(a) ==> |ActiveAdmins(a)| > 1
    ensures ActiveAdmins(b) != {}
  {
    AdminRemains(a, b, name);
  }

  lemma DeleteGoverned(a: Auth, name: string)
    requires Governed(a)
    ensures Governed(DoDeleteUser(a, name).0)
  {
    var (b, status) := DoDeleteUser(a, name);
    if status == NoContent {
      DeleteLeavesAdmin(a, b, name);
    }
  }

  lemma AuthenticateGoverned(a: Auth, sid: string, now: int)
    requires Governed(a)
    ensures Governed(Authenticate(a, sid, now).0)
    ensures Authenticate(a, sid, now).0.users == a.users && Authenticate(a, sid, now).0.attempts == a.attempts
  {
  }

  lemma AdministerGoverned(c: Config, a: Auth, sid: string, r: AdminRequest, now: int)
    requires Governed(a)
    ensures Governed(Administer(c, a, sid, r, now).0)
  {
    var (b, role) := Authenticate(a, sid, now);
    AuthenticateGoverned(a, sid, now);
    if role == Some(Admin) {
      match r
      case CreateUser(typed, password, role) =>
        var name := Trim(typed);
        if DoCreateUser(c, b, name, password, role).1 == Created {
          AdminRemains(b, DoCreateUser(c, b, name, password, role).0, name);
        }
      case PatchUser(name, password, newRole, deactivated) => PatchGoverned(c, b, name, password, newRole, deactivated);
      case DeleteUser(name) => DeleteGoverned(b, name);
      case RevokeSessions(name) =>
    }
  }

  lemma StepGoverned(c: Config, a: Auth, t: Timed)
    requires Governed(a)
    ensures Governed(Step(c, a, t).0)
    ensures a.users != map[] ==> Step(c, a, t).0.users != map[]
  {
    match t.req
    case SetupReq(token, typed, password, ip, sid) =>
      if Step(c, a, t).1 == Created {
        assert Trim(typed) in ActiveAdmins(Step(c, a, t).0);
      }
    case LoginReq(typed, password, ip, sid) =>
    case LogoutReq(sid) =>
    case AuthedReq(sid) => AuthenticateGoverned(a, sid, t.now);
    case AdminReq(sid, r) =>
      AdministerGoverned(c, a, sid, r, t.now);
      if a.users != map[] {
        UsersStay(c, a, sid, r, t.now);
      }
    case Prune =>
    case Purge =>
  }

  /** No admin request empties the user table. */
  lemma UsersStay(c: Config, a: Auth, sid: string, r: AdminRequest, now: int)
    requires Governed(a) && a.users != map[]
    ensures Administer(c, a, sid, r, now).0.users != map[]
  {
    var b := Authenticate(a, sid, now).0;
    AuthenticateGoverned(a, sid, now);
    var d := Administer(c, a, sid, r, now).0;
    if r.DeleteUser? && d.users != b.users {
      AdminRemains(b, d, r.name);
      var u :| u in ActiveAdmins(d);
      assert u in d.users;
    } else {
      var u :| u in ActiveAdmins(b);
      assert u in d.users;
    }
  }

  /**
   In every reachable state the user table is empty or holds an active admin, and
   every session belongs to an active user, so the deactivated flag that
   `require_auth` ignores is always false.
   */
  lemma {:induction false} ReachableIsGoverned(c: Config, ts: seq<Timed>, sid: string)
    ensures var a := Run(c, NOBODY, ts).0;
            && Governed(a)
            && (Lookup(a, sid).Some? ==> Lookup(a, sid).value.2 == false)
            && (sid in a.sessions ==> Lookup(a, sid).Some?)
  {
    if ts != [] {
      ReachableIsGoverned(c, ts[..|ts| - 1], sid);
      StepGoverned(c, Run(c, NOBODY, ts[..|ts| - 1]).0, ts[|ts| - 1]);
    }
  }

  lemma {:induction false} UsersStayNonEmpty(c: Config, a: Auth, ts: seq<Timed>)
    requires Governed(a) && a.users != map[]
    ensures Governed(Run(c, a, ts).0) && Run(c, a, ts).0.users != map[]
  {
    if ts != [] {
      UsersStayNonEmpty(c, a, ts[..|ts| - 1]);
      StepGoverned(c, Run(c, a, ts[..|ts| - 1]).0, ts[|ts| - 1]);
    }
  }

  /** Once any user exists, setup answers 409 in every later state. */
  lemma SetupStaysClosed(c: Config, before: seq<Timed>, after: seq<Timed>, token: string, name: string,
                         password: string, ip: string, sid: string, now: int)
    requires Run(c, NOBODY, before).0.users != map[]
    ensures var a := Run(c, Run(c, NOBODY, before).0, after).0;
            Setup(c, a, token, name, password, ip, sid, now) == (a, Conflict)
  {
    ReachableIsGoverned(c, before, sid);
    UsersStayNonEmpty(c, Run(c, NOBODY, before).0, after);
  }

  // ----- the lockout over runs -----

  function WithoutPrunes(ts: seq<Timed>): seq<Timed> {
    if ts == [] then []
    else
      var kept, last := WithoutPrunes(ts[..|ts| - 1]), ts[|ts| - 1];
      if last.req.Prune? then kept else kept + [last]
  }

  /** Each recorded failure passed both gates when it was recorded. */
  ghost predicate Gated(attempts: seq<Attempt>) {
    forall k :: 0 <= k < |attempts| && !attempts[k].success ==>
      Gate(attempts[..k], attempts[k].username, attempts[k].ip, attempts[k].ts) == Allow
  }

  lemma StepGated(c: Config, a: Auth, t: Timed)
    requires Gated(a.attempts) && !t.req.Prune?
    ensures Gated(Step(c, a, t).0.attempts)
    ensures a.attempts <= Step(c, a, t).0.attempts
  {
    var b := Step(c, a, t).0;
    if t.req.AdminReq? {
      AttemptsStay(c, a, t.req.sid, t.req.r, t.now);
    }
    forall k | 0 <= k < |b.attempts| && !b.attempts[k].success
      ensures Gate(b.attempts[..k], b.attempts[k].username, b.attempts[k].ip, b.attempts[k].ts) == Allow
    {
      assert b.attempts[..k] == a.attempts[..k];
    }
  }

  lemma AttemptsStay(c: Config, a: Auth, sid: string, r: AdminRequest, now: int)
    ensures Administer(c, a, sid, r, now).0.attempts == a.attempts
  {
  }

  lemma {:induction false} RunGated(c: Config, ts: seq<Timed>)
    requires forall k :: 0 <= k < |ts| ==> !ts[k].req.Prune?
    ensures Gated(Run(c, NOBODY, ts).0.attempts)
  {
    if ts != [] {
      RunGated(c, ts[..|ts| - 1]);
      StepGated(c, Run(c, NOBODY, ts[..|ts| - 1]).0, ts[|ts| - 1]);
    }
  }

  /** Failures of one account with `from <= ts <= to`. */
  function UserFailuresIn(attempts: seq<Attempt>, username: string, from: int, to: int): nat {
    if attempts == [] then 0
    else
      var a := attempts[|attempts| - 1];
      UserFailuresIn(attempts[..|attempts| - 1], username, from, to)
        + if a.username == Some(username) && !a.success && from <= a.ts <= to then 1 else 0
  }

  function IpFailuresIn(attempts: seq<Attempt>, ip: string, from: int, to: int): nat {
    if attempts == [] then 0
    else
      var a := attempts[|attempts| - 1];
      IpFailuresIn(attempts[..|attempts| - 1], ip, from, to)
        + if a.ip == ip && !a.success && from <= a.ts <= to then 1 else 0
  }

  lemma {:induction false} WindowWithin(attempts: seq<Attempt>, username: string, ip: string, from: int, to: int, since: int)
    requires since <= from
    ensures UserFailuresIn(attempts, username, from, to) <= UserFailures(attempts, username, since)
    ensures IpFailuresIn(attempts, ip, from, to) <= IpFailures(attempts, ip, since)
  {
    if attempts != [] {
      WindowWithin(attempts[..|attempts| - 1], username, ip, from, to, since);
    }
  }

  lemma {:induction false} GatedWindow(attempts: seq<Attempt>, username: string, ip: string, from: int)
    requires Gated(attempts)
    ensures UserFailuresIn(attempts, username, from, from + WINDOW) <= USER_THRESHOLD
    ensures IpFailuresIn(attempts, ip, from, from + WINDOW) <= IP_THRESHOLD
  {
    if attempts != [] {
      var n := |attempts| - 1;
      var a := attempts[n];
      forall k | 0 <= k < n && !attempts[..n][k].success
        ensures Gate(attempts[..n][..k], attempts[..n][k].username, attempts[..n][k].ip, attempts[..n][k].ts) == Allow
      {
        assert attempts[..n][..k] == attempts[..k];
      }
      GatedWindow(attempts[..n], username, ip, from);
      if !a.success && from <= a.ts <= from + WINDOW {
        WindowWithin(attempts[..n], username, ip, from, from + WINDOW, a.ts - WINDOW);
        assert Gate(attempts[..n], a.username, a.ip, a.ts) == Allow;
      }
    }
  }

  // ----- pruning is invisible -----

  ghost predicate Monotone(ts: seq<Timed>) {
    forall j, k :: 0 <= j <= k < |ts| ==> ts[j].now <= ts[k].now
  }

  /** Two ledgers no gate can tell apart at `now` or later. */
  ghost predicate SameCounts(x: seq<Attempt>, y: seq<Attempt>, now: int) {
    && (forall u, since :: since >= now - WINDOW ==> UserFailures(x, u, since) == UserFailures(y, u, since))
    && (forall ip, since :: since >= now - WINDOW ==> IpFailures(x, ip, since) == IpFailures(y, ip, since))
  }

  ghost predicate Alike(a: Auth, b: Auth, now: int) {
    a.users == b.users && a.sessions == b.sessions && SameCounts(a.attempts, b.attempts, now)
  }

  lemma UserSnoc(xs: seq<Attempt>, a: Attempt, u: string, since: int)
    ensures UserFailures(xs + [a], u, since)
         == UserFailures(xs, u, since) + if a.username == Some(u) && !a.success && a.ts >= since then 1 else 0
  {
    assert (xs + [a])[..|xs + [a]| - 1] == xs;
  }

  lemma IpSnoc(xs: seq<Attempt>, a: Attempt, ip: string, since: int)
    ensures IpFailures(xs + [a], ip, since)
         == IpFailures(xs, ip, since) + if a.ip == ip && !a.success && a.ts >= since then 1 else 0
  {
    assert (xs + [a])[..|xs + [a]| - 1] == xs;
  }

  lemma {:induction false} RecentUser(attempts: seq<Attempt>, cutoff: int, u: string, since: int)
    requires cutoff <= since
    ensures UserFailures(Recent(attempts, cutoff), u, since) == UserFailures(attempts, u, since)
  {
    if attempts != [] {
      var n := |attempts| - 1;
      RecentUser(attempts[..n], cutoff, u, since);
      if attempts[n].ts >= cutoff {
        UserSnoc(Recent(attempts[..n], cutoff), attempts[n], u, since);
      }
    }
  }

  lemma {:induction false} RecentIp(attempts: seq<Attempt>, cutoff: int, ip: string, since: int)
    requires cutoff <= since
    ensures IpFailures(Recent(attempts, cutoff), ip, since) == IpFailures(attempts, ip, since)
  {
    if attempts != [] {
      var n := |attempts| - 1;
      RecentIp(attempts[..n], cutoff, ip, since);
      if attempts[n].ts >= cutoff {
        IpSnoc(Recent(attempts[..n], cutoff), attempts[n], ip, since);
      }
    }
  }

  lemma PruneAlike(a: Auth, b: Auth, now: int)
    requires Alike(a, b, now)
    ensures Alike(PruneAttempts(a, now - KEEP), b, now)
  {
    var x := Recent(a.attempts, now - KEEP);
    forall u, since | since >= now - WINDOW ensures UserFailures(x, u, since) == UserFailures(b.attempts, u, since) {
      RecentUser(a.attempts, now - KEEP, u, since);
    }
    forall ip, since | since >= now - WINDOW ensures IpFailures(x, ip, since) == IpFailures(b.attempts, ip, since) {
      RecentIp(a.attempts, now - KEEP, ip, since);
    }
  }

  lemma RecordAlike(x: seq<Attempt>, y: seq<Attempt>, r: Attempt, now: int)
    requires SameCounts(x, y, now)
    ensures SameCounts(x + [r], y + [r], now)
  {
    assert (x + [r])[..|x + [r]| - 1] == x && (y + [r])[..|y + [r]| - 1] == y;
    forall u, since | since >= now - WINDOW ensures UserFailures(x + [r], u, since) == UserFailures(y + [r], u, since) {
      assert UserFailures(x, u, since) == UserFailures(y, u, since);
    }
    forall ip, since | since >= now - WINDOW ensures IpFailures(x + [r], ip, since) == IpFailures(y + [r], ip, since) {
      assert IpFailures(x, ip, since) == IpFailures(y, ip, since);
    }
  }

  /** What a step adds to the ledger. */
  function NewAttempts(c: Config, a: Auth, t: Timed): seq<Attempt> {
    if t.req.Prune? || |Step(c, a, t).0.attempts| < |a.attempts| then [] else Step(c, a, t).0.attempts[|a.attempts|..]
  }

  lemma StepAlike(c: Config, a: Auth, b: Auth, t: Timed)
    requires Alike(a, b, t.now) && !t.req.Prune?
    ensures Step(c, a, t).1 == Step(c, b, t).1
    ensures Alike(Step(c, a, t).0, Step(c, b, t).0, t.now)
    ensures Step(c, b, t).0.attempts == b.attempts + NewAttempts(c, a, t)
  {
    if t.req.SetupReq? || t.req.LoginReq? {
      EntryAlike(c, a, b, t);
    } else {
      OtherAlike(c, a, b, t);
    }
  }

  /** Setup and login record at most one attempt, the same one on both sides. */
  lemma EntryAlike(c: Config, a: Auth, b: Auth, t: Timed)
    requires Alike(a, b, t.now) && (t.req.SetupReq? || t.req.LoginReq?)
    ensures Step(c, a, t).1 == Step(c, b, t).1
    ensures Alike(Step(c, a, t).0, Step(c, b, t).0, t.now)
    ensures Step(c, b, t).0.attempts == b.attempts + NewAttempts(c, a, t)
  {
    var a', b' := Step(c, a, t).0, Step(c, b, t).0;
    if t.req.SetupReq? {
      SetupRecords(c, a, b, t, a', b');
    } else {
      LoginRecords(c, a, b, t, a', b');
    }
    if |a'.attempts| > |a.attempts| {
      RecordAlike(a.attempts, b.attempts, a'.attempts[|a.attempts|], t.now);
    } else {
      assert b.attempts + [] == b.attempts;
    }
  }

  /** Both ledgers grew by the same attempt, or neither did; the rest is equal. */
  ghost predicate BothRecord(a: Auth, b: Auth, a': Auth, b': Auth) {
    && a'.users == b'.users && a'.sessions == b'.sessions
    && if |a'.attempts| > |a.attempts| then
         var r := a'.attempts[|a.attempts|];
         a'.attempts == a.attempts + [r] && b'.attempts == b.attempts + [r]
       else a'.attempts == a.attempts && b'.attempts == b.attempts
  }

  lemma SetupRecords(c: Config, a: Auth, b: Auth, t: Timed, a': Auth, b': Auth)
    requires Alike(a, b, t.now) && t.req.SetupReq? && a' == Step(c, a, t).0 && b' == Step(c, b, t).0
    ensures Step(c, a, t).1 == Step(c, b, t).1 && BothRecord(a, b, a', b')
  {
  }

  lemma LoginRecords(c: Config, a: Auth, b: Auth, t: Timed, a': Auth, b': Auth)
    requires Alike(a, b, t.now) && t.req.LoginReq? && a' == Step(c, a, t).0 && b' == Step(c, b, t).0
    ensures Step(c, a, t).1 == Step(c, b, t).1 && BothRecord(a, b, a', b')
  {
  }

  /** Every other request but a prune leaves the ledger alone. */
  lemma OtherAlike(c: Config, a: Auth, b: Auth, t: Timed)
    requires Alike(a, b, t.now) && !t.req.Prune? && !t.req.SetupReq? && !t.req.LoginReq?
    ensures Step(c, a, t).1 == Step(c, b, t).1
    ensures Alike(Step(c, a, t).0, Step(c, b, t).0, t.now)
    ensures Step(c, b, t).0.attempts == b.attempts + NewAttempts(c, a, t)
  {
    var a', b' := Step(c, a, t).0, Step(c, b, t).0;
    if t.req.AdminReq? {
      AdministerAlike(c, a, b, t.req.sid, t.req.r, t.now);
    }
    assert a'.attempts == a.attempts && b'.attempts == b.attempts;
    assert b.attempts + [] == b.attempts;
  }

  /** Same users and sessions: only the ledgers may differ. */
  predicate SameTables(a: Auth, b: Auth) {
    a.users == b.users && a.sessions == b.sessions
  }

  lemma PatchAlike(c: Config, a: Auth, b: Auth, name: string, password: Option<string>, newRole: Option<Role>,
                   deactivated: Option<bool>)
    requires SameTables(a, b)
    ensures var (a', s) := DoPatchUser(c, a, name, password, newRole, deactivated);
            var (b', s') := DoPatchUser(c, b, name, password, newRole, deactivated);
            s == s' && SameTables(a', b')
  {
    assert ActiveAdmins(a) == ActiveAdmins(b);
  }

  lemma DeleteAlike(a: Auth, b: Auth, name: string)
    requires SameTables(a, b)
    ensures var (a', s) := DoDeleteUser(a, name);
            var (b', s') := DoDeleteUser(b, name);
            s == s' && SameTables(a', b')
  {
    assert ActiveAdmins(a) == ActiveAdmins(b);
  }

  lemma AuthenticateAlike(a: Auth, b: Auth, sid: string, now: int)
    requires SameTables(a, b)
    ensures SameTables(Authenticate(a, sid, now).0, Authenticate(b, sid, now).0)
    ensures Authenticate(a, sid, now).1 == Authenticate(b, sid, now).1
  {
  }

  lemma AdministerAlike(c: Config, a: Auth, b: Auth, sid: string, r: AdminRequest, now: int)
    requires SameTables(a, b)
    ensures var (a', s) := Administer(c, a, sid, r, now);
            var (b', s') := Administer(c, b, sid, r, now);
            s == s' && SameTables(a', b') && a'.attempts == a.attempts && b'.attempts == b.attempts
  {
    AttemptsStay(c, a, sid, r, now);
    AttemptsStay(c, b, sid, r, now);
    AuthenticateAlike(a, b, sid, now);
    var (x, role) := Authenticate(a, sid, now);
    var y := Authenticate(b, sid, now).0;
    if role == Some(Admin) {
      match r
      case CreateUser(name, password, newRole) =>
      case PatchUser(name, password, newRole, deactivated) => PatchAlike(c, x, y, name, password, newRole, deactivated);
      case DeleteUser(name) => DeleteAlike(x, y, name);
      case RevokeSessions(name) =>
    }
  }

  /** The answers to everything but the prunes. */
  function Answers(ts: seq<Timed>, ss: seq<Status>): seq<Status>
    requires |ts| == |ss|
  {
    if ts == [] then []
    else
      var n := |ts| - 1;
      var answers := Answers(ts[..n], ss[..n]);
      if ts[n].req.Prune? then answers else answers + [ss[n]]
  }

  /** Every attempt a run ever recorded, whether or not it was pruned later. */
  function Ledger(c: Config, a: Auth, ts: seq<Timed>): seq<Attempt> {
    if ts == [] then []
    else
      var n := |ts| - 1;
      Ledger(c, a, ts[..n]) + NewAttempts(c, Run(c, a, ts[..n]).0, ts[n])
  }

  lemma AlikeLater(a: Auth, b: Auth, now: int, later: int)
    requires Alike(a, b, now) && now <= later
    ensures Alike(a, b, later)
  {
  }

  lemma RunSnoc(c: Config, ts: seq<Timed>, t: Timed)
    ensures var (b, ss) := Run(c, NOBODY, ts);
            Run(c, NOBODY, ts + [t]) == (Step(c, b, t).0, ss + [Step(c, b, t).1])
  {
    assert (ts + [t])[..|ts + [t]| - 1] == ts;
  }

  /** `a'` after the whole run is like the state after the kept requests, whose ledger and answers grew by these. */
  ghost predicate StillAlike(c: Config, a': Auth, now: int, kept': seq<Timed>, ledger: seq<Attempt>, ss: seq<Status>) {
    var (b', ss') := Run(c, NOBODY, kept');
    Alike(a', b', now) && b'.attempts == ledger && ss' == ss
  }

  lemma RequestAlike(c: Config, a: Auth, b: Auth, t: Timed, a': Auth, kept: seq<Timed>, kept': seq<Timed>,
      ledger: seq<Attempt>, ledger': seq<Attempt>, ss: seq<Status>, ss': seq<Status>)
    requires Alike(a, b, t.now) && Run(c, NOBODY, kept) == (b, ss) && b.attempts == ledger && !t.req.Prune?
    requires a' == Step(c, a, t).0 && ledger' == ledger + NewAttempts(c, a, t)
    requires kept' == kept + [t] && ss' == ss + [Step(c, a, t).1]
    ensures StillAlike(c, a', t.now, kept', ledger', ss')
  {
    StepAlike(c, a, b, t);
    RunSnoc(c, kept, t);
  }

  lemma SweepAlike(c: Config, a: Auth, b: Auth, t: Timed, a': Auth, ledger: seq<Attempt>, ledger': seq<Attempt>)
    requires Alike(a, b, t.now) && b.attempts == ledger && t.req.Prune?
    requires a' == Step(c, a, t).0 && ledger' == ledger + NewAttempts(c, a, t)
    ensures Alike(a', b, t.now) && b.attempts == ledger'
  {
    SweepStep(c, a, t, a', ledger, ledger');
    PruneAlike(a, b, t.now);
  }

  lemma SweepStep(c: Config, a: Auth, t: Timed, a': Auth, ledger: seq<Attempt>, ledger': seq<Attempt>)
    requires t.req.Prune? && a' == Step(c, a, t).0 && ledger' == ledger + NewAttempts(c, a, t)
    ensures a' == PruneAttempts(a, t.now - KEEP) && ledger' == ledger
  {
  }

  /** Under a clock that never goes back, pruning changes no answer, user or session; and the ledger is that of the run without prunes. */
  lemma {:induction false} PruningIsInvisible(c: Config, ts: seq<Timed>, now: int)
    requires Monotone(ts) && (ts != [] ==> ts[|ts| - 1].now <= now)
    ensures var (a, ss) := Run(c, NOBODY, ts);
            var (b, ss') := Run(c, NOBODY, WithoutPrunes(ts));
            && Answers(ts, ss) == ss' && Alike(a, b, now) && b.attempts == Ledger(c, NOBODY, ts)
  {
    if ts != [] {
      var n := |ts| - 1;
      PruningIsInvisible(c, ts[..n], ts[n].now);
      var (a, ss) := Run(c, NOBODY, ts[..n]);
      var kept := WithoutPrunes(ts[..n]);
      var (b, ss') := Run(c, NOBODY, kept);
      var ledger, ledger' := Ledger(c, NOBODY, ts[..n]), Ledger(c, NOBODY, ts);
      if ts[n].req.Prune? {
        SweepAlike(c, a, b, ts[n], Step(c, a, ts[n]).0, ledger, ledger');
      } else {
        RequestAlike(c, a, b, ts[n], Step(c, a, ts[n]).0, kept, WithoutPrunes(ts), ledger, ledger', ss', ss' + [Step(c, a, ts[n]).1]);
      }
      AlikeLater(Step(c, a, ts[n]).0, Run(c, NOBODY, WithoutPrunes(ts)).0, ts[n].now, now);
      assert (ss + [Step(c, a, ts[n]).1])[..n] == ss;
    }
  }

  lemma {:induction false} NoPrunesLeft(ts: seq<Timed>)
    ensures forall k :: 0 <= k < |WithoutPrunes(ts)| ==> !WithoutPrunes(ts)[k].req.Prune?
  {
    if ts != [] {
      NoPrunesLeft(ts[..|ts| - 1]);
    }
  }

  /** Each failure a run ever recorded passed both gates at its time, though older rows may have been pruned since. */
  lemma LedgerGated(c: Config, ts: seq<Timed>)
    requires Monotone(ts)
    ensures Gated(Ledger(c, NOBODY, ts))
  {
    PruningIsInvisible(c, ts, if ts == [] then 0 else ts[|ts| - 1].now);
    NoPrunesLeft(ts);
    RunGated(c, WithoutPrunes(ts));
  }

  /** In any 15 minutes of any run, at most 5 failures are recorded per account and 20 per address. */
  lemma LockoutBound(c: Config, ts: seq<Timed>, username: string, ip: string, from: int)
    requires Monotone(ts)
    ensures UserFailuresIn(Ledger(c, NOBODY, ts), username, from, from + WINDOW) <= USER_THRESHOLD
    ensures IpFailuresIn(Ledger(c, NOBODY, ts), ip, from, from + WINDOW) <= IP_THRESHOLD
  {
    LedgerGated(c, ts);
    GatedWindow(Ledger(c, NOBODY, ts), username, ip, from);
  }
}
