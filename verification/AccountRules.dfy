/**
 Who gets in and who may change what: the conditions and effects of the account
 requests, and where the sessions and passwords of a run come from.
 */
module AccountRules {
  import opened Octets
  import opened Wrappers
  import opened Accounts
  import opened AccountRuns

  // ----- setup -----

  /** The token of the configuration, a name of one to 64 bytes and a strong password, before there is any user. */
  predicate MaySetUp(c: Config, a: Auth, token: string, name: string, password: string) {
    a.users == map[] && c.setupToken == Some(token) && name != "" && |Utf8(name)| <= 64 && c.strong(password)
  }

  /** Setup opens the service with one admin; any other answer changes at most the ledger, for a wrong token. */
  lemma SetupMeans(c: Config, a: Auth, token: string, name: string, password: string, ip: string, sid: string, now: int,
      b: Auth, status: Status)
    requires (b, status) == Setup(c, a, token, name, password, ip, sid, now)
    ensures status == Created <==> MaySetUp(c, a, token, name, password) && |FailedFrom(a.attempts, ip, now - 15 * 60)| < 20
    ensures status == Created ==> b == Auth(map[name := User(c.hash(password), Admin, true)],
                                            a.sessions[sid := Session(name, now)], a.attempts)
    ensures status == Unauthorized ==> b == a.(attempts := a.attempts + [Attempt(None, ip, now, false)])
    ensures status == Conflict <==> a.users != map[]
    ensures status == Unavailable <==> a.users == map[] && c.setupToken.None?
    ensures status == TooMany <==>
              a.users == map[] && c.setupToken.Some? && |FailedFrom(a.attempts, ip, now - 15 * 60)| >= 20
    ensures status == Unauthorized <==>
              && a.users == map[] && c.setupToken.Some? && c.setupToken.value != token
              && |FailedFrom(a.attempts, ip, now - 15 * 60)| < 20
    ensures status in {Created, Conflict, Unavailable, TooMany, Unauthorized, BadRequest}
    ensures status != Created && status != Unauthorized ==> b == a
  {
    CountFrom(a.attempts, ip, now - 15 * 60);
  }

  // ----- sessions -----

  /** A session is let through exactly while its user exists, with that user's role; only its own clock moves. */
  lemma AuthenticateMeans(a: Auth, sid: string, now: int, b: Auth, role: Option<Role>)
    requires (b, role) == Authenticate(a, sid, now)
    ensures role.Some? <==> sid in a.sessions && a.sessions[sid].username in a.users
    ensures role.Some? ==> role.value == a.users[a.sessions[sid].username].role
    ensures b.users == a.users && b.attempts == a.attempts && b.sessions.Keys == a.sessions.Keys
    ensures forall s :: s in a.sessions ==> b.sessions[s].username == a.sessions[s].username
    ensures forall s :: s in a.sessions && (s != sid || role.None?) ==> b.sessions[s] == a.sessions[s]
    ensures role.Some? ==> b.sessions[sid].lastSeen == now
  {
  }

  /** The session's user is an admin. */
  predicate ByAdmin(a: Auth, sid: string) {
    sid in a.sessions && a.sessions[sid].username in a.users && a.users[a.sessions[sid].username].role == Admin
  }

  /** Without an admin's session an admin request is refused and changes no user. */
  lemma OnlyAdminsAdminister(c: Config, a: Auth, sid: string, r: AdminRequest, now: int, b: Auth, status: Status)
    requires (b, status) == Administer(c, a, sid, r, now) && !ByAdmin(a, sid)
    ensures status == if sid in a.sessions && a.sessions[sid].username in a.users then Forbidden else Unauthorized
    ensures b.users == a.users && b.attempts == a.attempts && b.sessions.Keys == a.sessions.Keys
  {
  }

  /** An admin's request does what it asks for, or nothing to the users. */
  lemma AdminsAdminister(c: Config, a: Auth, sid: string, r: AdminRequest, now: int, b: Auth, status: Status)
    requires (b, status) == Administer(c, a, sid, r, now) && ByAdmin(a, sid)
    ensures r.CreateUser? && status == Created ==>
              Trim(r.typed) !in a.users && b.users == a.users[Trim(r.typed) := User(c.hash(r.password), r.role, true)]
    ensures r.DeleteUser? && status == NoContent ==> r.name in a.users && b.users == a.users - {r.name}
    ensures r.RevokeSessions? && status == Ok ==>
              b.users == a.users && forall s :: s in b.sessions <==> s in a.sessions && a.sessions[s].username != r.name
    ensures r.PatchUser? && status == Ok ==>
              r.name in a.users && b.users.Keys == a.users.Keys
              && (r.newRole.Some? ==> b.users[r.name].role == r.newRole.value)
              && (r.deactivated.Some? ==> b.users[r.name].active == !r.deactivated.value)
    ensures status != Created && status != NoContent && status != Ok ==> b.users == a.users && b.sessions.Keys == a.sessions.Keys
  {
    var d := Authenticate(a, sid, now).0;
    match r
    case CreateUser(typed, password, role) => CreateMeans(c, d, Trim(typed), password, role, b, status);
    case PatchUser(name, password, newRole, deactivated) =>
      PatchMeans(c, d, name, password, newRole, deactivated, b, status);
    case DeleteUser(name) => DeleteMeans(d, name, b, status);
    case RevokeSessions(name) => RevokeMeans(d, name, b, status);
  }

  /** Sessions idle for thirty days go, and no others. */
  lemma PurgeMeans(c: Config, a: Auth, now: int)
    ensures var b := Step(c, a, At(now, Purge)).0;
            && b.users == a.users && b.attempts == a.attempts
            && (forall s :: s in b.sessions <==> s in a.sessions && now - a.sessions[s].lastSeen <= 30 * 24 * 60 * 60)
            && (forall s :: s in b.sessions ==> b.sessions[s] == a.sessions[s])
  {
  }

  lemma {:induction false} RecentMeans(attempts: seq<Attempt>, cutoff: int, x: Attempt)
    ensures x in Recent(attempts, cutoff) <==> x in attempts && x.ts >= cutoff
  {
    if attempts != [] {
      var n := |attempts| - 1;
      RecentMeans(attempts[..n], cutoff, x);
      assert attempts == attempts[..n] + [attempts[n]];
    }
  }

  /** Attempts older than a day go, and no others. */
  lemma PruneMeans(c: Config, a: Auth, now: int, x: Attempt)
    ensures var b := Step(c, a, At(now, Prune)).0;
            && b.users == a.users && b.sessions == a.sessions
            && (x in b.attempts <==> x in a.attempts && now - x.ts <= 24 * 60 * 60)
  {
    RecentMeans(a.attempts, now - 24 * 60 * 60, x);
  }

  // ----- users -----

  /** The admins who can log in. */
  ghost function Admins(a: Auth): set<string> {
    set u | u in a.users && a.users[u].role == Admin && a.users[u].active
  }

  /** A new user has the given role, is active, and verifies against the given password's hash; all others stay. */
  lemma CreateMeans(c: Config, a: Auth, name: string, password: string, role: Role, b: Auth, status: Status)
    requires (b, status) == DoCreateUser(c, a, name, password, role)
    ensures status == Created <==> name !in a.users && name != "" && |Utf8(name)| <= 64 && c.strong(password)
    ensures status == Conflict <==> name in a.users && name != "" && |Utf8(name)| <= 64 && c.strong(password)
    ensures status in {Created, Conflict, BadRequest}
    ensures status == Created ==> b == a.(users := a.users[name := User(c.hash(password), role, true)])
    ensures status != Created ==> b == a
  {
  }

  /** A patch is refused exactly for an unknown user, a weak password, or when it takes the last active admin's office. */
  lemma PatchMeans(c: Config, a: Auth, name: string, password: Option<string>, newRole: Option<Role>, deactivated: Option<bool>,
      b: Auth, status: Status)
    requires (b, status) == DoPatchUser(c, a, name, password, newRole, deactivated)
    ensures status == Ok <==>
              && name in a.users && (password.Some? ==> c.strong(password.value))
              && !(a.users[name].role == Admin && |Admins(a)| <= 1
                   && (newRole == Some(Viewer) || (deactivated == Some(true) && a.users[name].active)))
    ensures status == NotFound <==> name !in a.users
    ensures status == BadRequest <==> name in a.users && password.Some? && !c.strong(password.value)
    ensures status in {Ok, NotFound, BadRequest, Conflict}
    ensures status != Ok ==> b == a
    ensures status == Ok ==>
              && b.attempts == a.attempts && b.users.Keys == a.users.Keys
              && (forall u :: u in a.users && u != name ==> b.users[u] == a.users[u])
              && b.users[name] == User(if password.Some? then c.hash(password.value) else a.users[name].hash,
                                       if newRole.Some? then newRole.value else a.users[name].role,
                                       if deactivated.Some? then !deactivated.value else a.users[name].active)
              && (forall s :: s in b.sessions <==>
                    s in a.sessions && (deactivated == Some(true) ==> a.sessions[s].username != name))
              && (forall s :: s in b.sessions ==> b.sessions[s] == a.sessions[s])
  {
    assert Admins(a) == ActiveAdmins(a);
    if status == Ok {
      PatchChanges(c, a, name, password, newRole, deactivated);
    }
  }

  /** A user is deleted unless unknown or the last active admin, and the sessions go along. */
  lemma DeleteMeans(a: Auth, name: string, b: Auth, status: Status)
    requires (b, status) == DoDeleteUser(a, name)
    ensures status == NoContent <==> name in a.users && !(name in Admins(a) && |Admins(a)| <= 1)
    ensures status == NotFound <==> name !in a.users
    ensures status in {NoContent, NotFound, Conflict}
    ensures status != NoContent ==> b == a
    ensures status == NoContent ==>
              && b.users == a.users - {name} && b.attempts == a.attempts
              && (forall s :: s in b.sessions <==> s in a.sessions && a.sessions[s].username != name)
              && (forall s :: s in b.sessions ==> b.sessions[s] == a.sessions[s])
  {
    assert Admins(a) == ActiveAdmins(a);
  }

  /** Revoking ends exactly that user's sessions. */
  lemma RevokeMeans(a: Auth, name: string, b: Auth, status: Status)
    requires (b, status) == DoRevokeSessions(a, name)
    ensures status == Ok <==> name in a.users
    ensures status in {Ok, NotFound}
    ensures b.users == a.users && b.attempts == a.attempts
    ensures forall s :: s in b.sessions <==> s in a.sessions && (status == Ok ==> a.sessions[s].username != name)
    ensures forall s :: s in b.sessions ==> b.sessions[s] == a.sessions[s]
  {
  }

  // ----- where the sessions of a run come from -----

  /** The step opens session `sid` for `user`: a login with the user's password, or the setup with the token. */
  predicate Opens(c: Config, a: Auth, t: Timed, sid: string, user: string) {
    match t.req
    case LoginReq(typed, password, _, s) => s == sid && Trim(typed) == user && Credible(c, a, user, password)
    case SetupReq(token, typed, _, _, s) => s == sid && Trim(typed) == user && a.users == map[] && c.setupToken == Some(token)
    case _ => false
  }

  lemma StepOpens(c: Config, a: Auth, t: Timed, b: Auth, sid: string)
    requires b == Step(c, a, t).0 && sid in b.sessions
    ensures Opens(c, a, t, sid, b.sessions[sid].username)
         || (sid in a.sessions && a.sessions[sid].username == b.sessions[sid].username)
  {
    match t.req
    case SetupReq(token, typed, password, ip, s) =>
    case LoginReq(typed, password, ip, s) =>
      LoginMeans(c, a, Trim(typed), password, ip, s, t.now, b, Step(c, a, t).1);
    case LogoutReq(s) =>
    case AuthedReq(s) =>
    case AdminReq(s, r) => AdministerOpensNone(c, a, s, r, t.now, b, sid);
    case Prune =>
    case Purge =>
  }

  lemma AdministerOpensNone(c: Config, a: Auth, s: string, r: AdminRequest, now: int, b: Auth, sid: string)
    requires b == Administer(c, a, s, r, now).0 && sid in b.sessions
    ensures sid in a.sessions && a.sessions[sid].username == b.sessions[sid].username
  {
    var (d, role) := Authenticate(a, s, now);
    AuthenticateMeans(a, s, now, d, role);
    if role == Some(Admin) {
      AdminKeepsSessions(c, d, s, r, b, sid);
    }
  }

  lemma AdminKeepsSessions(c: Config, d: Auth, s: string, r: AdminRequest, b: Auth, sid: string)
    requires b == match r
                  case CreateUser(typed, password, role) => DoCreateUser(c, d, Trim(typed), password, role).0
                  case PatchUser(name, password, newRole, deactivated) => DoPatchUser(c, d, name, password, newRole, deactivated).0
                  case DeleteUser(name) => DoDeleteUser(d, name).0
                  case RevokeSessions(name) => DoRevokeSessions(d, name).0
    requires sid in b.sessions
    ensures sid in d.sessions && d.sessions[sid] == b.sessions[sid]
  {
    match r
    case CreateUser(typed, password, role) =>
    case PatchUser(name, password, newRole, deactivated) =>
      PatchMeans(c, d, name, password, newRole, deactivated, b, DoPatchUser(c, d, name, password, newRole, deactivated).1);
    case DeleteUser(name) => DeleteMeans(d, name, b, DoDeleteUser(d, name).1);
    case RevokeSessions(name) =>
  }

  /** Every session of a reachable state was opened by such a step of the run. */
  lemma {:induction false} SessionsAreEarned(c: Config, ts: seq<Timed>, sid: string) returns (k: nat)
    requires sid in Run(c, NOBODY, ts).0.sessions
    ensures k < |ts| && Opens(c, Run(c, NOBODY, ts[..k]).0, ts[k], sid, Run(c, NOBODY, ts).0.sessions[sid].username)
  {
    var n := |ts| - 1;
    var a, b := Run(c, NOBODY, ts[..n]).0, Run(c, NOBODY, ts).0;
    StepOpens(c, a, ts[n], b, sid);
    if Opens(c, a, ts[n], sid, b.sessions[sid].username) {
      k := n;
    } else {
      k := SessionsAreEarned(c, ts[..n], sid);
      assert ts[..n][..k] == ts[..k];
    }
  }

  // ----- where the passwords of a run come from -----

  /** The step gives `user` this hash: of a strong password, at the setup or by an admin. */
  predicate SetsHash(c: Config, a: Auth, t: Timed, user: string, hash: string) {
    match t.req
    case SetupReq(token, typed, password, _, _) =>
      a.users == map[] && c.setupToken == Some(token) && Trim(typed) == user && c.strong(password) && hash == c.hash(password)
    case AdminReq(sid, CreateUser(typed, password, _)) =>
      ByAdmin(a, sid) && Trim(typed) == user && c.strong(password) && hash == c.hash(password)
    case AdminReq(sid, PatchUser(name, password, _, _)) =>
      ByAdmin(a, sid) && name == user && password.Some? && c.strong(password.value) && hash == c.hash(password.value)
    case _ => false
  }

  lemma AdministerSetsHash(c: Config, a: Auth, t: Timed, b: Auth, user: string)
    requires t.req.AdminReq? && b == Administer(c, a, t.req.sid, t.req.r, t.now).0 && user in b.users
    ensures SetsHash(c, a, t, user, b.users[user].hash) || (user in a.users && a.users[user].hash == b.users[user].hash)
  {
    var d := Authenticate(a, t.req.sid, t.now).0;
    if t.req.r.PatchUser? && ByAdmin(a, t.req.sid) {
      var PatchUser(name, password, newRole, deactivated) := t.req.r;
      PatchMeans(c, d, name, password, newRole, deactivated, b, Administer(c, a, t.req.sid, t.req.r, t.now).1);
    }
  }

  lemma StepSetsHash(c: Config, a: Auth, t: Timed, b: Auth, user: string)
    requires b == Step(c, a, t).0 && user in b.users
    ensures SetsHash(c, a, t, user, b.users[user].hash) || (user in a.users && a.users[user].hash == b.users[user].hash)
  {
    if t.req.AdminReq? {
      AdministerSetsHash(c, a, t, b, user);
    }
  }

  /** Every stored hash of a reachable state was put there by such a step of the run. */
  lemma {:induction false} PasswordsAreSet(c: Config, ts: seq<Timed>, user: string) returns (k: nat)
    requires user in Run(c, NOBODY, ts).0.users
    ensures k < |ts| && SetsHash(c, Run(c, NOBODY, ts[..k]).0, ts[k], user, Run(c, NOBODY, ts).0.users[user].hash)
  {
    var n := |ts| - 1;
    var a, b := Run(c, NOBODY, ts[..n]).0, Run(c, NOBODY, ts).0;
    StepSetsHash(c, a, ts[n], b, user);
    if SetsHash(c, a, ts[n], user, b.users[user].hash) {
      k := n;
    } else {
      k := PasswordsAreSet(c, ts[..n], user);
      assert ts[..n][..k] == ts[..k];
    }
  }
}
