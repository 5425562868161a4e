/**
 Users, sessions and the brute-force lockout: `auth.rs`, `lockout.rs`, the user
 handlers of `ingest.rs` and the mutators of `store.rs` behind them. Each HTTP
 handler is one atomic step at one clock reading; session ids are fresh.
 */
module Accounts {
  import opened Octets
  import opened Wrappers

  datatype Role = Admin | Viewer

  datatype User = User(hash: string, role: Role, active: bool)

  datatype Session = Session(username: string, lastSeen: int)

  datatype Attempt = Attempt(username: Option<string>, ip: string, ts: int, success: bool)

  datatype Auth = Auth(users: map<string, User>, sessions: map<string, Session>, attempts: seq<Attempt>)

  /** The setup token and the password functions, none of which is looked into. */
  datatype Config = Config(
    setupToken: Option<string>,
    strong: string -> bool,
    hash: string -> string,
    verify: (string, string) -> bool)

  datatype Status =
    | Ok | Created | NoContent | BadRequest | Unauthorized | Forbidden | NotFound | Conflict | TooMany | Unavailable

  // ----- the lockout -----

  const WINDOW: int := 15 * 60

  const KEEP: int := 24 * 60 * 60

  const USER_THRESHOLD: nat := 5

  const IP_THRESHOLD: nat := 20

  function UserFailures(attempts: seq<Attempt>, username: string, since: int): nat {
    if attempts == [] then 0
    else
      var a := attempts[|attempts| - 1];
      UserFailures(attempts[..|attempts| - 1], username, since)
        + if a.username == Some(username) && !a.success && a.ts >= since then 1 else 0
  }

  function IpFailures(attempts: seq<Attempt>, ip: string, since: int): nat {
    if attempts == [] then 0
    else
      var a := attempts[|attempts| - 1];
      IpFailures(attempts[..|attempts| - 1], ip, since)
        + if a.ip == ip && !a.success && a.ts >= since then 1 else 0
  }

  datatype Decision = Allow | BlockedByUser | BlockedByIp

  /** `LockoutPolicy::evaluate`: the account is checked before the address. */
  function Evaluate(userFailures: nat, ipFailures: nat): Decision {
    if userFailures >= USER_THRESHOLD then BlockedByUser
    else if ipFailures >= IP_THRESHOLD then BlockedByIp
    else Allow
  }

  /** The decision a request at `now` meets; setup and empty usernames count no account failures. */
  function Gate(attempts: seq<Attempt>, username: Option<string>, ip: string, now: int): Decision {
    Evaluate(if username.Some? then UserFailures(attempts, username.value, now - WINDOW) else 0,
             IpFailures(attempts, ip, now - WINDOW))
  }

  // ----- the store's mutators -----

  function RecordAttempt(a: Auth, username: Option<string>, ip: string, now: int, success: bool): Auth {
    a.(attempts := a.attempts + [Attempt(username, ip, now, success)])
  }

  function CreateSession(a: Auth, id: string, username: string, now: int): Auth {
    a.(sessions := a.sessions[id := Session(username, now)])
  }

  function PutUser(a: Auth, name: string, u: User): Auth {
    a.(users := a.users[name := u])
  }

  function DropSessions(a: Auth, name: string): Auth {
    a.(sessions := map s | s in a.sessions && a.sessions[s].username != name :: a.sessions[s])
  }

  /** Deactivation also revokes every session. */
  function SetDeactivated(a: Auth, name: string, deactivated: bool): Auth
    requires name in a.users
  {
    var b := PutUser(a, name, a.users[name].(active := !deactivated));
    if deactivated then DropSessions(b, name) else b
  }

  /** ON DELETE CASCADE takes the sessions; attempts stay. */
  function DeleteRow(a: Auth, name: string): Auth {
    DropSessions(a.(users := a.users - {name}), name)
  }

  function ActiveAdmins(a: Auth): set<string> {
    set u | u in a.users && a.users[u].role == Admin && a.users[u].active
  }

  // ----- who is asking -----

  /** `session_for_id`: the session joined with its user, and whether that user is deactivated. */
  function Lookup(a: Auth, sid: string): Option<(string, Role, bool)> {
    if sid in a.sessions && a.sessions[sid].username in a.users then
      var u := a.users[a.sessions[sid].username];
      Some((a.sessions[sid].username, u.role, !u.active))
    else None
  }

  /** `require_auth`: the deactivated flag is not looked at; a hit slides the session's expiry. */
  function Authenticate(a: Auth, sid: string, now: int): (Auth, Option<Role>) {
    match Lookup(a, sid)
    case None => (a, None)
    case Some((name, role, _)) => (a.(sessions := a.sessions[sid := a.sessions[sid].(lastSeen := now)]), Some(role))
  }

  // ----- the handlers -----

  /** White_Space of Unicode, which `trim` strips. */
  predicate IsWhite(c: char) {
    var u := c as int;
    9 <= u <= 13 || u == 0x20 || u == 0x85 || u == 0xa0 || u == 0x1680 || 0x2000 <= u <= 0x200a
    || u == 0x2028 || u == 0x2029 || u == 0x202f || u == 0x205f || u == 0x3000
  }

  /** `trim`: every handler that takes a username strips it first. */
  function Trim(s: string): string
    decreases |s|
  {
    if s == "" then ""
    else if IsWhite(s[0]) then Trim(s[1..])
    else if IsWhite(s[|s| - 1]) then Trim(s[..|s| - 1])
    else s
  }

  ghost predicate AllWhite(s: string) {
    forall k :: 0 <= k < |s| ==> IsWhite(s[k])
  }

  lemma TrimFirst(s: string, rest: string)
    requires s != "" && IsWhite(s[0]) && rest == s[1..]
    ensures Trim(s) == Trim(rest)
  {
  }

  lemma TrimLast(s: string, rest: string)
    requires s != "" && !IsWhite(s[0]) && IsWhite(s[|s| - 1]) && rest == s[..|s| - 1]
    ensures Trim(s) == Trim(rest)
  {
  }

  ghost predicate Stripped(name: string) {
    name != "" ==> !IsWhite(name[0]) && !IsWhite(name[|name| - 1])
  }

  lemma {:induction false} TrimWhite(s: string)
    requires AllWhite(s)
    ensures Trim(s) == ""
  {
    if s != "" {
      TrimWhite(s[1..]);
    }
  }

  lemma {:induction false} TrimBack(name: string, back: string, s: string)
    requires AllWhite(back) && Stripped(name) && name != "" && s == name + back
    ensures Trim(s) == name
    decreases |back|
  {
    if back == "" {
      assert s == name;
    } else {
      var n := |back| - 1;
      var rest := name + back[..n];
      assert s[0] == name[0] && s[|s| - 1] == back[n] && s[..|s| - 1] == rest;
      TrimBack(name, back[..n], rest);
      TrimLast(s, rest);
    }
  }

  /** White space at both ends goes and what is left neither begins nor ends with any. */
  lemma {:induction false} TrimStrips(front: string, name: string, back: string, s: string)
    requires AllWhite(front) && AllWhite(back) && Stripped(name) && s == front + name + back
    ensures Trim(s) == name
    decreases |front|
  {
    if front != "" {
      var rest := front[1..] + name + back;
      assert s[0] == front[0] && s[1..] == rest;
      TrimStrips(front[1..], name, back, rest);
      TrimFirst(s, rest);
    } else if name == "" {
      assert s == back;
      TrimWhite(s);
    } else {
      assert s == name + back;
      TrimBack(name, back, s);
    }
  }

  /** One to 64 bytes. */
  predicate GoodName(name: string) {
    name != "" && |Utf8(name)| <= 64
  }

  function Setup(c: Config, a: Auth, token: string, name: string, password: string, ip: string, sid: string, now: int)
    : (Auth, Status)
  {
    if a.users != map[] then (a, Conflict)
    else if c.setupToken.None? then (a, Unavailable)
    else if Gate(a.attempts, None, ip, now) != Allow then (a, TooMany)
    else if token != c.setupToken.value then (RecordAttempt(a, None, ip, now, false), Unauthorized)
    else if !GoodName(name) || !c.strong(password) then (a, BadRequest)
    else (CreateSession(PutUser(a, name, User(c.hash(password), Admin, true)), sid, name, now), Created)
  }

  function Named(name: string): Option<string> {
    if name == "" then None else Some(name)
  }

  /** The hash an unknown user's password is checked against, so that timing tells nothing. */
  const NO_HASH := "$argon2id$"

  function Login(c: Config, a: Auth, name: string, password: string, ip: string, sid: string, now: int): (Auth, Status) {
    if Gate(a.attempts, Named(name), ip, now) != Allow then (a, TooMany)
    else
      var matches := c.verify(if name in a.users then a.users[name].hash else NO_HASH, password);
      if !matches || !(name in a.users && a.users[name].active) then
        (RecordAttempt(a, Named(name), ip, now, false), Unauthorized)
      else
        (CreateSession(RecordAttempt(a, Some(name), ip, now, true), sid, name, now), Ok)
  }

  // ----- what a login means -----

  /** The failures of the ledger, from `since` on, under this name. */
  ghost function FailedAs(attempts: seq<Attempt>, name: string, since: int): set<int> {
    set k | 0 <= k < |attempts| && !attempts[k].success && attempts[k].username == Some(name) && attempts[k].ts >= since
  }

  /** The failures of the ledger, from `since` on, from this address. */
  ghost function FailedFrom(attempts: seq<Attempt>, ip: string, since: int): set<int> {
    set k | 0 <= k < |attempts| && !attempts[k].success && attempts[k].ip == ip && attempts[k].ts >= since
  }

  lemma {:induction false} CountAs(attempts: seq<Attempt>, name: string, since: int)
    ensures |FailedAs(attempts, name, since)| == UserFailures(attempts, name, since)
  {
    if attempts != [] {
      var n := |attempts| - 1;
      var before := FailedAs(attempts[..n], name, since);
      CountAs(attempts[..n], name, since);
      var a := attempts[n];
      assert FailedAs(attempts, name, since)
          == if a.username == Some(name) && !a.success && a.ts >= since then before + {n} else before;
    }
  }

  lemma {:induction false} CountFrom(attempts: seq<Attempt>, ip: string, since: int)
    ensures |FailedFrom(attempts, ip, since)| == IpFailures(attempts, ip, since)
  {
    if attempts != [] {
      var n := |attempts| - 1;
      var before := FailedFrom(attempts[..n], ip, since);
      CountFrom(attempts[..n], ip, since);
      var a := attempts[n];
      assert FailedFrom(attempts, ip, since) == if a.ip == ip && !a.success && a.ts >= since then before + {n} else before;
    }
  }

  /** Five failures of the name, none counted without one, or twenty of the address, in the last fifteen minutes. */
  ghost predicate Blocked(a: Auth, name: string, ip: string, now: int) {
    || (name != "" && |FailedAs(a.attempts, name, now - 15 * 60)| >= 5)
    || |FailedFrom(a.attempts, ip, now - 15 * 60)| >= 20
  }

  /** An active user of that name whose stored hash the password matches. */
  predicate Credible(c: Config, a: Auth, name: string, password: string) {
    name in a.users && a.users[name].active && c.verify(a.users[name].hash, password)
  }

  /**
   From `a` to `b` and the answer: blocked, nothing changes; credible, one session is
   opened and a success noted; otherwise one failure is noted and nothing else changes.
   */
  ghost predicate LoginOutcome(c: Config, a: Auth, name: string, password: string, ip: string, sid: string, now: int,
      b: Auth, status: Status)
  {
    if Blocked(a, name, ip, now) then status == TooMany && b == a
    else if Credible(c, a, name, password) then
      && status == Ok && b.users == a.users && b.sessions == a.sessions[sid := Session(name, now)]
      && b.attempts == a.attempts + [Attempt(Some(name), ip, now, true)]
    else
      && status == Unauthorized && b.users == a.users && b.sessions == a.sessions
      && b.attempts == a.attempts + [Attempt(if name == "" then None else Some(name), ip, now, false)]
  }

  lemma LoginMeans(c: Config, a: Auth, name: string, password: string, ip: string, sid: string, now: int, b: Auth, status: Status)
    requires (b, status) == Login(c, a, name, password, ip, sid, now)
    ensures LoginOutcome(c, a, name, password, ip, sid, now, b, status)
  {
    CountAs(a.attempts, name, now - 15 * 60);
    CountFrom(a.attempts, ip, now - 15 * 60);
  }

  function Logout(a: Auth, sid: string): (Auth, Status) {
    (a.(sessions := a.sessions - {sid}), NoContent)
  }

  datatype AdminRequest =
    | CreateUser(typed: string, password: string, role: Role)
    | PatchUser(name: string, newPassword: Option<string>, newRole: Option<Role>, deactivated: Option<bool>)
    | DeleteUser(name: string)
    | RevokeSessions(name: string)

  function DoCreateUser(c: Config, a: Auth, name: string, password: string, role: Role): (Auth, Status) {
    if !GoodName(name) || !c.strong(password) then (a, BadRequest)
    else if name in a.users then (a, Conflict)
    else (PutUser(a, name, User(c.hash(password), role, true)), Created)
  }

  /** Refused when it would demote or deactivate an admin while at most one active admin is left. */
  predicate LastAdminGuard(a: Auth, name: string, newRole: Option<Role>, deactivated: Option<bool>)
    requires name in a.users
  {
    var u := a.users[name];
    var demoting := newRole.Some? && newRole.value != Admin && u.role == Admin;
    var deactivating := deactivated == Some(true) && u.role == Admin && u.active;
    (demoting || deactivating) && |ActiveAdmins(a)| <= 1
  }

  function DoPatchUser(c: Config, a: Auth, name: string, password: Option<string>, newRole: Option<Role>,
                       deactivated: Option<bool>): (Auth, Status)
  {
    if name !in a.users then (a, NotFound)
    else if password.Some? && !c.strong(password.value) then (a, BadRequest)
    else if LastAdminGuard(a, name, newRole, deactivated) then (a, Conflict)
    else
      var b := if password.Some? then PutUser(a, name, a.users[name].(hash := c.hash(password.value))) else a;
      var d := if newRole.Some? then PutUser(b, name, b.users[name].(role := newRole.value)) else b;
      (if deactivated.Some? then SetDeactivated(d, name, deactivated.value) else d, Ok)
  }

  function DoDeleteUser(a: Auth, name: string): (Auth, Status) {
    if name !in a.users then (a, NotFound)
    else if name in ActiveAdmins(a) && |ActiveAdmins(a)| <= 1 then (a, Conflict)
    else (DeleteRow(a, name), NoContent)
  }

  function DoRevokeSessions(a: Auth, name: string): (Auth, Status) {
    if name !in a.users then (a, NotFound) else (DropSessions(a, name), Ok)
  }

  function Administer(c: Config, a: Auth, sid: string, r: AdminRequest, now: int): (Auth, Status) {
    match Authenticate(a, sid, now)
    case (_, None) => (a, Unauthorized)
    case (b, Some(Viewer)) => (b, Forbidden)
    case (b, Some(Admin)) =>
      match r
      case CreateUser(typed, password, role) => DoCreateUser(c, b, Trim(typed), password, role)
      case PatchUser(name, password, newRole, deactivated) => DoPatchUser(c, b, name, password, newRole, deactivated)
      case DeleteUser(name) => DoDeleteUser(b, name)
      case RevokeSessions(name) => DoRevokeSessions(b, name)
  }

  // ----- retention -----

  function Recent(attempts: seq<Attempt>, cutoff: int): seq<Attempt> {
    if attempts == [] then []
    else
      var a, before := attempts[|attempts| - 1], Recent(attempts[..|attempts| - 1], cutoff);
      if a.ts < cutoff then before else before + [a]
  }

  function PruneAttempts(a: Auth, cutoff: int): Auth {
    a.(attempts := Recent(a.attempts, cutoff))
  }

  function PurgeIdle(a: Auth, cutoff: int): Auth {
    a.(sessions := map s | s in a.sessions && a.sessions[s].lastSeen >= cutoff :: a.sessions[s])
  }

  // ----- the service object -----

  class AuthService {
    const config: Config
    var db: Auth

    constructor (config: Config)
      ensures this.config == config && db == Auth(map[], map[], [])
    {
      this.config := config;
      db := Auth(map[], map[], []);
    }

    method HandleSetup(token: string, typed: string, password: string, ip: string, sid: string, now: int)
      returns (status: Status)
      modifies this
      ensures (db, status) == Setup(config, old(db), token, Trim(typed), password, ip, sid, now)
    {
      if db.users != map[] {
        return Conflict;
      }
      if config.setupToken.None? {
        return Unavailable;
      }
      var ipFailures := IpFailures(db.attempts, ip, now - WINDOW);
      if Evaluate(0, ipFailures) != Allow {
        return TooMany;
      }
      if token != config.setupToken.value {
        db := RecordAttempt(db, None, ip, now, false);
        return Unauthorized;
      }
      var name := Trim(typed);
      if !GoodName(name) || !config.strong(password) {
        return BadRequest;
      }
      db := PutUser(db, name, User(config.hash(password), Admin, true));
      db := CreateSession(db, sid, name, now);
      return Created;
    }

    method HandleLogin(typed: string, password: string, ip: string, sid: string, now: int) returns (status: Status)
      modifies this
      ensures (db, status) == Login(config, old(db), Trim(typed), password, ip, sid, now)
      ensures LoginOutcome(config, old(db), Trim(typed), password, ip, sid, now, db, status)
    {
      var name := Trim(typed);
      ghost var (b, answer) := Login(config, db, name, password, ip, sid, now);
      LoginMeans(config, db, name, password, ip, sid, now, b, answer);
      var since := now - WINDOW;
      var userFailures := if name == "" then 0 else UserFailures(db.attempts, name, since);
      var ipFailures := IpFailures(db.attempts, ip, since);
      if Evaluate(userFailures, ipFailures) != Allow {
        return TooMany;
      }
      var stored := if name in db.users then db.users[name].hash else NO_HASH;
      var matches := config.verify(stored, password);
      var existsActive := name in db.users && db.users[name].active;
      if !matches || !existsActive {
        db := RecordAttempt(db, Named(name), ip, now, false);
        return Unauthorized;
      }
      db := RecordAttempt(db, Some(name), ip, now, true);
      db := CreateSession(db, sid, name, now);
      return Ok;
    }

    method HandleLogout(sid: string) returns (status: Status)
      modifies this
      ensures (db, status) == Logout(old(db), sid)
      ensures status == NoContent && Lookup(db, sid) == None
      ensures forall other :: other != sid ==> Lookup(db, other) == Lookup(old(db), other)
      ensures forall now: int :: Authenticate(db, sid, now) == (db, None)
    {
      db := db.(sessions := db.sessions - {sid});
      return NoContent;
    }

    /** `require_admin`: None when the request may go on. */
    method RequireAdmin(sid: string, now: int) returns (refused: Option<Status>)
      modifies this
      ensures db == Authenticate(old(db), sid, now).0
      ensures refused == match Authenticate(old(db), sid, now).1
                         case None => Some(Unauthorized)
                         case Some(Viewer) => Some(Forbidden)
                         case Some(Admin) => None
    {
      var found := Lookup(db, sid);
      if found.None? {
        return Some(Unauthorized);
      }
      db := db.(sessions := db.sessions[sid := db.sessions[sid].(lastSeen := now)]);
      return if found.value.1 == Admin then None else Some(Forbidden);
    }

    method AdminPatchUser(name: string, password: Option<string>, newRole: Option<Role>, deactivated: Option<bool>)
      returns (status: Status)
      modifies this
      ensures (db, status) == DoPatchUser(config, old(db), name, password, newRole, deactivated)
    {
      if name !in db.users {
        return NotFound;
      }
      if password.Some? && !config.strong(password.value) {
        return BadRequest;
      }
      var current := db.users[name];
      var demoting := newRole.Some? && newRole.value != Admin && current.role == Admin;
      var deactivating := deactivated == Some(true) && current.role == Admin && current.active;
      if (demoting || deactivating) && |ActiveAdmins(db)| <= 1 {
        return Conflict;
      }
      if password.Some? {
        db := PutUser(db, name, db.users[name].(hash := config.hash(password.value)));
      }
      if newRole.Some? {
        db := PutUser(db, name, db.users[name].(role := newRole.value));
      }
      if deactivated.Some? {
        db := SetDeactivated(db, name, deactivated.value);
      }
      return Ok;
    }

    method AdminDeleteUser(name: string) returns (status: Status)
      modifies this
      ensures (db, status) == DoDeleteUser(old(db), name)
    {
      if name !in db.users {
        return NotFound;
      }
      var target := db.users[name];
      if target.role == Admin && target.active && |ActiveAdmins(db)| <= 1 {
        return Conflict;
      }
      db := DeleteRow(db, name);
      return NoContent;
    }

    method Handle(sid: string, r: AdminRequest, now: int) returns (status: Status)
      modifies this
      ensures (db, status) == Administer(config, old(db), sid, r, now)
    {
      var refused := RequireAdmin(sid, now);
      if refused.Some? {
        return refused.value;
      }
      match r {
        case CreateUser(typed, password, role) =>
          var name := Trim(typed);
          if !GoodName(name) || !config.strong(password) {
            return BadRequest;
          }
          if name in db.users {
            return Conflict;
          }
          db := PutUser(db, name, User(config.hash(password), role, true));
          status := Created;
        case PatchUser(name, password, newRole, deactivated) =>
          status := AdminPatchUser(name, password, newRole, deactivated);
        case DeleteUser(name) =>
          status := AdminDeleteUser(name);
        case RevokeSessions(name) =>
          if name !in db.users {
            return NotFound;
          }
          db := DropSessions(db, name);
          status := Ok;
      }
    }
  }
}
