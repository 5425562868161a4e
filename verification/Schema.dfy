/**
 The SQLite tables behind `store.rs`, as values, and what each statement
 sequence does to them. The two UNIQUE constraints of the migrations are part
 of the table types: no operation can build a table that breaks one.
 */
module Schema {
  import opened Wrappers

  datatype Status = Unresolved | Resolved | Muted | Ignored

  type Key = (string, string)

  datatype Issue = Issue(
    id: nat,
    project: string,
    fingerprint: string,
    title: string,
    culprit: Option<string>,
    level: Option<string>,
    status: Status,
    eventCount: nat,
    firstSeen: int,
    lastSeen: int)
  {
    function Key(): Key {
      (project, fingerprint)
    }
  }

  datatype EventRow = EventRow(issueId: nat, eventId: string, payload: string, receivedAt: int)

  datatype Project = Project(token: string, webhookUrl: Option<string>)

  /** UNIQUE(project, fingerprint). */
  ghost predicate UniqueKeys(issues: map<nat, Issue>) {
    forall a, b :: a in issues && b in issues && issues[a].Key() == issues[b].Key() ==> a == b
  }

  /** `event_id TEXT NOT NULL UNIQUE`. */
  ghost predicate UniqueEventIds(events: map<nat, EventRow>) {
    forall a, b :: a in events && b in events && events[a].eventId == events[b].eventId ==> a == b
  }

  type IssueTable = m: map<nat, Issue> | UniqueKeys(m) witness map[]

  type EventTable = m: map<nat, EventRow> | UniqueEventIds(m) witness map[]

  /** `nextIssue` and `nextEvent` are the AUTOINCREMENT counters: ids are never reused. */
  datatype Tables = Tables(
    issues: IssueTable,
    events: EventTable,
    projects: map<string, Project>,
    nextIssue: nat,
    nextEvent: nat)

  const EMPTY := Tables(map[], map[], map[], 1, 1)

  /**
   One prepared ingest record. `now` is the handler's receive time; `clock` is
   what CURRENT_TIMESTAMP reads when the event row is inserted.
   */
  datatype Input = Input(
    project: string,
    fingerprint: string,
    title: string,
    culprit: Option<string>,
    level: Option<string>,
    now: int,
    eventId: string,
    payload: string,
    clock: int)
  {
    function Key(): Key {
      (project, fingerprint)
    }
  }

  datatype UpsertResult = UpsertResult(issue: Issue, created: bool, regressed: bool)

  // ----- lookups -----

  function Find(issues: IssueTable, key: Key): (r: Option<nat>)
    ensures r.Some? ==> r.value in issues && issues[r.value].Key() == key
    ensures r.None? ==> forall id :: id in issues ==> issues[id].Key() != key
  {
    if exists id :: id in issues && issues[id].Key() == key then
      var id :| id in issues && issues[id].Key() == key;
      Some(id)
    else
      None
  }

  predicate HasEvent(events: EventTable, eventId: string) {
    exists e :: e in events && events[e].eventId == eventId
  }

  /** The rows of `events` that belong to issue `id`. */
  function EventsOf(events: map<nat, EventRow>, id: nat): set<nat> {
    set e | e in events && events[e].issueId == id
  }

  // ----- one upsert -----

  function NewIssue(id: nat, input: Input): Issue {
    Issue(id, input.project, input.fingerprint, input.title, input.culprit, input.level,
          Unresolved, 1, input.now, input.now)
  }

  /** The row after another sighting: a resolved issue regresses, the others keep their status. */
  function Bumped(row: Issue, now: int): Issue {
    row.(eventCount := row.eventCount + 1,
         lastSeen := now,
         status := if row.status == Resolved then Unresolved else row.status)
  }

  function UpsertIssue(t: Tables, input: Input): (Tables, UpsertResult) {
    match Find(t.issues, input.Key())
    case None =>
      var row := NewIssue(t.nextIssue, input);
      (t.(issues := t.issues[row.id := row], nextIssue := t.nextIssue + 1),
       UpsertResult(row, true, false))
    case Some(id) =>
      var row := Bumped(t.issues[id], input.now);
      (t.(issues := t.issues[id := row]),
       UpsertResult(row, false, t.issues[id].status == Resolved))
  }

  function InsertEvent(t: Tables, issueId: nat, input: Input): Tables {
    if HasEvent(t.events, input.eventId) then
      t
    else
      var row := EventRow(issueId, input.eventId, input.payload, input.clock);
      t.(events := t.events[t.nextEvent := row], nextEvent := t.nextEvent + 1)
  }

  function Upsert(t: Tables, input: Input): (Tables, UpsertResult) {
    var (t', r) := UpsertIssue(t, input);
    (InsertEvent(t', r.issue.id, input), r)
  }

  // ----- what one upsert means -----

  /** The row of a key not seen before. */
  predicate FirstSighting(row: Issue, input: Input) {
    && row.project == input.project && row.fingerprint == input.fingerprint
    && row.title == input.title && row.culprit == input.culprit && row.level == input.level
    && row.status == Unresolved && row.eventCount == 1 && row.firstSeen == input.now && row.lastSeen == input.now
  }

  /** One more sighting: the count goes up by one, a resolved issue comes back, nothing else but the last time moves. */
  predicate SeenAgain(before: Issue, row: Issue, input: Input) {
    && row.id == before.id && row.project == before.project && row.fingerprint == before.fingerprint
    && row.title == before.title && row.culprit == before.culprit && row.level == before.level && row.firstSeen == before.firstSeen
    && row.eventCount == before.eventCount + 1 && row.lastSeen == input.now
    && (before.status == Resolved ==> row.status == Unresolved) && (before.status != Resolved ==> row.status == before.status)
  }

  /** From `t` to `u` the issue in `r` was made or seen again; every other row stayed. */
  ghost predicate Sighted(t: Tables, input: Input, u: Tables, r: UpsertResult) {
    var id := r.issue.id;
    && id in u.issues && u.issues[id] == r.issue && u.issues.Keys == t.issues.Keys + {id}
    && (forall i :: i in t.issues && i != id ==> u.issues[i] == t.issues[i])
    && u.projects == t.projects
    && if forall i :: i in t.issues ==> t.issues[i].project != input.project || t.issues[i].fingerprint != input.fingerprint
       then r.created && !r.regressed && id == t.nextIssue && u.nextIssue == t.nextIssue + 1 && FirstSighting(r.issue, input)
       else
         && !r.created && id in t.issues && u.nextIssue == t.nextIssue
         && t.issues[id].project == input.project && t.issues[id].fingerprint == input.fingerprint
         && SeenAgain(t.issues[id], r.issue, input) && (r.regressed <==> t.issues[id].status == Resolved)
  }

  /** From `t` to `u` one event row was added for issue `id`, unless the event id was known. */
  ghost predicate Filed(t: Tables, input: Input, u: Tables, id: nat) {
    if exists e :: e in t.events && t.events[e].eventId == input.eventId
    then u.events == t.events && u.nextEvent == t.nextEvent
    else
      && u.nextEvent == t.nextEvent + 1 && u.events.Keys == t.events.Keys + {t.nextEvent}
      && (forall e :: e in t.events && e != t.nextEvent ==> u.events[e] == t.events[e])
      && var row := u.events[t.nextEvent];
         row.issueId == id && row.eventId == input.eventId && row.payload == input.payload && row.receivedAt == input.clock
  }

  /** Every row is filed under its id. */
  ghost predicate Keyed(issues: map<nat, Issue>) {
    forall i :: i in issues ==> issues[i].id == i
  }

  lemma IssueMeans(t: Tables, input: Input, u: Tables, r: UpsertResult)
    requires Keyed(t.issues) && (u, r) == UpsertIssue(t, input)
    ensures Sighted(t, input, u, r) && u.events == t.events && u.nextEvent == t.nextEvent
  {
    var found := Find(t.issues, input.Key());
    if found.None? {
      assert forall i :: i in t.issues ==> t.issues[i].Key() != input.Key();
    } else {
      assert t.issues[found.value].Key() == input.Key();
    }
  }

  lemma EventMeans(t: Tables, input: Input, u: Tables, id: nat)
    requires u == InsertEvent(t, id, input)
    ensures Filed(t, input, u, id) && u == t.(events := u.events, nextEvent := u.nextEvent)
  {
  }

  /** One event: its issue is made or seen again, and its row is filed under that issue. */
  lemma UpsertMeans(t: Tables, input: Input, u: Tables, r: UpsertResult)
    requires Keyed(t.issues) && (u, r) == Upsert(t, input)
    ensures Sighted(t, input, u, r) && Filed(t, input, u, r.issue.id)
  {
    var middle := UpsertIssue(t, input).0;
    IssueMeans(t, input, middle, r);
    EventMeans(middle, input, u, r.issue.id);
  }

  /** Events one at a time, in order. */
  function UpsertAll(t: Tables, inputs: seq<Input>): (r: (Tables, seq<UpsertResult>))
    ensures |r.1| == |inputs|
  {
    if inputs == [] then
      (t, [])
    else
      var n := |inputs| - 1;
      var (t', rs) := UpsertAll(t, inputs[..n]);
      var (t'', r) := Upsert(t', inputs[n]);
      (t'', rs + [r])
  }

  // ----- the other writers -----

  function SetStatus(t: Tables, id: nat, status: Status): (Tables, Option<Issue>) {
    if id in t.issues then
      var row := t.issues[id].(status := status);
      (t.(issues := t.issues[id := row]), Some(row))
    else
      (t, None)
  }

  /** Deletes the issues outside `keep`; ON DELETE CASCADE takes their events along. */
  function KeepIssues(t: Tables, keep: set<nat>): Tables {
    var issues := map id | id in t.issues && id in keep :: t.issues[id];
    t.(issues := issues,
       events := map e | e in t.events && t.events[e].issueId in issues :: t.events[e])
  }

  function KeepEvents(t: Tables, keep: set<nat>): Tables {
    t.(events := map e | e in t.events && e in keep :: t.events[e])
  }

  function IssuesOf(t: Tables, project: string): set<nat> {
    set id | id in t.issues && t.issues[id].project == project
  }

  datatype StoreError = NotFound | UniqueViolation | Sqlx

  function CreateProject(t: Tables, name: string, token: string): Result<Tables, StoreError> {
    if name in t.projects then
      Failure(UniqueViolation)
    else
      Success(t.(projects := t.projects[name := Project(token, None)]))
  }

  function DeleteProject(t: Tables, name: string): Result<Tables, StoreError> {
    if name !in t.projects then
      Failure(NotFound)
    else
      var t' := KeepIssues(t, t.issues.Keys - IssuesOf(t, name));
      Success(t'.(projects := t'.projects - {name}))
  }

  /** Moving `source`'s issues would put two rows under one (project, fingerprint). */
  predicate RenameClash(t: Tables, source: string, target: string) {
    exists a, b :: a in IssuesOf(t, source) && b in IssuesOf(t, target)
                   && t.issues[a].fingerprint == t.issues[b].fingerprint
  }

  function RenameIssues(t: Tables, source: string, target: string): (m: map<nat, Issue>)
  {
    map id | id in t.issues ::
      if t.issues[id].project == source then t.issues[id].(project := target) else t.issues[id]
  }

  lemma RenamedKeysUnique(t: Tables, source: string, target: string)
    requires !RenameClash(t, source, target)
    ensures UniqueKeys(RenameIssues(t, source, target))
  {
    var m := RenameIssues(t, source, target);
    assert forall a, b :: a in IssuesOf(t, source) && b in IssuesOf(t, target)
                          ==> t.issues[a].fingerprint != t.issues[b].fingerprint;
    forall a, b | a in m && b in m && m[a].Key() == m[b].Key() ensures a == b {
      if t.issues[a].project == t.issues[b].project {
        assert t.issues[a].Key() == t.issues[b].Key();
      }
    }
  }

  function RenameProject(t: Tables, source: string, target: string): Result<Tables, StoreError> {
    if source !in t.projects then
      Failure(NotFound)
    else if source == target then
      Success(t)
    else if target in t.projects || RenameClash(t, source, target) then
      Failure(UniqueViolation)
    else
      RenamedKeysUnique(t, source, target);
      Success(t.(issues := RenameIssues(t, source, target),
                 projects := (t.projects - {source})[target := t.projects[source]]))
  }
}
