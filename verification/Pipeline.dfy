/**
 Whole runs of the daemon: ingest batches interleaved with status changes,
 retention sweeps, renames and deletes. What every run keeps, and an exact
 account of the alerts it raises.
 */
module Pipeline {
  import opened Wrappers
  import opened Schema
  import opened Retention
  import opened Digest

  datatype Op =
    | Ingest(batch: Batch)
    | PutStatus(id: nat, status: Status)
    | AgeSweep(cutoff: int)
    | EventSweep(max: int)
    | IssueSweep(max: int)
    | Create(name: string, token: string)
    | Rename(source: string, target: string)
    | Delete(name: string)

  function OrElse(r: Result<Tables, StoreError>, t: Tables): Tables {
    if r.Success? then r.value else t
  }

  /** Sweeps, renames and deletes change tables only: nothing is broadcast. */
  function Maintain(t: Tables, op: Op): Tables
    requires !op.Ingest? && !op.PutStatus?
  {
    match op
    case AgeSweep(cutoff) => AgePurge(t, cutoff)
    case EventSweep(max) => EventCap(t, max)
    case IssueSweep(max) => IssueCap(t, max)
    case Create(name, token) => OrElse(CreateProject(t, name, token), t)
    case Rename(source, target) => OrElse(RenameProject(t, source, target), t)
    case Delete(name) => OrElse(DeleteProject(t, name), t)
  }

  /** `put_status` writes the row and broadcasts it from its own task. */
  function PutStatusStep(w: World, id: nat, status: Status): World {
    var (db, row) := SetStatus(w.db, id, status);
    w.(db := db, sent := w.sent + if row.Some? then [IssueUpdated(row.value)] else [])
  }

  function Step(w: World, op: Op): World {
    match op
    case Ingest(batch) => AfterBatch(w, batch)
    case PutStatus(id, status) => PutStatusStep(w, id, status)
    case _ => w.(db := Maintain(w.db, op))
  }

  function Run(w: World, ops: seq<Op>): World {
    if ops == [] then w else Step(Run(w, ops[..|ops| - 1]), ops[|ops| - 1])
  }

  const START := World(EMPTY, [], [], [])

  // ----- what every reachable state satisfies -----

  ghost predicate Sound(t: Tables) {
    && (forall i :: i in t.issues ==> t.issues[i].id == i && i < t.nextIssue)
    && (forall e :: e in t.events ==> e < t.nextEvent && t.events[e].issueId in t.issues)
    && (forall i :: i in t.issues ==> |EventsOf(t.events, i)| <= t.issues[i].eventCount)
  }

  lemma Fewer(a: set<nat>, b: set<nat>)
    requires a <= b
    ensures |a| <= |b|
  {
    assert b == a + (b - a);
  }

  lemma UpsertIssueSound(t: Tables, input: Input)
    requires Sound(t)
    ensures var (u, r) := UpsertIssue(t, input);
            && Sound(u) && u.events == t.events && u.nextEvent == t.nextEvent
            && r.issue.id in u.issues && u.issues[r.issue.id] == r.issue
            && |EventsOf(u.events, r.issue.id)| < r.issue.eventCount
  {
    var (u, r) := UpsertIssue(t, input);
    if Find(t.issues, input.Key()).None? {
      assert EventsOf(t.events, t.nextIssue) == {};
    }
  }

  lemma InsertedEvents(t: Tables, id: nat, input: Input, i: nat)
    requires t.nextEvent !in t.events
    ensures var after := EventsOf(InsertEvent(t, id, input).events, i);
            |after| <= |EventsOf(t.events, i)| + if i == id then 1 else 0
  {
    var before, after := EventsOf(t.events, i), EventsOf(InsertEvent(t, id, input).events, i);
    if i == id {
      Fewer(after, before + {t.nextEvent});
    } else {
      Fewer(after, before);
    }
  }

  lemma InsertEventSound(t: Tables, id: nat, input: Input)
    requires Sound(t) && id in t.issues && |EventsOf(t.events, id)| < t.issues[id].eventCount
    ensures Sound(InsertEvent(t, id, input))
  {
    assert t.nextEvent !in t.events;
    var u := InsertEvent(t, id, input);
    assert u.issues == t.issues && u.nextIssue == t.nextIssue;
    forall i | i in u.issues ensures |EventsOf(u.events, i)| <= u.issues[i].eventCount {
      InsertedEvents(t, id, input, i);
    }
  }

  lemma UpsertSound(t: Tables, input: Input)
    requires Sound(t)
    ensures Sound(Upsert(t, input).0)
  {
    UpsertIssueSound(t, input);
    var (u, r) := UpsertIssue(t, input);
    InsertEventSound(u, r.issue.id, input);
  }

  lemma {:induction false} DigestAllSound(w: World, inputs: seq<Input>)
    requires Sound(w.db)
    ensures Sound(DigestAll(w, inputs).db)
  {
    if inputs != [] {
      DigestAllSound(w, inputs[..|inputs| - 1]);
      UpsertSound(DigestAll(w, inputs[..|inputs| - 1]).db, inputs[|inputs| - 1]);
    }
  }

  lemma KeepEventsSound(t: Tables, keep: set<nat>)
    requires Sound(t)
    ensures Sound(KeepEvents(t, keep))
  {
    var u := KeepEvents(t, keep);
    forall i | i in u.issues ensures |EventsOf(u.events, i)| <= u.issues[i].eventCount {
      Fewer(EventsOf(u.events, i), EventsOf(t.events, i));
    }
  }

  lemma KeepIssuesSound(t: Tables, keep: set<nat>)
    requires Sound(t)
    ensures Sound(KeepIssues(t, keep))
  {
    var u := KeepIssues(t, keep);
    forall i | i in u.issues ensures |EventsOf(u.events, i)| <= u.issues[i].eventCount {
      Fewer(EventsOf(u.events, i), EventsOf(t.events, i));
    }
  }

  lemma MaintainSound(t: Tables, op: Op)
    requires Sound(t) && !op.Ingest? && !op.PutStatus?
    ensures Sound(Maintain(t, op))
  {
    match op
    case AgeSweep(cutoff) =>
      KeepEventsSound(t, AgeKeep(t, cutoff));
    case EventSweep(max) =>
      if max > 0 {
        KeepEventsSound(t, EventKeep(t, max));
      }
    case IssueSweep(max) =>
      if max > 0 {
        KeepIssuesSound(t, IssueKeep(t, max));
      }
    case Create(name, token) =>
    case Rename(source, target) =>
    case Delete(name) =>
      KeepIssuesSound(t, t.issues.Keys - IssuesOf(t, name));
  }

  lemma StepSound(w: World, op: Op)
    requires Sound(w.db)
    ensures Sound(Step(w, op).db)
    ensures UniqueKeys(Step(w, op).db.issues) && UniqueEventIds(Step(w, op).db.events)
  {
    match op
    case Ingest(batch) =>
      if batch.commits {
        assert batch == Batch(batch.inputs, true);
        BatchIsItsEvents(w, batch.inputs);
        DigestAllSound(w, batch.inputs);
      }
    case PutStatus(id, status) =>
    case _ => MaintainSound(w.db, op);
  }

  /**
   In every reachable state ids and keys are unique, every event's issue exists
   and no issue stores more events than it has counted.
   */
  lemma {:induction false} ReachableIsSound(ops: seq<Op>)
    ensures Sound(Run(START, ops).db)
    ensures UniqueKeys(Run(START, ops).db.issues) && UniqueEventIds(Run(START, ops).db.events)
  {
    if ops != [] {
      ReachableIsSound(ops[..|ops| - 1]);
      StepSound(Run(START, ops[..|ops| - 1]), ops[|ops| - 1]);
    }
  }

  // ----- alerts: conservation laws -----

  function Bit(b: bool): nat {
    if b then 1 else 0
  }

  function Regressions(raised: seq<Trigger>, id: nat): nat {
    if raised == [] then 0
    else
      var last := raised[|raised| - 1];
      Regressions(raised[..|raised| - 1], id) + Bit(last.kind.Regression? && last.issue.id == id)
  }

  function NewIssues(raised: seq<Trigger>, key: Key): nat {
    if raised == [] then 0
    else
      var last := raised[|raised| - 1];
      NewIssues(raised[..|raised| - 1], key) + Bit(last.kind.NewIssue? && last.issue.Key() == key)
  }

  predicate IsResolved(t: Tables, id: nat) {
    id in t.issues && t.issues[id].status == Resolved
  }

  ghost predicate Present(t: Tables, key: Key) {
    exists id :: id in t.issues && t.issues[id].Key() == key
  }

  /** `op` is a status change that takes issue `id` into Resolved. */
  function Resolves(w: World, op: Op, id: nat): nat {
    Bit(op.PutStatus? && op.id == id && !IsResolved(w.db, id) && IsResolved(Step(w, op).db, id))
  }

  /** `op` takes a resolved issue out of Resolved by hand, or removes its row. */
  function Unresolves(w: World, op: Op, id: nat): nat {
    Bit(!op.Ingest? && IsResolved(w.db, id) && !IsResolved(Step(w, op).db, id))
  }

  /** The row that held `key` is removed, or renamed away. */
  ghost function Vacates(w: World, op: Op, key: Key): nat {
    Bit(exists id :: id in w.db.issues && w.db.issues[id].Key() == key
                     && !(id in Step(w, op).db.issues && Step(w, op).db.issues[id].Key() == key))
  }

  /** A rename moves a row to `key`. */
  ghost function MovesIn(w: World, op: Op, key: Key): nat {
    Bit(op.Rename? && !Present(w.db, key) && Present(Step(w, op).db, key))
  }

  function SumResolves(w: World, ops: seq<Op>, id: nat): nat {
    if ops == [] then 0
    else SumResolves(w, ops[..|ops| - 1], id) + Resolves(Run(w, ops[..|ops| - 1]), ops[|ops| - 1], id)
  }

  function SumUnresolves(w: World, ops: seq<Op>, id: nat): nat {
    if ops == [] then 0
    else SumUnresolves(w, ops[..|ops| - 1], id) + Unresolves(Run(w, ops[..|ops| - 1]), ops[|ops| - 1], id)
  }

  ghost function SumVacates(w: World, ops: seq<Op>, key: Key): nat {
    if ops == [] then 0
    else SumVacates(w, ops[..|ops| - 1], key) + Vacates(Run(w, ops[..|ops| - 1]), ops[|ops| - 1], key)
  }

  ghost function SumMovesIn(w: World, ops: seq<Op>, key: Key): nat {
    if ops == [] then 0
    else SumMovesIn(w, ops[..|ops| - 1], key) + MovesIn(Run(w, ops[..|ops| - 1]), ops[|ops| - 1], key)
  }

  lemma CountAppend(raised: seq<Trigger>, r: UpsertResult, id: nat, key: Key)
    ensures Regressions(raised + TriggersFor(r), id)
            == Regressions(raised, id) + Bit(!r.created && r.regressed && r.issue.id == id)
    ensures NewIssues(raised + TriggersFor(r), key)
            == NewIssues(raised, key) + Bit(r.created && r.issue.Key() == key)
  {
    if TriggersFor(r) == [] {
      assert raised + [] == raised;
    } else {
      var all := raised + TriggersFor(r);
      assert all[..|all| - 1] == raised;
    }
  }

  /** A new-issue trigger is exactly a new row. */
  lemma UpsertAccounts(t: Tables, input: Input, key: Key)
    requires t.nextIssue !in t.issues
    ensures var (u, r) := UpsertIssue(t, input);
            && Bit(r.created && r.issue.Key() == key) + Bit(Present(t, key)) == Bit(Present(u, key))
            && (forall i :: i in t.issues ==> i in u.issues && u.issues[i].Key() == t.issues[i].Key())
  {
    var (u, r) := UpsertIssue(t, input);
    forall i | i in t.issues ensures i in u.issues && u.issues[i].Key() == t.issues[i].Key() {}
    if Present(t, key) {
      var i :| i in t.issues && t.issues[i].Key() == key;
      assert i in u.issues && u.issues[i].Key() == key;
    }
    if r.created {
      assert u.issues[t.nextIssue].Key() == input.Key();
    }
  }

  /** A regression is exactly a resolved row reopening. */
  lemma ReopensAccount(t: Tables, input: Input, id: nat)
    requires Sound(t)
    ensures var (u, r) := UpsertIssue(t, input);
            Bit(!r.created && r.regressed && r.issue.id == id) + Bit(IsResolved(u, id)) == Bit(IsResolved(t, id))
  {
  }

  /** One event: a regression trigger is exactly a resolved row reopening, a new-issue trigger a new row. */
  lemma DigestOneAccounts(w: World, input: Input, id: nat, key: Key)
    requires Sound(w.db)
    ensures var v := DigestOne(w, input);
            && Regressions(v.raised, id) + Bit(IsResolved(v.db, id)) == Regressions(w.raised, id) + Bit(IsResolved(w.db, id))
            && NewIssues(v.raised, key) + Bit(Present(w.db, key)) == NewIssues(w.raised, key) + Bit(Present(v.db, key))
            && (forall i :: i in w.db.issues ==> i in v.db.issues && v.db.issues[i].Key() == w.db.issues[i].Key())
  {
    var r := UpsertIssue(w.db, input).1;
    CountAppend(w.raised, r, id, key);
    UpsertAccounts(w.db, input, key);
    ReopensAccount(w.db, input, id);
  }

  lemma {:induction false} DigestAllAccounts(w: World, inputs: seq<Input>, id: nat, key: Key)
    requires Sound(w.db)
    ensures var v := DigestAll(w, inputs);
            && Regressions(v.raised, id) + Bit(IsResolved(v.db, id)) == Regressions(w.raised, id) + Bit(IsResolved(w.db, id))
            && NewIssues(v.raised, key) + Bit(Present(w.db, key)) == NewIssues(w.raised, key) + Bit(Present(v.db, key))
            && (forall i :: i in w.db.issues ==> i in v.db.issues && v.db.issues[i].Key() == w.db.issues[i].Key())
  {
    if inputs != [] {
      var n := |inputs| - 1;
      DigestAllSound(w, inputs[..n]);
      DigestAllAccounts(w, inputs[..n], id, key);
      DigestOneAccounts(DigestAll(w, inputs[..n]), inputs[n], id, key);
    }
  }

  ghost predicate Accounted(w: World, op: Op, id: nat, key: Key) {
    var v := Step(w, op);
    && Regressions(v.raised, id) + Bit(IsResolved(v.db, id)) + Unresolves(w, op, id)
       == Regressions(w.raised, id) + Bit(IsResolved(w.db, id)) + Resolves(w, op, id)
    && NewIssues(v.raised, key) + Bit(Present(w.db, key)) + MovesIn(w, op, key)
       == NewIssues(w.raised, key) + Bit(Present(v.db, key)) + Vacates(w, op, key)
  }

  lemma IngestAccounts(w: World, op: Op, id: nat, key: Key)
    requires Sound(w.db) && op.Ingest?
    ensures Accounted(w, op, id, key)
  {
    if op.batch.commits {
      assert op.batch == Batch(op.batch.inputs, true);
      BatchIsItsEvents(w, op.batch.inputs);
      DigestAllAccounts(w, op.batch.inputs, id, key);
    }
  }

  lemma StatusAccounts(w: World, op: Op, id: nat)
    requires !op.Ingest?
    ensures Bit(IsResolved(Step(w, op).db, id)) + Unresolves(w, op, id) == Bit(IsResolved(w.db, id)) + Resolves(w, op, id)
  {
    RowsStay(w, op);
  }

  lemma KeyAccounts(w: World, op: Op, key: Key)
    requires !op.Ingest?
    ensures Bit(Present(w.db, key)) + MovesIn(w, op, key) == Bit(Present(Step(w, op).db, key)) + Vacates(w, op, key)
  {
    var t, u := w.db, Step(w, op).db;
    RowsStay(w, op);
    if Present(t, key) {
      if Vacates(w, op, key) == 1 {
        NoSwap(w, op, key);
      } else {
        var i :| i in t.issues && t.issues[i].Key() == key;
        assert i in u.issues && u.issues[i].Key() == key;
      }
    } else if Present(u, key) {
      var i :| i in u.issues && u.issues[i].Key() == key;
      assert i in t.issues;
    }
  }

  lemma OtherAccounts(w: World, op: Op, id: nat, key: Key)
    requires !op.Ingest?
    ensures Accounted(w, op, id, key)
  {
    RowsStay(w, op);
    StatusAccounts(w, op, id);
    KeyAccounts(w, op, key);
  }

  /** Outside ingest no row appears, and no row but a renamed one changes its key. */
  lemma RowsStay(w: World, op: Op)
    requires !op.Ingest?
    ensures var v := Step(w, op);
            && v.raised == w.raised
            && v.db.issues.Keys <= w.db.issues.Keys
            && (forall i :: i in v.db.issues && !op.Rename? ==> v.db.issues[i].Key() == w.db.issues[i].Key())
            && (forall i :: i in v.db.issues && !op.PutStatus? ==> v.db.issues[i].status == w.db.issues[i].status)
  {
  }

  /** A key cannot lose one row and gain another in one step. */
  lemma NoSwap(w: World, op: Op, key: Key)
    requires !op.Ingest? && Present(w.db, key) && Vacates(w, op, key) == 1
    ensures !Present(Step(w, op).db, key)
  {
    var v := Step(w, op);
    RowsStay(w, op);
    var a :| a in w.db.issues && w.db.issues[a].Key() == key && !(a in v.db.issues && v.db.issues[a].Key() == key);
  }

  /**
   The account over a whole run. Every change to Resolved is answered by exactly
   one of: a Regression trigger, a change back by hand or a removal, or the issue
   being resolved now. Every NewIssue trigger or rename onto a key is answered by
   the key being vacated or present now.
   */
  lemma {:induction false} RunAccounts(ops: seq<Op>, id: nat, key: Key)
    ensures var v := Run(START, ops);
            && Regressions(v.raised, id) + Bit(IsResolved(v.db, id)) + SumUnresolves(START, ops, id) == SumResolves(START, ops, id)
            && NewIssues(v.raised, key) + SumMovesIn(START, ops, key) == SumVacates(START, ops, key) + Bit(Present(v.db, key))
  {
    if ops != [] {
      var n := |ops| - 1;
      RunAccounts(ops[..n], id, key);
      ReachableIsSound(ops[..n]);
      if ops[n].Ingest? {
        IngestAccounts(Run(START, ops[..n]), ops[n], id, key);
      } else {
        OtherAccounts(Run(START, ops[..n]), ops[n], id, key);
      }
    }
  }

  /** Regression triggers never outnumber changes to Resolved; NewIssue triggers number at most one plus the vacancies. */
  lemma AlertBounds(ops: seq<Op>, id: nat, key: Key)
    ensures Regressions(Run(START, ops).raised, id) <= SumResolves(START, ops, id)
    ensures NewIssues(Run(START, ops).raised, key) <= 1 + SumVacates(START, ops, key)
  {
    RunAccounts(ops, id, key);
  }

  // ----- the webhook task's filter -----

  /** `webhook::run` skips muted and ignored issues. */
  predicate Delivers(t: Trigger) {
    !(t.issue.status.Muted? || t.issue.status.Ignored?)
  }

  lemma DeliversUnlessSilenced(t: Trigger)
    ensures Delivers(t) <==> t.issue.status == Unresolved || t.issue.status == Resolved
  {
  }

  lemma {:induction false} DigestAllRaisesUnresolved(w: World, inputs: seq<Input>)
    requires forall t :: t in w.raised ==> t.issue.status == Unresolved
    ensures forall t :: t in DigestAll(w, inputs).raised ==> t.issue.status == Unresolved
  {
    if inputs != [] {
      DigestAllRaisesUnresolved(w, inputs[..|inputs| - 1]);
    }
  }

  /** Every trigger of every run carries an unresolved issue, so the filter never discards one. */
  lemma {:induction false} FilterNeverFires(ops: seq<Op>)
    ensures forall t :: t in Run(START, ops).raised ==> t.issue.status == Unresolved && Delivers(t)
  {
    if ops != [] {
      var w := Run(START, ops[..|ops| - 1]);
      var op := ops[|ops| - 1];
      FilterNeverFires(ops[..|ops| - 1]);
      if op.Ingest? && op.batch.commits {
        assert op.batch == Batch(op.batch.inputs, true);
        BatchIsItsEvents(w, op.batch.inputs);
        DigestAllRaisesUnresolved(w, op.batch.inputs);
      }
    }
  }
}
