/**
 `digest.rs`: the single writer. It drains the ingest channel in batches of at
 most 16, commits each batch in one transaction and, without awaiting in
 between, broadcasts one message per event and raises the webhook triggers.
 */
module Digest {
  import opened Wrappers
  import opened Schema
  import opened Store

  const BATCH_SIZE := 16

  datatype Message = IssueCreated(issue: Issue) | IssueUpdated(issue: Issue)

  datatype TriggerKind = NewIssue | Regression

  datatype Trigger = Trigger(issue: Issue, kind: TriggerKind)

  /** The tables, the results handed back, and everything ever sent to the two channels. */
  datatype World = World(db: Tables, results: seq<UpsertResult>, sent: seq<Message>, raised: seq<Trigger>)

  function MessageFor(r: UpsertResult): Message {
    if r.created then IssueCreated(r.issue) else IssueUpdated(r.issue)
  }

  function TriggersFor(r: UpsertResult): seq<Trigger> {
    if r.created then [Trigger(r.issue, NewIssue)]
    else if r.regressed then [Trigger(r.issue, Regression)]
    else []
  }

  function Messages(rs: seq<UpsertResult>): seq<Message> {
    if rs == [] then [] else Messages(rs[..|rs| - 1]) + [MessageFor(rs[|rs| - 1])]
  }

  function Triggers(rs: seq<UpsertResult>): seq<Trigger> {
    if rs == [] then [] else Triggers(rs[..|rs| - 1]) + TriggersFor(rs[|rs| - 1])
  }

  // ----- one event at a time: the reference -----

  function DigestOne(w: World, input: Input): World {
    var (db, r) := Upsert(w.db, input);
    World(db, w.results + [r], w.sent + [MessageFor(r)], w.raised + TriggersFor(r))
  }

  function DigestAll(w: World, inputs: seq<Input>): World {
    if inputs == [] then w
    else DigestOne(DigestAll(w, inputs[..|inputs| - 1]), inputs[|inputs| - 1])
  }

  // ----- batches -----

  datatype Batch = Batch(inputs: seq<Input>, commits: bool)

  /** A batch whose transaction fails is dropped: no row, no message, no trigger. */
  function AfterBatch(w: World, b: Batch): World {
    if !b.commits then w
    else
      var (db, rs) := UpsertAll(w.db, b.inputs);
      World(db, w.results + rs, w.sent + Messages(rs), w.raised + Triggers(rs))
  }

  function AfterBatches(w: World, batches: seq<Batch>): World {
    if batches == [] then w
    else AfterBatch(AfterBatches(w, batches[..|batches| - 1]), batches[|batches| - 1])
  }

  /** The events of the batches that committed, in order. */
  function Committed(batches: seq<Batch>): seq<Input> {
    if batches == [] then []
    else
      var last := batches[|batches| - 1];
      Committed(batches[..|batches| - 1]) + if last.commits then last.inputs else []
  }

  /** All events the batches took off the channel. */
  function Drained(batches: seq<Batch>): seq<Input> {
    if batches == [] then []
    else Drained(batches[..|batches| - 1]) + batches[|batches| - 1].inputs
  }

  lemma {:induction false} BatchIsItsEvents(w: World, inputs: seq<Input>)
    ensures AfterBatch(w, Batch(inputs, true)) == DigestAll(w, inputs)
  {
    if inputs == [] {
      assert w.results + [] == w.results && w.sent + [] == w.sent && w.raised + [] == w.raised;
    } else {
      var n := |inputs| - 1;
      BatchIsItsEvents(w, inputs[..n]);
      var (db, rs) := UpsertAll(w.db, inputs[..n]);
      OneMoreResult(w, rs, Upsert(db, inputs[n]).1);
    }
  }

  lemma OneMoreResult(w: World, rs: seq<UpsertResult>, r: UpsertResult)
    ensures w.results + (rs + [r]) == (w.results + rs) + [r]
    ensures w.sent + Messages(rs + [r]) == (w.sent + Messages(rs)) + [MessageFor(r)]
    ensures w.raised + Triggers(rs + [r]) == (w.raised + Triggers(rs)) + TriggersFor(r)
  {
    assert (rs + [r])[..|rs + [r]| - 1] == rs;
  }

  lemma DigestSnoc(w: World, xs: seq<Input>, x: Input, all: seq<Input>)
    requires all == xs + [x]
    ensures DigestAll(w, all) == DigestOne(DigestAll(w, xs), x)
  {
    assert all[..|all| - 1] == xs;
  }

  lemma {:induction false} DigestAppend(w: World, a: seq<Input>, b: seq<Input>)
    ensures DigestAll(w, a + b) == DigestAll(DigestAll(w, a), b)
  {
    if b == [] {
      assert a + b == a;
    } else {
      var n := |b| - 1;
      var before := b[..n];
      assert b == before + [b[n]] && a + b == (a + before) + [b[n]];
      DigestAppend(w, a, before);
      DigestSnoc(w, a + before, b[n], a + b);
      DigestSnoc(DigestAll(w, a), before, b[n], b);
    }
  }

  /**
   Batching is invisible: however the stream is cut and whichever batches fail,
   tables, results, messages and triggers are those of the surviving events
   processed one at a time.
   */
  lemma {:induction false} BatchingIsInvisible(w: World, batches: seq<Batch>)
    ensures AfterBatches(w, batches) == DigestAll(w, Committed(batches))
  {
    if batches != [] {
      var n := |batches| - 1;
      var before := AfterBatches(w, batches[..n]);
      BatchingIsInvisible(w, batches[..n]);
      if batches[n].commits {
        assert batches[n] == Batch(batches[n].inputs, true);
        BatchIsItsEvents(before, batches[n].inputs);
        DigestAppend(w, Committed(batches[..n]), batches[n].inputs);
      } else {
        assert Committed(batches[..n]) + [] == Committed(batches[..n]);
      }
    }
  }

  /** Two ways of cutting one stream, every transaction committing, end in the same world. */
  lemma CutsAgree(w: World, a: seq<Batch>, b: seq<Batch>)
    requires Drained(a) == Drained(b)
    requires forall k :: 0 <= k < |a| ==> a[k].commits
    requires forall k :: 0 <= k < |b| ==> b[k].commits
    ensures AfterBatches(w, a) == AfterBatches(w, b)
  {
    BatchingIsInvisible(w, a);
    BatchingIsInvisible(w, b);
    AllCommitted(a);
    AllCommitted(b);
  }

  lemma {:induction false} AllCommitted(batches: seq<Batch>)
    requires forall k :: 0 <= k < |batches| ==> batches[k].commits
    ensures Committed(batches) == Drained(batches)
  {
    if batches != [] {
      AllCommitted(batches[..|batches| - 1]);
    }
  }

  /** A transaction over n events survives unless one of its n + 1 steps (the last is COMMIT) fails. */
  predicate Survives(fault: Option<nat>, n: nat) {
    fault.None? || fault.value > n
  }

  /** A cut the drain loop can produce when `faults` says what goes wrong. */
  ghost predicate IsCut(batches: seq<Batch>, faults: nat -> Option<nat>) {
    forall k :: 0 <= k < |batches| ==>
      1 <= |batches[k].inputs| <= BATCH_SIZE && batches[k].commits == Survives(faults(k), |batches[k].inputs|)
  }

  lemma OneMoreBatch(w: World, batches: seq<Batch>, inputs: seq<Input>, faults: nat -> Option<nat>)
    requires IsCut(batches, faults) && 1 <= |inputs| <= BATCH_SIZE
    ensures var b := Batch(inputs, Survives(faults(|batches|), |inputs|));
            && IsCut(batches + [b], faults)
            && Drained(batches + [b]) == Drained(batches) + inputs
            && AfterBatches(w, batches + [b]) == AfterBatch(AfterBatches(w, batches), b)
  {
    var b := Batch(inputs, Survives(faults(|batches|), |inputs|));
    assert (batches + [b])[..|batches + [b]| - 1] == batches;
  }

  lemma RunMeaning(w: World, batches: seq<Batch>, faults: nat -> Option<nat>)
    requires IsCut(batches, faults)
    ensures AfterBatches(w, batches) == DigestAll(w, Committed(batches))
    ensures (forall b :: faults(b) == None) ==> AfterBatches(w, batches) == DigestAll(w, Drained(batches))
  {
    BatchingIsInvisible(w, batches);
    if forall b :: faults(b) == None {
      AllCommitted(batches);
    }
  }

  // ----- the task itself -----

  class DigestTask {
    const store: Store
    var results: seq<UpsertResult>
    var sent: seq<Message>
    var raised: seq<Trigger>
    var buf: seq<Input>

    constructor (store: Store)
      ensures this.store == store
      ensures results == [] && sent == [] && raised == [] && buf == []
    {
      this.store := store;
      results, sent, raised, buf := [], [], [], [];
    }

    function View(): World
      reads this, store
    {
      World(store.db, results, sent, raised)
    }

    /** What follows the COMMIT: triggers and one broadcast per result, in order. */
    method Publish(rs: seq<UpsertResult>)
      modifies this
      ensures buf == old(buf)
      ensures results == old(results) + rs
      ensures sent == old(sent) + Messages(rs)
      ensures raised == old(raised) + Triggers(rs)
    {
      results := results + rs;
      for k := 0 to |rs|
        invariant buf == old(buf) && results == old(results) + rs
        invariant sent == old(sent) + Messages(rs[..k])
        invariant raised == old(raised) + Triggers(rs[..k])
      {
        var result := rs[k];
        assert rs[..k + 1][..k] == rs[..k];
        if result.created {
          raised := raised + [Trigger(result.issue, NewIssue)];
        } else if result.regressed {
          raised := raised + [Trigger(result.issue, Regression)];
        }
        var msg := if result.created then IssueCreated(result.issue) else IssueUpdated(result.issue);
        sent := sent + [msg];
      }
      assert rs[..|rs|] == rs;
    }

    /** `process_batch`: empties `buf` whether or not the transaction commits. */
    method ProcessBatch(fault: Option<nat>)
      modifies this, store
      ensures buf == []
      ensures View() == AfterBatch(old(View()), Batch(old(buf), Survives(fault, |old(buf)|)))
    {
      if buf == [] {
        assert results + [] == results && sent + [] == sent && raised + [] == raised;
        return;
      }
      var res := store.UpsertBatchWithEvents(buf, fault);
      if res.Failure? {
        buf := [];
        return;
      }
      Publish(res.value);
      buf := [];
    }

    /** One `recv` and then `try_recv` until the queue is empty or the batch is full. */
    method Fill(stream: seq<Input>, start: nat, poll: nat, arrived: nat -> nat)
      returns (taken: nat, polls: nat)
      requires start < |stream| && buf == []
      modifies this`buf
      ensures start < taken <= |stream|
      ensures buf == stream[start..taken] && 1 <= |buf| <= 16
      ensures |buf| < 16 ==> taken == |stream| || arrived(polls) <= taken
      ensures polls == poll + if |buf| < 16 then |buf| else 15
      ensures forall p: nat :: poll < p < poll + |buf| ==> arrived(p) > start + p - poll
    {
      buf := buf + [stream[start]];
      taken, polls := start + 1, poll;
      while |buf| < BATCH_SIZE
        invariant start < taken <= |stream|
        invariant buf == stream[start..taken] && |buf| <= BATCH_SIZE && polls == poll + |buf| - 1
        invariant forall p: nat :: poll < p < poll + |buf| ==> arrived(p) > start + p - poll
      {
        polls := polls + 1;
        if taken >= |stream| || arrived(polls) <= taken {
          break;
        }
        buf := buf + [stream[taken]];
        taken := taken + 1;
      }
    }

    /** One turn of the outer loop. */
    method Turn(stream: seq<Input>, start: nat, poll: nat, arrived: nat -> nat, fault: Option<nat>)
      returns (taken: nat, polls: nat)
      requires start < |stream| && buf == []
      modifies this, store
      ensures start < taken <= |stream| && taken - start <= BATCH_SIZE && buf == []
      ensures View() == AfterBatch(old(View()), Batch(stream[start..taken], Survives(fault, taken - start)))
    {
      taken, polls := Fill(stream, start, poll, arrived);
      ProcessBatch(fault);
    }

    /**
     `run`: `stream` is what arrives before the channel closes, `arrived(p)` how
     much of it is queued at the p-th `try_recv`, `faults(b)` what goes wrong in
     the b-th transaction. `batches` is the cut the schedule produced.
     */
    method Run(stream: seq<Input>, arrived: nat -> nat, faults: nat -> Option<nat>)
      returns (ghost batches: seq<Batch>)
      requires buf == []
      modifies this, store
      ensures buf == []
      ensures Drained(batches) == stream && IsCut(batches, faults)
      ensures View() == AfterBatches(old(View()), batches)
      ensures View() == DigestAll(old(View()), Committed(batches))
      ensures (forall b :: faults(b) == None) ==> View() == DigestAll(old(View()), stream)
    {
      batches := [];
      var taken, polls, done := 0, 0, 0;
      ghost var w0 := View();
      while taken < |stream|
        invariant 0 <= taken <= |stream| && buf == [] && done == |batches|
        invariant Drained(batches) == stream[..taken] && IsCut(batches, faults)
        invariant View() == AfterBatches(w0, batches)
      {
        ghost var start := taken;
        taken, polls := Turn(stream, taken, polls, arrived, faults(done));
        OneMoreBatch(w0, batches, stream[start..taken], faults);
        assert stream[..start] + stream[start..taken] == stream[..taken];
        batches := batches + [Batch(stream[start..taken], Survives(faults(done), taken - start))];
        done := done + 1;
      }
      assert stream[..taken] == stream;
      RunMeaning(w0, batches, faults);
    }
  }
}
