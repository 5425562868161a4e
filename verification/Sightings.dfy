/**
 What a stream of events adds up to: the count and the times of each issue, and
 what is announced for each event.
 */
module Sightings {
  import opened Wrappers
  import opened Schema
  import opened Digest
  import opened Pipeline

  /** The events of the stream with this project and fingerprint. */
  function SightingsOf(inputs: seq<Input>, project: string, fingerprint: string): seq<Input> {
    if inputs == [] then []
    else
      var n := |inputs| - 1;
      var before := SightingsOf(inputs[..n], project, fingerprint);
      if inputs[n].project == project && inputs[n].fingerprint == fingerprint then before + [inputs[n]] else before
  }

  ghost predicate HasKey(row: Issue, project: string, fingerprint: string) {
    row.project == project && row.fingerprint == fingerprint
  }

  /** What issue `row` is after `seen`, its own events since it was `before` (None: it was not there). */
  ghost predicate AddsUp(before: Option<Issue>, row: Issue, seen: seq<Input>) {
    && row.eventCount == (if before.Some? then before.value.eventCount else 0) + |seen|
    && (seen != [] ==> row.lastSeen == seen[|seen| - 1].now && row.status != Resolved)
    && (before.None? ==>
          && seen != [] && row.firstSeen == seen[0].now
          && row.title == seen[0].title && row.culprit == seen[0].culprit && row.level == seen[0].level)
    && (before.Some? ==>
          && row.firstSeen == before.value.firstSeen && row.title == before.value.title
          && row.culprit == before.value.culprit && row.level == before.value.level)
    && (before.Some? && seen == [] ==> row == before.value)
  }

  function RowAt(issues: map<nat, Issue>, id: nat): Option<Issue> {
    if id in issues then Some(issues[id]) else None
  }

  /** Every row of `v` adds up from the row of `t` with that id, and every key of the stream has a row. */
  ghost predicate Tallied(t: Tables, inputs: seq<Input>, v: Tables) {
    && t.issues.Keys <= v.issues.Keys
    && (forall i :: i in t.issues ==> HasKey(v.issues[i], t.issues[i].project, t.issues[i].fingerprint))
    && (forall i :: i in v.issues ==>
          AddsUp(RowAt(t.issues, i), v.issues[i], SightingsOf(inputs, v.issues[i].project, v.issues[i].fingerprint)))
    && (forall k :: 0 <= k < |inputs| ==>
          exists i :: i in v.issues && HasKey(v.issues[i], inputs[k].project, inputs[k].fingerprint))
  }

  lemma SightingsSnoc(inputs: seq<Input>, x: Input, all: seq<Input>, project: string, fingerprint: string)
    requires all == inputs + [x]
    ensures SightingsOf(all, project, fingerprint)
         == if x.project == project && x.fingerprint == fingerprint then SightingsOf(inputs, project, fingerprint) + [x]
            else SightingsOf(inputs, project, fingerprint)
  {
    assert all[..|all| - 1] == inputs;
  }

  /** A key no row has was not in the stream. */
  lemma {:induction false} NoSightings(inputs: seq<Input>, project: string, fingerprint: string)
    requires forall k :: 0 <= k < |inputs| ==> inputs[k].project != project || inputs[k].fingerprint != fingerprint
    ensures SightingsOf(inputs, project, fingerprint) == []
  {
    if inputs != [] {
      NoSightings(inputs[..|inputs| - 1], project, fingerprint);
    }
  }

  lemma OneMore(before: Option<Issue>, row: Issue, seen: seq<Input>, x: Input, now: Issue)
    requires AddsUp(before, row, seen) && SeenAgain(row, now, x)
    ensures AddsUp(before, now, seen + [x])
  {
  }

  lemma FirstOne(row: Issue, x: Input)
    requires FirstSighting(row, x)
    ensures AddsUp(None, row, [x])
  {
  }

  /** The row the event is about. */
  lemma TouchedAddsUp(t: Tables, inputs: seq<Input>, u: Tables, x: Input, v: Tables, r: UpsertResult)
    requires Tallied(t, inputs, u) && Sound(u) && Sighted(u, x, v, r)
    ensures AddsUp(RowAt(t.issues, r.issue.id), r.issue, SightingsOf(inputs + [x], r.issue.project, r.issue.fingerprint))
  {
    var id := r.issue.id;
    SightingsSnoc(inputs, x, inputs + [x], x.project, x.fingerprint);
    if r.created {
      forall k | 0 <= k < |inputs| ensures inputs[k].project != x.project || inputs[k].fingerprint != x.fingerprint {
        var i :| i in u.issues && HasKey(u.issues[i], inputs[k].project, inputs[k].fingerprint);
      }
      NoSightings(inputs, x.project, x.fingerprint);
      FirstOne(r.issue, x);
      assert [] + [x] == [x];
    } else {
      OneMore(RowAt(t.issues, id), u.issues[id], SightingsOf(inputs, x.project, x.fingerprint), x, r.issue);
    }
  }

  /** A row the event is not about has another key. */
  lemma OtherAddsUp(t: Tables, inputs: seq<Input>, u: Tables, x: Input, v: Tables, r: UpsertResult, i: nat)
    requires Tallied(t, inputs, u) && Sound(u) && Sighted(u, x, v, r) && i in u.issues && i != r.issue.id
    ensures AddsUp(RowAt(t.issues, i), v.issues[i], SightingsOf(inputs + [x], v.issues[i].project, v.issues[i].fingerprint))
  {
    var row := u.issues[i];
    OtherKey(u, x, v, r, i);
    SightingsSnoc(inputs, x, inputs + [x], row.project, row.fingerprint);
  }

  lemma OtherKey(u: Tables, x: Input, v: Tables, r: UpsertResult, i: nat)
    requires Sighted(u, x, v, r) && i in u.issues && i != r.issue.id
    ensures u.issues[i].project != x.project || u.issues[i].fingerprint != x.fingerprint
  {
    if r.issue.id in u.issues && !r.created {
      assert u.issues[i].Key() != u.issues[r.issue.id].Key();
    }
  }

  /** The old rows stay under their keys. */
  lemma KeysStay(t: Tables, inputs: seq<Input>, u: Tables, x: Input, v: Tables, r: UpsertResult, i: nat)
    requires Tallied(t, inputs, u) && Sighted(u, x, v, r) && i in u.issues && (r.created ==> r.issue.id !in u.issues)
    ensures i in v.issues && HasKey(v.issues[i], u.issues[i].project, u.issues[i].fingerprint)
  {
  }

  lemma RowFor(t: Tables, inputs: seq<Input>, u: Tables, x: Input, v: Tables, r: UpsertResult, k: nat) returns (i: nat)
    requires Tallied(t, inputs, u) && Sound(u) && Sighted(u, x, v, r) && k <= |inputs|
    ensures var y := (inputs + [x])[k];
            i in v.issues && HasKey(v.issues[i], y.project, y.fingerprint)
  {
    if k == |inputs| {
      i := r.issue.id;
    } else {
      i :| i in u.issues && HasKey(u.issues[i], inputs[k].project, inputs[k].fingerprint);
      KeysStay(t, inputs, u, x, v, r, i);
    }
  }

  lemma RowAddsUp(t: Tables, inputs: seq<Input>, u: Tables, x: Input, v: Tables, r: UpsertResult, i: nat)
    requires Tallied(t, inputs, u) && Sound(u) && Sighted(u, x, v, r) && i in v.issues
    ensures AddsUp(RowAt(t.issues, i), v.issues[i], SightingsOf(inputs + [x], v.issues[i].project, v.issues[i].fingerprint))
  {
    if i == r.issue.id {
      TouchedAddsUp(t, inputs, u, x, v, r);
    } else {
      OtherAddsUp(t, inputs, u, x, v, r, i);
    }
  }

  lemma TalliedStep(t: Tables, inputs: seq<Input>, u: Tables, x: Input, v: Tables, r: UpsertResult, all: seq<Input>)
    requires Tallied(t, inputs, u) && Sound(u) && Sighted(u, x, v, r) && all == inputs + [x]
    ensures Tallied(t, all, v)
  {
    forall i | i in t.issues ensures i in v.issues && HasKey(v.issues[i], t.issues[i].project, t.issues[i].fingerprint) {
      KeysStay(t, inputs, u, x, v, r, i);
    }
    forall i | i in v.issues
      ensures AddsUp(RowAt(t.issues, i), v.issues[i], SightingsOf(all, v.issues[i].project, v.issues[i].fingerprint))
    {
      RowAddsUp(t, inputs, u, x, v, r, i);
    }
    forall k | 0 <= k < |all|
      ensures exists i :: i in v.issues && HasKey(v.issues[i], all[k].project, all[k].fingerprint)
    {
      var i := RowFor(t, inputs, u, x, v, r, k);
    }
  }

  /**
   Over any stream: an issue's count is what it was (nothing, if it was not there)
   plus the number of its events, its last time is that of the last of them, its
   first time, title, culprit and level are those of the first, and no event
   leaves it resolved.
   */
  lemma {:induction false} CountsAddUp(w: World, inputs: seq<Input>)
    requires Sound(w.db)
    ensures Tallied(w.db, inputs, DigestAll(w, inputs).db)
  {
    if inputs == [] {
      NothingYet(w.db);
    } else {
      var n := |inputs| - 1;
      var before := inputs[..n];
      CountsAddUp(w, before);
      DigestAllSound(w, before);
      DigestSnoc(w, before, inputs[n], inputs);
      DigestTallied(w.db, before, DigestAll(w, before).db, inputs[n], inputs, DigestAll(w, inputs).db);
    }
  }

  lemma DigestTallied(t: Tables, inputs: seq<Input>, u: Tables, x: Input, all: seq<Input>, v: Tables)
    requires Tallied(t, inputs, u) && Sound(u) && v == Upsert(u, x).0 && all == inputs + [x]
    ensures Tallied(t, all, v)
  {
    var r := Upsert(u, x).1;
    UpsertMeans(u, x, v, r);
    TalliedStep(t, inputs, u, x, v, r, all);
  }

  lemma NothingYet(t: Tables)
    ensures Tallied(t, [], t)
  {
  }

  /** One event is announced as created or updated, with the row as it now is, and alerts when it is new or came back. */
  lemma EventIsAnnounced(w: World, x: Input, v: World) returns (r: UpsertResult)
    requires Keyed(w.db.issues) && v == DigestOne(w, x)
    ensures Sighted(w.db, x, v.db, r)
    ensures v.sent == w.sent + [if r.created then IssueCreated(r.issue) else IssueUpdated(r.issue)]
    ensures v.raised == w.raised + if r.created then [Trigger(r.issue, TriggerKind.NewIssue)]
                                   else if r.regressed then [Trigger(r.issue, Regression)] else []
  {
    r := Upsert(w.db, x).1;
    UpsertMeans(w.db, x, v.db, r);
  }

  /** A status change sets that row's status and touches nothing else. */
  lemma StatusChanges(t: Tables, id: nat, status: Status, u: Tables, row: Option<Issue>)
    requires (u, row) == SetStatus(t, id, status)
    ensures id !in t.issues ==> u == t && row == None
    ensures id in t.issues ==>
              && u == t.(issues := u.issues) && u.issues.Keys == t.issues.Keys
              && u.issues[id] == t.issues[id].(status := status) && row == Some(u.issues[id])
              && forall i :: i in t.issues && i != id ==> u.issues[i] == t.issues[i]
  {
  }
}
