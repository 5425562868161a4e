/**
 `store.rs`: the writers, statement by statement. A transaction works on a local
 copy that is stored back at COMMIT, so returning early is the rollback.
 */
module Store {
  import opened Wrappers
  import opened Schema
  import Calendar
  import opened Retention
  import opened RetentionProofs

  class Store {
    var db: Tables

    constructor ()
      ensures db == EMPTY
    {
      db := EMPTY;
    }

    /** The statements one event runs inside the batch's transaction. */
    static method UpsertInTx(start: Tables, input: Input) returns (tx: Tables, result: UpsertResult)
      ensures (tx, result) == Upsert(start, input)
      ensures Keyed(start.issues) ==> Sighted(start, input, tx, result) && Filed(start, input, tx, result.issue.id)
    {
      tx := start;
      // INSERT ... ON CONFLICT(project, fingerprint) DO NOTHING
      var existing := Find(tx.issues, input.Key());
      var created := existing.None?;
      var regressed := false;
      var id := tx.nextIssue;
      if created {
        tx := tx.(issues := tx.issues[id := NewIssue(id, input)], nextIssue := id + 1);
      } else {
        id := existing.value;
        var row := tx.issues[id];
        if row.status == Resolved {
          regressed := true;
          row := row.(eventCount := row.eventCount + 1, lastSeen := input.now, status := Unresolved);
        } else {
          row := row.(eventCount := row.eventCount + 1, lastSeen := input.now);
        }
        tx := tx.(issues := tx.issues[id := row]);
      }
      // SELECT the row back, then INSERT the event ... ON CONFLICT(event_id) DO NOTHING
      var issue := tx.issues[id];
      tx := InsertEvent(tx, issue.id, input);
      result := UpsertResult(issue, created, regressed);
      if Keyed(start.issues) {
        UpsertMeans(start, input, tx, result);
      }
    }

    /**
     One transaction for the whole batch. `fault` is the input whose statements
     fail, or `|batch|` when the COMMIT does.
     */
    method UpsertBatchWithEvents(batch: seq<Input>, fault: Option<nat>)
      returns (r: Result<seq<UpsertResult>, StoreError>)
      modifies this
      ensures r.Failure? <==> fault.Some? && fault.value <= |batch|
      ensures r.Failure? ==> db == old(db) && r.error == Sqlx
      ensures r.Success? ==> (db, r.value) == UpsertAll(old(db), batch)
    {
      var tx := db;
      var results: seq<UpsertResult> := [];
      ghost var start, done: seq<Input> := db, [];
      for k := 0 to |batch|
        invariant db == old(db) == start && done <= batch && |done| == k
        invariant fault.Some? ==> k <= fault.value
        invariant (tx, results) == UpsertAll(start, done)
      {
        if fault == Some(k) {
          return Failure(Sqlx);
        }
        var next, result := UpsertInTx(tx, batch[k]);
        done := UpsertSnoc(start, done, batch[k], tx, results);
        tx, results := next, results + [result];
      }
      assert done == batch;
      if fault == Some(|batch|) {
        return Failure(Sqlx);
      }
      db := tx;
      return Success(results);
    }

    method SetStatus(issueId: nat, status: Status) returns (r: Result<Issue, StoreError>)
      modifies this
      ensures db == Schema.SetStatus(old(db), issueId, status).0
      ensures r.Success? <==> issueId in old(db.issues)
      ensures r.Success? ==> r.value == db.issues[issueId] == old(db.issues[issueId]).(status := status)
      ensures r.Failure? ==> r.error == NotFound && db == old(db)
    {
      if issueId !in db.issues {
        return Failure(NotFound);
      }
      var row := db.issues[issueId].(status := status);
      db := db.(issues := db.issues[issueId := row]);
      return Success(row);
    }

    /** DELETE FROM events WHERE received_at < cutoff, a comparison of texts. */
    method PurgeEventsOlderThan(cutoff: int) returns (deleted: nat)
      modifies this
      ensures AgedOut(old(db), db, cutoff)
      ensures deleted == |old(db.events)| - |db.events|
      ensures db == AgePurge(old(db), cutoff)
    {
      var doomed := set e | e in db.events && TextBefore(db.events[e].receivedAt, cutoff);
      AgeDeletes(db, cutoff, doomed);
      AgePurgeAges(db, cutoff);
      db := db.(events := db.events - doomed);
      return |doomed|;
    }

    /** DELETE of the rows whose ROW_NUMBER within their issue exceeds the cap. */
    method PurgeExcessEventsPerIssue(max: int) returns (deleted: nat)
      modifies this
      ensures if max > 0 then CapsEvents(old(db), db, max) else db == old(db)
      ensures deleted == |old(db.events)| - |db.events|
      ensures db == EventCap(old(db), max)
    {
      if max <= 0 {
        return 0;
      }
      var doomed := set e | e in db.events
                            && Rank(EventsOf(db.events, db.events[e].issueId), ReceivedAt(db.events), e) + 1 > max;
      EventCapDeletes(db, max, doomed);
      EventCapCaps(db, max);
      db := db.(events := db.events - doomed);
      return |doomed|;
    }

    /** DELETE of the issues whose ROW_NUMBER within their project exceeds the cap; their events cascade. */
    method PurgeExcessIssuesPerProject(max: int) returns (deleted: nat)
      modifies this
      ensures if max > 0 then CapsIssues(old(db), db, max) else db == old(db)
      ensures deleted == |old(db.issues)| - |db.issues|
      ensures db == IssueCap(old(db), max)
    {
      if max <= 0 {
        return 0;
      }
      var doomed := set i | i in db.issues
                            && Rank(IssuesOf(db, db.issues[i].project), LastSeen(db.issues), i) + 1 > max;
      var issues := db.issues - doomed;
      var orphans := set e | e in db.events && db.events[e].issueId !in issues;
      var kept := db.(issues := issues, events := db.events - orphans);
      IssueCapStatement(db, max, doomed, orphans, kept);
      db := kept;
      return |doomed|;
    }

    /**
     The sweeps of one retention tick that touch issues and events (retention.rs).
     No settings: they could not be read, and the tick is skipped. A sweep that
     fails changes nothing and the next one runs all the same.
     */
    method RunOneTick(settings: Option<Settings>, bootDays: nat, now: int, faults: Faults)
      modifies this
      ensures settings.None? ==> db == old(db)
      ensures settings.Some? ==> db == FaultyTick(old(db), settings.value, bootDays, now, faults)
      ensures settings.Some? && faults == NO_FAULTS ==> db == Tick(old(db), settings.value, bootDays, now)
    {
      if settings.None? {
        return;
      }
      var s := settings.value;
      var effectiveDays := EffectiveDays(s, bootDays);
      if effectiveDays > 0 && !faults.age {
        var _ := PurgeEventsOlderThan(now - effectiveDays * Calendar.DAY_SECS);
      }
      assert db == if faults.age then old(db) else AgeSweep(old(db), effectiveDays, now);
      if s.eventsPerIssueMax > 0 && !faults.events {
        var _ := PurgeExcessEventsPerIssue(s.eventsPerIssueMax);
      }
      if s.issuesPerProjectMax > 0 && !faults.issues {
        var _ := PurgeExcessIssuesPerProject(s.issuesPerProjectMax);
      }
    }

    /** All or nothing: on any error the tables are the old ones. */
    method RenameProject(source: string, target: string) returns (r: Result<Project, StoreError>)
      modifies this
      ensures r.Success? <==> Schema.RenameProject(old(db), source, target).Success?
      ensures r.Success? ==> Success(db) == Schema.RenameProject(old(db), source, target)
      ensures r.Success? ==> r.value == old(db.projects[source]) && target in db.projects && db.projects[target] == r.value
      ensures r.Failure? ==> db == old(db) && Failure(r.error) == Schema.RenameProject(old(db), source, target)
    {
      if source == target {
        if source in db.projects {
          return Success(db.projects[source]);
        }
        return Failure(NotFound);
      }
      if source !in db.projects {
        return Failure(NotFound);
      }
      var tx := db;
      if target in tx.projects {
        return Failure(UniqueViolation);
      }
      tx := tx.(projects := (tx.projects - {source})[target := tx.projects[source]]);
      if RenameClash(db, source, target) {
        return Failure(UniqueViolation);
      }
      RenamedKeysUnique(db, source, target);
      tx := tx.(issues := RenameIssues(db, source, target));
      db := tx;
      return Success(db.projects[target]);
    }

    method DeleteProject(name: string) returns (r: Result<(nat, nat), StoreError>)
      modifies this
      ensures r.Success? <==> name in old(db.projects)
      ensures r.Success? ==> Success(db) == Schema.DeleteProject(old(db), name)
      ensures r.Success? ==> r.value.0 == |old(db.issues)| - |db.issues|
      ensures r.Success? && (forall e :: e in old(db.events) ==> old(db.events)[e].issueId in old(db.issues))
              ==> r.value.1 == |old(db.events)| - |db.events|
      ensures r.Failure? ==> r.error == NotFound && db == old(db)
    {
      if name !in db.projects {
        return Failure(NotFound);
      }
      var mine := IssuesOf(db, name);
      var theirs := set e | e in db.events && db.events[e].issueId in mine;
      DeletedCounts(db, mine, theirs);
      var tx := KeepIssues(db, db.issues.Keys - mine);
      tx := tx.(projects := tx.projects - {name});
      db := tx;
      return Success((|mine|, |theirs|));
    }
  }

  /** What the two counting queries count is what the cascade then removes. */
  lemma DeletedCounts(t: Tables, mine: set<nat>, theirs: set<nat>)
    requires mine <= t.issues.Keys && theirs == set e | e in t.events && t.events[e].issueId in mine
    ensures var u := KeepIssues(t, t.issues.Keys - mine);
            && |mine| == |t.issues| - |u.issues|
            && ((forall e :: e in t.events ==> t.events[e].issueId in t.issues) ==> |theirs| == |t.events| - |u.events|)
  {
    var u := KeepIssues(t, t.issues.Keys - mine);
    Removed(t.issues, u.issues, mine);
    if forall e :: e in t.events ==> t.events[e].issueId in t.issues {
      Removed(t.events, u.events, theirs);
    }
  }

  lemma Removed<V>(before: map<nat, V>, after: map<nat, V>, gone: set<nat>)
    requires gone <= before.Keys && after.Keys == before.Keys - gone
    ensures |gone| == |before| - |after|
  {
    assert |before.Keys| == |after.Keys| + |gone|;
  }

  /** Deleting the doomed rows leaves the rows kept. */
  lemma Deleted<V>(before: map<nat, V>, after: map<nat, V>, keep: set<nat>, doomed: set<nat>)
    requires after == map k | k in before && k in keep :: before[k]
    requires doomed == before.Keys - keep
    ensures before - doomed == after && |doomed| == |before| - |after|
  {
    Without(before, after, doomed);
    Removed(before, after, doomed);
  }

  lemma Without<V>(before: map<nat, V>, after: map<nat, V>, doomed: set<nat>)
    requires forall k :: k in after <==> k in before && k !in doomed
    requires forall k :: k in after ==> after[k] == before[k]
    ensures before - doomed == after && after.Keys == before.Keys - doomed
  {
  }

  lemma AgeDeletes(t: Tables, cutoff: int, doomed: set<nat>)
    requires doomed == set e | e in t.events && TextBefore(t.events[e].receivedAt, cutoff)
    ensures t.events - doomed == AgePurge(t, cutoff).events && |doomed| == |t.events| - |AgePurge(t, cutoff).events|
  {
    Deleted(t.events, AgePurge(t, cutoff).events, AgeKeep(t, cutoff), doomed);
  }

  lemma EventRows(t: Tables, max: int, doomed: set<nat>, keep: set<nat>)
    requires max > 0 && keep == EventKeep(t, max)
    requires doomed == set e | e in t.events && Rank(EventsOf(t.events, t.events[e].issueId), ReceivedAt(t.events), e) + 1 > max
    ensures doomed == t.events.Keys - keep
  {
  }

  lemma EventCapDeletes(t: Tables, max: int, doomed: set<nat>)
    requires max > 0
    requires doomed == set e | e in t.events && Rank(EventsOf(t.events, t.events[e].issueId), ReceivedAt(t.events), e) + 1 > max
    ensures t.events - doomed == EventCap(t, max).events && |doomed| == |t.events| - |EventCap(t, max).events|
  {
    var keep := EventKeep(t, max);
    EventRows(t, max, doomed, keep);
    Deleted(t.events, KeepEvents(t, keep).events, keep, doomed);
  }

  lemma IssueCapDeletes(t: Tables, max: int, doomed: set<nat>)
    requires max > 0
    requires doomed == set i | i in t.issues && Rank(IssuesOf(t, t.issues[i].project), LastSeen(t.issues), i) + 1 > max
    ensures t.issues - doomed == IssueCap(t, max).issues && |doomed| == |t.issues| - |IssueCap(t, max).issues|
  {
    var keep := IssueKeep(t, max);
    assert doomed == t.issues.Keys - keep;
    Deleted(t.issues, KeepIssues(t, keep).issues, keep, doomed);
  }

  lemma Cascades(t: Tables, u: Tables, max: int, orphans: set<nat>)
    requires u == IssueCap(t, max) && max > 0
    requires orphans == set e | e in t.events && t.events[e].issueId !in u.issues
    ensures t.events - orphans == u.events
  {
  }

  lemma IssueCapStatement(t: Tables, max: int, doomed: set<nat>, orphans: set<nat>, u: Tables)
    requires max > 0
    requires doomed == set i | i in t.issues && Rank(IssuesOf(t, t.issues[i].project), LastSeen(t.issues), i) + 1 > max
    requires orphans == set e | e in t.events && t.events[e].issueId !in t.issues - doomed
    requires u.issues == t.issues - doomed && u.events == t.events - orphans
    requires u == t.(issues := u.issues, events := u.events)
    ensures u == IssueCap(t, max) && |doomed| == |t.issues| - |u.issues| && CapsIssues(t, u, max)
  {
    IssueCapDeletes(t, max, doomed);
    Cascades(t, IssueCap(t, max), max, orphans);
    IssueCapCaps(t, max);
  }

  /** One more event at the end of a batch. */
  lemma UpsertSnoc(t: Tables, done: seq<Input>, input: Input, tx: Tables, rs: seq<UpsertResult>) returns (done': seq<Input>)
    requires (tx, rs) == UpsertAll(t, done)
    ensures done' == done + [input]
    ensures var (tx', r) := Upsert(tx, input);
            UpsertAll(t, done') == (tx', rs + [r])
  {
    done' := done + [input];
    assert done'[..|done|] == done;
  }
}
