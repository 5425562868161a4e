/** What the sweeps of `Retention` keep, that they commute, and what a tick does to `latest_event`. */
module RetentionProofs {
  import opened Schema
  import Calendar
  import opened Retention

  function Min(a: nat, b: nat): nat {
    if a < b then a else b
  }

  // ----- ranks -----

  lemma Oldest(part: set<nat>, time: map<nat, int>) returns (o: nat)
    requires part <= time.Keys && part != {}
    ensures o in part && forall x :: x in part && x != o ==> Newer(time, x, o)
  {
    o :| o in part;
    if part != {o} {
      var p := Oldest(part - {o}, time);
      var q := o;
      if Newer(time, o, p) {
        o := p;
      }
      forall x | x in part && x != o ensures Newer(time, x, o) {
        assert x == p || x == q || Newer(time, x, p);
      }
    }
  }

  lemma RankGrows(part: set<nat>, time: map<nat, int>, x: nat, y: nat)
    requires part <= time.Keys && x in part && y in part && Newer(time, x, y)
    ensures Rank(part, time, x) < Rank(part, time, y)
  {
    var a, b := Before(part, time, x), Before(part, time, y);
    assert x in b && x !in a && a <= b;
    assert b == a + (b - a) && x in b - a;
  }

  lemma {:induction false} NewestCount(part: set<nat>, time: map<nat, int>, max: nat)
    requires part <= time.Keys
    ensures |Newest(part, time, max)| == Min(max, |part|)
  {
    if part == {} {
      assert Newest(part, time, max) == {};
    } else {
      var o := Oldest(part, time);
      var rest := part - {o};
      NewestCount(rest, time, max);
      assert Before(part, time, o) == rest;
      forall x | x in rest ensures Rank(part, time, x) == Rank(rest, time, x) {
        assert Before(part, time, x) == Before(rest, time, x);
      }
      assert Newest(part, time, max) == Newest(rest, time, max) + if |rest| < max then {o} else {};
    }
  }

  /** A subset closed under "newer" and of the right size is the set of the newest rows. */
  lemma NewestIsUnique(part: set<nat>, time: map<nat, int>, max: nat, s: set<nat>)
    requires part <= time.Keys && s <= part
    requires forall x, y :: x in s && y in part - s ==> Newer(time, x, y)
    ensures |s| == Min(max, |part|) <==> s == Newest(part, time, max)
  {
    NewestCount(part, time, max);
    if |s| == Min(max, |part|) {
      forall x | x in s ensures Rank(part, time, x) < max {
        forall y | y in Before(part, time, x) ensures y in s - {x} {
          assert y !in s ==> Newer(time, x, y);
        }
        SubsetSize(Before(part, time, x), s - {x});
      }
      assert s <= Newest(part, time, max);
      SubsetSize(Newest(part, time, max) - s, {});
    }
  }

  lemma SubsetSize(a: set<nat>, b: set<nat>)
    ensures a <= b ==> |a| <= |b|
    ensures b == {} && |a| == 0 ==> a == {}
  {
    if a <= b {
      assert b == a + (b - a);
    }
  }

  // ----- what each cap keeps -----

  /** After the event cap each issue holds exactly its `max` newest events (all of them if it had fewer). */
  lemma EventCapKeepsNewest(t: Tables, max: int, id: nat)
    requires max > 0
    ensures var u := EventCap(t, max);
            var before, after := EventsOf(t.events, id), EventsOf(u.events, id);
            && u.issues == t.issues
            && after == Newest(before, ReceivedAt(t.events), max)
            && after <= before && |after| == Min(max, |before|)
            && (forall e :: e in after ==> u.events[e] == t.events[e])
            && (forall x, y :: x in after && y in before - after ==> Newer(ReceivedAt(t.events), x, y))
  {
    var part, time := EventsOf(t.events, id), ReceivedAt(t.events);
    var after := EventsOf(EventCap(t, max).events, id);
    assert after == Newest(part, time, max);
    NewestCount(part, time, max);
    forall x, y | x in after && y in part - after ensures Newer(time, x, y) {
      if Newer(time, y, x) {
        RankGrows(part, time, y, x);
      }
    }
  }

  /** After the issue cap each project holds exactly its `max` newest issues. */
  lemma IssueCapNewest(t: Tables, max: int, project: string)
    requires max > 0
    ensures var before, after := IssuesOf(t, project), IssuesOf(IssueCap(t, max), project);
            && after == Newest(before, LastSeen(t.issues), max)
            && after <= before && |after| == Min(max, |before|)
            && (forall x, y :: x in after && y in before - after ==> Newer(LastSeen(t.issues), x, y))
  {
    var part, time := IssuesOf(t, project), LastSeen(t.issues);
    var after := IssuesOf(IssueCap(t, max), project);
    assert after == Newest(part, time, max);
    NewestCount(part, time, max);
    forall x, y | x in after && y in part - after ensures Newer(time, x, y) {
      if Newer(time, y, x) {
        RankGrows(part, time, y, x);
      }
    }
  }

  /** No event is orphaned, and no row changes. */
  lemma IssueCapKeepsNewest(t: Tables, max: int, project: string)
    requires max > 0
    requires forall e :: e in t.events ==> t.events[e].issueId in t.issues
    ensures var u := IssueCap(t, max);
            var before, after := IssuesOf(t, project), IssuesOf(u, project);
            && after <= before && |after| == Min(max, |before|)
            && (forall i :: i in after ==> u.issues[i] == t.issues[i])
            && (forall x, y :: x in after && y in before - after ==> Newer(LastSeen(t.issues), x, y))
            && (forall e :: e in t.events ==> (e in u.events <==> t.events[e].issueId in u.issues))
            && (forall e :: e in u.events ==> e in t.events && u.events[e] == t.events[e] && u.events[e].issueId in u.issues)
  {
    IssueCapNewest(t, max, project);
  }

  /** Every event left is as it was. */
  ghost predicate OnlyEventsGo(t: Tables, u: Tables) {
    && u.issues == t.issues && u.projects == t.projects && u.nextIssue == t.nextIssue && u.nextEvent == t.nextEvent
    && forall e :: e in u.events ==> e in t.events && u.events[e] == t.events[e]
  }

  /** From `t` to `u` the events received up to the cutoff's date went, and nothing else. */
  ghost predicate AgedOut(t: Tables, u: Tables, cutoff: int) {
    && OnlyEventsGo(t, u)
    && forall e :: e in t.events ==>
         (e in u.events <==> t.events[e].receivedAt / Calendar.DAY_SECS > cutoff / Calendar.DAY_SECS)
  }

  /** From `t` to `u` each issue was left its `max` newest events, and nothing else changed. */
  ghost predicate CapsEvents(t: Tables, u: Tables, max: nat) {
    && OnlyEventsGo(t, u)
    && forall id: nat ::
         var before, after := EventsOf(t.events, id), EventsOf(u.events, id);
         && after <= before && |after| == Min(max, |before|)
         && forall x, y :: x in after && y in before - after ==> Newer(ReceivedAt(t.events), x, y)
  }

  /** From `t` to `u` each project was left its `max` newest issues, each issue its events, and nothing else changed. */
  ghost predicate CapsIssues(t: Tables, u: Tables, max: nat) {
    && u.projects == t.projects && u.nextIssue == t.nextIssue && u.nextEvent == t.nextEvent
    && (forall i :: i in u.issues ==> i in t.issues && u.issues[i] == t.issues[i])
    && (forall e :: e in u.events <==> e in t.events && t.events[e].issueId in u.issues)
    && (forall e :: e in u.events ==> u.events[e] == t.events[e])
    && forall p: string ::
         var before, after := IssuesOf(t, p), IssuesOf(u, p);
         && after <= before && |after| == Min(max, |before|)
         && forall x, y :: x in after && y in before - after ==> Newer(LastSeen(t.issues), x, y)
  }

  lemma AgePurgeAges(t: Tables, cutoff: int)
    ensures AgedOut(t, AgePurge(t, cutoff), cutoff)
  {
  }

  lemma EventCapCaps(t: Tables, max: int)
    requires max > 0
    ensures CapsEvents(t, EventCap(t, max), max)
  {
    forall id: nat {
      EventCapKeepsNewest(t, max, id);
    }
  }

  lemma IssueCapCaps(t: Tables, max: int)
    requires max > 0
    ensures CapsIssues(t, IssueCap(t, max), max)
  {
    forall p: string {
      IssueCapNewest(t, max, p);
    }
  }

  // ----- the sweeps commute and are idempotent -----

  lemma KeepTwice(t: Tables, a: set<nat>, b: set<nat>)
    ensures KeepEvents(KeepEvents(t, a), b) == KeepEvents(t, a * b)
    ensures KeepEvents(t, a * b) == KeepEvents(KeepEvents(t, b), a)
  {
    assert a * b == b * a;
    assert KeepEvents(KeepEvents(t, a), b).events == KeepEvents(t, a * b).events;
    assert KeepEvents(KeepEvents(t, b), a).events == KeepEvents(t, b * a).events;
  }

  lemma KeepSame(t: Tables, a: set<nat>, b: set<nat>)
    requires forall e :: e in t.events ==> (e in a <==> e in b)
    ensures KeepEvents(t, a) == KeepEvents(t, b)
  {
    assert KeepEvents(t, a).events == KeepEvents(t, b).events;
  }

  lemma KeepBoth(t: Tables, events: set<nat>, issues: set<nat>)
    ensures KeepIssues(KeepEvents(t, events), issues) == KeepEvents(KeepIssues(t, issues), events)
  {
    assert KeepIssues(KeepEvents(t, events), issues).events == KeepEvents(KeepIssues(t, issues), events).events;
  }

  /** Dropping rows of other issues, or older rows of the same, leaves a row's rank alone. */
  lemma SameRank(t: Tables, u: Tables, e: nat)
    requires e in u.events
    requires forall x :: x in u.events ==> x in t.events && u.events[x] == t.events[x]
    requires forall x | x in t.events && t.events[x].issueId == t.events[e].issueId
                        && Newer(ReceivedAt(t.events), x, e) :: x in u.events
    ensures Rank(EventsOf(u.events, u.events[e].issueId), ReceivedAt(u.events), e)
            == Rank(EventsOf(t.events, t.events[e].issueId), ReceivedAt(t.events), e)
  {
    assert Before(EventsOf(u.events, u.events[e].issueId), ReceivedAt(u.events), e)
        == Before(EventsOf(t.events, t.events[e].issueId), ReceivedAt(t.events), e);
  }

  lemma AgeAndEventCapCommute(t: Tables, cutoff: int, max: int)
    ensures EventCap(AgePurge(t, cutoff), max) == AgePurge(EventCap(t, max), cutoff)
  {
    if max > 0 {
      var u := AgePurge(t, cutoff);
      forall e | e in u.events ensures e in EventKeep(u, max) <==> e in EventKeep(t, max) {
        SameRank(t, u, e);
      }
      KeepSame(u, EventKeep(u, max), EventKeep(t, max));
      KeepTwice(t, AgeKeep(t, cutoff), EventKeep(t, max));
      KeepSame(EventCap(t, max), AgeKeep(t, cutoff), AgeKeep(EventCap(t, max), cutoff));
    }
  }

  lemma AgeAndIssueCapCommute(t: Tables, cutoff: int, max: int)
    ensures IssueCap(AgePurge(t, cutoff), max) == AgePurge(IssueCap(t, max), cutoff)
  {
    if max > 0 {
      SameIssueKeep(t, AgePurge(t, cutoff), max);
      KeepBoth(t, AgeKeep(t, cutoff), IssueKeep(t, max));
      KeepSame(IssueCap(t, max), AgeKeep(t, cutoff), AgeKeep(IssueCap(t, max), cutoff));
    }
  }

  lemma EventAndIssueCapCommute(t: Tables, m: int, n: int)
    ensures IssueCap(EventCap(t, m), n) == EventCap(IssueCap(t, n), m)
  {
    if m > 0 && n > 0 {
      var u := IssueCap(t, n);
      SameIssueKeep(t, EventCap(t, m), n);
      KeepBoth(t, EventKeep(t, m), IssueKeep(t, n));
      forall e | e in u.events ensures e in EventKeep(u, m) <==> e in EventKeep(t, m) {
        SameRank(t, u, e);
      }
      KeepSame(u, EventKeep(t, m), EventKeep(u, m));
    }
  }

  /** The issue cap reads the issues only. */
  lemma SameIssueKeep(t: Tables, u: Tables, max: nat)
    requires t.issues == u.issues
    ensures IssueKeep(t, max) == IssueKeep(u, max)
  {
    assert forall p :: IssuesOf(t, p) == IssuesOf(u, p);
  }

  lemma EventCapIdempotent(t: Tables, max: int)
    ensures EventCap(EventCap(t, max), max) == EventCap(t, max)
  {
    if max > 0 {
      var u := EventCap(t, max);
      forall e | e in u.events ensures e in EventKeep(u, max) {
        forall x | x in t.events && t.events[x].issueId == t.events[e].issueId && Newer(ReceivedAt(t.events), x, e)
          ensures x in u.events
        {
          RankGrows(EventsOf(t.events, t.events[e].issueId), ReceivedAt(t.events), x, e);
        }
        SameRank(t, u, e);
      }
      assert EventCap(u, max).events == u.events;
    }
  }

  /** What ranks before a kept issue was kept, so its rank stays. */
  lemma KeptAgain(t: Tables, max: int, u: Tables, i: nat)
    requires max > 0 && u == IssueCap(t, max) && i in u.issues
    ensures i in IssueKeep(u, max)
  {
    var p := t.issues[i].project;
    forall x | x in t.issues && t.issues[x].project == p && Newer(LastSeen(t.issues), x, i) ensures x in u.issues {
      RankGrows(IssuesOf(t, p), LastSeen(t.issues), x, i);
    }
    assert Before(IssuesOf(u, p), LastSeen(u.issues), i) == Before(IssuesOf(t, p), LastSeen(t.issues), i);
  }

  lemma IssueCapIdempotent(t: Tables, max: int)
    ensures IssueCap(IssueCap(t, max), max) == IssueCap(t, max)
  {
    if max > 0 {
      var u := IssueCap(t, max);
      forall i | i in u.issues ensures i in IssueKeep(u, max) {
        KeptAgain(t, max, u, i);
      }
      CapKeepsEventsOf(t, max, u);
      KeepAll(u, IssueKeep(u, max));
    }
  }

  lemma CapKeepsEventsOf(t: Tables, max: int, u: Tables)
    requires max > 0 && u == IssueCap(t, max)
    ensures forall e :: e in u.events ==> u.events[e].issueId in u.issues
  {
  }

  lemma KeepAll(t: Tables, keep: set<nat>)
    requires forall i :: i in t.issues ==> i in keep
    requires forall e :: e in t.events ==> t.events[e].issueId in t.issues
    ensures KeepIssues(t, keep) == t
  {
    assert KeepIssues(t, keep).issues == t.issues;
    assert KeepIssues(t, keep).events == t.events;
  }

  lemma CapsIdempotent(t: Tables, m: int, n: int, v: Tables)
    requires v == IssueCap(EventCap(t, m), n)
    ensures EventCap(v, m) == v && IssueCap(v, n) == v
  {
    var c := EventCap(t, m);
    EventAndIssueCapCommute(c, m, n);
    EventCapIdempotent(t, m);
    IssueCapIdempotent(c, n);
  }

  ghost predicate NothingAged(t: Tables, cutoff: int) {
    forall e :: e in t.events ==> !TextBefore(t.events[e].receivedAt, cutoff)
  }

  lemma CapsAgeNothing(t: Tables, cutoff: int, m: int, n: int)
    requires NothingAged(t, cutoff)
    ensures NothingAged(IssueCap(EventCap(t, m), n), cutoff)
  {
    assert NothingAged(EventCap(t, m), cutoff);
  }

  lemma NothingToPurge(v: Tables, cutoff: int)
    requires NothingAged(v, cutoff)
    ensures AgePurge(v, cutoff) == v
  {
    assert AgePurge(v, cutoff).events == v.events;
  }

  lemma AgedAgain(t: Tables, days: nat, now: int, m: int, n: int, v: Tables)
    requires v == IssueCap(EventCap(AgeSweep(t, days, now), m), n)
    ensures AgeSweep(v, days, now) == v
  {
    if days > 0 {
      CapsAgeNothing(AgePurge(t, now - days * Calendar.DAY_SECS), now - days * Calendar.DAY_SECS, m, n);
      NothingToPurge(v, now - days * Calendar.DAY_SECS);
    }
  }

  lemma TickFixed(v: Tables, s: Settings, bootDays: nat, now: int)
    requires AgeSweep(v, EffectiveDays(s, bootDays), now) == v
    requires EventCap(v, s.eventsPerIssueMax) == v && IssueCap(v, s.issuesPerProjectMax) == v
    ensures Tick(v, s, bootDays, now) == v
  {
  }

  /** Repeating a tick at the same clock and settings deletes nothing more. */
  lemma TickIdempotent(t: Tables, s: Settings, bootDays: nat, now: int, v: Tables)
    requires v == Tick(t, s, bootDays, now)
    ensures Tick(v, s, bootDays, now) == v
  {
    var days := EffectiveDays(s, bootDays);
    CapsIdempotent(AgeSweep(t, days, now), s.eventsPerIssueMax, s.issuesPerProjectMax, v);
    AgedAgain(t, days, now, s.eventsPerIssueMax, s.issuesPerProjectMax, v);
    TickFixed(v, s, bootDays, now);
  }

  /** The sweeps can run in any order. */
  lemma SweepsCommute(t: Tables, cutoff: int, m: int, n: int)
    ensures var r := IssueCap(EventCap(AgePurge(t, cutoff), m), n);
            && IssueCap(AgePurge(EventCap(t, m), cutoff), n) == r
            && EventCap(IssueCap(AgePurge(t, cutoff), n), m) == r
            && EventCap(AgePurge(IssueCap(t, n), cutoff), m) == r
            && AgePurge(IssueCap(EventCap(t, m), n), cutoff) == r
            && AgePurge(EventCap(IssueCap(t, n), m), cutoff) == r
  {
    AgeAndEventCapCommute(t, cutoff, m);
    AgeAndIssueCapCommute(t, cutoff, n);
    EventAndIssueCapCommute(t, m, n);
    EventAndIssueCapCommute(AgePurge(t, cutoff), m, n);
    AgeAndIssueCapCommute(EventCap(t, m), cutoff, n);
  }

  // ----- latest_event -----

  ghost predicate IsLatest(t: Tables, id: nat, e: nat) {
    e in EventsOf(t.events, id)
    && forall x :: x in EventsOf(t.events, id) && x != e ==> Newer(ReceivedAt(t.events), e, x)
  }

  predicate Aged(t: Tables, cutoff: int, e: nat)
    requires e in t.events
  {
    TextBefore(t.events[e].receivedAt, cutoff)
  }

  lemma AgePurgeAndLatest(t: Tables, cutoff: int, id: nat, e: nat)
    requires IsLatest(t, id, e)
    ensures var u := AgePurge(t, cutoff);
            if Aged(t, cutoff, e) then EventsOf(u.events, id) == {}
            else IsLatest(u, id, e) && u.events[e] == t.events[e]
  {
    var u := AgePurge(t, cutoff);
    assert EventsOf(u.events, id) <= EventsOf(t.events, id);
    if Aged(t, cutoff, e) {
      forall x | x in EventsOf(t.events, id) ensures x !in u.events {
        assert x == e || Newer(ReceivedAt(t.events), e, x);
      }
    } else {
      assert e in u.events;
    }
  }

  lemma EventCapAndLatest(t: Tables, max: int, id: nat, e: nat)
    requires IsLatest(t, id, e)
    ensures IsLatest(EventCap(t, max), id, e) && EventCap(t, max).events[e] == t.events[e]
  {
    var u := EventCap(t, max);
    assert Before(EventsOf(t.events, id), ReceivedAt(t.events), e) == {};
    assert e in u.events;
    assert EventsOf(u.events, id) <= EventsOf(t.events, id);
  }

  lemma IssueCapAndEvents(t: Tables, max: int, id: nat)
    requires id in IssueCap(t, max).issues
    ensures EventsOf(IssueCap(t, max).events, id) == EventsOf(t.events, id)
    ensures forall e :: e in EventsOf(t.events, id) ==> IssueCap(t, max).events[e] == t.events[e]
  {
    var u := IssueCap(t, max);
    forall e | e in EventsOf(t.events, id) ensures e in u.events && u.events[e] == t.events[e] {}
  }

  /** The two caps leave the latest event of a surviving issue alone. */
  lemma CapsAndLatest(t: Tables, m: int, n: int, id: nat, e: nat)
    requires id in IssueCap(EventCap(t, m), n).issues
    ensures var u := IssueCap(EventCap(t, m), n);
            && (EventsOf(t.events, id) == {} ==> EventsOf(u.events, id) == {})
            && (IsLatest(t, id, e) ==> IsLatest(u, id, e) && u.events[e] == t.events[e])
  {
    var c := EventCap(t, m);
    var u := IssueCap(c, n);
    IssueCapAndEvents(c, n, id);
    assert EventsOf(c.events, id) <= EventsOf(t.events, id);
    if IsLatest(t, id, e) {
      EventCapAndLatest(t, m, id, e);
      assert ReceivedAt(u.events)[e] == ReceivedAt(c.events)[e];
    }
  }

  /** What a sweep did to the latest event `e` of issue `id`: it is still the latest, or all events are gone. */
  ghost predicate LatestAfter(t: Tables, u: Tables, id: nat, e: nat, agedOut: bool)
    requires e in t.events
  {
    if agedOut then EventsOf(u.events, id) == {} else IsLatest(u, id, e) && u.events[e] == t.events[e]
  }

  lemma CapsAfterAge(t: Tables, a: Tables, m: int, n: int, u: Tables, id: nat, e: nat, agedOut: bool)
    requires u == IssueCap(EventCap(a, m), n) && id in u.issues
    requires e in t.events && LatestAfter(t, a, id, e, agedOut)
    ensures LatestAfter(t, u, id, e, agedOut)
  {
    CapsAndLatest(a, m, n, id, e);
  }

  lemma AgeSweepAndLatest(t: Tables, days: nat, now: int, a: Tables, id: nat, e: nat)
    requires a == AgeSweep(t, days, now) && IsLatest(t, id, e)
    ensures LatestAfter(t, a, id, e, days > 0 && Aged(t, now - days * Calendar.DAY_SECS, e))
  {
    if days > 0 {
      AgePurgeAndLatest(t, now - days * Calendar.DAY_SECS, id, e);
    }
  }

  /**
   A surviving issue keeps its latest event unless that very event aged out, and
   then it has no event left.
   */
  lemma TickAndLatestEvent(t: Tables, s: Settings, bootDays: nat, now: int, u: Tables, id: nat, e: nat)
    requires u == Tick(t, s, bootDays, now)
    requires IsLatest(t, id, e) && id in u.issues
    ensures var days := EffectiveDays(s, bootDays);
            LatestAfter(t, u, id, e, days > 0 && Aged(t, now - days * Calendar.DAY_SECS, e))
  {
    var days := EffectiveDays(s, bootDays);
    var a := AgeSweep(t, days, now);
    AgeSweepAndLatest(t, days, now, a, id, e);
    CapsAfterAge(t, a, s.eventsPerIssueMax, s.issuesPerProjectMax, u, id, e,
                 days > 0 && Aged(t, now - days * Calendar.DAY_SECS, e));
  }

  // ----- what a whole tick keeps -----

  /** The `max` newest, or all of them when there is no cap. */
  function NewestUpTo(part: set<nat>, time: map<nat, int>, max: nat): set<nat>
    requires part <= time.Keys
  {
    if max == 0 then part else Newest(part, time, max)
  }

  lemma CapKeepsEvents(t: Tables, max: nat, id: nat)
    ensures EventsOf(EventCap(t, max).events, id) == NewestUpTo(EventsOf(t.events, id), ReceivedAt(t.events), max)
  {
    if max > 0 {
      EventCapKeepsNewest(t, max, id);
    }
  }

  lemma CapKeepsIssues(t: Tables, max: nat, p: string)
    ensures IssuesOf(IssueCap(t, max), p) == NewestUpTo(IssuesOf(t, p), LastSeen(t.issues), max)
  {
    if max > 0 {
      IssueCapNewest(t, max, p);
    }
  }

  lemma CapLeavesEvents(t: Tables, max: nat, id: nat)
    requires id in IssueCap(t, max).issues
    ensures EventsOf(IssueCap(t, max).events, id) == EventsOf(t.events, id)
  {
  }

  /**
   After a tick each issue that is left holds exactly the newest of the events the
   age sweep left it, each project exactly its newest issues, and no event is orphaned.
   */
  lemma TickKeepsNewest(t: Tables, s: Settings, bootDays: nat, now: int, a: Tables, u: Tables)
    requires a == AgeSweep(t, EffectiveDays(s, bootDays), now) && u == Tick(t, s, bootDays, now)
    requires forall e :: e in t.events ==> t.events[e].issueId in t.issues
    ensures forall id :: id in u.issues ==>
              EventsOf(u.events, id) == NewestUpTo(EventsOf(a.events, id), ReceivedAt(a.events), s.eventsPerIssueMax)
    ensures forall p: string ::
              IssuesOf(u, p) == NewestUpTo(IssuesOf(t, p), LastSeen(t.issues), s.issuesPerProjectMax)
    ensures forall e :: e in u.events ==> e in t.events && u.events[e] == t.events[e] && u.events[e].issueId in u.issues
  {
    var b := EventCap(a, s.eventsPerIssueMax);
    forall id | id in u.issues
      ensures EventsOf(u.events, id) == NewestUpTo(EventsOf(a.events, id), ReceivedAt(a.events), s.eventsPerIssueMax)
    {
      CapKeepsEvents(a, s.eventsPerIssueMax, id);
      CapLeavesEvents(b, s.issuesPerProjectMax, id);
    }
    forall p: string ensures IssuesOf(u, p) == NewestUpTo(IssuesOf(t, p), LastSeen(t.issues), s.issuesPerProjectMax) {
      CapKeepsIssues(b, s.issuesPerProjectMax, p);
    }
    TickOrphansNothing(t, s, bootDays, now, u);
  }

  lemma TickOrphansNothing(t: Tables, s: Settings, bootDays: nat, now: int, u: Tables)
    requires u == Tick(t, s, bootDays, now)
    requires forall e :: e in t.events ==> t.events[e].issueId in t.issues
    ensures forall e :: e in u.events ==> e in t.events && u.events[e] == t.events[e] && u.events[e].issueId in u.issues
  {
    var a := AgeSweep(t, EffectiveDays(s, bootDays), now);
    var b := EventCap(a, s.eventsPerIssueMax);
    AgeSweepOnly(t, EffectiveDays(s, bootDays), now);
    EventCapOnly(a, s.eventsPerIssueMax);
    CapOrphansNothing(t, a, b, s.issuesPerProjectMax, u);
  }

  lemma AgeSweepOnly(t: Tables, days: nat, now: int)
    ensures OnlyEventsGo(t, AgeSweep(t, days, now))
  {
  }

  lemma EventCapOnly(t: Tables, max: int)
    ensures OnlyEventsGo(t, EventCap(t, max))
  {
  }

  lemma CapOrphansNothing(t: Tables, a: Tables, b: Tables, max: int, u: Tables)
    requires OnlyEventsGo(t, a) && OnlyEventsGo(a, b) && u == IssueCap(b, max)
    requires forall e :: e in t.events ==> t.events[e].issueId in t.issues
    ensures forall e :: e in u.events ==> e in t.events && u.events[e] == t.events[e] && u.events[e].issueId in u.issues
  {
  }

  // ----- the age sweep against its promise -----

  /** What the sweep promises: delete exactly the events received before the cutoff. */
  function PromisedAgePurge(t: Tables, cutoff: int): Tables {
    KeepEvents(t, set e | e in t.events && t.events[e].receivedAt >= cutoff)
  }

  /**
   The promise is kept exactly when no event was received on the cutoff's own
   date at or after the cutoff. Such an event is deleted up to a day too early.
   */
  lemma AgePurgeMeetsPromise(t: Tables, cutoff: int)
    ensures AgePurge(t, cutoff) == PromisedAgePurge(t, cutoff)
            <==> forall e :: e in t.events && t.events[e].receivedAt / Calendar.DAY_SECS == cutoff / Calendar.DAY_SECS
                             ==> t.events[e].receivedAt < cutoff
  {
    var u, v := AgePurge(t, cutoff), PromisedAgePurge(t, cutoff);
    if u == v {
      forall e | e in t.events && t.events[e].receivedAt / Calendar.DAY_SECS == cutoff / Calendar.DAY_SECS
        ensures t.events[e].receivedAt < cutoff
      {
        assert e !in u.events;
        assert e !in v.events;
      }
    } else {
      assert u.events != v.events;
      var e :| e in t.events && (e in u.events) != (e in v.events);
      DayOrder(t.events[e].receivedAt, cutoff);
    }
  }

  lemma DayOrder(a: int, b: int)
    ensures a / Calendar.DAY_SECS < b / Calendar.DAY_SECS ==> a < b
    ensures a / Calendar.DAY_SECS > b / Calendar.DAY_SECS ==> a > b
  {
  }
}
