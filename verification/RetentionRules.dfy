/** Which rows a retention tick takes, in terms of their own times and ids. */
module RetentionRules {
  import opened Retention
  import opened RetentionProofs
  import opened Schema

  /** The days of retention: the stored setting, or the boot flag when it is not set. None: events do not age. */
  function HorizonDays(s: Settings, bootDays: nat): nat {
    if s.eventRetentionDays > 0 then s.eventRetentionDays else bootDays
  }

  /** Received on the day of the cutoff or before; the cutoff is `days` days before `now`. */
  predicate TooOld(receivedAt: int, days: nat, now: int) {
    days > 0 && receivedAt / 86_400 <= (now - days * 86_400) / 86_400
  }

  lemma AgeSweepMeans(t: Tables, s: Settings, bootDays: nat, now: int)
    ensures var a := AgeSweep(t, EffectiveDays(s, bootDays), now);
            && a.issues == t.issues
            && (forall e :: e in a.events <==> e in t.events && !TooOld(t.events[e].receivedAt, HorizonDays(s, bootDays), now))
            && (forall e :: e in a.events ==> a.events[e] == t.events[e])
  {
  }

  /** No event that is too old is left. */
  lemma NoneTooOld(t: Tables, s: Settings, bootDays: nat, now: int, u: Tables, e: nat)
    requires u == Tick(t, s, bootDays, now) && e in u.events
    ensures !TooOld(u.events[e].receivedAt, HorizonDays(s, bootDays), now)
  {
    var a := AgeSweep(t, EffectiveDays(s, bootDays), now);
    AgeSweepMeans(t, s, bootDays, now);
    var b := EventCap(a, s.eventsPerIssueMax);
    EventCapOnly(a, s.eventsPerIssueMax);
    CapOnly(b, s.issuesPerProjectMax, u);
  }

  lemma CapOnly(b: Tables, max: int, u: Tables)
    requires u == IssueCap(b, max)
    ensures forall e :: e in u.events ==> e in b.events && u.events[e] == b.events[e]
  {
  }

  /** Of two events of one issue the tick takes the one received first, or the smaller id; and it leaves as many as the cap says. */
  lemma TickTakesOldest(t: Tables, s: Settings, bootDays: nat, now: int, u: Tables, x: nat, y: nat)
    requires u == Tick(t, s, bootDays, now)
    requires forall e :: e in t.events ==> t.events[e].issueId in t.issues
    requires x in u.events && y in t.events && y !in u.events && t.events[y].issueId == u.events[x].issueId
    requires !TooOld(t.events[y].receivedAt, HorizonDays(s, bootDays), now)
    ensures x in t.events && u.events[x] == t.events[x]
    ensures t.events[x].receivedAt > t.events[y].receivedAt || (t.events[x].receivedAt == t.events[y].receivedAt && x > y)
    ensures s.eventsPerIssueMax > 0 && |EventsOf(u.events, u.events[x].issueId)| == s.eventsPerIssueMax
  {
    var a := AgeSweep(t, EffectiveDays(s, bootDays), now);
    var id, max := u.events[x].issueId, s.eventsPerIssueMax;
    AgeSweepMeans(t, s, bootDays, now);
    TickOrphansNothing(t, s, bootDays, now, u);
    TickKeepsNewest(t, s, bootDays, now, a, u);
    var part := EventsOf(a.events, id);
    assert y in part && x in EventsOf(u.events, id) && y !in EventsOf(u.events, id);
    OutrankedIsOlder(part, ReceivedAt(a.events), max, x, y);
  }

  /** A row left out of the newest is older than each that stays, and the newest are as many as they can be. */
  lemma OutrankedIsOlder(part: set<nat>, time: map<nat, int>, max: nat, x: nat, y: nat)
    requires part <= time.Keys && x in part && y in part
    requires x in NewestUpTo(part, time, max) && y !in NewestUpTo(part, time, max)
    ensures time[x] > time[y] || (time[x] == time[y] && x > y)
    ensures max > 0 && |NewestUpTo(part, time, max)| == max
  {
    NewestCount(part, time, max);
    if Newer(time, y, x) {
      RankGrows(part, time, y, x);
    }
    if |part| < max {
      SubsetSize(part - Newest(part, time, max), {});
    }
  }

  /** Of two issues of one project the tick takes the one seen last earlier, or the smaller id. */
  lemma TickTakesQuietest(t: Tables, s: Settings, bootDays: nat, now: int, u: Tables, x: nat, y: nat)
    requires u == Tick(t, s, bootDays, now)
    requires forall e :: e in t.events ==> t.events[e].issueId in t.issues
    requires x in u.issues && y in t.issues && y !in u.issues && x in t.issues && t.issues[y].project == u.issues[x].project
    ensures u.issues[x] == t.issues[x]
    ensures t.issues[x].lastSeen > t.issues[y].lastSeen || (t.issues[x].lastSeen == t.issues[y].lastSeen && x > y)
    ensures s.issuesPerProjectMax > 0 && |IssuesOf(u, u.issues[x].project)| == s.issuesPerProjectMax
  {
    var a := AgeSweep(t, EffectiveDays(s, bootDays), now);
    var p, max := u.issues[x].project, s.issuesPerProjectMax;
    TickKeepsNewest(t, s, bootDays, now, a, u);
    RowsAsTheyWere(t, s, bootDays, now, u);
    assert x in IssuesOf(u, p) && y in IssuesOf(t, p) && y !in IssuesOf(u, p);
    OutrankedIsOlder(IssuesOf(t, p), LastSeen(t.issues), max, x, y);
  }

  lemma RowsAsTheyWere(t: Tables, s: Settings, bootDays: nat, now: int, u: Tables)
    requires u == Tick(t, s, bootDays, now)
    ensures forall i :: i in u.issues ==> i in t.issues && u.issues[i] == t.issues[i]
  {
  }

  /** A sweep that fails is as good as switched off: the other two do what they would have done. */
  lemma FailedSweepIsOff(t: Tables, s: Settings, bootDays: nat, now: int, faults: Faults, off: Settings)
    requires off == Settings(if faults.events then 0 else s.eventsPerIssueMax,
                             if faults.issues then 0 else s.issuesPerProjectMax,
                             if faults.age then 0 else s.eventRetentionDays)
    ensures FaultyTick(t, s, bootDays, now, faults) == Tick(t, off, if faults.age then 0 else bootDays, now)
  {
  }
}
