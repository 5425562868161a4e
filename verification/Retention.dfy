/**
 The three sweeps of `retention.rs`. ROW_NUMBER() OVER (PARTITION BY .. ORDER BY
 time DESC, id DESC) of a row is one more than the rows of its partition that
 sort before it; that is how `Rank` defines it.
 */
module Retention {
  import opened Schema
  import Calendar

  datatype Settings = Settings(eventsPerIssueMax: nat, issuesPerProjectMax: nat, eventRetentionDays: nat)

  /**
   `received_at < ?` compares two texts: the column holds CURRENT_TIMESTAMP's
   "YYYY-MM-DD HH:MM:SS", the bound cutoff is "YYYY-MM-DDTHH:MM:SS...". On equal
   dates the space sorts before the 'T', so the row counts as older whatever its
   time of day (`Iso.TextBeforeIsDayOrder` proves it of the texts).
   */
  predicate TextBefore(receivedAt: int, cutoff: int) {
    receivedAt / Calendar.DAY_SECS <= cutoff / Calendar.DAY_SECS
  }

  // ----- ranks -----

  /** x sorts before y under ORDER BY time DESC, id DESC. */
  predicate Newer(time: map<nat, int>, x: nat, y: nat)
    requires x in time && y in time
  {
    time[x] > time[y] || (time[x] == time[y] && x > y)
  }

  function Before(part: set<nat>, time: map<nat, int>, y: nat): set<nat>
    requires part <= time.Keys && y in time
  {
    set x | x in part && Newer(time, x, y)
  }

  /** ROW_NUMBER() - 1. */
  function Rank(part: set<nat>, time: map<nat, int>, y: nat): nat
    requires part <= time.Keys && y in time
  {
    |Before(part, time, y)|
  }

  /** The rows with ROW_NUMBER() <= max. */
  function Newest(part: set<nat>, time: map<nat, int>, max: nat): set<nat>
    requires part <= time.Keys
  {
    set x | x in part && Rank(part, time, x) < max
  }

  // ----- the sweeps -----

  function ReceivedAt(events: map<nat, EventRow>): (m: map<nat, int>)
    ensures m.Keys == events.Keys
  {
    map e | e in events :: events[e].receivedAt
  }

  function LastSeen(issues: map<nat, Issue>): (m: map<nat, int>)
    ensures m.Keys == issues.Keys
  {
    map i | i in issues :: issues[i].lastSeen
  }

  function AgeKeep(t: Tables, cutoff: int): set<nat> {
    set e | e in t.events && !TextBefore(t.events[e].receivedAt, cutoff)
  }

  function EventKeep(t: Tables, max: nat): set<nat> {
    set e | e in t.events && Rank(EventsOf(t.events, t.events[e].issueId), ReceivedAt(t.events), e) < max
  }

  function IssueKeep(t: Tables, max: nat): set<nat> {
    set i | i in t.issues && Rank(IssuesOf(t, t.issues[i].project), LastSeen(t.issues), i) < max
  }

  function AgePurge(t: Tables, cutoff: int): Tables {
    KeepEvents(t, AgeKeep(t, cutoff))
  }

  /** A cap of zero or less means unlimited. */
  function EventCap(t: Tables, max: int): Tables {
    if max <= 0 then t else KeepEvents(t, EventKeep(t, max))
  }

  function IssueCap(t: Tables, max: int): Tables {
    if max <= 0 then t else KeepIssues(t, IssueKeep(t, max))
  }

  /** The setting stored in the database wins over the boot flag when it is set. */
  function EffectiveDays(settings: Settings, bootDays: nat): nat {
    if settings.eventRetentionDays > 0 then settings.eventRetentionDays else bootDays
  }

  function AgeSweep(t: Tables, days: nat, now: int): Tables {
    if days > 0 then AgePurge(t, now - days * Calendar.DAY_SECS) else t
  }

  /** Which of the three sweeps fail. */
  datatype Faults = Faults(age: bool, events: bool, issues: bool)

  const NO_FAULTS := Faults(false, false, false)

  /** A tick some of whose sweeps fail. */
  function FaultyTick(t: Tables, settings: Settings, bootDays: nat, now: int, faults: Faults): Tables {
    var a := if faults.age then t else AgeSweep(t, EffectiveDays(settings, bootDays), now);
    var b := if faults.events then a else EventCap(a, settings.eventsPerIssueMax);
    if faults.issues then b else IssueCap(b, settings.issuesPerProjectMax)
  }

  function Tick(t: Tables, settings: Settings, bootDays: nat, now: int): Tables {
    IssueCap(EventCap(AgeSweep(t, EffectiveDays(settings, bootDays), now), settings.eventsPerIssueMax),
             settings.issuesPerProjectMax)
  }
}
