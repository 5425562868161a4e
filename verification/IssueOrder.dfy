/**
 What the issue list shows and in which order, in terms of the rows' own fields.
 */
module IssueOrder {
  import opened Filters
  import opened IssueView
  import opened Schema
  import opened Wrappers

  /** The row `a` is shown before `b`: the last seen first, the longest unseen first, or the most frequent first; then the older id. */
  predicate ShownFirst(a: Issue, b: Issue, key: SortKey) {
    match key
    case Recent => a.lastSeen > b.lastSeen || (a.lastSeen == b.lastSeen && a.id < b.id)
    case Stale => a.lastSeen < b.lastSeen || (a.lastSeen == b.lastSeen && a.id < b.id)
    case Count => a.eventCount > b.eventCount || (a.eventCount == b.eventCount && a.id < b.id)
  }

  /** The row is in this project, of a chosen status and level, in the window, and passes the flags and the text. */
  ghost predicate Wanted(f: Filter, e: Env, r: Issue) {
    && r.project == e.project && r.status in f.statuses && e.matches(r)
    && (f.levels == {} || (r.level.Some? && exists l :: l in f.levels && LevelName(l) == e.lower(r.level.value)))
    && (f.sinceMs.Some? ==> e.now - r.firstSeen <= f.sinceMs.value)
    && (f.newOnly ==> e.now - r.firstSeen <= if f.sinceMs.Some? then f.sinceMs.value else 3_600_000)
    && (f.staleOnly ==> e.now - r.firstSeen >= 86_400_000 && r.status == Unresolved)
    && (f.spikingOnly ==> e.spiking(r.id))
  }

  ghost function WantedIds(f: Filter, e: Env, m: map<nat, Issue>): set<nat> {
    set i | i in m && Wanted(f, e, m[i])
  }

  lemma WantedPasses(f: Filter, e: Env, r: Issue)
    ensures Wanted(f, e, r) <==> Passes(f, e, r)
  {
  }

  lemma OrderIsComparator(a: Issue, b: Issue, key: SortKey)
    ensures ShownFirst(a, b, key) <==> Precedes(a, b, By(key))
  {
  }

  /** The sorted list before it is cut. */
  lemma SortedFacts(f: Filter, e: Env, m: map<nat, Issue>, rows: seq<Issue>, v: seq<Issue>)
    requires Enumerates(rows, m) && f.sort.By? && v == Sort(Kept(f, e, rows), f.sort)
    ensures forall j, k :: 0 <= j < k < |v| ==> ShownFirst(v[j], v[k], f.sort.key)
    ensures forall x :: x in v <==> x.id in m && m[x.id] == x && Wanted(f, e, x)
    ensures DistinctIds(v) && Cut(v, f.limit) == Visible(f, e, rows)
  {
    KeptIsFilter(f, e, rows);
    SortSorts(Kept(f, e, rows), f.sort);
    forall j, k | 0 <= j < k < |v| ensures ShownFirst(v[j], v[k], f.sort.key) {
      assert Precedes(v[j], v[k], f.sort);
      OrderIsComparator(v[j], v[k], f.sort.key);
    }
    forall x ensures x in v <==> x.id in m && m[x.id] == x && Wanted(f, e, x) {
      WantedPasses(f, e, x);
    }
    SortedOnce(v, m, f.sort);
  }

  /** As many as there are wanted rows. */
  lemma SortedSize(f: Filter, e: Env, m: map<nat, Issue>, rows: seq<Issue>, v: seq<Issue>)
    requires Enumerates(rows, m) && f.sort.By? && v == Sort(Kept(f, e, rows), f.sort)
    ensures |v| == |WantedIds(f, e, m)|
  {
    SortedFacts(f, e, m, rows, v);
    IdsBeforeSize(v, |v|);
    forall i ensures i in IdsBefore(v, |v|) <==> i in WantedIds(f, e, m) {
      if i in WantedIds(f, e, m) {
        assert m[i] in v && m[i].id == i;
        var j :| 0 <= j < |v| && v[j] == m[i];
      }
      if i in IdsBefore(v, |v|) {
        var j :| 0 <= j < |v| && v[j].id == i;
        assert v[j] in v;
      }
    }
    assert IdsBefore(v, |v|) == WantedIds(f, e, m);
  }

  /**
   The rows shown: wanted ones only, in order of last sight, longest unseen or
   count as the sort says, equal ones by ascending id.
   */
  lemma VisibleInOrder(f: Filter, e: Env, m: map<nat, Issue>, rows: seq<Issue>, j: nat, k: nat)
    requires Enumerates(rows, m) && f.sort.By? && j < k < |Visible(f, e, rows)|
    ensures var a, b := Visible(f, e, rows)[j], Visible(f, e, rows)[k];
            && (f.sort.key == Recent ==> a.lastSeen > b.lastSeen || (a.lastSeen == b.lastSeen && a.id < b.id))
            && (f.sort.key == Stale ==> a.lastSeen < b.lastSeen || (a.lastSeen == b.lastSeen && a.id < b.id))
            && (f.sort.key == Count ==> a.eventCount > b.eventCount || (a.eventCount == b.eventCount && a.id < b.id))
  {
    var v := Sort(Kept(f, e, rows), f.sort);
    SortedFacts(f, e, m, rows, v);
    assert ShownFirst(v[j], v[k], f.sort.key);
  }

  /**
   What the limit does: under a positive limit as many rows are shown as it says or as
   are wanted, the smaller; otherwise all that are wanted; and what is left out comes
   after everything shown.
   */
  lemma VisibleIsTheTop(f: Filter, e: Env, m: map<nat, Issue>, rows: seq<Issue>, shown: seq<Issue>, n: nat)
    requires Enumerates(rows, m) && f.sort.By? && shown == Visible(f, e, rows) && n == |WantedIds(f, e, m)|
    ensures |shown| == if f.limit.Some? && 0 < f.limit.value <= n then f.limit.value else n
    ensures forall x :: x in shown ==> x.id in m && m[x.id] == x && Wanted(f, e, x)
    ensures forall i, k :: i in m && Wanted(f, e, m[i]) && m[i] !in shown && 0 <= k < |shown| ==>
              ShownFirst(shown[k], m[i], f.sort.key)
  {
    var v := Sort(Kept(f, e, rows), f.sort);
    SortedFacts(f, e, m, rows, v);
    SortedSize(f, e, m, rows, v);
    forall i, k | i in m && Wanted(f, e, m[i]) && m[i] !in shown && 0 <= k < |shown|
      ensures ShownFirst(shown[k], m[i], f.sort.key)
    {
      LeftOutIsLater(v, shown, m[i], k, f.sort.key);
    }
    forall x | x in shown ensures x in v {
    }
  }

  lemma LeftOutIsLater(v: seq<Issue>, shown: seq<Issue>, x: Issue, k: nat, key: SortKey)
    requires shown <= v && x in v && x !in shown && k < |shown|
    requires forall i, j :: 0 <= i < j < |v| ==> ShownFirst(v[i], v[j], key)
    ensures ShownFirst(shown[k], x, key)
  {
    var j :| 0 <= j < |v| && v[j] == x;
  }

  /** The most recently seen of two issues comes first. */
  lemma RecentFirst(f: Filter, e: Env, a: Issue, b: Issue, m: map<nat, Issue>)
    requires f.sort == By(Recent) && f.limit == Some(1) && a.id != b.id && m == map[a.id := a, b.id := b]
    requires Wanted(f, e, a) && Wanted(f, e, b) && a.lastSeen < b.lastSeen
    ensures Visible(f, e, [a, b]) == [b]
  {
    var shown, rows := Visible(f, e, [a, b]), [a, b];
    assert Enumerates(rows, m) by {
      assert rows[0] == a && rows[1] == b;
    }
    assert WantedIds(f, e, m) == {a.id, b.id};
    VisibleIsTheTop(f, e, m, rows, shown, 2);
    assert shown[0] in shown;
    assert shown[0] == a ==> b !in shown;
  }
}
