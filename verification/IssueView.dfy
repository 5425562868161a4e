/**
 `visibleIssues` (stores.svelte.ts): filter, sort, cut. Rows are issues whose
 times parse; the free-text match and the spike flag are given predicates.
 */
module IssueView {
  import opened Filters
  import opened Schema
  import opened Wrappers

  /** What the view is computed with: the project shown, the clock, lower-casing, the spike flag and the text match. */
  datatype Env = Env(project: string, now: int, lower: string -> string, spiking: nat -> bool, matches: Issue -> bool)

  const HOUR: int := 60 * 60 * 1000

  const DAY: int := 24 * HOUR

  predicate LevelPasses(f: Filter, e: Env, i: Issue) {
    f.levels == {} || (i.level.Some? && exists l :: l in f.levels && LevelName(l) == e.lower(i.level.value))
  }

  predicate TimesPass(f: Filter, e: Env, i: Issue) {
    && (f.sinceMs.Some? ==> i.firstSeen >= e.now - f.sinceMs.value)
    && (f.newOnly ==> i.firstSeen >= e.now - if f.sinceMs.Some? then f.sinceMs.value else HOUR)
    && (f.staleOnly ==> i.firstSeen <= e.now - DAY && i.status == Unresolved)
  }

  predicate Passes(f: Filter, e: Env, i: Issue) {
    && i.project == e.project
    && i.status in f.statuses
    && LevelPasses(f, e, i)
    && TimesPass(f, e, i)
    && (f.spikingOnly ==> e.spiking(i.id))
    && e.matches(i)
  }

  // ----- the comparator -----

  /** `a || b` on numbers: the tie-break counts when the first is zero. */
  function OrTie(d: int, tie: int): int {
    if d != 0 then d else tie
  }

  /** The switch has no default: under any other key the comparator returns nothing, which sorts as zero. */
  function Compare(a: Issue, b: Issue, key: SortValue): int {
    var tie := a.id - b.id;
    match key
    case By(Recent) => OrTie(b.lastSeen - a.lastSeen, tie)
    case By(Stale) => OrTie(a.lastSeen - b.lastSeen, tie)
    case By(Count) => OrTie(b.eventCount - a.eventCount, tie)
    case Inherited(_) => 0
  }

  predicate Precedes(a: Issue, b: Issue, key: SortValue) {
    Compare(a, b, key) < 0
  }

  /** On rows with different ids the comparator is a strict total order. */
  lemma ComparatorIsTotal(a: Issue, b: Issue, c: Issue, key: SortValue)
    requires key.By?
    ensures !Precedes(a, a, key)
    ensures a.id != b.id ==> (Precedes(a, b, key) <==> !Precedes(b, a, key))
    ensures Precedes(a, b, key) && Precedes(b, c, key) ==> Precedes(a, c, key)
  {
  }

  // ----- filter, sort, cut -----

  function Kept(f: Filter, e: Env, rows: seq<Issue>): seq<Issue> {
    if rows == [] then []
    else Kept(f, e, rows[..|rows| - 1]) + if Passes(f, e, rows[|rows| - 1]) then [rows[|rows| - 1]] else []
  }

  /** After every row that does not come later: what a stable sort does. */
  function Insert(sorted: seq<Issue>, row: Issue, key: SortValue): seq<Issue> {
    if sorted != [] && Precedes(row, sorted[|sorted| - 1], key) then
      Insert(sorted[..|sorted| - 1], row, key) + [sorted[|sorted| - 1]]
    else
      sorted + [row]
  }

  function Sort(rows: seq<Issue>, key: SortValue): seq<Issue> {
    if rows == [] then [] else Insert(Sort(rows[..|rows| - 1], key), rows[|rows| - 1], key)
  }

  function Cut(rows: seq<Issue>, limit: Option<int>): seq<Issue> {
    if limit.Some? && 0 < limit.value <= |rows| then rows[..limit.value] else rows
  }

  function Visible(f: Filter, e: Env, rows: seq<Issue>): seq<Issue> {
    Cut(Sort(Kept(f, e, rows), f.sort), f.limit)
  }

  // ----- the sorted list is unique -----

  /** The values of the client's map, each once, in whatever order they were inserted. */
  ghost predicate Enumerates(rows: seq<Issue>, m: map<nat, Issue>) {
    && (forall k :: 0 <= k < |rows| ==> rows[k].id in m && m[rows[k].id] == rows[k])
    && (forall i :: i in m ==> m[i] in rows && m[i].id == i)
    && DistinctIds(rows)
  }

  ghost predicate DistinctIds(rows: seq<Issue>) {
    forall j, k :: 0 <= j < k < |rows| ==> rows[j].id != rows[k].id
  }

  ghost predicate StrictlySorted(rows: seq<Issue>, key: SortValue) {
    forall j, k :: 0 <= j < k < |rows| ==> Precedes(rows[j], rows[k], key)
  }

  lemma {:induction false} KeptIsFilter(f: Filter, e: Env, rows: seq<Issue>)
    requires DistinctIds(rows)
    ensures DistinctIds(Kept(f, e, rows))
    ensures forall x :: x in Kept(f, e, rows) <==> x in rows && Passes(f, e, x)
  {
    if rows != [] {
      var n := |rows| - 1;
      KeptIsFilter(f, e, rows[..n]);
      var kept := Kept(f, e, rows[..n]);
      assert rows == rows[..n] + [rows[n]];
      forall k | 0 <= k < |kept| ensures kept[k].id != rows[n].id {
        assert kept[k] in rows[..n];
      }
    }
  }

  lemma {:induction false} InsertSorts(sorted: seq<Issue>, row: Issue, key: SortValue)
    requires key.By? && StrictlySorted(sorted, key) && forall k :: 0 <= k < |sorted| ==> sorted[k].id != row.id
    ensures StrictlySorted(Insert(sorted, row, key), key)
    ensures forall x :: x in Insert(sorted, row, key) <==> x in sorted || x == row
  {
    if sorted != [] {
      var n := |sorted| - 1;
      var last := sorted[n];
      assert sorted == sorted[..n] + [last];
      if Precedes(row, last, key) {
        InsertSorts(sorted[..n], row, key);
        var rest := Insert(sorted[..n], row, key);
        forall k | 0 <= k < |rest| ensures Precedes(rest[k], last, key) {
          assert rest[k] in rest;
        }
      } else {
        forall k | 0 <= k < |sorted| ensures Precedes(sorted[k], row, key) {
          ComparatorIsTotal(last, row, row, key);
          ComparatorIsTotal(sorted[k], last, row, key);
        }
      }
    }
  }

  lemma {:induction false} SortSorts(rows: seq<Issue>, key: SortValue)
    requires key.By? && DistinctIds(rows)
    ensures StrictlySorted(Sort(rows, key), key)
    ensures forall x :: x in Sort(rows, key) <==> x in rows
  {
    if rows != [] {
      var n := |rows| - 1;
      SortSorts(rows[..n], key);
      var sorted := Sort(rows[..n], key);
      forall k | 0 <= k < |sorted| ensures sorted[k].id != rows[n].id {
        assert sorted[k] in rows[..n];
      }
      InsertSorts(sorted, rows[n], key);
      assert rows == rows[..n] + [rows[n]];
    }
  }

  /** Two strictly sorted lists of the same rows are the same list. */
  lemma {:induction false} SortedIsUnique(a: seq<Issue>, b: seq<Issue>, key: SortValue)
    requires key.By? && StrictlySorted(a, key) && StrictlySorted(b, key)
    requires forall x :: x in a <==> x in b
    ensures a == b
  {
    if a != [] || b != [] {
      assert a != [] ==> a[0] in b;
      assert b != [] ==> b[0] in a;
      assert a[0] in b && b[0] in a;
      FirstIsFirst(a, b[0], key);
      FirstIsFirst(b, a[0], key);
      ComparatorIsTotal(a[0], b[0], a[0], key);
      SortedTail(a, key);
      SortedTail(b, key);
      SortedIsUnique(a[1..], b[1..], key);
      assert a == [a[0]] + a[1..] && b == [b[0]] + b[1..];
    }
  }

  lemma FirstIsFirst(a: seq<Issue>, x: Issue, key: SortValue)
    requires StrictlySorted(a, key) && x in a
    ensures x == a[0] || Precedes(a[0], x, key)
  {
  }

  lemma SortedTail(a: seq<Issue>, key: SortValue)
    requires key.By? && StrictlySorted(a, key) && a != []
    ensures StrictlySorted(a[1..], key)
    ensures forall x :: x in a[1..] <==> x in a && x != a[0]
  {
    assert a == [a[0]] + a[1..];
    forall x | x in a[1..] ensures x != a[0] {
      ComparatorIsTotal(a[0], a[0], a[0], key);
    }
  }

  /** The view depends on the map alone: not on the order in which messages put the rows there. */
  lemma OrderIndependent(f: Filter, e: Env, m: map<nat, Issue>, a: seq<Issue>, b: seq<Issue>)
    requires Enumerates(a, m) && Enumerates(b, m) && f.sort.By?
    ensures Visible(f, e, a) == Visible(f, e, b)
  {
    KeptIsFilter(f, e, a);
    KeptIsFilter(f, e, b);
    SortSorts(Kept(f, e, a), f.sort);
    SortSorts(Kept(f, e, b), f.sort);
    SameRows(a, b, m);
    SortedIsUnique(Sort(Kept(f, e, a), f.sort), Sort(Kept(f, e, b), f.sort), f.sort);
  }

  lemma SameRows(a: seq<Issue>, b: seq<Issue>, m: map<nat, Issue>)
    requires Enumerates(a, m) && Enumerates(b, m)
    ensures forall x :: x in a <==> x in b
  {
    forall x | x in a ensures x in b {
      assert m[x.id] == x;
    }
    forall x | x in b ensures x in a {
      assert m[x.id] == x;
    }
  }

  // ----- who is visible -----

  /** The passing rows that sort before `r`. */
  ghost function Ahead(f: Filter, e: Env, m: map<nat, Issue>, r: Issue): set<nat> {
    set i | i in m && Passes(f, e, m[i]) && Precedes(m[i], r, f.sort)
  }

  ghost function IdsBefore(rows: seq<Issue>, k: nat): set<nat>
    requires k <= |rows|
  {
    set j | 0 <= j < k :: rows[j].id
  }

  lemma {:induction false} IdsBeforeSize(rows: seq<Issue>, k: nat)
    requires k <= |rows| && DistinctIds(rows)
    ensures |IdsBefore(rows, k)| == k
  {
    if k > 0 {
      IdsBeforeSize(rows, k - 1);
      assert IdsBefore(rows, k) == IdsBefore(rows, k - 1) + {rows[k - 1].id};
    }
  }

  lemma SortedOnce(v: seq<Issue>, m: map<nat, Issue>, key: SortValue)
    requires key.By? && StrictlySorted(v, key) && forall x :: x in v ==> x.id in m && m[x.id] == x
    ensures DistinctIds(v)
  {
    forall i, j | 0 <= i < j < |v| ensures v[i].id != v[j].id {
      assert v[i] in v && v[j] in v && Precedes(v[i], v[j], key);
      ComparatorIsTotal(v[i], v[i], v[i], key);
    }
  }

  /** Row k of the sorted list has exactly k passing rows ahead of it. */
  lemma RankIsIndex(f: Filter, e: Env, m: map<nat, Issue>, rows: seq<Issue>, k: nat)
    requires Enumerates(rows, m) && f.sort.By? && k < |Sort(Kept(f, e, rows), f.sort)|
    ensures |Ahead(f, e, m, Sort(Kept(f, e, rows), f.sort)[k])| == k
  {
    var v := Sort(Kept(f, e, rows), f.sort);
    KeptIsFilter(f, e, rows);
    SortSorts(Kept(f, e, rows), f.sort);
    SortedOnce(v, m, f.sort);
    IdsBeforeSize(v, k);
    forall i | i in Ahead(f, e, m, v[k]) ensures i in IdsBefore(v, k) {
      assert m[i] in v;
      var j :| 0 <= j < |v| && v[j] == m[i];
      if j >= k {
        ComparatorIsTotal(v[k], v[j], v[k], f.sort);
      }
      assert v[j].id == i;
    }
    forall i | i in IdsBefore(v, k) ensures i in Ahead(f, e, m, v[k]) {
      var j :| 0 <= j < k && v[j].id == i;
      assert v[j] in rows && Precedes(v[j], v[k], f.sort);
    }
    assert Ahead(f, e, m, v[k]) == IdsBefore(v, k);
  }

  /**
   Exactly who is shown: a row of the map that passes the filter and, under a
   positive limit, has fewer passing rows ahead of it than the limit.
   */
  lemma VisibleIff(f: Filter, e: Env, m: map<nat, Issue>, rows: seq<Issue>, r: Issue)
    requires Enumerates(rows, m) && f.sort.By?
    ensures r in Visible(f, e, rows)
            <==> && r.id in m && m[r.id] == r && Passes(f, e, r)
                 && (f.limit.Some? && f.limit.value > 0 ==> |Ahead(f, e, m, r)| < f.limit.value)
  {
    var v := Sort(Kept(f, e, rows), f.sort);
    KeptIsFilter(f, e, rows);
    SortSorts(Kept(f, e, rows), f.sort);
    if r.id in m && m[r.id] == r && Passes(f, e, r) {
      assert r in v;
      var k :| 0 <= k < |v| && v[k] == r;
      RankIsIndex(f, e, m, rows, k);
      if k < |Visible(f, e, rows)| {
        assert Visible(f, e, rows)[k] == r;
      } else {
        forall j | 0 <= j < |Visible(f, e, rows)| ensures Visible(f, e, rows)[j] != r {
          RankIsIndex(f, e, m, rows, j);
          assert Visible(f, e, rows)[j] == v[j];
        }
      }
    } else {
      assert r !in v;
    }
  }

  /** A sort value that is no key leaves the rows as they came, so the view then does depend on their order. */
  lemma {:induction false} UnknownSortKeepsOrder(rows: seq<Issue>, name: string)
    ensures Sort(rows, Inherited(name)) == rows
  {
    if rows != [] {
      UnknownSortKeepsOrder(rows[..|rows| - 1], name);
    }
  }
}
