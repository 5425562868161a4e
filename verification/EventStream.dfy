/**
 `eventStream.svelte.ts`: arrival times behind the live counters. The buffers are
 pruned on every arrival; the counters must read as if nothing had been thrown
 away. Times are integer milliseconds and bucket bounds exact fractions.
 */
module EventStream {
  import opened Wrappers

  const HOUR: int := 60 * 60 * 1000

  const HALF_HOUR: int := 30 * 60 * 1000

  // ----- the two loops over a buffer -----

  /** What is left after dropping the entries before `cutoff` from the left. */
  function Prune(arr: seq<int>, cutoff: int): seq<int> {
    if arr != [] && arr[0] < cutoff then Prune(arr[1..], cutoff) else arr
  }

  method PruneLoop(arr: seq<int>, cutoff: int) returns (r: seq<int>)
    ensures r == Prune(arr, cutoff)
  {
    var i := 0;
    while i < |arr| && arr[i] < cutoff
      invariant 0 <= i <= |arr|
      invariant Prune(arr[i..], cutoff) == Prune(arr, cutoff)
    {
      i := i + 1;
    }
    return if i == 0 then arr else arr[i..];
  }

  /** Length of the run of entries at or after `cutoff` at the right end. */
  function CountAfter(arr: seq<int>, cutoff: int): nat {
    if arr != [] && arr[|arr| - 1] >= cutoff then 1 + CountAfter(arr[..|arr| - 1], cutoff) else 0
  }

  method CountAfterLoop(arr: seq<int>, cutoff: int) returns (n: nat)
    ensures n == CountAfter(arr, cutoff)
  {
    n := 0;
    var i := |arr|;
    assert arr[..i] == arr;
    while i > 0
      invariant 0 <= i <= |arr|
      invariant n + CountAfter(arr[..i], cutoff) == CountAfter(arr, cutoff)
    {
      i := i - 1;
      assert arr[..i + 1][..i] == arr[..i];
      if arr[i] >= cutoff {
        n := n + 1;
      } else {
        return;
      }
    }
  }

  // ----- the counters -----

  function MaxNat(a: int, b: int): int {
    if a < b then b else a
  }

  /** Enough arrivals in the window, and `factor` times those of the window before. */
  predicate Outruns(recent: int, both: int, factor: real) {
    recent >= 5 && recent as real >= factor * MaxNat(both - recent, 1) as real
  }

  predicate Spiking(arr: seq<int>, factor: real, window: int, now: int) {
    |arr| >= 6 && Outruns(CountAfter(arr, now - window), CountAfter(arr, now - 2 * window), factor)
  }

  /** floor((t - start) / (window / slots)), at most the last slot. */
  function Place(t: int, start: int, slots: nat, window: int): nat
    requires slots > 0 && window > 0 && t >= start
    ensures Place(t, start, slots, window) < slots
  {
    assert (t - start) * slots >= 0;
    var k := (t - start) * slots / window;
    if k < slots then k else slots - 1
  }

  /**
   The slot arrival `t` falls into. The computed index of an odd window or slot
   count may be negative or not a number, and then no slot counts the arrival: a
   window of zero divides by zero, a negative one gives indices below zero.
   */
  function Slot(t: int, start: int, slots: nat, window: int): (r: Option<nat>)
    requires t >= start
    ensures r.Some? ==> r.value < slots
  {
    if slots == 0 then None
    else if window > 0 then Some(Place(t, start, slots, window))
    else if window == 0 then (if t > start then Some(slots - 1) else None)
    else if t == start then Some(0)
    else None
  }

  function InSlot(arr: seq<int>, k: nat, start: int, slots: nat, window: int): nat {
    if arr == [] then 0
    else
      var t := arr[|arr| - 1];
      InSlot(arr[..|arr| - 1], k, start, slots, window)
        + if t >= start && Slot(t, start, slots, window) == Some(k) then 1 else 0
  }

  /** What a JavaScript division yields. */
  datatype Number = Finite(value: real) | Infinite | NotANumber

  /** `(recent / window) * 60_000` of a count. */
  function PerMinute(recent: nat, window: int): Number {
    if window != 0 then Finite(recent as real / window as real * 60_000.0)
    else if recent > 0 then Infinite
    else NotANumber
  }

  // ----- the store -----

  type PerIssue = map<int, seq<int>>

  datatype Stream = Stream(all: seq<int>, perIssue: PerIssue, lastAt: Option<int>)

  const EMPTY := Stream([], map[], None)

  function BufferOf(m: PerIssue, id: int): seq<int> {
    if id in m then m[id] else []
  }

  function Recorded(s: Stream, id: int, t: int): Stream {
    Stream(Prune(s.all + [t], t - HOUR),
           s.perIssue[id := Prune(BufferOf(s.perIssue, id) + [t], t - HALF_HOUR)],
           Some(t))
  }

  class EventStreamStore {
    var all: seq<int>
    var perIssue: PerIssue
    var lastAt: Option<int>

    constructor ()
      ensures View() == EMPTY
    {
      all, perIssue, lastAt := [], map[], None;
    }

    function View(): Stream
      reads this
    {
      Stream(all, perIssue, lastAt)
    }

    method Record(id: int, t: int)
      modifies this
      ensures View() == Recorded(old(View()), id, t)
    {
      lastAt := Some(t);
      all := PruneLoop(all + [t], t - HOUR);
      var prev := BufferOf(perIssue, id);
      var kept := PruneLoop(prev + [t], t - HALF_HOUR);
      perIssue := perIssue[id := kept];
    }

    /** As if nothing had ever arrived: every count is zero, every buffer empty, nothing spikes. */
    method Clear()
      modifies this
      ensures View() == Replay([])
      ensures forall cutoff: int :: CountAfter(all, cutoff) == 0
      ensures forall id: int, factor: real, window: int, now: int :: !Spiking(BufferOf(perIssue, id), factor, window, now)
    {
      all, perIssue, lastAt := [], map[], None;
    }

    method RatePerMin(window: int, now: int) returns (r: Number)
      ensures r == PerMinute(CountAfter(all, now - window), window)
    {
      var recent := CountAfterLoop(all, now - window);
      r := PerMinute(recent, window);
    }

    method IsSpiking(id: int, factor: real, window: int, now: int) returns (r: bool)
      ensures r == Spiking(BufferOf(perIssue, id), factor, window, now)
    {
      if id !in perIssue || |perIssue[id]| < 6 {
        return false;
      }
      var arr := perIssue[id];
      var recent := CountAfterLoop(arr, now - window);
      var both := CountAfterLoop(arr, now - 2 * window);
      return Outruns(recent, both, factor);
    }

    method Buckets(id: int, slots: nat, window: int, now: int) returns (out: array<nat>)
      ensures fresh(out) && out.Length == slots
      ensures forall k :: 0 <= k < slots ==> out[k] == InSlot(BufferOf(perIssue, id), k, now - window, slots, window)
    {
      out := new nat[slots](_ => 0);
      var arr := BufferOf(perIssue, id);
      var start := now - window;
      for i := 0 to |arr|
        invariant fresh(out)
        invariant forall k :: 0 <= k < slots ==> out[k] == InSlot(arr[..i], k, start, slots, window)
      {
        assert arr[..i + 1][..i] == arr[..i];
        if arr[i] >= start {
          var idx := Slot(arr[i], start, slots, window);
          if idx.Some? {
            out[idx.value] := out[idx.value] + 1;
          }
        }
      }
      assert arr[..|arr|] == arr;
    }
  }

  // ----- against the full history -----

  datatype Arrival = Arrival(id: int, at: int)

  function Replay(history: seq<Arrival>): Stream {
    if history == [] then EMPTY
    else
      var last := history[|history| - 1];
      Recorded(Replay(history[..|history| - 1]), last.id, last.at)
  }

  function Times(history: seq<Arrival>): seq<int> {
    if history == [] then [] else Times(history[..|history| - 1]) + [history[|history| - 1].at]
  }

  function TimesOf(history: seq<Arrival>, id: int): seq<int> {
    if history == [] then []
    else
      var n := |history| - 1;
      if history[n].id == id then TimesOf(history[..n], id) + [history[n].at] else TimesOf(history[..n], id)
  }

  ghost predicate Sorted(arr: seq<int>) {
    forall j, k :: 0 <= j <= k < |arr| ==> arr[j] <= arr[k]
  }

  /** How many of the arrivals are at or after `cutoff`. */
  function CountSince(arr: seq<int>, cutoff: int): nat {
    if arr == [] then 0 else CountSince(arr[..|arr| - 1], cutoff) + if arr[|arr| - 1] >= cutoff then 1 else 0
  }

  function Last(arr: seq<int>): int
    requires arr != []
  {
    arr[|arr| - 1]
  }

  /** Pruning twice with a growing cutoff is pruning once. */
  lemma {:induction false} PruneAgain(arr: seq<int>, t: int, c: int, d: int)
    requires c <= d
    ensures Prune(Prune(arr, c) + [t], d) == Prune(arr + [t], d)
  {
    if arr != [] && arr[0] < c {
      PruneAgain(arr[1..], t, c, d);
      assert (arr + [t])[1..] == arr[1..] + [t];
    }
  }

  /** A pruned buffer is the history pruned once, at the last cutoff. */
  lemma TimesSnoc(history: seq<Arrival>, n: nat, times: seq<int>, before: seq<int>)
    requires n + 1 == |history| && times == Times(history) && before == Times(history[..n]) && Sorted(times)
    ensures times == before + [history[n].at] && |before| == n && Sorted(before)
    ensures before != [] ==> Last(before) <= history[n].at
  {
    TimesLength(history);
    TimesLength(history[..n]);
    assert times[..n] == before;
    assert n > 0 ==> times[n - 1] <= times[n];
  }

  lemma {:induction false} GlobalIsPruned(history: seq<Arrival>)
    requires Sorted(Times(history))
    ensures Replay(history).all
            == if history == [] then [] else Prune(Times(history), Last(Times(history)) - HOUR)
  {
    if history != [] {
      var n := |history| - 1;
      var times, before := Times(history), Times(history[..n]);
      TimesSnoc(history, n, times, before);
      GlobalIsPruned(history[..n]);
      PruneNext(Replay(history[..n]).all, before, history[n].at, HOUR);
    }
  }

  lemma {:induction false} TimesOfSorted(history: seq<Arrival>, id: int)
    requires Sorted(Times(history))
    ensures Sorted(TimesOf(history, id))
    ensures TimesOf(history, id) != [] ==> history != [] && Last(TimesOf(history, id)) <= history[|history| - 1].at
  {
    if history != [] {
      var n := |history| - 1;
      TimesLength(history);
      TimesLength(history[..n]);
      assert Times(history)[..n] == Times(history[..n]);
      TimesOfSorted(history[..n], id);
      if n > 0 {
        TimesLast(history);
        assert Times(history)[n - 1] <= Times(history)[n];
      }
    }
  }

  lemma TimesLast(history: seq<Arrival>)
    requires |history| > 1
    ensures |Times(history)| == |history|
    ensures Times(history)[|history| - 1] == history[|history| - 1].at
    ensures Times(history)[|history| - 2] == history[|history| - 2].at
  {
    TimesLength(history);
    TimesLength(history[..|history| - 1]);
    TimesLength(history[..|history| - 1][..|history| - 2]);
  }

  lemma SortedPrefix(history: seq<Arrival>, id: int)
    requires history != [] && Sorted(Times(history))
    ensures var before := history[..|history| - 1];
            && Sorted(Times(before))
            && (TimesOf(before, id) != [] ==> Last(TimesOf(before, id)) <= history[|history| - 1].at)
  {
    var n := |history| - 1;
    TimesLength(history);
    TimesLength(history[..n]);
    assert Times(history)[..n] == Times(history[..n]);
    TimesOfSorted(history[..n], id);
    if n > 0 {
      TimesLast(history);
      assert Times(history)[n - 1] <= Times(history)[n];
    }
  }

  /** A buffer already pruned takes one more arrival. */
  lemma PruneNext(buffer: seq<int>, mine: seq<int>, t: int, span: int)
    requires buffer == if mine == [] then [] else Prune(mine, Last(mine) - span)
    requires mine != [] ==> Last(mine) <= t
    ensures Prune(buffer + [t], t - span) == Prune(mine + [t], Last(mine + [t]) - span)
  {
    if mine != [] {
      PruneAgain(mine, t, Last(mine) - span, t - span);
    }
  }

  lemma RecordBuffer(s: Stream, a: Arrival, id: int)
    ensures BufferOf(Recorded(s, a.id, a.at).perIssue, id)
         == if a.id == id then Prune(BufferOf(s.perIssue, id) + [a.at], a.at - HALF_HOUR) else BufferOf(s.perIssue, id)
  {
  }

  /** The issue's buffer is its own arrivals, pruned at the last of them. */
  ghost predicate Pruned(buffer: seq<int>, mine: seq<int>) {
    buffer == if mine == [] then [] else Prune(mine, Last(mine) - HALF_HOUR)
  }

  lemma {:induction false} IssueIsPruned(history: seq<Arrival>, id: int)
    requires Sorted(Times(history))
    ensures Pruned(BufferOf(Replay(history).perIssue, id), TimesOf(history, id))
  {
    if history != [] {
      var n := |history| - 1;
      var s, mine := Replay(history[..n]), TimesOf(history[..n], id);
      SortedPrefix(history, id);
      IssueIsPruned(history[..n], id);
      RecordBuffer(s, history[n], id);
      if history[n].id == id {
        PruneNext(BufferOf(s.perIssue, id), mine, history[n].at, HALF_HOUR);
      }
    }
  }

  lemma {:induction false} TimesLength(history: seq<Arrival>)
    ensures |Times(history)| == |history|
  {
    if history != [] {
      TimesLength(history[..|history| - 1]);
    }
  }

  /** Counting from the right does not notice entries pruned before the counting cutoff. */
  lemma {:induction false} CountPruned(arr: seq<int>, c: int, cutoff: int)
    requires c <= cutoff
    ensures CountAfter(Prune(arr, c), cutoff) == CountAfter(arr, cutoff)
  {
    if arr != [] && arr[0] < c {
      CountPruned(arr[1..], c, cutoff);
      CountDropsFirst(arr, cutoff);
    }
  }

  lemma {:induction false} CountDropsFirst(arr: seq<int>, cutoff: int)
    requires arr != [] && arr[0] < cutoff
    ensures CountAfter(arr[1..], cutoff) == CountAfter(arr, cutoff)
  {
    if |arr| > 1 && arr[|arr| - 1] >= cutoff {
      CountDropsFirst(arr[..|arr| - 1], cutoff);
      assert arr[1..][..|arr[1..]| - 1] == arr[..|arr| - 1][1..];
    }
  }

  /** On sorted arrivals the run at the right end is all of them since the cutoff. */
  lemma {:induction false} CountIsCount(arr: seq<int>, cutoff: int)
    requires Sorted(arr)
    ensures CountAfter(arr, cutoff) == CountSince(arr, cutoff)
  {
    if arr != [] {
      var n := |arr| - 1;
      if arr[n] >= cutoff {
        CountIsCount(arr[..n], cutoff);
      } else {
        NoneSince(arr[..n], cutoff);
      }
    }
  }

  lemma {:induction false} NoneSince(arr: seq<int>, cutoff: int)
    requires forall k :: 0 <= k < |arr| ==> arr[k] < cutoff
    ensures CountSince(arr, cutoff) == 0
  {
    if arr != [] {
      NoneSince(arr[..|arr| - 1], cutoff);
    }
  }

  /** The rate counts every arrival of the window, for windows up to an hour asked at or after the last arrival. */
  lemma RateSeesAll(history: seq<Arrival>, window: int, now: int)
    requires Sorted(Times(history)) && 0 < window <= HOUR
    requires history != [] ==> now >= history[|history| - 1].at
    ensures CountAfter(Replay(history).all, now - window) == CountSince(Times(history), now - window)
  {
    GlobalIsPruned(history);
    TimesLength(history);
    if history != [] {
      CountPruned(Times(history), Last(Times(history)) - HOUR, now - window);
      CountIsCount(Times(history), now - window);
    }
  }

  /** So do the two counts of the spike rule, for an issue and any window up to half an hour. */
  lemma IssueCountSeesAll(history: seq<Arrival>, id: int, window: int, now: int)
    requires Sorted(Times(history)) && 0 < window <= HALF_HOUR
    requires TimesOf(history, id) != [] ==> now >= Last(TimesOf(history, id))
    ensures CountAfter(BufferOf(Replay(history).perIssue, id), now - window) == CountSince(TimesOf(history, id), now - window)
    ensures CountAfter(TimesOf(history, id), now - window) == CountSince(TimesOf(history, id), now - window)
  {
    IssueIsPruned(history, id);
    TimesOfSorted(history, id);
    CountIsCount(TimesOf(history, id), now - window);
    if TimesOf(history, id) != [] {
      CountPruned(TimesOf(history, id), Last(TimesOf(history, id)) - HALF_HOUR, now - window);
    }
  }

  lemma {:induction false} CountBound(arr: seq<int>, cutoff: int)
    ensures CountAfter(arr, cutoff) <= |arr|
  {
    if arr != [] {
      CountBound(arr[..|arr| - 1], cutoff);
    }
  }

  /** A wider window counts no less. */
  lemma {:induction false} WiderCountsMore(arr: seq<int>, c: int, d: int)
    requires d <= c
    ensures CountAfter(arr, c) <= CountAfter(arr, d)
  {
    if arr != [] && arr[|arr| - 1] >= c {
      WiderCountsMore(arr[..|arr| - 1], c, d);
    }
  }

  /**
   The spike flag differs from the one the full history would give in one case
   only: exactly five arrivals are left of more, all of them in the window, and
   five is `factor` enough. The length guard looks at the buffer.
   */
  lemma SpikingSeesAllButGuard(history: seq<Arrival>, id: int, factor: real, window: int, now: int)
    requires Sorted(Times(history)) && 0 < window && 2 * window <= HALF_HOUR
    requires TimesOf(history, id) != [] ==> now >= Last(TimesOf(history, id))
    ensures var kept, full := BufferOf(Replay(history).perIssue, id), TimesOf(history, id);
            Spiking(kept, factor, window, now) != Spiking(full, factor, window, now)
            <==> |kept| == 5 && |full| > 5 && CountAfter(kept, now - window) == 5 && factor <= 5.0
  {
    var kept, full := BufferOf(Replay(history).perIssue, id), TimesOf(history, id);
    IssueCountSeesAll(history, id, window, now);
    IssueCountSeesAll(history, id, 2 * window, now);
    CountBound(kept, now - window);
    CountBound(kept, now - 2 * window);
    WiderCountsMore(kept, now - window, now - 2 * window);
    IssueIsPruned(history, id);
    if full != [] {
      PruneShortens(full, Last(full) - HALF_HOUR);
    }
  }

  /** One arrival at 0, five at 40 minutes. */
  const BURST := [0, 2_400_000, 2_400_000, 2_400_000, 2_400_000, 2_400_000]

  lemma {:induction false} OneIssue(history: seq<Arrival>, id: int)
    requires forall k :: 0 <= k < |history| ==> history[k].id == id
    ensures TimesOf(history, id) == Times(history)
  {
    if history != [] {
      OneIssue(history[..|history| - 1], id);
    }
  }

  lemma CountRun(arr: seq<int>, cutoff: int)
    requires |arr| == 6 && arr[0] < cutoff && forall k :: 1 <= k < 6 ==> arr[k] >= cutoff
    ensures CountAfter(arr, cutoff) == 5
  {
    var a5, a4, a3, a2, a1 := arr[..5], arr[..4], arr[..3], arr[..2], arr[..1];
    assert a5[..4] == a4 && a4[..3] == a3 && a3[..2] == a2 && a2[..1] == a1;
    assert CountAfter(a1, cutoff) == 0;
    assert CountAfter(a2, cutoff) == 1;
    assert CountAfter(a3, cutoff) == 2;
    assert CountAfter(a4, cutoff) == 3;
    assert CountAfter(a5, cutoff) == 4;
  }

  /** Six arrivals the rule calls a spike; the buffer has dropped the first and says no. */
  lemma GuardHidesASpike(history: seq<Arrival>)
    requires |history| == 6 && forall k :: 0 <= k < 6 ==> history[k] == Arrival(1, BURST[k])
    ensures Spiking(TimesOf(history, 1), 3.0, 300_000, 2_400_000)
    ensures !Spiking(BufferOf(Replay(history).perIssue, 1), 3.0, 300_000, 2_400_000)
  {
    OneIssue(history, 1);
    TimesAre(history);
    IssueIsPruned(history, 1);
    CountRun(BURST, 2_100_000);
    CountRun(BURST, 1_800_000);
    assert Last(BURST) == 2_400_000;
    assert BURST[1..][0] == 2_400_000;
    assert Prune(BURST, 600_000) == BURST[1..];
  }

  lemma {:induction false} TimesHas(history: seq<Arrival>)
    ensures |Times(history)| == |history| && forall k :: 0 <= k < |history| ==> Times(history)[k] == history[k].at
  {
    if history != [] {
      TimesHas(history[..|history| - 1]);
    }
  }

  lemma TimesAre(history: seq<Arrival>)
    requires |history| == 6 && forall k :: 0 <= k < 6 ==> history[k] == Arrival(1, BURST[k])
    ensures Times(history) == BURST && Sorted(BURST)
  {
    TimesHas(history);
  }

  lemma {:induction false} PruneShortens(arr: seq<int>, cutoff: int)
    ensures |Prune(arr, cutoff)| <= |arr|
  {
    if arr != [] && arr[0] < cutoff {
      PruneShortens(arr[1..], cutoff);
    }
  }

  // ----- buckets -----

  function SumSlots(arr: seq<int>, n: nat, start: int, slots: nat, window: int): nat
    requires slots > 0 && window > 0
  {
    if n == 0 then 0 else SumSlots(arr, n - 1, start, slots, window) + InSlot(arr, n - 1, start, slots, window)
  }

  lemma {:induction false} SumStep(arr: seq<int>, n: nat, start: int, slots: nat, window: int)
    requires slots > 0 && window > 0 && arr != []
    ensures var m := |arr| - 1;
            SumSlots(arr, n, start, slots, window)
            == SumSlots(arr[..m], n, start, slots, window)
               + if arr[m] >= start && Place(arr[m], start, slots, window) < n then 1 else 0
  {
    if n > 0 {
      SumStep(arr, n - 1, start, slots, window);
    }
  }

  /** The buckets of a buffer add up to its arrivals since the start of the window. */
  lemma {:induction false} BucketsAddUp(arr: seq<int>, start: int, slots: nat, window: int)
    requires slots > 0 && window > 0
    ensures SumSlots(arr, slots, start, slots, window) == CountSince(arr, start)
  {
    if arr == [] {
      SumOfNothing(slots, start, slots, window);
    } else {
      SumStep(arr, slots, start, slots, window);
      BucketsAddUp(arr[..|arr| - 1], start, slots, window);
    }
  }

  lemma {:induction false} SumOfNothing(n: nat, start: int, slots: nat, window: int)
    requires slots > 0 && window > 0
    ensures SumSlots([], n, start, slots, window) == 0
  {
    if n > 0 {
      SumOfNothing(n - 1, start, slots, window);
    }
  }

  lemma AtLeast(x: nat, w: nat, k: nat)
    requires w > 0
    ensures x / w >= k <==> k * w <= x
  {
    var q := x / w;
    if q >= k {
      assert (q - k) * w >= 0;
    } else {
      assert (k - q - 1) * w >= 0;
    }
  }

  lemma SlotAt(x: int, k: nat, slots: nat, window: nat)
    requires window > 0 && k < slots && x >= 0
    ensures (if x / window < slots then x / window else slots - 1) == k
            <==> k * window <= x && (k < slots - 1 ==> x < (k + 1) * window)
  {
    AtLeast(x, window, k);
    AtLeast(x, window, k + 1);
  }

  /** Slot k but the last holds exactly its share of the window; the last holds the rest. */
  lemma SlotBounds(t: int, k: nat, start: int, slots: nat, window: int)
    requires slots > 0 && window > 0 && t >= start && k < slots
    ensures Slot(t, start, slots, window) == Some(k)
            <==> k * window <= (t - start) * slots && (k < slots - 1 ==> (t - start) * slots < (k + 1) * window)
  {
    SlotAt((t - start) * slots, k, slots, window);
  }

  /** The sparkline adds up to the issue's arrivals in the window, over the full history. */
  lemma SparklineAddsUp(history: seq<Arrival>, id: int, slots: nat, window: int, now: int)
    requires Sorted(Times(history)) && slots > 0 && 0 < window <= HALF_HOUR
    requires TimesOf(history, id) != [] ==> now >= Last(TimesOf(history, id))
    ensures SumSlots(BufferOf(Replay(history).perIssue, id), slots, now - window, slots, window)
            == CountSince(TimesOf(history, id), now - window)
  {
    var kept := BufferOf(Replay(history).perIssue, id);
    BucketsAddUp(kept, now - window, slots, window);
    IssueCountSeesAll(history, id, window, now);
    IssueIsPruned(history, id);
    TimesOfSorted(history, id);
    if TimesOf(history, id) != [] {
      PruneSorted(TimesOf(history, id), Last(TimesOf(history, id)) - HALF_HOUR);
    }
    CountIsCount(kept, now - window);
  }

  lemma {:induction false} PruneSorted(arr: seq<int>, cutoff: int)
    requires Sorted(arr)
    ensures Sorted(Prune(arr, cutoff))
  {
    if arr != [] && arr[0] < cutoff {
      PruneSorted(arr[1..], cutoff);
    }
  }
}
