/** The live counters in plain numbers: what is kept, what a spike is, what the rate says. */
module Spikes {
  import opened EventStream
  import opened Wrappers

  /** The arrivals from `cutoff` on, by position. */
  ghost function From(arr: seq<int>, cutoff: int): set<int> {
    set k | 0 <= k < |arr| && arr[k] >= cutoff
  }

  lemma {:induction false} SinceIsFrom(arr: seq<int>, cutoff: int)
    ensures CountSince(arr, cutoff) == |From(arr, cutoff)|
  {
    if arr != [] {
      var n := |arr| - 1;
      var before := From(arr[..n], cutoff);
      SinceIsFrom(arr[..n], cutoff);
      assert From(arr, cutoff) == if arr[n] >= cutoff then before + {n} else before;
    }
  }

  lemma AfterIsFrom(arr: seq<int>, cutoff: int)
    requires Sorted(arr)
    ensures CountAfter(arr, cutoff) == |From(arr, cutoff)|
  {
    CountIsCount(arr, cutoff);
    SinceIsFrom(arr, cutoff);
  }

  /** The arrivals of the window before the last one. */
  ghost function Between(arr: seq<int>, from: int, to: int): set<int> {
    set k | 0 <= k < |arr| && from <= arr[k] < to
  }

  lemma WindowBefore(arr: seq<int>, from: int, to: int)
    requires from <= to
    ensures |From(arr, from)| - |From(arr, to)| == |Between(arr, from, to)|
  {
    assert From(arr, from) == From(arr, to) + Between(arr, from, to);
  }

  /**
   A spike: six arrivals kept, five of them or more in the last window, and at least
   `factor` times those of the window before, counted as one when there were none.
   */
  lemma SpikeMeans(arr: seq<int>, factor: real, window: int, now: int, recent: nat, prior: nat)
    requires Sorted(arr) && window >= 0
    requires recent == |From(arr, now - window)| && prior == |Between(arr, now - 2 * window, now - window)|
    ensures Spiking(arr, factor, window, now)
            <==> |arr| >= 6 && recent >= 5 && recent as real >= factor * (if prior == 0 then 1 else prior) as real
  {
    AfterIsFrom(arr, now - window);
    AfterIsFrom(arr, now - 2 * window);
    WindowBefore(arr, now - 2 * window, now - window);
  }

  /** The rate over a window is its arrivals scaled to sixty seconds. */
  lemma RateMeans(arr: seq<int>, window: int, now: int)
    requires Sorted(arr) && window != 0
    ensures var r := PerMinute(CountAfter(arr, now - window), window);
            r.Finite? && r.value * window as real == |From(arr, now - window)| as real * 60_000.0
  {
    AfterIsFrom(arr, now - window);
    var n := CountAfter(arr, now - window) as real;
    var w := window as real;
    assert n / w * w == n;
    assert n / w * 60_000.0 * w == n / w * w * 60_000.0;
  }

  lemma {:induction false} PruneIsSuffix(arr: seq<int>, cutoff: int)
    requires Sorted(arr)
    ensures var r := Prune(arr, cutoff);
            && |r| == |From(arr, cutoff)| <= |arr|
            && r == arr[|arr| - |r|..]
            && (forall k :: 0 <= k < |r| ==> r[k] >= cutoff)
    decreases |arr|
  {
    if arr != [] && arr[0] < cutoff {
      PruneIsSuffix(arr[1..], cutoff);
      ShiftedFrom(arr, cutoff);
    } else {
      AllSince(arr, cutoff);
      SinceIsFrom(arr, cutoff);
    }
  }

  lemma {:induction false} AllSince(arr: seq<int>, cutoff: int)
    requires forall k :: 0 <= k < |arr| ==> arr[k] >= cutoff
    ensures CountSince(arr, cutoff) == |arr|
  {
    if arr != [] {
      AllSince(arr[..|arr| - 1], cutoff);
    }
  }

  /** Dropping an entry before the cutoff moves the others down by one. */
  lemma ShiftedFrom(arr: seq<int>, cutoff: int)
    requires arr != [] && arr[0] < cutoff
    ensures |From(arr[1..], cutoff)| == |From(arr, cutoff)|
  {
    SinceIsFrom(arr, cutoff);
    SinceIsFrom(arr[1..], cutoff);
    SinceDropsFirst(arr, cutoff);
  }

  lemma {:induction false} SinceDropsFirst(arr: seq<int>, cutoff: int)
    requires arr != [] && arr[0] < cutoff
    ensures CountSince(arr[1..], cutoff) == CountSince(arr, cutoff)
  {
    if |arr| > 1 {
      var n := |arr| - 1;
      SinceDropsFirst(arr[..n], cutoff);
      assert arr[1..][..n - 1] == arr[..n][1..];
    }
  }

  /** `kept` is the end of `all`, from the first arrival at or after `cutoff` on. */
  ghost predicate Tail(kept: seq<int>, all: seq<int>, cutoff: int) {
    |kept| == |From(all, cutoff)| <= |all| && kept == all[|all| - |kept|..] && forall k :: 0 <= k < |kept| ==> kept[k] >= cutoff
  }

  lemma PruneIsTail(arr: seq<int>, cutoff: int, kept: seq<int>)
    requires Sorted(arr) && kept == Prune(arr, cutoff)
    ensures Tail(kept, arr, cutoff)
  {
    PruneIsSuffix(arr, cutoff);
  }

  /** After ordered arrivals the store holds exactly those of the last hour. */
  lemma HourKept(history: seq<Arrival>, all: seq<int>, kept: seq<int>, last: int)
    requires history != [] && all == Times(history) && Sorted(all) && kept == Replay(history).all
    requires last == history[|history| - 1].at
    ensures Tail(kept, all, last - 3_600_000)
  {
    LastTime(history, all, last);
    KeptIsPruned(history, all, kept, last - 3_600_000);
    PruneIsTail(all, last - 3_600_000, kept);
  }

  lemma KeptIsPruned(history: seq<Arrival>, all: seq<int>, kept: seq<int>, cutoff: int)
    requires history != [] && all == Times(history) && Sorted(all) && kept == Replay(history).all
    requires all != [] && cutoff == Last(all) - 3_600_000
    ensures kept == Prune(all, cutoff)
  {
    GlobalIsPruned(history);
  }

  lemma LastTime(history: seq<Arrival>, all: seq<int>, last: int)
    requires history != [] && all == Times(history) && last == history[|history| - 1].at
    ensures all != [] && Last(all) == last
  {
  }

  /** And of each issue exactly those of its last half hour. */
  lemma HalfHourKept(history: seq<Arrival>, id: int, mine: seq<int>)
    requires Sorted(Times(history)) && mine == TimesOf(history, id) && mine != []
    ensures Tail(BufferOf(Replay(history).perIssue, id), mine, mine[|mine| - 1] - 1_800_000)
  {
    IssueIsPruned(history, id);
    TimesOfSorted(history, id);
    PruneIsSuffix(mine, mine[|mine| - 1] - 1_800_000);
  }

  lemma LastIsLast(history: seq<Arrival>)
    ensures Replay(history).lastAt == if history == [] then None else Some(history[|history| - 1].at)
  {
  }

  /** With no window the rate is a division by zero. */
  lemma RateOfNoTime(recent: nat)
    ensures PerMinute(recent, 0) == if recent == 0 then NotANumber else Infinite
  {
  }

  /** With a window of zero the last slot has every arrival after its start; with a negative one the first has those at it. */
  lemma {:induction false} OddSlots(arr: seq<int>, k: nat, start: int, slots: nat, window: int)
    requires window <= 0
    ensures slots == 0 ==> InSlot(arr, k, start, slots, window) == 0
    ensures window == 0 && k + 1 == slots ==> InSlot(arr, k, start, slots, window) == CountSince(arr, start + 1)
    ensures window == 0 && k + 1 != slots ==> InSlot(arr, k, start, slots, window) == 0
    ensures window < 0 && slots > 0 && k == 0 ==>
              InSlot(arr, k, start, slots, window) == CountSince(arr, start) - CountSince(arr, start + 1)
    ensures window < 0 && k != 0 ==> InSlot(arr, k, start, slots, window) == 0
  {
    if arr != [] {
      OddSlots(arr[..|arr| - 1], k, start, slots, window);
    }
  }
}
