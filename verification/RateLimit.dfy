/**
 `rate_limit.rs`: one token bucket per project. Clocks and token counts are real
 numbers here, where the daemon computes in f64.
 */
module RateLimit {

  datatype Level = Level(tokens: real, lastRefill: real)

  function Min(a: real, b: real): real {
    if a < b then a else b
  }

  function Max(a: real, b: real): real {
    if a < b then b else a
  }

  /** The tokens a stretch of time is worth. */
  function Worth(rate: real, span: real): real {
    span * rate
  }

  /** Adds `gain` tokens, at most up to the capacity, if the clock moved; then takes one if there is one. */
  function AcquireWith(b: Level, capacity: real, moved: bool, gain: real, now: real): (Level, bool) {
    var r := if moved then Level(Min(b.tokens + gain, capacity), now) else b;
    if r.tokens >= 1.0 then (r.(tokens := r.tokens - 1.0), true) else (r, false)
  }

  /** A clock that reads earlier than the last refill counts as no time passed. */
  function Acquire(b: Level, capacity: real, rate: real, now: real): (Level, bool) {
    AcquireWith(b, capacity, now > b.lastRefill, Worth(rate, now - b.lastRefill), now)
  }

  class TokenBucket {
    var tokens: real
    var lastRefill: real

    constructor (capacity: real, now: real)
      ensures tokens == capacity && lastRefill == now
    {
      tokens := capacity;
      lastRefill := now;
    }

    function View(): Level
      reads this
    {
      Level(tokens, lastRefill)
    }

    method TryAcquire(capacity: real, rate: real, now: real) returns (granted: bool)
      modifies this
      ensures (View(), granted) == Acquire(old(View()), capacity, rate, now)
    {
      var elapsed := Max(now - lastRefill, 0.0);
      if elapsed > 0.0 {
        tokens := Min(tokens + Worth(rate, elapsed), capacity);
        lastRefill := now;
      }
      if tokens >= 1.0 {
        tokens := tokens - 1.0;
        return true;
      }
      return false;
    }
  }

  // ----- the limiter over all projects -----

  datatype Config = Config(capacity: real, rate: real)

  function MakeConfig(perMin: nat, burst: nat): Config {
    Config((if burst < 1 then 1 else burst) as real, perMin as real / 60.0)
  }

  type Levels = map<string, Level>

  function Checked(m: Levels, c: Config, project: string, now: real): (Levels, bool) {
    if c.rate <= 0.0 then
      (m, true)
    else
      var b := if project in m then m[project] else Level(c.capacity, now);
      var (b', granted) := Acquire(b, c.capacity, c.rate, now);
      (m[project := b'], granted)
  }

  class RateLimiter {
    var buckets: map<string, TokenBucket>
    const config: Config

    ghost predicate Valid()
      reads this
    {
      forall p, q :: p in buckets && q in buckets && p != q ==> buckets[p] != buckets[q]
    }

    constructor (perMin: nat, burst: nat)
      ensures Valid() && buckets == map[] && config == MakeConfig(perMin, burst)
    {
      buckets := map[];
      config := MakeConfig(perMin, burst);
    }

    ghost function View(): Levels
      reads this, buckets.Values
    {
      map p | p in buckets :: buckets[p].View()
    }

    /** The project's bucket, made full if there is none. */
    method Entry(project: string, now: real) returns (b: TokenBucket)
      requires Valid()
      modifies this
      ensures Valid() && fresh(buckets.Values - old(buckets.Values))
      ensures project in buckets && b == buckets[project]
      ensures View() == if project in old(View()) then old(View())
                        else old(View())[project := Level(config.capacity, now)]
    {
      if project !in buckets {
        b := new TokenBucket(config.capacity, now);
        buckets := buckets[project := b];
      }
      b := buckets[project];
    }

    method Check(project: string, now: real) returns (granted: bool)
      requires Valid()
      modifies this, buckets.Values
      ensures Valid() && fresh(buckets.Values - old(buckets.Values))
      ensures (View(), granted) == Checked(old(View()), config, project, now)
    {
      if config.rate <= 0.0 {
        return true;
      }
      var b := Entry(project, now);
      ghost var ready := View();
      assert ready[project] == b.View();
      granted := b.TryAcquire(config.capacity, config.rate, now);
      assert View() == ready[project := b.View()];
      assert ready[project := b.View()] == old(View())[project := b.View()];
    }
  }

  // ----- runs -----

  /** One bucket, called at the given clock readings, in any order. */
  function Run(b: Level, c: Config, times: seq<real>): (r: (Level, seq<bool>))
    ensures |r.1| == |times|
  {
    if times == [] then (b, [])
    else
      var n := |times| - 1;
      var (mid, ds) := Run(b, c, times[..n]);
      var (end, d) := Acquire(mid, c.capacity, c.rate, times[n]);
      (end, ds + [d])
  }

  function Granted(ds: seq<bool>): nat {
    if ds == [] then 0 else Granted(ds[..|ds| - 1]) + if ds[|ds| - 1] then 1 else 0
  }

  /** The latest clock reading so far. */
  function MaxClock(start: real, times: seq<real>): real {
    if times == [] then start else Max(MaxClock(start, times[..|times| - 1]), times[|times| - 1])
  }

  function ClockAt(times: seq<real>, k: nat): real
    requires k < |times|
  {
    MaxClock(times[0], times[..k + 1])
  }

  predicate ValidConfig(c: Config) {
    c.capacity >= 1.0 && c.rate > 0.0
  }

  predicate ValidLevel(b: Level, capacity: real) {
    0.0 <= b.tokens <= capacity
  }

  lemma ConfigIsValid(perMin: nat, burst: nat)
    ensures MakeConfig(perMin, burst).capacity >= 1.0
    ensures MakeConfig(perMin, burst).rate > 0.0 <==> perMin > 0
  {
  }

  // ----- the same bucket on a clock that ticks once per token -----
  //
  // Multiplying every reading by the rate makes each tick worth one token; the
  // arguments about runs are linear there and carry over by `RunInTicks`.

  function TickAcquire(b: Level, capacity: real, tick: real): (Level, bool) {
    AcquireWith(b, capacity, tick > b.lastRefill, tick - b.lastRefill, tick)
  }

  function TickRun(b: Level, capacity: real, ticks: seq<real>): (r: (Level, seq<bool>))
    ensures |r.1| == |ticks|
  {
    if ticks == [] then (b, [])
    else
      var n := |ticks| - 1;
      var (mid, ds) := TickRun(b, capacity, ticks[..n]);
      var (end, d) := TickAcquire(mid, capacity, ticks[n]);
      (end, ds + [d])
  }

  function InTicks(rate: real, times: seq<real>): (r: seq<real>)
    ensures |r| == |times|
  {
    if times == [] then [] else InTicks(rate, times[..|times| - 1]) + [Worth(rate, times[|times| - 1])]
  }

  function LevelInTicks(rate: real, b: Level): Level {
    Level(b.tokens, Worth(rate, b.lastRefill))
  }

  lemma Product(x: real, y: real)
    requires x > 0.0 && y > 0.0
    ensures x * y > 0.0
  {
  }

  lemma Scaled(rate: real, a: real, b: real)
    requires rate > 0.0
    ensures Worth(rate, a - b) == Worth(rate, a) - Worth(rate, b)
    ensures a > b <==> Worth(rate, a) > Worth(rate, b)
  {
    assert (a - b) * rate == a * rate - b * rate;
    if a > b {
      Product(a - b, rate);
    } else if b > a {
      Product(b - a, rate);
      assert (b - a) * rate == b * rate - a * rate;
    }
  }

  lemma AcquireWithInTicks(b: Level, last: real, capacity: real, moved: bool, gain: real, now: real, tick: real)
    ensures var (end, d) := AcquireWith(b, capacity, moved, gain, now);
            AcquireWith(Level(b.tokens, last), capacity, moved, gain, tick)
            == (Level(end.tokens, if moved then tick else last), d)
  {
  }

  lemma AcquireInTicks(b: Level, c: Config, now: real)
    requires ValidConfig(c)
    ensures var (end, d) := Acquire(b, c.capacity, c.rate, now);
            TickAcquire(LevelInTicks(c.rate, b), c.capacity, Worth(c.rate, now)) == (LevelInTicks(c.rate, end), d)
  {
    var last, tick := Worth(c.rate, b.lastRefill), Worth(c.rate, now);
    var moved, gain := now > b.lastRefill, Worth(c.rate, now - b.lastRefill);
    Scaled(c.rate, now, b.lastRefill);
    AcquireWithInTicks(b, last, c.capacity, moved, gain, now, tick);
    assert tick - last == gain && (tick > last <==> moved);
  }

  lemma {:induction false} RunInTicks(b: Level, c: Config, times: seq<real>)
    requires ValidConfig(c)
    ensures var (end, ds) := Run(b, c, times);
            TickRun(LevelInTicks(c.rate, b), c.capacity, InTicks(c.rate, times)) == (LevelInTicks(c.rate, end), ds)
  {
    if times != [] {
      var n := |times| - 1;
      RunInTicks(b, c, times[..n]);
      AcquireInTicks(Run(b, c, times[..n]).0, c, times[n]);
      InTicksSnoc(c.rate, times);
    }
  }

  lemma InTicksSnoc(rate: real, times: seq<real>)
    requires times != []
    ensures var n := |times| - 1;
            InTicks(rate, times)[..n] == InTicks(rate, times[..n]) && InTicks(rate, times)[n] == Worth(rate, times[n])
  {
  }

  lemma {:induction false} PrefixInTicks(rate: real, times: seq<real>, k: nat)
    requires k <= |times|
    ensures InTicks(rate, times)[..k] == InTicks(rate, times[..k])
  {
    if k < |times| {
      var n := |times| - 1;
      PrefixInTicks(rate, times[..n], k);
      assert times[..n][..k] == times[..k];
      assert InTicks(rate, times)[..k] == InTicks(rate, times[..n])[..k];
    } else {
      assert times[..k] == times;
    }
  }

  lemma {:induction false} MaxClockInTicks(rate: real, start: real, times: seq<real>)
    requires rate > 0.0
    ensures MaxClock(Worth(rate, start), InTicks(rate, times)) == Worth(rate, MaxClock(start, times))
  {
    if times != [] {
      var n := |times| - 1;
      MaxClockInTicks(rate, start, times[..n]);
      InTicksSnoc(rate, times);
      Scaled(rate, MaxClock(start, times[..n]), times[n]);
    }
  }

  lemma FirstInTicks(rate: real, times: seq<real>)
    requires times != []
    ensures InTicks(rate, times)[0] == Worth(rate, times[0])
  {
    PrefixInTicks(rate, times, 1);
    assert times[..1][..0] == [];
    assert InTicks(rate, times)[0] == InTicks(rate, times)[..1][0] == InTicks(rate, times[..1])[0];
  }

  lemma ClockAtInTicks(rate: real, times: seq<real>, k: nat)
    requires rate > 0.0 && k < |times|
    ensures ClockAt(InTicks(rate, times), k) == Worth(rate, ClockAt(times, k))
  {
    PrefixInTicks(rate, times, k + 1);
    FirstInTicks(rate, times);
    MaxClockInTicks(rate, times[0], times[..k + 1]);
  }

  // ----- how many requests a window can get granted -----

  lemma {:induction false} TickTokensConserved(b: Level, capacity: real, ticks: seq<real>)
    requires capacity >= 1.0 && ValidLevel(b, capacity)
    ensures var (end, ds) := TickRun(b, capacity, ticks);
            && ValidLevel(end, capacity)
            && end.lastRefill == MaxClock(b.lastRefill, ticks)
            && Granted(ds) as real + end.tokens <= b.tokens + end.lastRefill - b.lastRefill
  {
    if ticks != [] {
      var n := |ticks| - 1;
      var (mid, ds) := TickRun(b, capacity, ticks[..n]);
      TickTokensConserved(b, capacity, ticks[..n]);
      var d := TickAcquire(mid, capacity, ticks[n]).1;
      assert (ds + [d])[..|ds + [d]| - 1] == ds;
    }
  }

  /** Tokens are conserved: what was granted came out of the bucket or the advance of the clock. */
  lemma {:induction false} TokensConserved(b: Level, c: Config, times: seq<real>)
    requires ValidConfig(c) && ValidLevel(b, c.capacity)
    ensures var (end, ds) := Run(b, c, times);
            && ValidLevel(end, c.capacity)
            && end.lastRefill == MaxClock(b.lastRefill, times)
            && Granted(ds) as real + end.tokens <= b.tokens + Worth(c.rate, end.lastRefill - b.lastRefill)
  {
    var (end, ds) := Run(b, c, times);
    RunInTicks(b, c, times);
    TickTokensConserved(LevelInTicks(c.rate, b), c.capacity, InTicks(c.rate, times));
    MaxClockInTicks(c.rate, b.lastRefill, times);
    Scaled(c.rate, end.lastRefill, MaxClock(b.lastRefill, times));
    Scaled(c.rate, MaxClock(b.lastRefill, times), end.lastRefill);
    Scaled(c.rate, end.lastRefill, b.lastRefill);
  }

  lemma {:induction false} TickRunAppend(b: Level, capacity: real, x: seq<real>, y: seq<real>)
    ensures TickRun(b, capacity, x + y).0 == TickRun(TickRun(b, capacity, x).0, capacity, y).0
    ensures TickRun(b, capacity, x + y).1 == TickRun(b, capacity, x).1 + TickRun(TickRun(b, capacity, x).0, capacity, y).1
  {
    if y == [] {
      assert x + y == x;
    } else {
      TickRunAppend(b, capacity, x, y[..|y| - 1]);
      assert (x + y)[..|x + y| - 1] == x + y[..|y| - 1];
    }
  }

  lemma {:induction false} MaxClockAppend(start: real, x: seq<real>, y: seq<real>)
    ensures MaxClock(start, x + y) == MaxClock(MaxClock(start, x), y)
  {
    if y == [] {
      assert x + y == x;
    } else {
      MaxClockAppend(start, x, y[..|y| - 1]);
      assert (x + y)[..|x + y| - 1] == x + y[..|y| - 1];
    }
  }

  lemma TickRunSlice(b: Level, capacity: real, ticks: seq<real>, i: nat, j: nat)
    requires i <= j <= |ticks|
    ensures TickRun(b, capacity, ticks).1[i..j] == TickRun(TickRun(b, capacity, ticks[..i]).0, capacity, ticks[i..j]).1
  {
    TickRunAppend(b, capacity, ticks[..i], ticks[i..j]);
    TickRunAppend(b, capacity, ticks[..j], ticks[j..]);
    assert ticks[..i] + ticks[i..j] == ticks[..j] && ticks[..j] + ticks[j..] == ticks;
  }

  lemma TickWindow(b: Level, capacity: real, ticks: seq<real>, i: nat, j: nat)
    requires capacity >= 1.0 && ValidLevel(b, capacity) && i <= j <= |ticks|
    ensures Granted(TickRun(b, capacity, ticks).1[i..j]) as real
            <= capacity + MaxClock(b.lastRefill, ticks[..j]) - MaxClock(b.lastRefill, ticks[..i])
  {
    TickRunSlice(b, capacity, ticks, i, j);
    TickTokensConserved(b, capacity, ticks[..i]);
    TickTokensConserved(TickRun(b, capacity, ticks[..i]).0, capacity, ticks[i..j]);
    MaxClockAppend(b.lastRefill, ticks[..i], ticks[i..j]);
    assert ticks[..i] + ticks[i..j] == ticks[..j];
  }

  lemma SameFit(need: real, capacity: real, rate: real, from: real, to: real, tickFrom: real, tickTo: real)
    requires rate > 0.0 && tickFrom == Worth(rate, from) && tickTo == Worth(rate, to)
    ensures need <= capacity + tickTo - tickFrom <==> need <= capacity + Worth(rate, to - from)
  {
    Scaled(rate, to, from);
  }

  lemma TickGrants(b: Level, c: Config, times: seq<real>, i: nat, j: nat, start: real, ticks: seq<real>)
    requires ValidConfig(c) && ValidLevel(b, c.capacity) && i <= j <= |times|
    requires start == Worth(c.rate, b.lastRefill) && ticks == InTicks(c.rate, times)
    ensures Granted(Run(b, c, times).1[i..j]) as real <= c.capacity + MaxClock(start, ticks[..j]) - MaxClock(start, ticks[..i])
  {
    RunInTicks(b, c, times);
    TickWindow(LevelInTicks(c.rate, b), c.capacity, ticks, i, j);
  }

  lemma GrantsInTime(grants: real, c: Config, first: real, start: real, times: seq<real>, ticks: seq<real>, i: nat, j: nat)
    requires ValidConfig(c) && start == Worth(c.rate, first) && ticks == InTicks(c.rate, times) && i <= j <= |times|
    requires grants <= c.capacity + MaxClock(start, ticks[..j]) - MaxClock(start, ticks[..i])
    ensures grants <= c.capacity + Worth(c.rate, MaxClock(first, times[..j]) - MaxClock(first, times[..i]))
  {
    ReadingInTicks(c.rate, first, start, times, ticks, i);
    ReadingInTicks(c.rate, first, start, times, ticks, j);
    SameFit(grants, c.capacity, c.rate, MaxClock(first, times[..i]), MaxClock(first, times[..j]),
      MaxClock(start, ticks[..i]), MaxClock(start, ticks[..j]));
  }

  lemma ReadingInTicks(rate: real, first: real, start: real, times: seq<real>, ticks: seq<real>, k: nat)
    requires rate > 0.0 && start == Worth(rate, first) && ticks == InTicks(rate, times) && k <= |times|
    ensures MaxClock(start, ticks[..k]) == Worth(rate, MaxClock(first, times[..k]))
  {
    PrefixInTicks(rate, times, k);
    MaxClockInTicks(rate, first, times[..k]);
  }

  /**
   Between any two calls of a run, clocks in any order: at most the capacity plus
   the rate times the advance of the latest clock reading.
   */
  lemma WindowBound(b: Level, c: Config, times: seq<real>, i: nat, j: nat)
    requires ValidConfig(c) && ValidLevel(b, c.capacity) && i <= j <= |times|
    ensures Granted(Run(b, c, times).1[i..j]) as real
            <= c.capacity + Worth(c.rate, MaxClock(b.lastRefill, times[..j]) - MaxClock(b.lastRefill, times[..i]))
  {
    var start, ticks := Worth(c.rate, b.lastRefill), InTicks(c.rate, times);
    TickGrants(b, c, times, i, j, start, ticks);
    GrantsInTime(Granted(Run(b, c, times).1[i..j]) as real, c, b.lastRefill, start, times, ticks, i, j);
  }

  // ----- exactly which request patterns are never refused -----

  /** A project's bucket is created full by its first request. */
  function Fresh(capacity: real, times: seq<real>): Level
    requires times != []
  {
    Level(capacity, times[0])
  }

  /** The requests i..j all at once fit the burst plus what the rate adds between them. */
  predicate Fits(c: Config, times: seq<real>, i: nat, j: nat)
    requires i <= j < |times|
  {
    (j - i + 1) as real <= c.capacity + Worth(c.rate, ClockAt(times, j) - ClockAt(times, i))
  }

  ghost predicate Conforms(c: Config, times: seq<real>) {
    forall i, j :: 0 <= i <= j < |times| ==> Fits(c, times, i, j)
  }

  predicate TickFits(capacity: real, ticks: seq<real>, i: nat, j: nat)
    requires i <= j < |ticks|
  {
    (j - i + 1) as real <= capacity + ClockAt(ticks, j) - ClockAt(ticks, i)
  }

  ghost predicate AllGranted(ds: seq<bool>) {
    forall k :: 0 <= k < |ds| ==> ds[k]
  }

  /** What the stretch from request i leaves after n requests. */
  function Slack(capacity: real, ticks: seq<real>, i: nat, n: nat): real
    requires i < n <= |ticks|
  {
    capacity + ClockAt(ticks, n - 1) - ClockAt(ticks, i) - (n - i) as real
  }

  lemma ClockSteps(ticks: seq<real>, n: nat)
    requires 0 < n < |ticks|
    ensures ClockAt(ticks, n) == Max(ClockAt(ticks, n - 1), ticks[n])
  {
    assert ticks[..n + 1][..n] == ticks[..n];
  }

  lemma OneMore(b: Level, capacity: real, ticks: seq<real>, n: nat)
    requires n < |ticks|
    ensures var (mid, ds) := TickRun(b, capacity, ticks[..n]);
            var (end, d) := TickAcquire(mid, capacity, ticks[n]);
            && TickRun(b, capacity, ticks[..n + 1]) == (end, ds + [d])
            && (AllGranted(ds + [d]) <==> AllGranted(ds) && d)
  {
    assert ticks[..n + 1][..n] == ticks[..n];
    var (mid, ds) := TickRun(b, capacity, ticks[..n]);
    var d := TickAcquire(mid, capacity, ticks[n]).1;
    if AllGranted(ds + [d]) {
      assert (ds + [d])[|ds|];
      forall k | 0 <= k < |ds| ensures ds[k] {
        assert (ds + [d])[k];
      }
    }
  }

  /** While nothing was refused the bucket holds the least slack of all stretches. */
  lemma {:induction false} LeastSlack(capacity: real, ticks: seq<real>, n: nat) returns (w: nat)
    requires capacity >= 1.0 && 0 < n <= |ticks|
    requires AllGranted(TickRun(Fresh(capacity, ticks), capacity, ticks[..n]).1)
    ensures w < n
    ensures var end := TickRun(Fresh(capacity, ticks), capacity, ticks[..n]).0;
            && end.lastRefill == ClockAt(ticks, n - 1)
            && end.tokens == Slack(capacity, ticks, w, n)
            && (forall i :: 0 <= i < n ==> end.tokens <= Slack(capacity, ticks, i, n))
  {
    var b, m := Fresh(capacity, ticks), n - 1;
    OneMore(b, capacity, ticks, m);
    if m == 0 {
      w := 0;
      assert ticks[..0] == [] && ticks[..1][..0] == [];
      assert MaxClock(ticks[0], ticks[..1]) == Max(MaxClock(ticks[0], []), ticks[0]);
    } else {
      var mid := TickRun(b, capacity, ticks[..m]).0;
      w := LeastSlack(capacity, ticks, m);
      ClockSteps(ticks, m);
      var t, t' := ClockAt(ticks, m - 1), ClockAt(ticks, m);
      forall i | 0 <= i < m ensures Slack(capacity, ticks, i, n) == Slack(capacity, ticks, i, m) + (t' - t) - 1.0 {}
      assert mid.tokens <= Slack(capacity, ticks, m - 1, m);
      if mid.tokens + (t' - t) > capacity {
        w := m;
      }
    }
  }

  /** The next request is granted exactly when every stretch ending with it fits. */
  lemma NextGranted(capacity: real, ticks: seq<real>, n: nat)
    requires capacity >= 1.0 && n < |ticks|
    requires AllGranted(TickRun(Fresh(capacity, ticks), capacity, ticks[..n]).1)
    ensures TickAcquire(TickRun(Fresh(capacity, ticks), capacity, ticks[..n]).0, capacity, ticks[n]).1
            <==> forall i :: 0 <= i <= n ==> TickFits(capacity, ticks, i, n)
  {
    if n > 0 {
      var w := LeastSlack(capacity, ticks, n);
      ClockSteps(ticks, n);
      var t, t' := ClockAt(ticks, n - 1), ClockAt(ticks, n);
      var held := TickRun(Fresh(capacity, ticks), capacity, ticks[..n]).0.tokens;
      forall i | 0 <= i < n ensures TickFits(capacity, ticks, i, n) <==> Slack(capacity, ticks, i, n) + (t' - t) >= 1.0 {}
      if held + (t' - t) < 1.0 {
        assert !TickFits(capacity, ticks, w, n);
      }
    }
  }

  lemma {:induction false} GrantedPrefix(capacity: real, ticks: seq<real>, n: nat)
    requires capacity >= 1.0 && ticks != [] && n <= |ticks|
    ensures AllGranted(TickRun(Fresh(capacity, ticks), capacity, ticks[..n]).1)
            <==> forall i, j :: 0 <= i <= j < n ==> TickFits(capacity, ticks, i, j)
  {
    if n > 0 {
      GrantedPrefix(capacity, ticks, n - 1);
      OneMore(Fresh(capacity, ticks), capacity, ticks, n - 1);
      if AllGranted(TickRun(Fresh(capacity, ticks), capacity, ticks[..n - 1]).1) {
        NextGranted(capacity, ticks, n - 1);
      }
    }
  }

  /** A project's requests are all granted if and only if every stretch of them conforms. */
  lemma NeverRefusedIffConforms(c: Config, times: seq<real>)
    requires ValidConfig(c) && times != []
    ensures AllGranted(Run(Fresh(c.capacity, times), c, times).1) <==> Conforms(c, times)
  {
    var ticks := InTicks(c.rate, times);
    RunInTicks(Fresh(c.capacity, times), c, times);
    FirstInTicks(c.rate, times);
    GrantedPrefix(c.capacity, ticks, |ticks|);
    assert ticks[..|ticks|] == ticks;
    forall i, j | 0 <= i <= j < |times| ensures TickFits(c.capacity, ticks, i, j) <==> Fits(c, times, i, j) {
      FitsInTicks(c, times, i, j);
    }
  }

  lemma FitsInTicks(c: Config, times: seq<real>, i: nat, j: nat)
    requires ValidConfig(c) && i <= j < |times|
    ensures TickFits(c.capacity, InTicks(c.rate, times), i, j) <==> Fits(c, times, i, j)
  {
    ClockAtInTicks(c.rate, times, i);
    ClockAtInTicks(c.rate, times, j);
    var ticks := InTicks(c.rate, times);
    SameFit((j - i + 1) as real, c.capacity, c.rate, ClockAt(times, i), ClockAt(times, j), ClockAt(ticks, i), ClockAt(ticks, j));
  }

  /** Each request comes at least one token after the one before it. */
  ghost predicate Spaced(c: Config, times: seq<real>) {
    forall k :: 0 < k < |times| ==> Worth(c.rate, ClockAt(times, k) - ClockAt(times, k - 1)) >= 1.0
  }

  lemma {:induction false} SpacedFits(c: Config, times: seq<real>, i: nat, j: nat)
    requires ValidConfig(c) && i <= j < |times| && Spaced(c, times)
    ensures Fits(c, times, i, j)
    ensures Worth(c.rate, ClockAt(times, j)) - Worth(c.rate, ClockAt(times, i)) >= (j - i) as real
    decreases j
  {
    if i < j {
      SpacedFits(c, times, i, j - 1);
      Scaled(c.rate, ClockAt(times, j), ClockAt(times, j - 1));
    }
    Scaled(c.rate, ClockAt(times, j), ClockAt(times, i));
  }

  /** A caller whose requests are at least one token apart is never refused. */
  lemma SpacedNeverRefused(c: Config, times: seq<real>)
    requires ValidConfig(c) && times != [] && Spaced(c, times)
    ensures AllGranted(Run(Fresh(c.capacity, times), c, times).1)
  {
    forall i, j | 0 <= i <= j < |times| ensures Fits(c, times, i, j) {
      SpacedFits(c, times, i, j);
    }
    NeverRefusedIffConforms(c, times);
  }

  // ----- projects do not affect each other -----

  datatype Call = Call(project: string, now: real)

  function Decide(m: Levels, c: Config, calls: seq<Call>): (r: (Levels, seq<bool>))
    ensures |r.1| == |calls|
  {
    if calls == [] then (m, [])
    else
      var n := |calls| - 1;
      var (mid, ds) := Decide(m, c, calls[..n]);
      var (end, d) := Checked(mid, c, calls[n].project, calls[n].now);
      (end, ds + [d])
  }

  function Only(calls: seq<Call>, p: string): seq<Call> {
    if calls == [] then []
    else
      var n := |calls| - 1;
      if calls[n].project == p then Only(calls[..n], p) + [calls[n]] else Only(calls[..n], p)
  }

  /** The decisions that fell to project p's calls. */
  function DecisionsOf(calls: seq<Call>, ds: seq<bool>, p: string): seq<bool>
    requires |calls| == |ds|
  {
    if calls == [] then []
    else
      var n := |calls| - 1;
      var before := DecisionsOf(calls[..n], ds[..n], p);
      if calls[n].project == p then before + [ds[n]] else before
  }

  /** One project's decisions in any interleaving are those of the run restricted to it. */
  ghost predicate Isolated(m: Levels, c: Config, calls: seq<Call>, p: string) {
    var (end, ds) := Decide(m, c, calls);
    var (end', ds') := Decide(m, c, Only(calls, p));
    DecisionsOf(calls, ds, p) == ds' && (p in end <==> p in end') && (p in end ==> end[p] == end'[p])
  }

  lemma IsolatedOwn(m: Levels, c: Config, calls: seq<Call>, p: string, n: nat)
    requires n + 1 == |calls| && calls[n].project == p && Isolated(m, c, calls[..n], p)
    ensures Isolated(m, c, calls, p)
  {
    var (mid, ds) := Decide(m, c, calls[..n]);
    var mine := Only(calls[..n], p);
    var (mid', ds') := Decide(m, c, mine);
    var d := Checked(mid, c, p, calls[n].now).1;
    assert (ds + [d])[..n] == ds;
    assert (mine + [calls[n]])[..|mine|] == mine;
    assert Checked(mid', c, p, calls[n].now).1 == d;
  }

  lemma IsolatedOther(m: Levels, c: Config, calls: seq<Call>, p: string, n: nat)
    requires n + 1 == |calls| && calls[n].project != p && Isolated(m, c, calls[..n], p)
    ensures Isolated(m, c, calls, p)
  {
    var (mid, ds) := Decide(m, c, calls[..n]);
    var d := Checked(mid, c, calls[n].project, calls[n].now).1;
    assert (ds + [d])[..n] == ds;
  }

  lemma {:induction false} ProjectsAreIsolated(m: Levels, c: Config, calls: seq<Call>, p: string)
    ensures Isolated(m, c, calls, p)
  {
    if calls != [] {
      var n := |calls| - 1;
      ProjectsAreIsolated(m, c, calls[..n], p);
      if calls[n].project == p {
        IsolatedOwn(m, c, calls, p, n);
      } else {
        IsolatedOther(m, c, calls, p, n);
      }
    }
  }

  // ----- one project's share of any interleaving -----

  function TimesOf(calls: seq<Call>, p: string): seq<real> {
    if calls == [] then []
    else
      var n := |calls| - 1;
      if calls[n].project == p then TimesOf(calls[..n], p) + [calls[n].now] else TimesOf(calls[..n], p)
  }

  /** The calls of project p at the given clock readings. */
  function CallsAt(p: string, times: seq<real>): seq<Call> {
    if times == [] then [] else CallsAt(p, times[..|times| - 1]) + [Call(p, times[|times| - 1])]
  }

  lemma {:induction false} OnlyIsCallsAt(calls: seq<Call>, p: string)
    ensures Only(calls, p) == CallsAt(p, TimesOf(calls, p))
  {
    if calls != [] {
      var n := |calls| - 1;
      OnlyIsCallsAt(calls[..n], p);
      var times := TimesOf(calls[..n], p);
      assert (times + [calls[n].now])[..|times + [calls[n].now]| - 1] == times;
    }
  }

  lemma CallsAtSnoc(p: string, times: seq<real>, calls: seq<Call>, n: nat, before: seq<Call>)
    requires n + 1 == |times| && calls == CallsAt(p, times) && before == CallsAt(p, times[..n])
    ensures |calls| > 0 && calls[|calls| - 1] == Call(p, times[n]) && calls[..|calls| - 1] == before
  {
  }

  lemma AloneStep(c: Config, p: string, calls: seq<Call>, before: seq<Call>, m: Levels, b: Level, ds: seq<bool>, now: real)
    requires ValidConfig(c) && calls != [] && calls[|calls| - 1] == Call(p, now) && calls[..|calls| - 1] == before
    requires Decide(map[], c, before) == (m, ds) && (m == map[p := b] || (m == map[] && b == Level(c.capacity, now)))
    ensures var (end, d) := Acquire(b, c.capacity, c.rate, now);
            Decide(map[], c, calls) == (map[p := end], ds + [d])
  {
    var end := Acquire(b, c.capacity, c.rate, now).0;
    assert m[p := end] == map[p := end];
  }

  /** The limiter's calls for one project alone are that project's bucket, made full by the first of them. */
  lemma {:induction false} AloneIsRun(c: Config, p: string, times: seq<real>, calls: seq<Call>, b: Level)
    requires ValidConfig(c) && times != [] && calls == CallsAt(p, times) && b == Fresh(c.capacity, times)
    ensures Decide(map[], c, calls) == (map[p := Run(b, c, times).0], Run(b, c, times).1)
    decreases |times|
  {
    var n := |times| - 1;
    var before := CallsAt(p, times[..n]);
    CallsAtSnoc(p, times, calls, n, before);
    if n == 0 {
      assert before == [] && times[..n] == [];
      AloneStep(c, p, calls, before, map[], b, [], times[n]);
    } else {
      AloneIsRun(c, p, times[..n], before, b);
      var (mid, ds) := Run(b, c, times[..n]);
      AloneStep(c, p, calls, before, map[p := mid], mid, ds, times[n]);
    }
  }

  /** A project's decisions, whatever calls of other projects come between, are those of its bucket. */
  lemma ShareIsRun(c: Config, calls: seq<Call>, p: string, times: seq<real>)
    requires ValidConfig(c) && times == TimesOf(calls, p) != []
    ensures DecisionsOf(calls, Decide(map[], c, calls).1, p) == Run(Fresh(c.capacity, times), c, times).1
  {
    ProjectsAreIsolated(map[], c, calls, p);
    OnlyIsCallsAt(calls, p);
    AloneIsRun(c, p, times, CallsAt(p, times), Fresh(c.capacity, times));
  }

  /** Between any two of a project's calls, other projects' calls among them: at most the capacity plus the rate times the advance of its clock. */
  lemma ProjectWindowBound(c: Config, calls: seq<Call>, p: string, times: seq<real>, ds: seq<bool>, i: nat, j: nat)
    requires ValidConfig(c) && times == TimesOf(calls, p) != []
    requires ds == DecisionsOf(calls, Decide(map[], c, calls).1, p)
    requires i <= j <= |times|
    ensures |ds| == |times|
    ensures Granted(ds[i..j]) as real
            <= c.capacity + Worth(c.rate, MaxClock(times[0], times[..j]) - MaxClock(times[0], times[..i]))
  {
    ShareIsRun(c, calls, p, times);
    WindowBound(Fresh(c.capacity, times), c, times, i, j);
  }

  /** A project is never refused, whatever the others do, if and only if its own calls conform. */
  lemma ProjectNeverRefusedIffConforms(c: Config, calls: seq<Call>, p: string, times: seq<real>)
    requires ValidConfig(c) && times == TimesOf(calls, p) != []
    ensures AllGranted(DecisionsOf(calls, Decide(map[], c, calls).1, p)) <==> Conforms(c, times)
  {
    ShareIsRun(c, calls, p, times);
    NeverRefusedIffConforms(c, times);
  }

  // ----- the configured numbers -----

  /** The readings never go back. */
  predicate Ascending(times: seq<real>) {
    forall j, k :: 0 <= j <= k < |times| ==> times[j] <= times[k]
  }

  lemma {:induction false} AscendingClock(times: seq<real>, k: nat)
    requires Ascending(times) && k < |times|
    ensures ClockAt(times, k) == times[k]
  {
    if k == 0 {
      assert times[..1][..0] == [];
      assert MaxClock(times[0], times[..1]) == Max(MaxClock(times[0], []), times[0]);
    } else {
      AscendingClock(times, k - 1);
      ClockSteps(times, k);
    }
  }

  lemma SpanWorth(perMin: nat, span: real)
    ensures Worth(perMin as real / 60.0, span) == span / 60.0 * perMin as real
  {
  }

  lemma MinuteWorth(perMin: nat, span: real)
    requires 0.0 <= span <= 60.0
    ensures Worth(perMin as real / 60.0, span) <= perMin as real
  {
    SpanWorth(perMin, span);
    Scale(span / 60.0, perMin as real);
  }

  lemma Scale(share: real, whole: real)
    requires 0.0 <= share <= 1.0 && whole >= 0.0
    ensures share * whole <= whole
  {
    assert (1.0 - share) * whole >= 0.0;
    assert (1.0 - share) * whole == whole - share * whole;
  }

  lemma TokenWorth(perMin: nat, span: real)
    requires perMin > 0 && span * perMin as real >= 60.0
    ensures Worth(perMin as real / 60.0, span) >= 1.0
  {
    assert Worth(perMin as real / 60.0, span) == span * perMin as real / 60.0;
  }

  /** Requests at least 60 / perMin seconds apart are never refused, whatever the burst. */
  lemma PacedNeverRefused(perMin: nat, burst: nat, times: seq<real>)
    requires perMin > 0 && times != [] && Ascending(times)
    requires forall k :: 0 < k < |times| ==> (times[k] - times[k - 1]) * perMin as real >= 60.0
    ensures var c := MakeConfig(perMin, burst);
            AllGranted(Run(Fresh(c.capacity, times), c, times).1)
  {
    var c := MakeConfig(perMin, burst);
    ConfigIsValid(perMin, burst);
    PacedIsSpaced(perMin, c, times);
    SpacedNeverRefused(c, times);
  }

  lemma PacedIsSpaced(perMin: nat, c: Config, times: seq<real>)
    requires perMin > 0 && c.rate == perMin as real / 60.0 && Ascending(times)
    requires forall k :: 0 < k < |times| ==> (times[k] - times[k - 1]) * perMin as real >= 60.0
    ensures Spaced(c, times)
  {
    forall k | 0 < k < |times| ensures Worth(c.rate, ClockAt(times, k) - ClockAt(times, k - 1)) >= 1.0 {
      PacedPair(perMin, c.rate, times, k);
    }
  }

  lemma PacedPair(perMin: nat, rate: real, times: seq<real>, k: nat)
    requires perMin > 0 && rate == perMin as real / 60.0 && Ascending(times)
    requires 0 < k < |times| && (times[k] - times[k - 1]) * perMin as real >= 60.0
    ensures Worth(rate, ClockAt(times, k) - ClockAt(times, k - 1)) >= 1.0
  {
    AscendingClock(times, k);
    AscendingClock(times, k - 1);
    TokenWorth(perMin, times[k] - times[k - 1]);
  }

  lemma MinuteOf(perMin: nat, burst: nat, c: Config, grants: nat, span: real)
    requires c == MakeConfig(perMin, burst) && 0.0 <= span <= 60.0
    requires grants as real <= c.capacity + Worth(c.rate, span)
    ensures grants <= (if burst == 0 then 1 else burst) + perMin
  {
    MinuteWorth(perMin, span);
  }

  /** In any minute of its run a bucket grants at most the burst, or one, and the requests of one minute. */
  lemma MinuteBound(perMin: nat, burst: nat, c: Config, b: Level, times: seq<real>, ds: seq<bool>, i: nat, j: nat)
    requires c == MakeConfig(perMin, burst) && ValidConfig(c) && ValidLevel(b, c.capacity)
    requires ds == Run(b, c, times).1 && i <= j <= |times|
    requires 0.0 <= MaxClock(b.lastRefill, times[..j]) - MaxClock(b.lastRefill, times[..i]) <= 60.0
    ensures Granted(ds[i..j]) <= (if burst == 0 then 1 else burst) + perMin
  {
    WindowBound(b, c, times, i, j);
    MinuteOf(perMin, burst, c, Granted(ds[i..j]), MaxClock(b.lastRefill, times[..j]) - MaxClock(b.lastRefill, times[..i]));
  }

  /** All at the same time. */
  ghost predicate AtOnce(times: seq<real>) {
    times != [] && forall k :: 0 <= k < |times| ==> times[k] == times[0]
  }

  lemma {:induction false} ClockAtOnce(times: seq<real>, k: nat)
    requires AtOnce(times) && k < |times|
    ensures ClockAt(times, k) == times[0]
  {
    AscendingClock(times, k);
  }

  lemma AtOnceFits(c: Config, times: seq<real>, i: nat, j: nat)
    requires AtOnce(times) && i <= j < |times|
    ensures Fits(c, times, i, j) <==> (j - i + 1) as real <= c.capacity
  {
    ClockAtOnce(times, i);
    ClockAtOnce(times, j);
    assert Worth(c.rate, 0.0) == 0.0;
  }

  lemma AtOnceConforms(c: Config, times: seq<real>)
    requires AtOnce(times)
    ensures Conforms(c, times) <==> |times| as real <= c.capacity
  {
    forall i, j | 0 <= i <= j < |times| ensures Fits(c, times, i, j) <==> (j - i + 1) as real <= c.capacity {
      AtOnceFits(c, times, i, j);
    }
    if Conforms(c, times) {
      assert Fits(c, times, 0, |times| - 1);
    }
  }

  /** Of a project's first requests, all at once, none is refused if and only if they are no more than the burst, or one. */
  lemma BurstGranted(perMin: nat, burst: nat, times: seq<real>, c: Config)
    requires perMin > 0 && AtOnce(times) && c == MakeConfig(perMin, burst)
    ensures AllGranted(Run(Fresh(c.capacity, times), c, times).1) <==> |times| <= if burst == 0 then 1 else burst
  {
    ConfigIsValid(perMin, burst);
    AtOnceConforms(c, times);
    NeverRefusedIffConforms(c, times);
  }

  /** A limit of zero refuses nothing and keeps no bucket. */
  lemma {:induction false} ZeroGrantsAll(burst: nat, calls: seq<Call>)
    ensures Decide(map[], MakeConfig(0, burst), calls).0 == map[]
    ensures AllGranted(Decide(map[], MakeConfig(0, burst), calls).1)
  {
    if calls != [] {
      ZeroGrantsAll(burst, calls[..|calls| - 1]);
    }
  }
}
