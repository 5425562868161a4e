/**
 Printing a filter and parsing what was printed: exactly which filters come back
 whole, and that parsing, printing and parsing again is parsing once.
 */
module QueryRoundTrip {
  import opened Decimals
  import opened Filters
  import opened QueryBridge
  import opened QueryParser
  import opened QueryReading
  import opened Scanning
  import opened Wrappers

  // ----- a line of parts is read part by part -----

  ghost predicate AllRead(step: (string, bool) -> Turn, parts: seq<string>, toks: seq<Token>) {
    |parts| == |toks| && forall k :: 0 <= k < |parts| ==> Reads(step, parts[k], toks[k])
  }

  ghost predicate SkipsSpaces(step: (string, bool) -> Turn) {
    forall s, b :: s != "" && s[0] == ' ' ==> step(s, b) == Turn([], 1)
  }

  lemma BareCat(a: seq<Spanned>, b: seq<Spanned>)
    ensures Bare(a + b) == Bare(a) + Bare(b)
  {
  }

  lemma BareOne(t: Token, to: nat, at: nat)
    ensures Bare(Shift([Spanned(t, 0, to)], at)) == [t]
  {
  }

  /** One part, then the rest of the line. */
  lemma LexPart(step: (string, bool) -> Turn, p: string, t: Token, rest: string, s: string, at: nat, b: bool,
      found: seq<Spanned>, at': nat, tail: seq<Spanned>)
    requires Consumes(step) && Reads(step, p, t) && Plain(rest) && s == p + rest && at' == at + |p|
    requires found == Lex(step, s, at, b) && tail == Lex(step, rest, at', t.SortToken?)
    ensures Bare(found) == [t] + Bare(tail)
  {
    var turn := Turn([Spanned(t, 0, |p|)], |p|);
    assert s[|p|..] == rest;
    LexStep(step, s, at, b, turn, rest, at', t.SortToken?, tail, found);
    BareOne(t, |p|, at);
    BareCat(Shift(turn.tokens, at), tail);
  }

  lemma LexSpace(step: (string, bool) -> Turn, rest: string, s: string, at: nat, b: bool,
      found: seq<Spanned>, at': nat, tail: seq<Spanned>)
    requires Consumes(step) && SkipsSpaces(step) && s == " " + rest && at' == at + 1
    requires found == Lex(step, s, at, b) && tail == Lex(step, rest, at', b)
    ensures found == tail
  {
    assert s[1..] == rest;
    LexStep(step, s, at, b, Turn([], 1), rest, at', b, tail, found);
  }

  lemma LexPartSpace(step: (string, bool) -> Turn, p: string, t: Token, more: string, s: string, at: nat, b: bool,
      found: seq<Spanned>, at': nat, tail: seq<Spanned>)
    requires Consumes(step) && SkipsSpaces(step) && Reads(step, p, t)
    requires more != "" && !IsSpace(more[0]) && Lower(more[0]) != 'a' && s == p + " " + more && at' == at + |p| + 1
    requires found == Lex(step, s, at, b) && tail == Lex(step, more, at', t.SortToken?)
    ensures Bare(found) == [t] + Bare(tail)
  {
    var rest, next := " " + more, at + |p|;
    assert s == p + rest;
    var middle := Lex(step, rest, next, t.SortToken?);
    LexPart(step, p, t, rest, s, at, b, found, next, middle);
    LexSpace(step, more, rest, next, t.SortToken?, middle, at', tail);
  }

  lemma LexLast(step: (string, bool) -> Turn, p: string, t: Token, at: nat, b: bool, found: seq<Spanned>)
    requires Consumes(step) && Reads(step, p, t) && found == Lex(step, p, at, b)
    ensures Bare(found) == [t]
  {
    assert p == p + "";
    LexPart(step, p, t, "", p, at, b, found, at + |p|, []);
  }

  /** A line of parts each read as one token is read as those tokens. */
  lemma {:induction false} LexParts(step: (string, bool) -> Turn, parts: seq<string>, toks: seq<Token>, line: string, at: nat, b: bool,
      found: seq<Spanned>)
    requires Consumes(step) && SkipsSpaces(step) && AllRead(step, parts, toks) && line == Join(parts, " ")
    requires found == Lex(step, line, at, b)
    ensures Bare(found) == toks
    decreases |parts|
  {
    if |parts| == 1 {
      LexLast(step, parts[0], toks[0], at, b, found);
    } else if |parts| > 1 {
      var more := Join(parts[1..], " ");
      assert more[0] == parts[1][0];
      var at', b' := at + |parts[0]| + 1, toks[0].SortToken?;
      var tail := Lex(step, more, at', b');
      LexPartSpace(step, parts[0], toks[0], more, line, at, b, found, at', tail);
      LexParts(step, parts[1..], toks[1..], more, at', b', tail);
    }
  }

  lemma TokensOf(parts: seq<string>, toks: seq<Token>)
    requires AllRead(Branches, parts, toks)
    ensures Bare(Tokens(Join(parts, " "))) == toks
  {
    BranchesConsume();
    LexParts(Branches, parts, toks, Join(parts, " "), 0, false, Tokens(Join(parts, " ")));
  }

  // ----- the token each part of a filter stands for -----

  /** A length of time, zero or more whole minutes. */
  predicate WholeMinutes(since: Option<int>) {
    since.Some? ==> since.value >= 0 && since.value % MINUTE == 0
  }

  predicate Natural(limit: Option<int>) {
    limit.Some? ==> limit.value >= 0
  }

  function Only(b: bool, t: Token): seq<Token> {
    if b then [t] else []
  }

  function LevelTokens(f: Filter): seq<Token> {
    Only(f.levels != {}, LevelToken(LevelsAmong(LEVELS, f.levels)))
  }

  function StatusTokens(f: Filter): seq<Token> {
    Only(f.statuses != DEFAULT_STATUSES, StatusToken(StatusesAmong(STATUSES, f.statuses)))
  }

  function SinceTokens(f: Filter): seq<Token>
    requires WholeMinutes(f.sinceMs)
  {
    if f.sinceMs.Some? then [TimeToken(f.sinceMs.value)] else []
  }

  function FacetTokens(f: Filter): seq<Token>
    requires WholeMinutes(f.sinceMs)
  {
    LevelTokens(f) + StatusTokens(f) + SinceTokens(f)
  }

  function FlagTokens(f: Filter): seq<Token> {
    Only(f.spikingOnly, KeywordToken(Spiking)) + Only(f.newOnly, KeywordToken(New)) + Only(f.staleOnly, KeywordToken(StaleWord))
  }

  function TailTokens(f: Filter): seq<Token>
    requires Natural(f.limit)
  {
    Only(f.sort != By(Recent), SortToken(f.sort)) + if f.limit.Some? then [LimitToken(f.limit.value)] else []
  }

  lemma {:induction false} AmongLevels(order: seq<Level>, chosen: set<Level>)
    ensures forall l :: l in LevelsAmong(order, chosen) <==> l in order && l in chosen
  {
    if order != [] {
      AmongLevels(order[1..], chosen);
      assert order == [order[0]] + order[1..];
    }
  }

  lemma {:induction false} AmongStatuses(order: seq<Status>, chosen: set<Status>)
    ensures forall t :: t in StatusesAmong(order, chosen) <==> t in order && t in chosen
  {
    if order != [] {
      AmongStatuses(order[1..], chosen);
      assert order == [order[0]] + order[1..];
    }
  }

  lemma EveryLevel(l: Level)
    ensures l in LEVELS
  {
    assert LEVELS[0] == Fatal && LEVELS[1] == Error && LEVELS[2] == Warning && LEVELS[3] == Info && LEVELS[4] == Debug;
  }

  lemma EveryStatus(t: Status)
    ensures t in STATUSES
  {
    assert STATUSES[0].Unresolved? && STATUSES[1].Resolved? && STATUSES[2].Muted? && STATUSES[3].Ignored?;
  }

  lemma LevelsListed(chosen: set<Level>)
    ensures SetOf(LevelsAmong(LEVELS, chosen)) == chosen
  {
    AmongLevels(LEVELS, chosen);
    forall l | l in chosen ensures l in LEVELS {
      EveryLevel(l);
    }
  }

  lemma StatusesListed(chosen: set<Status>)
    ensures SetOf(StatusesAmong(STATUSES, chosen)) == chosen
  {
    AmongStatuses(STATUSES, chosen);
    forall t | t in chosen ensures t in STATUSES {
      EveryStatus(t);
    }
  }

  lemma TwoDigits(a: char, b: char)
    requires IsDigit(a) && IsDigit(b)
    ensures AllDigits([a]) && Num([a]) == a as int - '0' as int
    ensures AllDigits([a, b]) && Num([a, b]) == 10 * (a as int - '0' as int) + (b as int - '0' as int)
  {
    assert [a, b][..1] == [a] && [a][..0] == "";
  }

  ghost predicate Spells(text: string, d: string, u: char, ms: int) {
    d != "" && AllDigits(d) && IsUnit(u) && text == d + [u] && ms == Num(d) * UnitLength(u)
  }

  /** Every preset spells the length it stands for. */
  lemma PresetSpells(ms: int) returns (d: string, u: char)
    requires ms in {7 * DAY, 24 * HOUR, HOUR, 15 * MINUTE, 5 * MINUTE}
    ensures Spells(FormatSince(ms), d, u, ms)
  {
    TwoDigits('7', '0');
    TwoDigits('2', '4');
    TwoDigits('1', '5');
    TwoDigits('5', '0');
    if ms == 7 * DAY {
      d, u := "7", 'd';
    } else if ms == 24 * HOUR {
      d, u := "24", 'h';
    } else if ms == HOUR {
      d, u := "1", 'h';
    } else if ms == 15 * MINUTE {
      d, u := "15", 'm';
    } else {
      d, u := "5", 'm';
    }
  }

  lemma CountSpells(n: nat, u: char, ms: int)
    requires IsUnit(u) && ms == n * UnitLength(u)
    ensures Spells(Decimal(n) + [u], Decimal(n), u, ms)
  {
    NumOfDecimal(n);
  }

  /** Days, else hours, else minutes; the rounding is exact on whole minutes. */
  lemma CountOf(ms: int) returns (n: nat, u: char)
    requires ms >= 0 && ms % MINUTE == 0 && ms !in {7 * DAY, 24 * HOUR, HOUR, 15 * MINUTE, 5 * MINUTE}
    ensures IsUnit(u) && ms == n * UnitLength(u) && FormatSince(ms) == Decimal(n) + [u]
  {
    if ms % DAY == 0 {
      n, u := ms / DAY, 'd';
    } else if ms % HOUR == 0 {
      n, u := ms / HOUR, 'h';
    } else {
      n, u := ms / MINUTE, 'm';
      assert (ms + MINUTE / 2) / MINUTE == n;
    }
  }

  lemma SinceSpells(ms: int) returns (d: string, u: char)
    requires ms >= 0 && ms % MINUTE == 0
    ensures Spells(FormatSince(ms), d, u, ms)
  {
    if ms in {7 * DAY, 24 * HOUR, HOUR, 15 * MINUTE, 5 * MINUTE} {
      d, u := PresetSpells(ms);
    } else {
      var n, unit := CountOf(ms);
      CountSpells(n, unit, ms);
      d, u := Decimal(n), unit;
    }
  }

  lemma LevelPartRead(f: Filter)
    ensures AllRead(Branches, LevelPart(f), LevelTokens(f))
  {
    LevelsListed(f.levels);
    if f.levels != {} {
      LevelsRead(LevelsAmong(LEVELS, f.levels));
    }
  }

  lemma StatusPartRead(f: Filter)
    requires f.statuses != {}
    ensures AllRead(Branches, StatusPart(f), StatusTokens(f))
  {
    StatusesListed(f.statuses);
    StatusesRead(StatusesAmong(STATUSES, f.statuses));
  }

  lemma SincePartRead(f: Filter)
    requires WholeMinutes(f.sinceMs)
    ensures AllRead(Branches, SincePart(f), SinceTokens(f))
  {
    if f.sinceMs.Some? {
      var d, u := SinceSpells(f.sinceMs.value);
      TimeReads(d, u, f.sinceMs.value);
    }
  }

  lemma ReadCat(step: (string, bool) -> Turn, a: seq<string>, b: seq<string>, s: seq<Token>, t: seq<Token>)
    requires AllRead(step, a, s) && AllRead(step, b, t)
    ensures AllRead(step, a + b, s + t)
  {
  }

  lemma FacetsRead(f: Filter)
    requires WholeMinutes(f.sinceMs) && f.statuses != {}
    ensures AllRead(Branches, FacetParts(f), FacetTokens(f))
  {
    LevelPartRead(f);
    StatusPartRead(f);
    SincePartRead(f);
    ReadCat(Branches, LevelPart(f), StatusPart(f), LevelTokens(f), StatusTokens(f));
    ReadCat(Branches, LevelPart(f) + StatusPart(f), SincePart(f), LevelTokens(f) + StatusTokens(f), SinceTokens(f));
  }

  lemma FlagsRead(f: Filter)
    ensures AllRead(Branches, FlagParts(f), FlagTokens(f))
  {
    FlagReads("spiking", Spiking);
    FlagReads("new", New);
    FlagReads("stale", StaleWord);
  }

  lemma TailRead(f: Filter)
    requires f.query == "" && f.sort.By? && Natural(f.limit)
    ensures AllRead(Branches, TailParts(f), TailTokens(f))
  {
    SortReads(f.sort.key);
    if f.limit.Some? {
      LimitReads(f.limit.value);
    }
  }

  function FilterTokens(f: Filter): seq<Token>
    requires WholeMinutes(f.sinceMs) && Natural(f.limit)
  {
    FacetTokens(f) + FlagTokens(f) + TailTokens(f)
  }

  lemma PartsRead(f: Filter)
    requires f.query == "" && f.sort.By? && f.statuses != {} && WholeMinutes(f.sinceMs) && Natural(f.limit)
    ensures AllRead(Branches, Parts(f), FilterTokens(f))
  {
    FacetsRead(f);
    FlagsRead(f);
    TailRead(f);
    ReadCat(Branches, FacetParts(f), FlagParts(f), FacetTokens(f), FlagTokens(f));
    ReadCat(Branches, FacetParts(f) + FlagParts(f), TailParts(f), FacetTokens(f) + FlagTokens(f), TailTokens(f));
  }

  lemma PrintedTokens(f: Filter)
    requires f.query == "" && f.sort.By? && f.statuses != {} && WholeMinutes(f.sinceMs) && Natural(f.limit)
    ensures Bare(Tokens(QueryString(f))) == FilterTokens(f)
  {
    PartsRead(f);
    TokensOf(Parts(f), FilterTokens(f));
  }

  // ----- what those tokens build -----

  /** `buildQuery` on a stretch of tokens with no minus among them. */
  function PutAll(q: Query, ts: seq<Token>): Query {
    if ts == [] then q else Put(PutAll(q, ts[..|ts| - 1]), ts[|ts| - 1], false)
  }

  ghost predicate NoMinus(ts: seq<Token>) {
    forall k :: 0 <= k < |ts| ==> !ts[k].NegToken?
  }

  lemma {:induction false} BuildIsPutAll(ts: seq<Token>)
    requires NoMinus(ts)
    ensures Build(ts) == PutAll(NO_QUERY, ts)
  {
    if ts != [] {
      BuildIsPutAll(ts[..|ts| - 1]);
    }
  }

  lemma {:induction false} PutCat(q: Query, a: seq<Token>, b: seq<Token>)
    ensures PutAll(q, a + b) == PutAll(PutAll(q, a), b)
  {
    if b == [] {
      assert a + b == a;
    } else {
      var n := |b| - 1;
      PutCat(q, a, b[..n]);
      assert (a + b)[..|a + b| - 1] == a + b[..n];
    }
  }

  lemma PutOnly(q: Query, b: bool, t: Token)
    ensures PutAll(q, Only(b, t)) == if b then Put(q, t, false) else q
  {
    assert [t][..0] == [];
  }

  function NatOf(n: Option<int>): Option<nat>
    requires Natural(n)
  {
    if n.Some? then Some(n.value) else None
  }

  lemma LevelBuilds(q: Query, f: Filter)
    requires q.levels == {}
    ensures PutAll(q, LevelTokens(f)) == q.(levels := f.levels)
  {
    LevelsListed(f.levels);
    PutOnly(q, f.levels != {}, LevelToken(LevelsAmong(LEVELS, f.levels)));
  }

  lemma StatusBuilds(q: Query, f: Filter)
    requires q.statuses == {}
    ensures PutAll(q, StatusTokens(f)) == q.(statuses := if f.statuses != DEFAULT_STATUSES then f.statuses else {})
  {
    StatusesListed(f.statuses);
    PutOnly(q, f.statuses != DEFAULT_STATUSES, StatusToken(StatusesAmong(STATUSES, f.statuses)));
  }

  lemma SinceBuilds(q: Query, f: Filter)
    requires q.sinceMs == None && WholeMinutes(f.sinceMs)
    ensures PutAll(q, SinceTokens(f)) == q.(sinceMs := NatOf(f.sinceMs))
  {
    if f.sinceMs.Some? {
      PutOnly(q, true, TimeToken(f.sinceMs.value));
    }
  }

  /** The query a printed filter is parsed into. */
  function QueryOf(f: Filter): Query
    requires WholeMinutes(f.sinceMs) && Natural(f.limit)
  {
    NO_QUERY.(
      levels := f.levels,
      statuses := if f.statuses != DEFAULT_STATUSES then f.statuses else {},
      sinceMs := NatOf(f.sinceMs),
      spiking := f.spikingOnly,
      newOnly := f.newOnly,
      staleOnly := f.staleOnly,
      sort := if f.sort != By(Recent) then Some(f.sort) else None,
      limit := NatOf(f.limit))
  }

  lemma FacetsBuild(f: Filter)
    requires WholeMinutes(f.sinceMs) && Natural(f.limit)
    ensures PutAll(NO_QUERY, FacetTokens(f))
         == NO_QUERY.(levels := f.levels, statuses := QueryOf(f).statuses, sinceMs := NatOf(f.sinceMs))
  {
    var q := NO_QUERY;
    LevelBuilds(q, f);
    PutCat(q, LevelTokens(f), StatusTokens(f));
    var q1 := PutAll(q, LevelTokens(f));
    StatusBuilds(q1, f);
    PutCat(q, LevelTokens(f) + StatusTokens(f), SinceTokens(f));
    var q2 := PutAll(q1, StatusTokens(f));
    SinceBuilds(q2, f);
  }

  lemma FlagsBuild(q: Query, f: Filter)
    requires !q.spiking && !q.newOnly && !q.staleOnly
    ensures PutAll(q, FlagTokens(f)) == q.(spiking := f.spikingOnly, newOnly := f.newOnly, staleOnly := f.staleOnly)
  {
    var a, b, c := KeywordToken(Spiking), KeywordToken(New), KeywordToken(StaleWord);
    PutOnly(q, f.spikingOnly, a);
    var q1 := PutAll(q, Only(f.spikingOnly, a));
    PutCat(q, Only(f.spikingOnly, a), Only(f.newOnly, b));
    PutOnly(q1, f.newOnly, b);
    var q2 := PutAll(q, Only(f.spikingOnly, a) + Only(f.newOnly, b));
    PutCat(q, Only(f.spikingOnly, a) + Only(f.newOnly, b), Only(f.staleOnly, c));
    PutOnly(q2, f.staleOnly, c);
  }

  lemma TailBuild(q: Query, f: Filter)
    requires Natural(f.limit) && q.sort == None && q.limit == None
    ensures PutAll(q, TailTokens(f)) == q.(sort := if f.sort != By(Recent) then Some(f.sort) else None, limit := NatOf(f.limit))
  {
    var sort := Only(f.sort != By(Recent), SortToken(f.sort));
    PutOnly(q, f.sort != By(Recent), SortToken(f.sort));
    var q1 := PutAll(q, sort);
    if f.limit.Some? {
      PutCat(q, sort, [LimitToken(f.limit.value)]);
      PutOnly(q1, true, LimitToken(f.limit.value));
    } else {
      assert TailTokens(f) == sort;
    }
  }

  lemma TokensPut(f: Filter)
    requires WholeMinutes(f.sinceMs) && Natural(f.limit)
    ensures PutAll(NO_QUERY, FilterTokens(f)) == QueryOf(f)
  {
    var facets, flags, tail := FacetTokens(f), FlagTokens(f), TailTokens(f);
    FacetsBuild(f);
    PutCat(NO_QUERY, facets, flags);
    var q1 := PutAll(NO_QUERY, facets);
    FlagsBuild(q1, f);
    PutCat(NO_QUERY, facets + flags, tail);
    var q2 := PutAll(q1, flags);
    TailBuild(q2, f);
  }

  lemma NoMinusPrinted(f: Filter)
    requires WholeMinutes(f.sinceMs) && Natural(f.limit)
    ensures NoMinus(FilterTokens(f))
  {
    assert NoMinus(FacetTokens(f));
    assert NoMinus(FlagTokens(f));
    assert NoMinus(TailTokens(f));
  }

  lemma TokensBuild(f: Filter)
    requires WholeMinutes(f.sinceMs) && Natural(f.limit)
    ensures Build(FilterTokens(f)) == QueryOf(f)
  {
    NoMinusPrinted(f);
    BuildIsPutAll(FilterTokens(f));
    TokensPut(f);
  }

  lemma QueryOfApplies(f: Filter)
    requires WholeMinutes(f.sinceMs) && Natural(f.limit) && f.query == "" && f.statuses != {}
    ensures Applied(QueryOf(f)) == f
  {
  }

  lemma PrintedComesBack(f: Filter)
    requires f.query == "" && f.sort.By? && f.statuses != {} && WholeMinutes(f.sinceMs) && Natural(f.limit)
    ensures Applied(ParseQuery(QueryString(f))) == f
  {
    PrintedTokens(f);
    TokensBuild(f);
    QueryOfApplies(f);
  }

  // ----- the other direction: what no parse can yield -----

  /** A sort that is no sort key was written out somewhere in `s`. */
  ghost predicate Named(axis: SortValue, s: string) {
    axis.Inherited? ==> OnPrototype(axis.name) && Occurs(s, axis.name)
  }

  ghost predicate HonestIn(t: Token, s: string) {
    && (t.TimeToken? ==> t.ms % MINUTE == 0)
    && (t.NegToken? ==> '-' in s)
    && (t.SortToken? ==> Named(t.axis, s))
  }

  ghost predicate AllHonest(ts: seq<Token>, s: string) {
    forall k :: 0 <= k < |ts| ==> HonestIn(ts[k], s)
  }

  ghost predicate HonestTurn(t: Turn, s: string) {
    0 < t.next <= |s| && forall k :: 0 <= k < |t.tokens| ==> Honest(t.tokens[k].token, s)
  }

  ghost predicate HonestSteps(step: (string, bool) -> Turn) {
    forall s, b :: s != "" ==> HonestTurn(step(s, b), s)
  }

  lemma BranchesHonest()
    ensures HonestSteps(Branches)
  {
  }

  lemma OccursLater(s: string, s': string, n: nat, w: string)
    requires n <= |s| && s' == s[n..] && Occurs(s', w)
    ensures Occurs(s, w)
  {
    var i: nat :| LitAt(s', i, w);
    LitLater(s, n, i, w);
  }

  lemma HonestLater(t: Token, s: string, s': string, n: nat)
    requires n <= |s| && s' == s[n..] && HonestIn(t, s')
    ensures HonestIn(t, s)
  {
    assert forall c :: c in s' ==> c in s;
    if t.SortToken? && t.axis.Inherited? {
      OccursLater(s, s', n, t.axis.name);
    }
  }

  lemma HonestStep(t: Turn, s: string, at: nat, s': string, tail: seq<Spanned>, found: seq<Spanned>)
    requires HonestTurn(t, s) && s' == s[t.next..] && AllHonest(Bare(tail), s') && found == Shift(t.tokens, at) + tail
    ensures AllHonest(Bare(found), s)
  {
    var first := Bare(Shift(t.tokens, at));
    assert AllHonest(first, s);
    BareCat(Shift(t.tokens, at), tail);
    forall k | 0 <= k < |tail| ensures HonestIn(Bare(tail)[k], s) {
      HonestLater(Bare(tail)[k], s, s', t.next);
    }
  }

  lemma {:induction false} LexHonest(step: (string, bool) -> Turn, s: string, at: nat, b: bool, found: seq<Spanned>)
    requires Consumes(step) && HonestSteps(step) && found == Lex(step, s, at, b)
    ensures AllHonest(Bare(found), s)
    decreases |s|
  {
    if s != "" {
      var t := step(s, b);
      assert HonestTurn(t, s);
      var s', at', b' := s[t.next..], at + t.next, EndsInSort(t.tokens, b);
      var tail := Lex(step, s', at', b');
      LexHonest(step, s', at', b', tail);
      LexStep(step, s, at, b, t, s', at', b', tail, found);
      HonestStep(t, s, at, s', tail, found);
    }
  }

  ghost predicate HonestQuery(q: Query, s: string) {
    && (q.sinceMs.Some? ==> q.sinceMs.value % MINUTE == 0)
    && ('-' !in s ==> q.negStatuses == {})
    && (q.sort.Some? ==> Named(q.sort.value, s))
  }

  lemma PutHonest(q: Query, t: Token, negated: bool, s: string)
    requires HonestQuery(q, s) && AllHonest([t], s) && (negated ==> '-' in s)
    ensures HonestQuery(Put(q, t, negated), s)
  {
    assert [t][0] == t;
  }

  /** What every token keeps to, the query keeps to. */
  lemma {:induction false} BuildHonest(ts: seq<Token>, s: string)
    requires AllHonest(ts, s)
    ensures HonestQuery(Build(ts), s)
  {
    if ts != [] {
      var n := |ts| - 1;
      BuildHonest(ts[..n], s);
      PutHonest(Build(ts[..n]), ts[n], NegatedAt(ts, n), s);
    }
  }

  /**
   The window a parse sets is whole minutes; without a minus sign it negates no
   status; a sort it sets is a sort key or one of two words the input contains.
   */
  lemma ParseHonest(s: string)
    ensures HonestQuery(ParseQuery(s), s)
  {
    BranchesConsume();
    BranchesHonest();
    LexHonest(Branches, s, 0, false, Tokens(s));
    BuildHonest(Bare(Tokens(s)), s);
  }

  // ----- what a printed line never contains -----

  predicate TameAt(s: string, k: nat)
    requires k < |s|
  {
    s[k] != '-' && s[k] != '_' && (Lower(s[k]) == 'u' ==> k + 1 < |s| && Lower(s[k + 1]) != 'c')
  }

  /** No minus sign, no underscore, and no "u" that is last or before a "c": neither a negation nor an inherited name. */
  ghost predicate Tame(s: string) {
    forall k {:trigger TameAt(s, k)} :: 0 <= k < |s| ==> TameAt(s, k)
  }

  lemma TameCat(a: string, b: string)
    requires Tame(a) && Tame(b)
    ensures Tame(a + b)
  {
    var s := a + b;
    forall k | 0 <= k < |s| ensures TameAt(s, k) {
      assert if k < |a| then TameAt(a, k) else TameAt(b, k - |a|);
    }
  }

  lemma TameLacks(s: string)
    requires Tame(s)
    ensures '-' !in s && !Occurs(s, "constructor") && !Occurs(s, "__proto__")
  {
    forall k | 0 <= k < |s| ensures s[k] != '-' {
      assert TameAt(s, k);
    }
    forall i: nat ensures !LitAt(s, i, "constructor") && !LitAt(s, i, "__proto__") {
      NoNameAt(s, i);
    }
  }

  lemma NoNameAt(s: string, i: nat)
    requires Tame(s)
    ensures !LitAt(s, i, "constructor") && !LitAt(s, i, "__proto__")
  {
    if i + 11 <= |s| {
      assert TameAt(s, i + 6);
      assert "constructor"[6] == 'u' && "constructor"[7] == 'c';
      assert Lower(s[i + 6]) != 'u' || Lower(s[i + 7]) != 'c';
    }
    if i + 9 <= |s| {
      assert TameAt(s, i);
      assert "__proto__"[0] == '_' && Lower(s[i + 0]) != '_';
    }
  }

  /** Text with no such character at all. */
  ghost predicate Calm(s: string) {
    forall c :: c in s ==> c != '-' && c != '_' && Lower(c) != 'u'
  }

  lemma CalmIsTame(s: string)
    requires Calm(s)
    ensures Tame(s)
  {
    forall k | 0 <= k < |s| ensures TameAt(s, k) {
      assert s[k] in s;
    }
  }

  /** Text whose one "u" stands before a character that is no "c". */
  lemma OneU(s: string, a: string, y: char, b: string)
    requires s == a + ['u', y] + b && Calm(a) && Calm([y]) && y != 'c' && y != 'C' && Calm(b)
    ensures Tame(s)
  {
    var m := ['u', y];
    assert y in [y];
    assert TameAt(m, 0) && TameAt(m, 1);
    CalmIsTame(a);
    CalmIsTame(b);
    TameCat(a, m);
    TameCat(a + m, b);
  }

  ghost predicate AllTame(parts: seq<string>) {
    forall k :: 0 <= k < |parts| ==> Tame(parts[k])
  }

  lemma {:induction false} JoinTame(parts: seq<string>, sep: string)
    requires AllTame(parts) && Tame(sep)
    ensures Tame(Join(parts, sep))
  {
    if |parts| > 1 {
      var rest := Join(parts[1..], sep);
      JoinTame(parts[1..], sep);
      TameCat(parts[0], sep);
      TameCat(parts[0] + sep, rest);
    }
  }

  lemma DigitsTame(d: string)
    requires AllDigits(d)
    ensures Tame(d)
  {
    CalmIsTame(d);
  }

  lemma LevelNameTame(l: Level)
    ensures Tame(LevelName(l))
  {
    match l
    case Fatal => CalmIsTame("fatal");
    case Error => CalmIsTame("error");
    case Warning => CalmIsTame("warning");
    case Info => CalmIsTame("info");
    case Debug => OneU("debug", "deb", 'g', "");
  }

  lemma StatusNameTame(t: Status)
    ensures Tame(StatusName(t))
  {
    match t
    case Unresolved => OneU("unresolved", "", 'n', "resolved");
    case Resolved => CalmIsTame("resolved");
    case Muted => OneU("muted", "m", 't', "ed");
    case Ignored => CalmIsTame("ignored");
  }

  lemma {:induction false} LevelNamesTame(ls: seq<Level>)
    ensures AllTame(LevelNames(ls))
  {
    if ls != [] {
      LevelNameTame(ls[0]);
      LevelNamesTame(ls[1..]);
    }
  }

  lemma {:induction false} StatusNamesTame(ss: seq<Status>)
    ensures AllTame(StatusNames(ss))
  {
    if ss != [] {
      StatusNameTame(ss[0]);
      StatusNamesTame(ss[1..]);
    }
  }

  lemma LevelPartTame(f: Filter)
    ensures AllTame(LevelPart(f))
  {
    var ls := LevelsAmong(LEVELS, f.levels);
    LevelNamesTame(ls);
    CalmIsTame(",");
    JoinTame(LevelNames(ls), ",");
  }

  lemma StatusPartTame(f: Filter)
    ensures AllTame(StatusPart(f))
  {
    var list := Join(StatusNames(StatusesAmong(STATUSES, f.statuses)), ",");
    StatusNamesTame(StatusesAmong(STATUSES, f.statuses));
    CalmIsTame(",");
    JoinTame(StatusNames(StatusesAmong(STATUSES, f.statuses)), ",");
    OneU("status:", "stat", 's', ":");
    TameCat("status:", list);
  }

  lemma SincePartTame(f: Filter)
    requires WholeMinutes(f.sinceMs)
    ensures AllTame(SincePart(f))
  {
    if f.sinceMs.Some? {
      var d, u := SinceSpells(f.sinceMs.value);
      DigitsTame(d);
      CalmIsTame([u]);
      TameCat(d, [u]);
    }
  }

  lemma SortNameTame(key: SortKey)
    ensures Tame(SortName(key))
  {
    match key
    case Recent => CalmIsTame("recent");
    case Stale => CalmIsTame("stale");
    case Count => OneU("count", "co", 'n', "t");
  }

  /** What an inherited property prints as. */
  lemma InheritedTame()
    ensures Tame("function" + " Object() { [native code] }") && Tame("[object Object]")
  {
    NativeTame(" Object() { [native code] }");
    OneU("function", "f", 'n', "ction");
    TameCat("function", " Object() { [native code] }");
    ObjectTame("[object Object]");
  }

  lemma NativeTame(s: string)
    requires s == " Object() { [native code] }"
    ensures Tame(s)
  {
    CalmIsTame(s);
  }

  lemma ObjectTame(s: string)
    requires s == "[object Object]"
    ensures Tame(s)
  {
    CalmIsTame(s);
  }

  lemma SortTextTame(v: SortValue)
    ensures Tame(SortText(v))
  {
    InheritedTame();
    if v.By? {
      SortNameTame(v.key);
    }
  }

  lemma FieldNamesTame()
    ensures Tame("sort:") && Tame("limit:")
  {
    CalmIsTame("sort:");
    CalmIsTame("limit:");
  }

  lemma SortPartTame(f: Filter)
    ensures AllTame(SortPart(f))
  {
    FieldNamesTame();
    SortTextTame(f.sort);
    TameCat("sort:", SortText(f.sort));
  }

  lemma LimitPartTame(f: Filter)
    requires Natural(f.limit)
    ensures AllTame(LimitPart(f))
  {
    if f.limit.Some? {
      FieldNamesTame();
      DigitsTame(Decimal(f.limit.value));
      TameCat("limit:", Decimal(f.limit.value));
    }
  }

  lemma AllTameCat(a: seq<string>, b: seq<string>)
    requires AllTame(a) && AllTame(b)
    ensures AllTame(a + b)
  {
  }

  lemma FacetsTame(f: Filter)
    requires WholeMinutes(f.sinceMs)
    ensures AllTame(FacetParts(f))
  {
    LevelPartTame(f);
    StatusPartTame(f);
    SincePartTame(f);
    AllTameCat(LevelPart(f), StatusPart(f));
    AllTameCat(LevelPart(f) + StatusPart(f), SincePart(f));
  }

  lemma FlagsTame(f: Filter)
    ensures AllTame(FlagParts(f))
  {
    CalmIsTame("spiking");
    CalmIsTame("new");
    CalmIsTame("stale");
  }

  lemma TailTame(f: Filter)
    requires f.query == "" && Natural(f.limit)
    ensures AllTame(TailParts(f))
  {
    SortPartTame(f);
    LimitPartTame(f);
    AllTameCat(SortPart(f), LimitPart(f));
    assert When(Trimmed(f.query) != "", Trimmed(f.query)) == [];
    AllTameCat(SortPart(f) + LimitPart(f), []);
  }

  lemma PartsTame(f: Filter)
    requires f.query == "" && WholeMinutes(f.sinceMs) && Natural(f.limit)
    ensures AllTame(Parts(f))
  {
    FacetsTame(f);
    FlagsTame(f);
    TailTame(f);
    var facets, flags, tail := FacetParts(f), FlagParts(f), TailParts(f);
    AllTameCat(facets, flags);
    AllTameCat(facets + flags, tail);
  }

  lemma PrintedTame(f: Filter)
    requires f.query == "" && WholeMinutes(f.sinceMs) && Natural(f.limit)
    ensures Tame(QueryString(f))
  {
    PartsTame(f);
    CalmIsTame(" ");
    JoinTame(Parts(f), " ");
  }

  // ----- main results -----

  /** A query with whole minutes, no negated status and a sort key yields no filter that fails one of the conditions. */
  lemma NeverBack(f: Filter, q: Query)
    requires q.sinceMs.Some? ==> q.sinceMs.value % MINUTE == 0
    requires WholeMinutes(f.sinceMs) && Natural(f.limit) ==> q.negStatuses == {} && (q.sort.Some? ==> q.sort.value.By?)
    requires !Printable(f)
    ensures Applied(q) != f
  {
  }

  /** What is printed of the free text is its trimmed form. */
  lemma BlankPrintsNothing(f: Filter, g: Filter)
    requires Trimmed(f.query) == "" && g == f.(query := "")
    ensures QueryString(f) == QueryString(g)
  {
    assert TailParts(f) == TailParts(g);
  }

  /** When the filter without its free text comes back. */
  predicate Printable(f: Filter) {
    f.sort.By? && f.statuses != {} && WholeMinutes(f.sinceMs) && Natural(f.limit)
  }

  lemma PrintedHonest(f: Filter, q: Query)
    requires f.query == "" && q == ParseQuery(QueryString(f))
    ensures q.sinceMs.Some? ==> q.sinceMs.value % MINUTE == 0
    ensures WholeMinutes(f.sinceMs) && Natural(f.limit) ==> q.negStatuses == {} && (q.sort.Some? ==> q.sort.value.By?)
  {
    var s := QueryString(f);
    ParseHonest(s);
    if WholeMinutes(f.sinceMs) && Natural(f.limit) {
      PrintedTame(f);
      TameLacks(s);
    }
  }

  lemma PlainPrintParse(f: Filter, q: Query)
    requires f.query == "" && q == ParseQuery(QueryString(f))
    ensures Printable(f) ==> Applied(q) == f
    ensures !Printable(f) ==> forall text :: Applied(q) != f.(query := text)
  {
    if Printable(f) {
      PrintedComesBack(f);
    } else {
      PrintedHonest(f, q);
      forall text ensures Applied(q) != f.(query := text) {
        NeverBack(f.(query := text), q);
      }
    }
  }

  /**
   Printing a filter and applying what was printed gives the filter back exactly
   when its free text is empty and not just blank, its sort is one of the keys, some
   status is chosen, the window is none or whole minutes, and the limit is none or
   natural. An empty status set prints "status:", which reads as nothing.
   */
  lemma PrintParseIff(f: Filter)
    requires Trimmed(f.query) == ""
    ensures Applied(ParseQuery(QueryString(f))) == f
            <==> f.query == "" && f.sort.By? && f.statuses != {} && WholeMinutes(f.sinceMs) && Natural(f.limit)
  {
    var g := f.(query := "");
    BlankPrintsNothing(f, g);
    PlainPrintParse(g, ParseQuery(QueryString(g)));
    assert f == g.(query := f.query);
  }

  /**
   Parse, print, parse again: on every input whose free text is at most blank, the
   second parse changes nothing, unless the input sorts by an inherited name, negates
   all four statuses, or quotes blanks, which are not printed.
   */
  lemma ParsePrintParse(input: string, f: Filter)
    requires f == Applied(ParseQuery(input)) && Trimmed(f.query) == ""
    ensures Applied(ParseQuery(QueryString(f))) == f <==> f.query == "" && f.sort.By? && f.statuses != {}
  {
    ParseHonest(input);
    PrintParseIff(f);
  }

  // ----- what an empty status set costs -----

  /** A status field whose values name no status is one turn without tokens. */
  lemma SwallowedField(s: string)
    requires s == "status: spiking"
    ensures Lettered(s) && Alt(s, 0, FIELDS) == Some(6) && Around(s, 6, ':') == Some(8) && s[8..] == "spiking" + ""
  {
    StatusHead(s, " spiking");
    AltIs(s, FIELDS, 1);
    RunIs(s, 6, 6, Space);
    assert s[7] == ' ' && s[8] == 's';
    RunIs(s, 7, 8, Space);
  }

  lemma SwallowedTokens(s: string)
    requires LitAt(s, 0, "status") && !LitAt(s, 0, "level")
    ensures FieldTokens(s, ["spiking"]) == []
  {
    LowerSame("spiking");
    assert ["spiking"][1..] == [];
    assert StatusesIn(["spiking"]) == [];
  }

  lemma SwallowingField(s: string)
    requires Alt(s, 0, FIELDS) == Some(6) && Around(s, 6, ':') == Some(8) && s[8..] == "spiking" + ""
    requires LitAt(s, 0, "status") && !LitAt(s, 0, "level")
    ensures FieldTurn(s) == Some(Turn([], 15))
  {
    var values := ["spiking"];
    assert Join(values, ",") == "spiking";
    FieldList(s, 8, 15, values, "spiking", "", "");
    FieldCases(s, 6, 8, 15, values);
    SwallowedTokens(s);
  }

  lemma SwallowingTurn(s: string, b: bool)
    requires s == "status: spiking"
    ensures Branches(s, b) == Turn([], 15)
  {
    SwallowedField(s);
    StatusHead(s, " spiking");
    SwallowingField(s);
    OnlyField(s, b);
  }

  lemma SwallowingLine(s: string)
    requires s == "status: spiking"
    ensures ParseQuery(s) == NO_QUERY
  {
    BranchesConsume();
    SwallowingTurn(s, false);
    LexStep(Branches, s, 0, false, Turn([], 15), "", 15, false, [], Tokens(s));
  }

  lemma EmptyStatusPart(f: Filter)
    requires f.statuses == {}
    ensures StatusPart(f) == ["status:"]
  {
    AmongStatuses(STATUSES, {});
    assert StatusesAmong(STATUSES, {}) == [];
    assert "status:" + "" == "status:";
  }

  lemma FlagAlone(f: Filter)
    requires StatusPart(f) == ["status:"]
    requires f == Filter("", {}, {}, None, true, By(Recent), None, false, false)
    ensures FacetParts(f) == ["status:"] && FlagParts(f) == ["spiking"] && TailParts(f) == []
  {
  }

  lemma Spelled()
    ensures "status:" + " " + "spiking" == "status: spiking"
  {
  }

  lemma TwoParts(a: string, b: string)
    ensures Join([a] + [b] + [], " ") == a + " " + b
  {
    var parts := [a] + [b] + [];
    assert parts[1..] == [b];
  }

  lemma EmptyStatusLine(f: Filter)
    requires f == Filter("", {}, {}, None, true, By(Recent), None, false, false)
    ensures QueryString(f) == "status: spiking"
  {
    EmptyStatusPart(f);
    FlagAlone(f);
    TwoParts("status:", "spiking");
    Spelled();
  }

  /**
   With no status chosen the printed "status:" also takes the next part for its
   value: "only spiking" is lost too.
   */
  lemma EmptyStatusesTakeTheNextPart(f: Filter)
    requires f == Filter("", {}, {}, None, true, By(Recent), None, false, false)
    ensures Applied(ParseQuery(QueryString(f))) == f.(statuses := DEFAULT_STATUSES, spikingOnly := false)
  {
    EmptyStatusLine(f);
    SwallowingLine(QueryString(f));
    assert Applied(NO_QUERY).query == "";
  }
}
