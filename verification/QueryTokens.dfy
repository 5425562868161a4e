/**
 What `buildQuery` makes of a list of tokens, field by field: which tokens a field
 comes from, and what a minus before them does.
 */
module QueryTokens {
  import opened Filters
  import opened QueryBridge
  import opened QueryParser
  import opened Wrappers
  import Schema

  /** What a token can say. */
  datatype Mark =
    | LevelMark(l: Level)
    | StatusMark(s: Status)
    | SavedMark(saved: string)
    | KeywordMark(keyword: Keyword)
    | AnyTime
    | AnySort
    | AnyLimit
    | AnySaved
    | AnySave
    | AnyForget

  predicate Says(t: Token, m: Mark) {
    match m
    case LevelMark(l) => t.LevelToken? && l in t.levels
    case StatusMark(s) => t.StatusToken? && s in t.statuses
    case SavedMark(saved) => t.SavedToken? && t.name == saved
    case KeywordMark(k) => t.KeywordToken? && t.keyword == k
    case AnyTime => t.TimeToken?
    case AnySort => t.SortToken?
    case AnyLimit => t.LimitToken?
    case AnySaved => t.SavedToken?
    case AnySave => t.SaveToken?
    case AnyForget => t.ForgetToken?
  }

  /** The token before this one is a minus. */
  predicate AfterMinus(ts: seq<Token>, k: int) {
    0 < k <= |ts| && ts[k - 1].NegToken?
  }

  /** Some token says `m`, right after a minus or not. */
  ghost predicate Said(ts: seq<Token>, m: Mark, minus: bool) {
    exists k :: 0 <= k < |ts| && Says(ts[k], m) && AfterMinus(ts, k) == minus
  }

  /** The last token that says `m` without a minus, or -1. */
  function LastPlain(ts: seq<Token>, m: Mark): (k: int)
    ensures -1 <= k < |ts|
    ensures k >= 0 ==> Says(ts[k], m) && !AfterMinus(ts, k)
    ensures forall j :: k < j < |ts| && Says(ts[j], m) ==> AfterMinus(ts, j)
  {
    LastPlainBefore(ts, m, |ts|)
  }

  function LastPlainBefore(ts: seq<Token>, m: Mark, n: nat): (k: int)
    requires n <= |ts|
    ensures -1 <= k < n
    ensures k >= 0 ==> Says(ts[k], m) && !AfterMinus(ts, k)
    ensures forall j :: k < j < n && Says(ts[j], m) ==> AfterMinus(ts, j)
  {
    if n == 0 then -1
    else if Says(ts[n - 1], m) && !AfterMinus(ts, n - 1) then n - 1
    else LastPlainBefore(ts, m, n - 1)
  }

  /** The last token that says `m`, or -1. */
  function LastSaid(ts: seq<Token>, m: Mark): (k: int)
    ensures -1 <= k < |ts|
    ensures k >= 0 ==> Says(ts[k], m)
    ensures forall j :: k < j < |ts| ==> !Says(ts[j], m)
  {
    if ts == [] then -1
    else if Says(ts[|ts| - 1], m) then |ts| - 1
    else LastSaid(ts[..|ts| - 1], m)
  }

  /** The texts, words, tags and urls, each in the order they were typed. */
  function TextsOf(ts: seq<Token>): seq<Matcher> {
    if ts == [] then []
    else
      var before, t := TextsOf(ts[..|ts| - 1]), ts[|ts| - 1];
      if t.TextToken? then before + [Matcher(t.text, t.isPattern)] else before
  }

  function WordsOf(ts: seq<Token>): seq<string> {
    if ts == [] then []
    else
      var before, t := WordsOf(ts[..|ts| - 1]), ts[|ts| - 1];
      if t.WordToken? then before + [t.word] else before
  }

  function TagsOf(ts: seq<Token>): seq<TagFilter> {
    if ts == [] then []
    else
      var before, t := TagsOf(ts[..|ts| - 1]), ts[|ts| - 1];
      if t.TagToken? then before + [TagFilter(t.key, LowerEach(t.values))] else before
  }

  function UrlsOf(ts: seq<Token>): seq<Matcher> {
    if ts == [] then []
    else
      var before, t := UrlsOf(ts[..|ts| - 1]), ts[|ts| - 1];
      if t.UrlToken? then before + [Matcher(t.url, t.isPattern)] else before
  }

  // ----- one token more -----

  lemma SaidSnoc(ts: seq<Token>, n: nat, m: Mark, minus: bool)
    requires n + 1 == |ts|
    ensures Said(ts, m, minus) <==> Said(ts[..n], m, minus) || (Says(ts[n], m) && AfterMinus(ts, n) == minus)
  {
    if Said(ts[..n], m, minus) {
      var k :| 0 <= k < n && Says(ts[..n][k], m) && AfterMinus(ts[..n], k) == minus;
      assert Says(ts[k], m) && AfterMinus(ts, k) == minus;
    }
    if Said(ts, m, minus) {
      var k :| 0 <= k < |ts| && Says(ts[k], m) && AfterMinus(ts, k) == minus;
      if k < n {
        assert Says(ts[..n][k], m) && AfterMinus(ts[..n], k) == minus;
      }
    }
  }

  lemma {:induction false} PlainBefore(ts: seq<Token>, n: nat, m: Mark, i: nat)
    requires n + 1 == |ts| && i <= n
    ensures LastPlainBefore(ts, m, i) == LastPlainBefore(ts[..n], m, i)
  {
    if i > 0 {
      PlainBefore(ts, n, m, i - 1);
    }
  }

  lemma PlainSnoc(ts: seq<Token>, n: nat, m: Mark)
    requires n + 1 == |ts|
    ensures LastPlain(ts, m) == if Says(ts[n], m) && !AfterMinus(ts, n) then n else LastPlain(ts[..n], m)
  {
    PlainBefore(ts, n, m, n);
  }

  lemma BuildSnoc(ts: seq<Token>, n: nat, before: seq<Token>)
    requires n + 1 == |ts| && before == ts[..n]
    ensures Build(ts) == Put(Build(before), ts[n], AfterMinus(ts, n))
  {
  }

  // ----- what one token does to a field -----

  lemma PutLevel(q: Query, t: Token, minus: bool, l: Level)
    ensures l in Put(q, t, minus).negLevels <==> l in q.negLevels || (Says(t, LevelMark(l)) && minus)
    ensures l in Put(q, t, minus).levels <==> l in q.levels || (Says(t, LevelMark(l)) && !minus)
  {
  }

  lemma PutStatus(q: Query, t: Token, minus: bool, s: Status)
    ensures s in Put(q, t, minus).negStatuses <==> s in q.negStatuses || (Says(t, StatusMark(s)) && minus)
    ensures s in Put(q, t, minus).statuses <==> s in q.statuses || (Says(t, StatusMark(s)) && !minus)
  {
  }

  lemma PutSaved(q: Query, t: Token, minus: bool, name: string)
    ensures name in Put(q, t, minus).negSavedNames <==> name in q.negSavedNames || (Says(t, SavedMark(name)) && minus)
    ensures Put(q, t, minus).recallSaved == if Says(t, AnySaved) && !minus then Some(t.name) else q.recallSaved
  {
  }

  lemma PutNumbers(q: Query, t: Token, minus: bool)
    ensures Put(q, t, minus).sinceMs == if Says(t, AnyTime) then Some(t.ms) else q.sinceMs
    ensures Put(q, t, minus).sort == if Says(t, AnySort) then Some(t.axis) else q.sort
    ensures Put(q, t, minus).limit == if Says(t, AnyLimit) then Some(t.n) else q.limit
  {
  }

  lemma PutCommands(q: Query, t: Token, minus: bool)
    ensures Put(q, t, minus).saveAs == if Says(t, AnySave) then Some(t.name) else q.saveAs
    ensures Put(q, t, minus).forgetName == if Says(t, AnyForget) then Some(t.name) else q.forgetName
  {
  }

  lemma PutFlags(q: Query, t: Token, minus: bool)
    ensures Put(q, t, minus).spiking <==> q.spiking || Says(t, KeywordMark(Spiking))
    ensures Put(q, t, minus).newOnly <==> q.newOnly || Says(t, KeywordMark(New))
    ensures Put(q, t, minus).staleOnly <==> q.staleOnly || Says(t, KeywordMark(StaleWord))
  {
  }

  lemma PutLists(q: Query, t: Token, minus: bool)
    ensures Put(q, t, minus).text == if t.TextToken? then q.text + [Matcher(t.text, t.isPattern)] else q.text
    ensures Put(q, t, minus).words == if t.WordToken? then q.words + [t.word] else q.words
    ensures Put(q, t, minus).tags == if t.TagToken? then q.tags + [TagFilter(t.key, LowerEach(t.values))] else q.tags
    ensures Put(q, t, minus).urls == if t.UrlToken? then q.urls + [Matcher(t.url, t.isPattern)] else q.urls
  {
  }

  // ----- the fields -----

  /** A level named after a minus is unwanted, one named without is wanted, and no others are. */
  lemma {:induction false} LevelsMean(ts: seq<Token>, l: Level)
    ensures l in Build(ts).negLevels <==> Said(ts, LevelMark(l), true)
    ensures l in Build(ts).levels <==> Said(ts, LevelMark(l), false)
  {
    if ts != [] {
      var n := |ts| - 1;
      var before := ts[..n];
      LevelsMean(before, l);
      BuildSnoc(ts, n, before);
      PutLevel(Build(before), ts[n], AfterMinus(ts, n), l);
      SaidSnoc(ts, n, LevelMark(l), true);
      SaidSnoc(ts, n, LevelMark(l), false);
    }
  }

  lemma {:induction false} StatusesMean(ts: seq<Token>, s: Status)
    ensures s in Build(ts).negStatuses <==> Said(ts, StatusMark(s), true)
    ensures s in Build(ts).statuses <==> Said(ts, StatusMark(s), false)
  {
    if ts != [] {
      var n := |ts| - 1;
      var before := ts[..n];
      StatusesMean(before, s);
      BuildSnoc(ts, n, before);
      PutStatus(Build(before), ts[n], AfterMinus(ts, n), s);
      SaidSnoc(ts, n, StatusMark(s), true);
      SaidSnoc(ts, n, StatusMark(s), false);
    }
  }

  /** A saved filter named after a minus is excluded; the last one named without is recalled. */
  lemma {:induction false} SavedMeans(ts: seq<Token>, name: string)
    ensures name in Build(ts).negSavedNames <==> Said(ts, SavedMark(name), true)
    ensures var k := LastPlain(ts, AnySaved);
            Build(ts).recallSaved == if k >= 0 then Some(ts[k].name) else None
  {
    if ts != [] {
      var n := |ts| - 1;
      var before := ts[..n];
      SavedMeans(before, name);
      BuildSnoc(ts, n, before);
      PutSaved(Build(before), ts[n], AfterMinus(ts, n), name);
      SaidSnoc(ts, n, SavedMark(name), true);
      PlainSnoc(ts, n, AnySaved);
    }
  }

  /** The last window, sort and limit count; a minus makes no difference to them. */
  lemma {:induction false} NumbersMean(ts: seq<Token>)
    ensures var q := Build(ts);
            var time, sort, limit := LastSaid(ts, AnyTime), LastSaid(ts, AnySort), LastSaid(ts, AnyLimit);
            && q.sinceMs == (if time >= 0 then Some(ts[time].ms) else None)
            && q.sort == (if sort >= 0 then Some(ts[sort].axis) else None)
            && q.limit == (if limit >= 0 then Some(ts[limit].n) else None)
  {
    if ts != [] {
      var n := |ts| - 1;
      var before := ts[..n];
      NumbersMean(before);
      BuildSnoc(ts, n, before);
      PutNumbers(Build(before), ts[n], AfterMinus(ts, n));
    }
  }

  /** So does the last name to save under and the last to forget. */
  lemma {:induction false} CommandsMean(ts: seq<Token>)
    ensures var q := Build(ts);
            var save, forget := LastSaid(ts, AnySave), LastSaid(ts, AnyForget);
            && q.saveAs == (if save >= 0 then Some(ts[save].name) else None)
            && q.forgetName == (if forget >= 0 then Some(ts[forget].name) else None)
  {
    if ts != [] {
      var n := |ts| - 1;
      var before := ts[..n];
      CommandsMean(before);
      BuildSnoc(ts, n, before);
      PutCommands(Build(before), ts[n], AfterMinus(ts, n));
    }
  }

  /** Each flag is set exactly by its keyword. */
  lemma {:induction false} FlagsMean(ts: seq<Token>)
    ensures Build(ts).spiking <==> LastSaid(ts, KeywordMark(Spiking)) >= 0
    ensures Build(ts).newOnly <==> LastSaid(ts, KeywordMark(New)) >= 0
    ensures Build(ts).staleOnly <==> LastSaid(ts, KeywordMark(StaleWord)) >= 0
  {
    if ts != [] {
      var n := |ts| - 1;
      var before := ts[..n];
      FlagsMean(before);
      BuildSnoc(ts, n, before);
      PutFlags(Build(before), ts[n], AfterMinus(ts, n));
    }
  }

  /** Texts, words, tags and urls are kept in the order they were typed. */
  lemma {:induction false} ListsMean(ts: seq<Token>)
    ensures Build(ts).text == TextsOf(ts) && Build(ts).words == WordsOf(ts)
    ensures Build(ts).tags == TagsOf(ts) && Build(ts).urls == UrlsOf(ts)
  {
    if ts != [] {
      var n := |ts| - 1;
      var before := ts[..n];
      ListsMean(before);
      BuildSnoc(ts, n, before);
      PutLists(Build(before), ts[n], AfterMinus(ts, n));
    }
  }

  // ----- the filter they make -----

  /** Some token names a level, right after a minus or not. */
  ghost predicate AnyLevel(ts: seq<Token>, minus: bool) {
    exists l :: Said(ts, LevelMark(l), minus)
  }

  ghost predicate AnyStatus(ts: seq<Token>, minus: bool) {
    exists s :: Said(ts, StatusMark(s), minus)
  }

  lemma LevelsNamed(ts: seq<Token>, q: Query)
    requires q == Build(ts)
    ensures q.levels == {} <==> !AnyLevel(ts, false)
    ensures q.negLevels == {} <==> !AnyLevel(ts, true)
  {
    forall l ensures l in q.levels <==> Said(ts, LevelMark(l), false) {
      LevelsMean(ts, l);
    }
    forall l ensures l in q.negLevels <==> Said(ts, LevelMark(l), true) {
      LevelsMean(ts, l);
    }
  }

  lemma StatusesNamed(ts: seq<Token>, q: Query)
    requires q == Build(ts)
    ensures q.statuses == {} <==> !AnyStatus(ts, false)
    ensures q.negStatuses == {} <==> !AnyStatus(ts, true)
  {
    forall s ensures s in q.statuses <==> Said(ts, StatusMark(s), false) {
      StatusesMean(ts, s);
    }
    forall s ensures s in q.negStatuses <==> Said(ts, StatusMark(s), true) {
      StatusesMean(ts, s);
    }
  }

  /**
   A level passes the filter when it is named; when none is named but some after a
   minus, when it is not one of those; and no level is asked for when none is named at all.
   */
  lemma LevelsShown(ts: seq<Token>, l: Level)
    ensures l in Applied(Build(ts)).levels
            <==> if AnyLevel(ts, false) then Said(ts, LevelMark(l), false)
                 else AnyLevel(ts, true) && !Said(ts, LevelMark(l), true)
  {
    LevelsNamed(ts, Build(ts));
    LevelsMean(ts, l);
  }

  /** The same for statuses, but that naming none at all asks for the unresolved ones. */
  lemma StatusesShown(ts: seq<Token>, s: Status)
    ensures s in Applied(Build(ts)).statuses
            <==> if AnyStatus(ts, false) then Said(ts, StatusMark(s), false)
                 else if AnyStatus(ts, true) then !Said(ts, StatusMark(s), true)
                 else s == Schema.Unresolved
  {
    StatusesNamed(ts, Build(ts));
    StatusesMean(ts, s);
  }

  /** The filter's other fields are those of the query; without a sort the newest activity comes first. */
  lemma OthersShown(q: Query, f: Filter)
    requires f == Applied(q)
    ensures f.sort == if q.sort.Some? then q.sort.value else By(Recent)
    ensures f.sinceMs.Some? == q.sinceMs.Some? && (q.sinceMs.Some? ==> f.sinceMs.value == q.sinceMs.value)
    ensures f.limit.Some? == q.limit.Some? && (q.limit.Some? ==> f.limit.value == q.limit.value)
    ensures f.spikingOnly == q.spiking && f.newOnly == q.newOnly && f.staleOnly == q.staleOnly
    ensures f.query == Join(MatcherTexts(q.text) + q.words, " ")
  {
  }
}
