/**
 `queryParser.ts`: the filter query language. Every branch of `tokenize` looks at
 the rest of the input from the cursor on, so each is a function of that suffix;
 token spans are relative to it until the loop shifts them.
 */
module QueryParser {
  import opened Decimals
  import opened Filters
  import opened Scanning
  import opened Wrappers
  import Schema

  // ----- tokens -----

  /** `InheritedKeyword`: the keyword table is a plain object, so it has two keys of its prototype too. */
  datatype Keyword = Spiking | New | StaleWord | Crashing | InheritedKeyword(name: string)

  datatype Operator = And | Or | Not

  datatype Token =
    | LevelToken(levels: seq<Level>)
    | StatusToken(statuses: seq<Status>)
    | TimeToken(ms: nat)
    | KeywordToken(keyword: Keyword)
    | SortToken(axis: SortValue)
    | LimitToken(n: nat)
    | FillerToken
    | OpToken(op: Operator)
    | NegToken
    | TextToken(text: string, isPattern: bool)
    | TagToken(key: Option<string>, values: seq<string>)
    | UrlToken(url: string, isPattern: bool)
    | SavedToken(name: string)
    | SaveToken(name: string)
    | ForgetToken(name: string)
    | WordToken(word: string)

  datatype Spanned = Spanned(token: Token, from: nat, to: nat)

  /** One turn of the loop: the tokens pushed and where the cursor goes. */
  datatype Turn = Turn(tokens: seq<Spanned>, next: nat)

  /** What one value of an "is:" or "has:" list can be. */
  predicate IsFlag(t: Token) {
    t.LevelToken? || t.StatusToken? || t.KeywordToken?
  }

  /** Two values of one list: the text at `i` begins with "text", or with "is" or "has". */
  predicate OneList(a: Token, b: Token, s: string, i: int) {
    0 <= i && ((LitAt(s, i, "text") && a.TextToken? && b.TextToken?)
               || ((LitAt(s, i, "is") || LitAt(s, i, "has")) && IsFlag(a) && IsFlag(b)))
  }

  /** The second span starts after the first, or both are the same span of one list in `s`, which starts at `at`. */
  predicate Apart(a: Spanned, b: Spanned, s: string, at: nat) {
    a.to <= b.from || (a.from == b.from && a.to == b.to && OneList(a.token, b.token, s, a.from - at))
  }

  /**
   Spans are non-empty, inside the text `s` that starts at offset `at`, in order and
   disjoint, except that the values of one text:, is: or has: list share one span.
   */
  ghost predicate GoodSpans(ts: seq<Spanned>, s: string, at: nat) {
    && (forall k :: 0 <= k < |ts| ==> at <= ts[k].from < ts[k].to <= at + |s|)
    && (forall j, k {:trigger Apart(ts[j], ts[k], s, at)} :: 0 <= j < k < |ts| ==> Apart(ts[j], ts[k], s, at))
  }

  /** The word `name` stands somewhere in `s`, in any case. */
  ghost predicate Occurs(s: string, name: string) {
    exists i: nat :: LitAt(s, i, name)
  }

  /** Windows are whole minutes, a minus token comes from a minus sign, a sort that is no key from its name. */
  ghost predicate Honest(t: Token, s: string) {
    && (t.TimeToken? ==> t.ms % MINUTE == 0)
    && (t.NegToken? ==> s != "" && s[0] == '-')
    && (t.SortToken? && t.axis.Inherited? ==> OnPrototype(t.axis.name) && Occurs(s, t.axis.name))
  }

  ghost predicate GoodTurn(t: Turn, s: string) {
    && 0 < t.next <= |s|
    && GoodSpans(t.tokens, s, 0)
    && (forall k :: 0 <= k < |t.tokens| ==> t.tokens[k].to <= t.next)
    && forall k :: 0 <= k < |t.tokens| ==> Honest(t.tokens[k].token, s)
  }

  function One(s: string, token: Token, next: nat): (t: Turn)
    requires 0 < next <= |s| && Honest(token, s)
    ensures GoodTurn(t, s)
  {
    Turn([Spanned(token, 0, next)], next)
  }

  /** Two tokens on spans of their own, the second at the end. */
  function Pair(s: string, first: Token, end: nat, second: Token, from: nat, next: nat): (t: Turn)
    requires 0 < end <= from < next <= |s| && Honest(first, s) && Honest(second, s)
    ensures GoodTurn(t, s)
  {
    Turn([Spanned(first, 0, end), Spanned(second, from, next)], next)
  }

  // ----- names -----

  const LEVELS: seq<Level> := [Fatal, Error, Warning, Info, Debug]

  const STATUSES: seq<Status> := [Schema.Unresolved, Schema.Resolved, Schema.Muted, Schema.Ignored]

  /** A level's name, without plural. */
  function ExactLevel(w: string): Option<Level> {
    if w == "fatal" then Some(Fatal)
    else if w == "error" then Some(Error)
    else if w == "warning" then Some(Warning)
    else if w == "info" then Some(Info)
    else if w == "debug" then Some(Debug)
    else None
  }

  /** A level's name or its plural. */
  function LevelOf(w: string): Option<Level> {
    if ExactLevel(w).Some? then ExactLevel(w)
    else if w != "" && w[|w| - 1] == 's' then ExactLevel(w[..|w| - 1])
    else None
  }

  function StatusOf(w: string): Option<Status> {
    if w == "unresolved" then Some(Schema.Unresolved)
    else if w == "resolved" then Some(Schema.Resolved)
    else if w == "muted" then Some(Schema.Muted)
    else if w == "ignored" then Some(Schema.Ignored)
    else None
  }

  /** A property that every plain object inherits under an all-lower-case name. */
  predicate OnPrototype(w: string) {
    w == "constructor" || w == "__proto__"
  }

  /** The table of `sort:` values. */
  function SortOf(w: string): Option<SortValue> {
    if w in ["count", "frequent", "noisy", "top", "loudest"] then Some(By(Count))
    else if w in ["recent", "newest", "latest"] then Some(By(Recent))
    else if w in ["stale", "oldest"] then Some(By(Stale))
    else if OnPrototype(w) then Some(Inherited(w))
    else None
  }

  /** The table of bare keywords. */
  function KeywordOf(w: string): Option<Keyword> {
    if w == "spiking" then Some(Spiking)
    else if w in ["new", "fresh"] then Some(New)
    else if w in ["stale", "old", "zombie"] then Some(StaleWord)
    else if OnPrototype(w) then Some(InheritedKeyword(w))
    else None
  }

  /** The keywords of `is:` and `has:`, an array search. */
  function ExactKeyword(w: string): Option<Keyword> {
    if w == "spiking" then Some(Spiking)
    else if w == "new" then Some(New)
    else if w == "stale" then Some(StaleWord)
    else if w == "crashing" then Some(Crashing)
    else None
  }

  function SortAlias(w: string): Option<SortKey> {
    if w in ["noisy", "top", "loudest", "frequent"] then Some(Count)
    else if w in ["newest", "latest"] then Some(Recent)
    else None
  }

  predicate IsFiller(w: string) {
    w in ["issues", "issue", "results", "result", "events", "event", "items", "item", "rows"]
  }

  // ----- "save as :name", "forget @name" -----

  function SaveTurn(s: string): (r: Option<Turn>)
    ensures r.Some? ==> GoodTurn(r.value, s)
  {
    if !LitAt(s, 0, "save") then None
    else
      match Gap(s, 4)
      case None => None
      case Some(i) =>
        if !LitAt(s, i, "as") then None
        else
          match Around(s, i + 2, ':')
          case None => None
          case Some(j) =>
            var k := Run(s, j, Name);
            if k > j then Some(One(s, SaveToken(s[j..k]), k)) else None
  }

  function ForgetTurn(s: string): (r: Option<Turn>)
    ensures r.Some? ==> GoodTurn(r.value, s)
  {
    match Alt(s, 0, ["forget", "unsave"])
    case None => None
    case Some(w) =>
      match Gap(s, w)
      case None => None
      case Some(i) =>
        var j := if CharAt(s, i, '@') then i + 1 else i;
        var k := Run(s, j, Name);
        if k > j then Some(One(s, ForgetToken(s[j..k]), k)) else None
  }

  // ----- "top N", "most recent N", "limit N" -----

  /** `\s+(\d+)\b` from `i`: where the digits start and end. */
  function SpacedNumber(s: string, i: nat): (r: Option<(nat, nat)>)
    requires i <= |s|
    ensures r.Some? ==> i < r.value.0 < r.value.1 <= |s| && AllDigits(s[r.value.0..r.value.1])
  {
    match Gap(s, i)
    case None => None
    case Some(j) =>
      var k := Run(s, j, Digit);
      if k > j && Boundary(s, k) then Some((j, k)) else None
  }

  function TopTurn(s: string): (r: Option<Turn>)
    ensures r.Some? ==> GoodTurn(r.value, s)
  {
    match Alt(s, 0, ["top", "first"])
    case None => None
    case Some(w) =>
      match SpacedNumber(s, w)
      case None => None
      case Some((j, k)) =>
        var limit := LimitToken(Num(s[j..k]));
        Some(if LitAt(s, 0, "top") then Pair(s, SortToken(By(Count)), w, limit, j, k)
             else Turn([Spanned(limit, j, k)], k))
  }

  const MOST_WORDS: seq<string> := ["recent", "frequent", "spiking", "noisy", "new", "old", "stale"]

  function MostAxis(s: string, i: nat): SortKey {
    if LitAt(s, i, "recent") || LitAt(s, i, "new") then Recent
    else if LitAt(s, i, "old") || LitAt(s, i, "stale") then Stale
    else Count
  }

  function MostTurn(s: string): (r: Option<Turn>)
    ensures r.Some? ==> GoodTurn(r.value, s)
  {
    if !LitAt(s, 0, "most") then None
    else
      match Gap(s, 4)
      case None => None
      case Some(i) =>
        match Alt(s, i, MOST_WORDS)
        case None => None
        case Some(w) =>
          var sort := SortToken(By(MostAxis(s, i)));
          match SpacedNumber(s, w)
          case Some((j, k)) => Some(Pair(s, sort, w, LimitToken(Num(s[j..k])), j, k))
          case None => if Boundary(s, w) then Some(One(s, sort, w)) else None
  }

  /** `limit\s*:?\s*(\d+)\b` */
  function LimitTurn(s: string): (r: Option<Turn>)
    ensures r.Some? ==> GoodTurn(r.value, s)
  {
    if !LitAt(s, 0, "limit") then None
    else
      var i := Run(s, 5, Space);
      var j := if CharAt(s, i, ':') then Run(s, i + 1, Space) else i;
      var k := Run(s, j, Digit);
      if k > j && Boundary(s, k) then Some(One(s, LimitToken(Num(s[j..k])), k)) else None
  }

  // ----- time phrases -----

  const MINUTE: nat := 60 * 1000

  const HOUR: nat := 60 * MINUTE

  const DAY: nat := 24 * HOUR

  /** `unitParse`, given where the unit's name starts. */
  function UnitMs(s: string, i: nat): (r: nat)
    ensures r in {MINUTE, HOUR, DAY}
  {
    if LitAt(s, i, "m") then MINUTE else if LitAt(s, i, "h") then HOUR else DAY
  }

  const UNITS: seq<string> := ["m", "min", "minute", "minutes", "h", "hr", "hour", "hours", "d", "day", "days"]

  /** Lacks "minute". */
  const COMPACT_UNITS: seq<string> := ["m", "min", "minutes", "h", "hr", "hour", "hours", "d", "day", "days"]

  /** A length of time and where its phrase ends. */
  datatype Phrase = Phrase(ms: nat, end: nat)

  ghost predicate GoodPhrase(p: Option<Phrase>, n: nat) {
    p.Some? ==> 0 < p.value.end <= n && p.value.ms % MINUTE == 0
  }

  function Fixed(end: Option<nat>, ms: nat): Option<Phrase> {
    match end
    case None => None
    case Some(e) => Some(Phrase(ms, e))
  }

  /** `(\d+)\s*(unit)\b` from `i`. */
  function CountUnit(s: string, i: nat, units: seq<string>): (r: Option<Phrase>)
    requires i <= |s| && NoEmptyWord(units)
    ensures r.Some? ==> i < r.value.end <= |s| && r.value.ms % MINUTE == 0
  {
    var j := Run(s, i, Digit);
    if j == i then None
    else
      var u := Run(s, j, Space);
      match AltWord(s, u, units)
      case None => None
      case Some(e) =>
        assert (Num(s[i..j]) * UnitMs(s, u)) % MINUTE == 0 by { WholeMinutes(Num(s[i..j]), UnitMs(s, u)); }
        Some(Phrase(Num(s[i..j]) * UnitMs(s, u), e))
  }

  lemma WholeMinutes(n: nat, unit: nat)
    requires unit in {MINUTE, HOUR, DAY}
    ensures n * unit % MINUTE == 0
  {
    var per := if unit == MINUTE then 1 else if unit == HOUR then 60 else 1440;
    assert n * unit == n * per * MINUTE;
    MultipleOfMinute(n * per);
  }

  lemma MultipleOfMinute(k: nat)
    ensures k * MINUTE % MINUTE == 0
  {
  }

  /** After `first`, a gap, then one of `words` up to a word boundary. */
  function TwoWords(s: string, first: Option<nat>, words: seq<string>): (r: Option<nat>)
    requires (first.Some? ==> first.value <= |s|) && NoEmptyWord(words)
    ensures r.Some? ==> 0 < r.value <= |s|
  {
    match first
    case None => None
    case Some(i) =>
      match Gap(s, i)
      case None => None
      case Some(j) => AltWord(s, j, words)
  }

  /** After position `i`, a gap, then one of `words`. */
  function ThenWord(s: string, first: Option<nat>, words: seq<string>): (r: Option<nat>)
    requires (first.Some? ==> first.value <= |s|) && NoEmptyWord(words)
    ensures r.Some? ==> 0 < r.value <= |s|
  {
    match first
    case None => None
    case Some(i) =>
      match Gap(s, i)
      case None => None
      case Some(j) => Alt(s, j, words)
  }

  /** After position `i`, a gap, then a number and a unit. */
  function ThenCount(s: string, first: Option<nat>): (r: Option<Phrase>)
    requires first.Some? ==> first.value <= |s|
    ensures GoodPhrase(r, |s|)
  {
    match first
    case None => None
    case Some(i) =>
      match Gap(s, i)
      case None => None
      case Some(j) => CountUnit(s, j, UNITS)
  }

  /** An optional `\s+ago` up to a word boundary. */
  function MaybeAgo(s: string, p: Option<Phrase>): (r: Option<Phrase>)
    requires GoodPhrase(p, |s|)
    ensures GoodPhrase(r, |s|)
  {
    match p
    case None => None
    case Some(q) =>
      match TwoWords(s, Some(q.end), ["ago"])
      case Some(e) => Some(q.(end := e))
      case None => p
  }

  function MustAgo(s: string, p: Option<Phrase>): (r: Option<Phrase>)
    requires GoodPhrase(p, |s|)
    ensures GoodPhrase(r, |s|)
  {
    match p
    case None => None
    case Some(q) => Fixed(TwoWords(s, Some(q.end), ["ago"]), q.ms)
  }

  function OrElse(a: Option<Phrase>, b: Option<Phrase>): Option<Phrase> {
    if a.Some? then a else b
  }

  const LAST_PAST: seq<string> := ["last", "past"]

  function NightPhrase(s: string): (r: Option<Phrase>)
    ensures GoodPhrase(r, |s|)
  {
    var night := TwoWords(s, Alt(s, 0, ["last"]), ["night"]);
    Fixed(if night.Some? then night else AltWord(s, 0, ["overnight"]), 14 * HOUR)
  }

  function MorningPhrase(s: string): (r: Option<Phrase>)
    ensures GoodPhrase(r, |s|)
  {
    Fixed(TwoWords(s, Alt(s, 0, ["this"]), ["morning"]), 12 * HOUR)
  }

  function WeekPhrase(s: string): (r: Option<Phrase>)
    ensures GoodPhrase(r, |s|)
  {
    Fixed(TwoWords(s, Alt(s, 0, ["this", "past", "last"]), ["week"]), 7 * DAY)
  }

  function MonthPhrase(s: string): (r: Option<Phrase>)
    ensures GoodPhrase(r, |s|)
  {
    Fixed(TwoWords(s, Alt(s, 0, ["this", "past", "last"]), ["month"]), 30 * DAY)
  }

  function YesterdayPhrase(s: string): (r: Option<Phrase>)
    ensures GoodPhrase(r, |s|)
  {
    var since := TwoWords(s, Alt(s, 0, ["since"]), ["yesterday"]);
    Fixed(if since.Some? then since else TwoWords(s, Alt(s, 0, ["past"]), ["day"]), 2 * DAY)
  }

  function FixedPhrases(s: string): (r: Option<Phrase>)
    ensures GoodPhrase(r, |s|)
  {
    OrElse(NightPhrase(s), OrElse(MorningPhrase(s), OrElse(WeekPhrase(s), OrElse(MonthPhrase(s), YesterdayPhrase(s)))))
  }

  /** "in the last 5 m", "the last 5 m", "last 5 m", "since 5 m ago", "5 m ago". */
  function CountPhrases(s: string): (r: Option<Phrase>)
    ensures GoodPhrase(r, |s|)
  {
    var inThe := ThenWord(s, ThenWord(s, Alt(s, 0, ["in", "over", "for"]), ["the"]), LAST_PAST);
    OrElse(ThenCount(s, inThe),
    OrElse(ThenCount(s, ThenWord(s, Alt(s, 0, ["the"]), LAST_PAST)),
    OrElse(ThenCount(s, Alt(s, 0, LAST_PAST)),
    OrElse(MaybeAgo(s, ThenCount(s, Alt(s, 0, ["since"]))),
           MustAgo(s, CountUnit(s, 0, UNITS))))))
  }

  /** "the last hour", "an hour", "today". */
  function WordPhrases(s: string): (r: Option<Phrase>)
    ensures GoodPhrase(r, |s|)
  {
    var the := ThenWord(s, Alt(s, 0, ["the"]), ["last", "past", "this"]);
    var word := if the.Some? then the else Alt(s, 0, ["last", "past", "this"]);
    var article := Alt(s, 0, ["an", "a"]);
    OrElse(UnitWord(s, word, ["minute", "min", "hour", "hr", "day"]),
    OrElse(UnitWord(s, article, ["minute", "hour", "day"]),
    OrElse(Fixed(AltWord(s, 0, ["today"]), DAY),
    OrElse(Fixed(AltWord(s, 0, ["yesterday"]), 2 * DAY),
           Fixed(AltWord(s, 0, ["now"]), 5 * MINUTE)))))
  }

  /** After position `i`, a gap, then a unit: one of them. */
  function UnitWord(s: string, first: Option<nat>, units: seq<string>): (r: Option<Phrase>)
    requires (first.Some? ==> first.value <= |s|) && NoEmptyWord(units)
    ensures GoodPhrase(r, |s|)
  {
    match first
    case None => None
    case Some(i) =>
      match Gap(s, i)
      case None => None
      case Some(j) => Fixed(AltWord(s, j, units), UnitMs(s, j))
  }

  /** The first time pattern that matches. */
  function TimePhrase(s: string): (r: Option<Phrase>)
    ensures GoodPhrase(r, |s|)
  {
    OrElse(FixedPhrases(s), OrElse(CountPhrases(s), OrElse(WordPhrases(s), CountUnit(s, 0, COMPACT_UNITS))))
  }

  function TimeTurn(s: string): (r: Option<Turn>)
    ensures r.Some? ==> GoodTurn(r.value, s)
  {
    match TimePhrase(s)
    case None => None
    case Some(p) => Some(One(s, TimeToken(p.ms), p.end))
  }

  // ----- operators, negation, quotes, saved filters -----

  predicate UpperAt(s: string, w: string) {
    |w| <= |s| && s[..|w|] == w && Boundary(s, |w|)
  }

  function OpTurn(s: string): (r: Option<Turn>)
    ensures r.Some? ==> GoodTurn(r.value, s)
  {
    if UpperAt(s, "AND") then Some(One(s, OpToken(And), 3))
    else if UpperAt(s, "OR") then Some(One(s, OpToken(Or), 2))
    else if UpperAt(s, "NOT") then Some(One(s, OpToken(Not), 3))
    else None
  }

  function NegTurn(s: string): (r: Option<Turn>)
    ensures r.Some? ==> GoodTurn(r.value, s)
  {
    if |s| > 1 && s[0] == '-' && !IsSpace(s[1]) then Some(One(s, NegToken, 1)) else None
  }

  function QuoteAt(s: string, i: nat): (j: nat)
    requires i <= |s|
    ensures i <= j <= |s| && (j < |s| ==> s[j] == '"')
    decreases |s| - i
  {
    if i < |s| && s[i] != '"' then QuoteAt(s, i + 1) else i
  }

  function QuotedTurn(s: string): (r: Option<Turn>)
    ensures r.Some? ==> GoodTurn(r.value, s)
  {
    if !CharAt(s, 0, '"') then None
    else
      var end := QuoteAt(s, 1);
      var raw := s[1..end];
      Some(One(s, TextToken(Unstarred(raw), '*' in raw), if end < |s| then end + 1 else end))
  }

  function SavedTurn(s: string): (r: Option<Turn>)
    ensures r.Some? ==> GoodTurn(r.value, s)
  {
    if !CharAt(s, 0, '@') then None
    else
      var j := Run(s, 1, Name);
      if j > 1 then Some(One(s, SavedToken(s[1..j]), j)) else None
  }

  // ----- tag: url: level: status: text: is: has: sort: -----

  function TagTurn(s: string): (r: Option<Turn>)
    ensures r.Some? ==> GoodTurn(r.value, s)
  {
    if !LitAt(s, 0, "tag") then None
    else
      match Around(s, 3, ':')
      case None => None
      case Some(i) =>
        var j := Run(s, i, Name);
        if j == i then None
        else
          var name := LowerAll(s[i..j]);
          match Around(s, j, ':')
          case Some(k) =>
            var e := CsvEnd(s, k);
            if e > k then Some(One(s, TagToken(Some(name), Split(s[k..e])), e))
            else Some(One(s, TagToken(None, [name]), j))
          case None => Some(One(s, TagToken(None, [name]), j))
  }

  function UrlTurn(s: string): (r: Option<Turn>)
    ensures r.Some? ==> GoodTurn(r.value, s)
  {
    if !LitAt(s, 0, "url") then None
    else
      match Around(s, 3, ':')
      case None => None
      case Some(i) =>
        var close := if CharAt(s, i, '"') then QuoteAt(s, i + 1) else |s|;
        var e := if close < |s| then close + 1 else Run(s, i, NonSpace);
        if e == i then None
        else
          var quoted := s[i] == '"' && s[e - 1] == '"';
          var raw := if !quoted then s[i..e] else if e - 1 > i then s[i + 1..e - 1] else "";
          Some(One(s, UrlToken(Unstarred(raw), '*' in raw), e))
  }

  const FIELDS: seq<string> := ["level", "status", "text", "is", "has", "sort"]

  function LevelsIn(values: seq<string>): seq<Level> {
    if values == [] then []
    else
      var v := LevelOf(LowerAll(values[0]));
      (if v.Some? then [v.value] else []) + LevelsIn(values[1..])
  }

  function StatusesIn(values: seq<string>): seq<Status> {
    if values == [] then []
    else
      var v := StatusOf(LowerAll(values[0]));
      (if v.Some? then [v.value] else []) + StatusesIn(values[1..])
  }

  ghost predicate AllTexts(ts: seq<Token>) {
    forall k :: 0 <= k < |ts| ==> ts[k].TextToken?
  }

  ghost predicate AllFlags(ts: seq<Token>) {
    forall k :: 0 <= k < |ts| ==> IsFlag(ts[k])
  }

  function TextsIn(values: seq<string>): (r: seq<Token>)
    ensures AllTexts(r)
  {
    if values == [] then []
    else [TextToken(Unstarred(values[0]), '*' in values[0])] + TextsIn(values[1..])
  }

  /** What one value of `is:` or `has:` stands for. */
  function Flag(v: string): (r: seq<Token>)
    ensures AllFlags(r)
  {
    var w := LowerAll(v);
    if ExactLevel(w).Some? then [LevelToken([ExactLevel(w).value])]
    else if StatusOf(w).Some? then [StatusToken([StatusOf(w).value])]
    else if ExactKeyword(w).Some? then [KeywordToken(ExactKeyword(w).value)]
    else []
  }

  function FlagsIn(values: seq<string>): (r: seq<Token>)
    ensures AllFlags(r)
  {
    if values == [] then [] else Flag(values[0]) + FlagsIn(values[1..])
  }

  function FieldTokens(s: string, values: seq<string>): (r: seq<Token>)
    ensures forall k :: 0 <= k < |r| ==> !r[k].TimeToken? && !r[k].NegToken?
    ensures forall k :: 0 <= k < |r| && r[k].SortToken? && r[k].axis.Inherited? ==>
              values != [] && r[k].axis.name == LowerAll(values[0]) && OnPrototype(r[k].axis.name)
    ensures forall j, k :: 0 <= j < k < |r| ==> OneList(r[j], r[k], s, 0)
  {
    if LitAt(s, 0, "level") then (if LevelsIn(values) != [] then [LevelToken(LevelsIn(values))] else [])
    else if LitAt(s, 0, "status") then (if StatusesIn(values) != [] then [StatusToken(StatusesIn(values))] else [])
    else if LitAt(s, 0, "text") then TextsIn(values)
    else if LitAt(s, 0, "is") || LitAt(s, 0, "has") then FlagsIn(values)
    else
      var axis := SortOf(if values == [] then "" else LowerAll(values[0]));
      if axis.Some? then [SortToken(axis.value)] else []
  }

  /** All the tokens on one span. */
  function OnSpan(tokens: seq<Token>, to: nat): (r: seq<Spanned>)
    ensures |r| == |tokens|
    ensures forall k :: 0 <= k < |r| ==> r[k] == Spanned(tokens[k], 0, to)
  {
    if tokens == [] then [] else [Spanned(tokens[0], 0, to)] + OnSpan(tokens[1..], to)
  }

  function FieldTurn(s: string): (r: Option<Turn>)
    ensures r.Some? ==> GoodTurn(r.value, s)
  {
    match Alt(s, 0, FIELDS)
    case None => None
    case Some(w) =>
      match Around(s, w, ':')
      case None => None
      case Some(i) =>
        var e := CsvEnd(s, i);
        if e == i then None
        else
          var values := Split(s[i..e]);
          FirstValue(s, i, e, values);
          Some(Turn(OnSpan(FieldTokens(s, values), e), e))
  }

  ghost predicate StandsIn(t: string, a: nat, v: string) {
    a + |v| <= |t| && forall k :: 0 <= k < |v| ==> t[a + k] == v[k]
  }

  /** The first value of a list stands in the text it was split from. */
  lemma {:induction false} SplitFirst(t: string, values: seq<string>) returns (a: nat)
    requires values == Split(t) && values != []
    ensures StandsIn(t, a, values[0])
    decreases |t|
  {
    var j := CommaAt(t);
    if j > 0 {
      a := 0;
    } else {
      var rest := t[1..];
      SplitSkips(t, rest);
      var b := SplitFirst(rest, values);
      a := StandsLater(t, rest, b, values[0]);
    }
  }

  lemma SplitSkips(t: string, rest: string)
    requires CommaAt(t) == 0 && Split(t) != []
    ensures t != "" && (rest == t[1..] ==> Split(t) == Split(rest))
  {
  }

  lemma StandsLater(t: string, rest: string, b: nat, v: string) returns (a: nat)
    requires t != "" && rest == t[1..] && StandsIn(rest, b, v)
    ensures a == b + 1 && StandsIn(t, a, v)
  {
    a := b + 1;
    forall k | 0 <= k < |v| ensures t[a + k] == v[k] {
      assert rest[b + k] == t[a + k];
    }
  }

  lemma Stands(s: string, i: nat, e: nat, t: string, a: nat, v: string)
    requires i <= e <= |s| && t == s[i..e] && StandsIn(t, a, v)
    ensures LitAt(s, i + a, LowerAll(v))
  {
    forall k | 0 <= k < |v| ensures s[i + a + k] == v[k] {
      assert t[a + k] == s[i + (a + k)];
    }
  }

  lemma FirstValue(s: string, i: nat, e: nat, values: seq<string>)
    requires i < e <= |s| && values == Split(s[i..e])
    ensures values != [] ==> Occurs(s, LowerAll(values[0]))
  {
    if values != [] {
      var t := s[i..e];
      var a := SplitFirst(t, values);
      Stands(s, i, e, t, a, values[0]);
    }
  }

  // ----- bare words -----

  /** `parseBareCsv`: the values resolved one after another, and where the list ends. */
  function BareCsv<T>(s: string, resolve: string -> Option<T>): (r: (seq<T>, nat))
    ensures r.1 <= |s| && (r.0 != [] ==> r.1 > 0)
  {
    var m := Run(s, 0, Name);
    if m == 0 then ([], 0)
    else
      match resolve(LowerAll(s[..m]))
      case None => ([], 0)
      case Some(v) =>
        if CharAt(s, m, ',') then
          var rest := BareCsv(s[m + 1..], resolve);
          ([v] + rest.0, m + 1 + rest.1)
        else ([v], m)
  }

  /** The token a single bare word stands for; `afterSort`: the token before it is a sort. */
  function WordMeaning(word: string, afterSort: bool): (r: Token)
    ensures !r.TimeToken? && !r.NegToken? && (r.SortToken? ==> r.axis.By?)
  {
    var w := LowerAll(word);
    if LevelOf(w).Some? then LevelToken([LevelOf(w).value])
    else if StatusOf(w).Some? then StatusToken([StatusOf(w).value])
    else if w == "crashes" || w == "crashing" then LevelToken([Fatal])
    else if KeywordOf(w).Some? then KeywordToken(KeywordOf(w).value)
    else if SortAlias(w).Some? then SortToken(By(SortAlias(w).value))
    else if IsFiller(w) then FillerToken
    else if afterSort && word != "" && AllDigits(word) then LimitToken(Num(word))
    else if '*' in word then TextToken(Unstarred(word), true)
    else if |word| > 1 && AllDigits(word[..|word| - 1]) && word[|word| - 1] == 's' then WordToken(word[..|word| - 1])
    else WordToken(word)
  }

  function BareTurn(s: string, afterSort: bool): (r: Turn)
    requires s != ""
    ensures GoodTurn(r, s)
  {
    var m := Run(s, 0, Pattern);
    if m == 0 then Turn([], 1)
    else
      var levels := BareCsv(s, LevelOf);
      if |levels.0| > 1 then One(s, LevelToken(levels.0), levels.1)
      else
        var statuses := BareCsv(s, StatusOf);
        if |statuses.0| > 1 then One(s, StatusToken(statuses.0), statuses.1)
        else One(s, WordMeaning(s[..m], afterSort), m)
  }

  // ----- one turn of the loop, the branches in order -----

  function FirstOf(a: Option<Turn>, b: Option<Turn>): Option<Turn> {
    if a.Some? then a else b
  }

  function CommandTurn(s: string): (r: Option<Turn>)
    ensures r.Some? ==> GoodTurn(r.value, s)
  {
    FirstOf(SaveTurn(s), FirstOf(ForgetTurn(s), FirstOf(TopTurn(s), FirstOf(MostTurn(s), LimitTurn(s)))))
  }

  function SymbolTurn(s: string): (r: Option<Turn>)
    ensures r.Some? ==> GoodTurn(r.value, s)
  {
    FirstOf(OpTurn(s), FirstOf(NegTurn(s), FirstOf(QuotedTurn(s), SavedTurn(s))))
  }

  function PrefixTurn(s: string): (r: Option<Turn>)
    ensures r.Some? ==> GoodTurn(r.value, s)
  {
    FirstOf(TagTurn(s), FirstOf(UrlTurn(s), FieldTurn(s)))
  }

  function NextTurn(s: string, afterSort: bool): (r: Turn)
    requires s != ""
    ensures GoodTurn(r, s)
  {
    if IsSpace(s[0]) then Turn([], 1)
    else
      var t := FirstOf(CommandTurn(s), FirstOf(TimeTurn(s), FirstOf(SymbolTurn(s), PrefixTurn(s))));
      if t.Some? then t.value else BareTurn(s, afterSort)
  }

  // ----- the tokenizer -----

  function Shift(ts: seq<Spanned>, offset: nat): (r: seq<Spanned>)
    ensures |r| == |ts|
    ensures forall k :: 0 <= k < |r| ==> r[k] == Spanned(ts[k].token, ts[k].from + offset, ts[k].to + offset)
  {
    if ts == [] then [] else [Spanned(ts[0].token, ts[0].from + offset, ts[0].to + offset)] + Shift(ts[1..], offset)
  }

  predicate EndsInSort(ts: seq<Spanned>, before: bool) {
    if ts == [] then before else ts[|ts| - 1].token.SortToken?
  }

  /** What the loop needs of its branches: on a non-empty rest they consume something. */
  ghost predicate Consumes(step: (string, bool) -> Turn) {
    forall s, afterSort :: s != "" ==> 0 < step(s, afterSort).next <= |s|
  }

  /** The tokens of the rest of the input, which starts at offset `at`. */
  function Lex(step: (string, bool) -> Turn, s: string, at: nat, afterSort: bool): seq<Spanned>
    requires Consumes(step)
    decreases |s|
  {
    if s == "" then []
    else
      var t := step(s, afterSort);
      Shift(t.tokens, at) + Lex(step, s[t.next..], at + t.next, EndsInSort(t.tokens, afterSort))
  }

  /** One unfolding of `Lex`, every part of it named. */
  lemma LexStep(step: (string, bool) -> Turn, s: string, at: nat, afterSort: bool, t: Turn,
      s': string, at': nat, afterSort': bool, rest: seq<Spanned>, found: seq<Spanned>)
    requires Consumes(step) && s != "" && t == step(s, afterSort)
    requires s' == s[t.next..] && at' == at + t.next && afterSort' == EndsInSort(t.tokens, afterSort)
    requires rest == Lex(step, s', at', afterSort') && found == Lex(step, s, at, afterSort)
    ensures found == Shift(t.tokens, at) + rest
  {
  }

  lemma EndsAfter(tokens: seq<Spanned>, more: seq<Spanned>, offset: nat)
    ensures EndsInSort(tokens + Shift(more, offset), false) == EndsInSort(more, EndsInSort(tokens, false))
  {
  }

  method TokenizeBy(step: (string, bool) -> Turn, input: string) returns (tokens: seq<Spanned>)
    requires Consumes(step)
    ensures tokens == Lex(step, input, 0, false)
  {
    tokens := [];
    var i := 0;
    ghost var s, afterSort := input, false;
    ghost var todo := Lex(step, s, i, afterSort);
    ghost var whole := todo;
    while i < |input|
      invariant 0 <= i <= |input| && s == input[i..] && afterSort == EndsInSort(tokens, false)
      invariant todo == Lex(step, s, i, afterSort)
      invariant tokens + todo == whole
    {
      var turn := step(input[i..], EndsInSort(tokens, false));
      var next := i + turn.next;
      s, afterSort, todo := LexTurn(step, s, i, afterSort, tokens, turn, todo, whole, next);
      tokens := tokens + Shift(turn.tokens, i);
      i := next;
    }
  }

  /** The loop's step: what is left to do after one turn. */
  lemma LexTurn(step: (string, bool) -> Turn, s: string, i: nat, before: bool, tokens: seq<Spanned>, t: Turn,
      found: seq<Spanned>, whole: seq<Spanned>, next: nat)
    returns (s': string, after: bool, rest: seq<Spanned>)
    requires Consumes(step) && s != "" && t == step(s, before) && next == i + t.next
    requires before == EndsInSort(tokens, false) && found == Lex(step, s, i, before) && tokens + found == whole
    ensures 0 < t.next <= |s| && s' == s[t.next..] && after == EndsInSort(tokens + Shift(t.tokens, i), false)
    ensures rest == Lex(step, s', next, after)
    ensures tokens + Shift(t.tokens, i) + rest == whole
  {
    s', after := s[t.next..], EndsInSort(t.tokens, before);
    rest := Lex(step, s', next, after);
    LexStep(step, s, i, before, t, s', next, after, rest, found);
    EndsAfter(tokens, t.tokens, i);
    Regrouped(tokens, Shift(t.tokens, i), rest, found, whole);
  }

  lemma Regrouped<T>(a: seq<T>, b: seq<T>, c: seq<T>, bc: seq<T>, whole: seq<T>)
    requires bc == b + c && a + bc == whole
    ensures a + b + c == whole
  {
  }

  function Branches(s: string, afterSort: bool): Turn {
    if s == "" then Turn([], 0) else NextTurn(s, afterSort)
  }

  lemma BranchesConsume()
    ensures Consumes(Branches)
  {
  }

  function Tokens(input: string): seq<Spanned> {
    BranchesConsume();
    Lex(Branches, input, 0, false)
  }

  method Tokenize(input: string) returns (tokens: seq<Spanned>)
    ensures tokens == Tokens(input)
  {
    BranchesConsume();
    tokens := TokenizeBy(Branches, input);
  }

  /** One value of `parseBareCsv`, then the comma after it or the end of the list. */
  lemma BareStep<T>(s: string, m: nat, resolve: string -> Option<T>, v: Option<T>, tail: string,
      rest: (seq<T>, nat), more: (seq<T>, nat))
    requires m == Run(s, 0, Name) && rest == BareCsv(s, resolve) && v == resolve(LowerAll(s[..m]))
    requires CharAt(s, m, ',') ==> tail == s[m + 1..] && more == BareCsv(tail, resolve)
    ensures rest == if m == 0 || v.None? then ([], 0)
                    else if CharAt(s, m, ',') then ([v.value] + more.0, m + 1 + more.1)
                    else ([v.value], m)
  {
  }

  /** The bookkeeping of one value and its comma. */
  lemma OneValueMore<T>(values: seq<T>, v: T, m: nat, past: int, rest: (seq<T>, nat), more: (seq<T>, nat), whole: (seq<T>, nat))
    requires rest == ([v] + more.0, m + 1 + more.1) && values + rest.0 == whole.0
    requires whole.0 != [] ==> past + rest.1 == whole.1
    ensures (values + [v]) + more.0 == whole.0
    ensures whole.0 != [] ==> past + m + 1 + more.1 == whole.1
  {
    Regrouped(values, [v], more.0, rest.0, whole.0);
  }

  lemma TailOf(input: string, end: nat, s: string, n: nat, s': string)
    requires end <= |input| && s == input[end..] && n <= |s| && s' == s[n..]
    ensures end + n <= |input| && s' == input[end + n..]
  {
  }

  /** `parseBareCsv` as its loop. */
  method ParseBareCsv<T>(input: string, start: nat, resolve: string -> Option<T>) returns (values: seq<T>, end: nat)
    requires start <= |input|
    ensures start <= end <= |input|
    ensures values == BareCsv(input[start..], resolve).0
    ensures values != [] ==> end - start == BareCsv(input[start..], resolve).1
  {
    values, end := [], start;
    var s := input[start..];
    ghost var rest := BareCsv(s, resolve);
    ghost var whole := rest;
    while end < |input|
      invariant start <= end <= |input| && s == input[end..]
      invariant rest == BareCsv(s, resolve) && values + rest.0 == whole.0
      invariant whole.0 != [] ==> end - start + rest.1 == whole.1
    {
      var m := Run(s, 0, Name);
      var v := resolve(LowerAll(s[..m]));
      var comma := CharAt(s, m, ',');
      var s' := if comma then s[m + 1..] else "";
      ghost var more := BareCsv(s', resolve);
      BareStep(s, m, resolve, v, s', rest, more);
      if m == 0 || v.None? {
        break;
      }
      if !comma {
        values, end := values + [v.value], end + m;
        return;
      }
      OneValueMore(values, v.value, m, end - start, rest, more, whole);
      TailOf(input, end, s, m + 1, s');
      values := values + [v.value];
      end := end + m + 1;
      s, rest := s', more;
    }
  }

  lemma LitLater(s: string, n: nat, i: nat, w: string)
    requires n <= |s| && LitAt(s[n..], i, w)
    ensures LitAt(s, n + i, w)
  {
    forall k | 0 <= k < |w| ensures Lower(s[n + i + k]) == w[k] {
      assert s[n..][i + k] == s[n + i + k];
    }
  }

  lemma ListLater(a: Token, b: Token, s: string, n: nat, i: int)
    requires n <= |s| && OneList(a, b, s[n..], i)
    ensures OneList(a, b, s, n + i)
  {
    if LitAt(s[n..], i, "text") {
      LitLater(s, n, i, "text");
    }
    if LitAt(s[n..], i, "is") {
      LitLater(s, n, i, "is");
    }
    if LitAt(s[n..], i, "has") {
      LitLater(s, n, i, "has");
    }
  }

  lemma ApartLater(a: Spanned, b: Spanned, s: string, at: nat, n: nat)
    requires n <= |s| && Apart(a, b, s[n..], at + n)
    ensures Apart(a, b, s, at)
  {
    if a.to > b.from {
      ListLater(a.token, b.token, s, n, a.from - at - n);
    }
  }

  /** Spans found in the rest of a text are good spans of the whole. */
  lemma SpansLater(rest: seq<Spanned>, s: string, at: nat, n: nat)
    requires n <= |s| && GoodSpans(rest, s[n..], at + n)
    ensures GoodSpans(rest, s, at)
  {
    forall j, k | 0 <= j < k < |rest| ensures Apart(rest[j], rest[k], s, at) {
      assert Apart(rest[j], rest[k], s[n..], at + n);
      ApartLater(rest[j], rest[k], s, at, n);
    }
  }

  lemma ApartShifted(a: Spanned, b: Spanned, s: string, at: nat)
    requires Apart(a, b, s, 0)
    ensures Apart(Spanned(a.token, a.from + at, a.to + at), Spanned(b.token, b.from + at, b.to + at), s, at)
  {
  }

  lemma SpansShift(ts: seq<Spanned>, s: string, at: nat, shifted: seq<Spanned>)
    requires GoodSpans(ts, s, 0) && shifted == Shift(ts, at)
    ensures GoodSpans(shifted, s, at)
  {
    forall j, k | 0 <= j < k < |shifted| ensures Apart(shifted[j], shifted[k], s, at) {
      assert Apart(ts[j], ts[k], s, 0);
      ApartShifted(ts[j], ts[k], s, at);
    }
  }

  lemma SpansCat(a: seq<Spanned>, b: seq<Spanned>, s: string, at: nat, middle: nat)
    requires GoodSpans(a, s, at) && GoodSpans(b, s, at)
    requires forall k :: 0 <= k < |a| ==> a[k].to <= middle
    requires forall k :: 0 <= k < |b| ==> middle <= b[k].from
    ensures GoodSpans(a + b, s, at)
  {
    var ab := a + b;
    forall j, k | 0 <= j < k < |ab| ensures Apart(ab[j], ab[k], s, at) {
      if k < |a| {
        assert Apart(a[j], a[k], s, at);
      } else if j >= |a| {
        assert Apart(b[j - |a|], b[k - |a|], s, at);
      }
    }
  }

  lemma SpansStep(t: Turn, s: string, s': string, rest: seq<Spanned>, at: nat, whole: seq<Spanned>)
    requires GoodTurn(t, s) && s' == s[t.next..] && GoodSpans(rest, s', at + t.next)
    requires whole == Shift(t.tokens, at) + rest
    ensures GoodSpans(whole, s, at)
  {
    var first := Shift(t.tokens, at);
    SpansLater(rest, s, at, t.next);
    SpansShift(t.tokens, s, at, first);
    SpansCat(first, rest, s, at, at + t.next);
  }

  ghost predicate AllGood(step: (string, bool) -> Turn) {
    forall r, b {:trigger GoodTurn(step(r, b), r)} :: r != "" ==> GoodTurn(step(r, b), r)
  }

  lemma TurnIsGood(step: (string, bool) -> Turn, s: string, afterSort: bool, t: Turn)
    requires AllGood(step) && s != "" && t == step(s, afterSort)
    ensures GoodTurn(t, s)
  {
    assert GoodTurn(step(s, afterSort), s);
  }

  lemma GoodStep(step: (string, bool) -> Turn, afterSort: bool, t: Turn, s: string, s': string,
      rest: seq<Spanned>, at: nat, at': nat, whole: seq<Spanned>)
    requires AllGood(step) && s != "" && t == step(s, afterSort) && 0 < t.next <= |s|
    requires s' == s[t.next..] && at' == at + t.next && whole == Shift(t.tokens, at) + rest
    requires GoodSpans(rest, s', at')
    ensures GoodSpans(whole, s, at)
  {
    TurnIsGood(step, s, afterSort, t);
    SpansStep(t, s, s', rest, at, whole);
  }

  lemma {:induction false} SpansInOrder(step: (string, bool) -> Turn, s: string, at: nat, afterSort: bool, all: seq<Spanned>)
    requires Consumes(step) && AllGood(step)
    requires all == Lex(step, s, at, afterSort)
    ensures GoodSpans(all, s, at)
    decreases |s|
  {
    if s != "" {
      var t := step(s, afterSort);
      var s', at', after := s[t.next..], at + t.next, EndsInSort(t.tokens, afterSort);
      var rest := Lex(step, s', at', after);
      SpansInOrder(step, s', at', after, rest);
      LexStep(step, s, at, afterSort, t, s', at', after, rest, all);
      GoodStep(step, afterSort, t, s, s', rest, at, at', all);
    }
  }

  /** Spans come in order, non-empty, in bounds and disjoint, except those of one text:, is: or has: list. */
  lemma SpansAreOrdered(input: string)
    ensures GoodSpans(Tokens(input), input, 0)
  {
    BranchesConsume();
    SpansInOrder(Branches, input, 0, false, Tokens(input));
  }

  // ----- buildQuery -----

  datatype Matcher = Matcher(value: string, isPattern: bool)

  datatype TagFilter = TagFilter(key: Option<string>, values: seq<string>)

  datatype Query = Query(
    levels: set<Level>,
    statuses: set<Status>,
    sinceMs: Option<nat>,
    spiking: bool,
    newOnly: bool,
    staleOnly: bool,
    text: seq<Matcher>,
    words: seq<string>,
    tags: seq<TagFilter>,
    urls: seq<Matcher>,
    negLevels: set<Level>,
    negStatuses: set<Status>,
    negSavedNames: set<string>,
    sort: Option<SortValue>,
    limit: Option<nat>,
    saveAs: Option<string>,
    recallSaved: Option<string>,
    forgetName: Option<string>)

  const NO_QUERY := Query({}, {}, None, false, false, false, [], [], [], [], {}, {}, {}, None, None, None, None, None)

  function LowerEach(values: seq<string>): seq<string> {
    if values == [] then [] else [LowerAll(values[0])] + LowerEach(values[1..])
  }

  function SetOf<T(==)>(values: seq<T>): set<T> {
    set v | v in values
  }

  /** What one token adds; `negated`: the token before it is a minus. */
  function Put(q: Query, t: Token, negated: bool): Query {
    match t
    case LevelToken(ls) =>
      if negated then q.(negLevels := q.negLevels + SetOf(ls)) else q.(levels := q.levels + SetOf(ls))
    case StatusToken(ss) =>
      if negated then q.(negStatuses := q.negStatuses + SetOf(ss)) else q.(statuses := q.statuses + SetOf(ss))
    case TimeToken(ms) => q.(sinceMs := Some(ms))
    case KeywordToken(Spiking) => q.(spiking := true)
    case KeywordToken(New) => q.(newOnly := true)
    case KeywordToken(StaleWord) => q.(staleOnly := true)
    case KeywordToken(_) => q
    case SortToken(axis) => q.(sort := Some(axis))
    case LimitToken(n) => q.(limit := Some(n))
    case TextToken(v, p) => q.(text := q.text + [Matcher(v, p)])
    case WordToken(w) => q.(words := q.words + [w])
    case TagToken(k, vs) => q.(tags := q.tags + [TagFilter(k, LowerEach(vs))])
    case UrlToken(v, p) => q.(urls := q.urls + [Matcher(v, p)])
    case SaveToken(name) => q.(saveAs := Some(name))
    case SavedToken(name) =>
      if negated then q.(negSavedNames := q.negSavedNames + {name}) else q.(recallSaved := Some(name))
    case ForgetToken(name) => q.(forgetName := Some(name))
    case OpToken(_) => q
    case NegToken => q
    case FillerToken => q
  }

  predicate NegatedAt(ts: seq<Token>, k: nat) {
    0 < k <= |ts| && ts[k - 1].NegToken?
  }

  function Build(ts: seq<Token>): Query {
    if ts == [] then NO_QUERY
    else
      var n := |ts| - 1;
      Put(Build(ts[..n]), ts[n], NegatedAt(ts, n))
  }

  function Bare(ts: seq<Spanned>): (r: seq<Token>)
    ensures |r| == |ts| && forall k :: 0 <= k < |r| ==> r[k] == ts[k].token
  {
    if ts == [] then [] else [ts[0].token] + Bare(ts[1..])
  }

  method BuildQuery(tokens: seq<Spanned>) returns (q: Query)
    ensures q == Build(Bare(tokens))
  {
    q := NO_QUERY;
    ghost var ts := Bare(tokens);
    for k := 0 to |tokens|
      invariant q == Build(ts[..k])
    {
      assert ts[..k + 1][..k] == ts[..k];
      assert NegatedAt(ts[..k + 1], k) == NegatedAt(ts, k);
      var negated := k > 0 && tokens[k - 1].token.NegToken?;
      q := Put(q, tokens[k].token, negated);
    }
    assert ts[..|tokens|] == ts;
  }

  function ParseQuery(input: string): Query {
    Build(Bare(Tokens(input)))
  }
}
