/** Plurals, numbers and wildcards: "errors", "500s", "first 5", "noisy 10", "*timeout". */
module QueryNumbers {
  import opened Decimals
  import opened Filters
  import opened QueryFields
  import opened QueryForms
  import opened QueryParser
  import opened QueryReading
  import opened QueryRoundTrip
  import opened QuerySynonyms
  import opened QueryWords
  import opened Scanning
  import opened Wrappers

  // ----- "errors" -----

  lemma PluralShape(l: Level, w: string)
    requires w == LevelName(l) + "s"
    ensures Shaped(w)
  {
    var n := LevelName(l);
    assert w[0] == n[0] && w[1] == n[1] && w[2] == n[2];
    LevelNameReads(l);
    forall k | 0 <= k < |w| ensures 'a' <= w[k] <= 'z' {
      assert k < |n| ==> w[k] == n[k];
    }
  }

  lemma PluralMeaning(l: Level, w: string)
    requires w == LevelName(l) + "s" && IsName(w)
    ensures WordMeaning(w, false) == LevelToken([l])
  {
    LowerSame(w);
    assert w[..|w| - 1] == LevelName(l);
  }

  /** The plural of a level's name asks for that level. */
  lemma PluralLevel(l: Level, w: string)
    requires w == LevelName(l) + "s"
    ensures ParseQuery(w) == NO_QUERY.(levels := {l})
  {
    PluralShape(l, w);
    PluralMeaning(l, w);
    ShapedQuery(w, LevelToken([l]));
    SetsLevel(l);
  }

  // ----- "500s" -----

  lemma NumberS(s: string, d: string)
    requires d != "" && AllDigits(d) && s == d + "s"
    ensures s != "" && IsDigit(s[0]) && s[..|d|] == d && s[|d|] == 's' && Run(s, 0, Digit) == |d| && Run(s, |d|, Space) == |d|
    ensures Run(s, 0, Name) == |s| == Run(s, 0, Pattern) && s[..|s|] == s
  {
    forall k | 0 <= k < |d| ensures IsDigit(s[k]) {
      assert s[k] == d[k];
    }
    RunIs(s, 0, |d|, Digit);
    RunIs(s, |d|, |d|, Space);
    RunIs(s, 0, |s|, Name);
    RunIs(s, 0, |s|, Pattern);
  }

  /** No unit begins with an "s". */
  lemma {:induction false} NoUnitAtS(s: string, u: nat, units: seq<string>)
    requires u < |s| && s[u] == 's' && AreNames(units) && forall k :: 0 <= k < |units| ==> units[k][0] != 's'
    ensures AltWord(s, u, units) == None
  {
    if units != [] {
      Clash(s, u, units[0], 0);
      NoUnitAtS(s, u, units[1..]);
    }
  }

  lemma NotSeconds(s: string, d: string)
    requires d != "" && AllDigits(d) && s == d + "s"
    ensures NoEmptyWord(UNITS) && NoEmptyWord(COMPACT_UNITS)
    ensures CountUnit(s, 0, UNITS) == None && CountUnit(s, 0, COMPACT_UNITS) == None
  {
    NumberS(s, d);
    UnitLists();
    NoUnitAtS(s, |d|, UNITS);
    NoUnitAtS(s, |d|, COMPACT_UNITS);
  }

  lemma NoWindowOfSeconds(s: string, d: string)
    requires d != "" && AllDigits(d) && s == d + "s"
    ensures TimePhrase(s) == None
  {
    NumberS(s, d);
    NotSeconds(s, d);
    DigitPhrase(s, None, None);
  }

  lemma SecondsMeaning(s: string, d: string)
    requires d != "" && AllDigits(d) && s == d + "s"
    ensures LevelOf(LowerAll(s)) == None && StatusOf(LowerAll(s)) == None && WordMeaning(s, false) == WordToken(d)
  {
    NumberS(s, d);
    NoDigitEntry(LowerAll(s));
    assert s[..|s| - 1] == d && s[|s| - 1] == 's';
    forall k | 0 <= k < |s| ensures s[k] != '*' {
      assert k < |d| ==> s[k] == d[k];
    }
    SecondsCases(s, d);
  }

  /** No table has a word that begins with a digit. */
  lemma NoDigitEntry(w: string)
    requires |w| > 1 && IsDigit(w[0])
    ensures LevelOf(w) == None && StatusOf(w) == None && KeywordOf(w) == None && SortAlias(w) == None && !IsFiller(w)
    ensures w != "crashes" && w != "crashing"
  {
    assert IsDigit(w[..|w| - 1][0]);
  }

  lemma SecondsCases(s: string, d: string)
    requires |s| > 1 && '*' !in s && s[..|s| - 1] == d && s[|s| - 1] == 's' && AllDigits(d)
    requires var w := LowerAll(s); LevelOf(w) == None && StatusOf(w) == None && KeywordOf(w) == None && SortAlias(w) == None && !IsFiller(w)
    requires LowerAll(s) != "crashes" && LowerAll(s) != "crashing"
    ensures WordMeaning(s, false) == WordToken(d)
  {
  }

  lemma SecondsTurn(s: string, d: string)
    requires d != "" && AllDigits(d) && s == d + "s"
    ensures IsRead(Branches, s, WordToken(d))
  {
    NumberS(s, d);
    SecondsMeaning(s, d);
    NoWindowOfSeconds(s, d);
    OnlyWord(s);
    SecondsBare(s, d);
  }

  lemma SecondsBare(s: string, d: string)
    requires s != "" && Run(s, 0, Name) == |s| == Run(s, 0, Pattern) && s[..|s|] == s
    requires LevelOf(LowerAll(s)) == None && StatusOf(LowerAll(s)) == None && WordMeaning(s, false) == WordToken(d)
    ensures BareTurn(s, false) == Turn([Spanned(WordToken(d), 0, |s|)], |s|)
  {
    var levels, statuses := BareCsv(s, LevelOf), BareCsv(s, StatusOf);
    NoList(s, |s|, LevelOf, levels);
    NoList(s, |s|, StatusOf, statuses);
    BareCases(s, false, |s|, levels, statuses);
  }

  lemma SetsWord(d: string)
    ensures Put(NO_QUERY, WordToken(d), false) == NO_QUERY.(words := [d])
  {
    assert [] + [d] == [d];
  }

  /** The plural of a number is searched for without its "s". */
  lemma PluralNumber(s: string, d: string)
    requires d != "" && AllDigits(d) && s == d + "s"
    ensures ParseQuery(s) == NO_QUERY.(words := [d])
  {
    SecondsTurn(s, d);
    ReadSets(s, WordToken(d));
    SetsWord(d);
  }

  // ----- "first 5" -----

  lemma FirstHead(s: string, d: string)
    requires d != "" && AllDigits(d) && s == "first" + (" " + d)
    ensures Starts(s, 'f', 'i') && s[0] == 'f' && LitAt(s, 0, "first") && SpacedNumber(s, 5) == Some((6, |s|)) && s[6..|s|] == d
  {
    assert s[0..] == s && s[0] == 'f' && s[1] == 'i';
    NumberAfter(s, 0, "first", d, 6);
  }

  lemma FirstParsed(s: string, d: string, t: Turn)
    requires Starts(s, 'f', 'i') && s[0] == 'f' && AllDigits(d)
    requires LitAt(s, 0, "first") && SpacedNumber(s, 5) == Some((6, |s|)) && s[6..|s|] == d
    requires t == Turn([Spanned(LimitToken(Num(d)), 6, |s|)], |s|)
    ensures Branches(s, false) == t
  {
    FirstAlt(s);
    FirstOnly(s);
    FirstCases(s, d, t);
  }

  lemma FirstOnly(s: string)
    requires Starts(s, 'f', 'i')
    ensures SaveTurn(s) == None && ForgetTurn(s) == None
  {
    NotHere(s, "save");
    NotAny(s, ["forget", "unsave"]);
  }

  lemma FirstAlt(s: string)
    requires Starts(s, 'f', 'i') && LitAt(s, 0, "first")
    ensures Alt(s, 0, ["top", "first"]) == Some(5) && !LitAt(s, 0, "top")
  {
    NotHere(s, "top");
    AltIs(s, ["top", "first"], 1);
  }

  lemma FirstCases(s: string, d: string, t: Turn)
    requires s != "" && s[0] == 'f' && SaveTurn(s) == None && ForgetTurn(s) == None && AllDigits(d)
    requires Alt(s, 0, ["top", "first"]) == Some(5) && !LitAt(s, 0, "top")
    requires SpacedNumber(s, 5) == Some((6, |s|)) && s[6..|s|] == d
    requires t == Turn([Spanned(LimitToken(Num(d)), 6, |s|)], |s|)
    ensures Branches(s, false) == t
  {
  }

  lemma SetsLimit(n: nat)
    ensures Build([LimitToken(n)]) == NO_QUERY.(limit := Some(n))
  {
    BuildsOne(LimitToken(n));
  }

  /** "first N" is a limit and no sort, unlike "top N". */
  lemma FirstIsLimit(s: string, d: string)
    requires d != "" && AllDigits(d) && s == "first" + (" " + d)
    ensures ParseQuery(s) == NO_QUERY.(limit := Some(Num(d)))
  {
    var t := Turn([Spanned(LimitToken(Num(d)), 6, |s|)], |s|);
    FirstHead(s, d);
    FirstParsed(s, d, t);
    OneTurn(s, t);
    assert Bare(t.tokens) == [LimitToken(Num(d))];
    SetsLimit(Num(d));
  }

  // ----- "*timeout" -----

  lemma StarText(s: string, n: string)
    requires IsName(n) && s == "*" + n
    ensures Quiet(s) && Run(s, 0, Name) == 0 && Run(s, 0, Pattern) == |s| && s[..|s|] == s && '*' in s && Unstarred(s) == n
  {
    assert s[0] == '*' && s[1..] == n;
    forall k | 0 <= k < |s| ensures In(Pattern, s[k]) {
      assert k > 0 ==> s[k] == n[k - 1];
    }
    RunIs(s, 0, 0, Name);
    RunIs(s, 0, |s|, Pattern);
    NameUnstarred(n);
    UnstarredStep(s, n, "");
  }

  lemma StarMeaning(s: string, n: string)
    requires IsName(n) && s == "*" + n && '*' in s && Unstarred(s) == n
    ensures WordMeaning(s, false) == TextToken(n, true)
  {
    assert LowerAll(s)[0] == '*' && !IsDigit(s[0]) && s[..|s| - 1][0] == '*';
    NoStarEntry(LowerAll(s));
    StarCases(s);
  }

  /** No table has a word that begins with an asterisk. */
  lemma NoStarEntry(w: string)
    requires |w| > 1 && w[0] == '*'
    ensures LevelOf(w) == None && StatusOf(w) == None && KeywordOf(w) == None && SortAlias(w) == None && !IsFiller(w)
    ensures w != "crashes" && w != "crashing"
  {
    assert w[..|w| - 1][0] == '*';
  }

  lemma StarCases(s: string)
    requires '*' in s
    requires var w := LowerAll(s); LevelOf(w) == None && StatusOf(w) == None && KeywordOf(w) == None && SortAlias(w) == None && !IsFiller(w)
    requires LowerAll(s) != "crashes" && LowerAll(s) != "crashing"
    ensures WordMeaning(s, false) == TextToken(Unstarred(s), true)
  {
  }

  lemma OnlyStar(s: string)
    requires Quiet(s) && s[0] == '*'
    ensures Branches(s, false) == BareTurn(s, false)
  {
    NoCommand(s);
    NoPhrase(s);
    NotUpper(s, "AND");
    NotUpper(s, "OR");
    NotUpper(s, "NOT");
    NotHere(s, "tag");
    NotHere(s, "url");
    NoField(s);
  }

  lemma StarBare(s: string, n: string)
    requires s != "" && Run(s, 0, Name) == 0 && Run(s, 0, Pattern) == |s| && s[..|s|] == s && WordMeaning(s, false) == TextToken(n, true)
    ensures BareTurn(s, false) == Turn([Spanned(TextToken(n, true), 0, |s|)], |s|)
  {
    var levels, statuses := BareCsv(s, LevelOf), BareCsv(s, StatusOf);
    BareCases(s, false, |s|, levels, statuses);
  }

  /** A word with an asterisk is a pattern without it. */
  lemma StarIsPattern(s: string, n: string)
    requires IsName(n) && s == "*" + n
    ensures ParseQuery(s) == NO_QUERY.(text := [Matcher(n, true)])
  {
    StarText(s, n);
    StarMeaning(s, n);
    OnlyStar(s);
    StarBare(s, n);
    ReadSets(s, TextToken(n, true));
    SetsText(n, true);
  }

  // ----- "noisy 10" -----

  lemma SortWordTurn(s: string, w: string, rest: string, t: Token)
    requires Shaped(w) && Plain(rest) && s == w + rest && WordMeaning(w, false) == t
    ensures Branches(s, false) == Turn([Spanned(t, 0, |w|)], |w|)
  {
    SortWordOpens(s, w, rest);
    NameEnds(s, w, rest);
    SortWordBare(s, w, rest, t);
  }

  lemma SortWordOpens(s: string, w: string, rest: string)
    requires Shaped(w) && Plain(rest) && s == w + rest
    ensures Branches(s, false) == BareTurn(s, false)
  {
    assert s[0] == w[0];
    NoSymbol(s);
    WordOpensNothing(s, w, rest);
    LastBare(s);
  }

  lemma WordOpensNothing(s: string, w: string, rest: string)
    requires Begins(s, w, rest) && !Opens(w)
    ensures CommandTurn(s) == None && TimeTurn(s) == None && PrefixTurn(s) == None
  {
    SaveAndForget(s, w, rest);
    TopMostLimit(s, w, rest);
    NoTimeWord(s, w, rest);
    NoPrefixWord(s, w, rest);
  }

  lemma LastBare(s: string)
    requires s != "" && !IsSpace(s[0]) && CommandTurn(s) == None && TimeTurn(s) == None && SymbolTurn(s) == None && PrefixTurn(s) == None
    ensures Branches(s, false) == BareTurn(s, false)
  {
  }

  lemma SortWordBare(s: string, w: string, rest: string, t: Token)
    requires IsName(w) && Plain(rest) && s == w + rest && WordMeaning(w, false) == t
    requires Run(s, 0, Name) == |w| == Run(s, 0, Pattern) && s[..|w|] == w
    ensures BareTurn(s, false) == Turn([Spanned(t, 0, |w|)], |w|)
  {
    var levels, statuses := BareCsv(s, LevelOf), BareCsv(s, StatusOf);
    NoComma(s, w, LevelOf, levels);
    NoComma(s, w, StatusOf, statuses);
    BareCases(s, false, |w|, levels, statuses);
  }

  lemma NoComma<T>(s: string, w: string, resolve: string -> Option<T>, r: (seq<T>, nat))
    requires 0 < |w| == Run(s, 0, Name) && !CharAt(s, |w|, ',') && r == BareCsv(s, resolve)
    ensures |r.0| <= 1
  {
  }

  lemma DigitsAfterSort(d: string)
    requires d != "" && AllDigits(d)
    ensures Branches(d, true) == Turn([Spanned(LimitToken(Num(d)), 0, |d|)], |d|)
  {
    DigitsWhole(d);
    DigitsMeaning(d);
    NoWindowOfDigits(d);
    OnlyDigits(d);
    DigitsBare(d);
  }

  lemma DigitsWhole(d: string)
    requires d != "" && AllDigits(d)
    ensures IsDigit(d[0]) && d[..|d|] == d && Run(d, 0, Digit) == |d| == Run(d, 0, Name) && Run(d, 0, Pattern) == |d|
  {
    RunIs(d, 0, |d|, Digit);
    RunIs(d, 0, |d|, Name);
    RunIs(d, 0, |d|, Pattern);
  }

  lemma DigitsMeaning(d: string)
    requires d != "" && AllDigits(d)
    ensures LevelOf(LowerAll(d)) == None && StatusOf(LowerAll(d)) == None && WordMeaning(d, true) == LimitToken(Num(d))
  {
    var w := LowerAll(d);
    assert IsDigit(w[0]) && IsDigit(w[|w| - 1]);
    NoEntry(w);
  }

  lemma NoWindowOfDigits(d: string)
    requires d != "" && AllDigits(d)
    ensures TimePhrase(d) == None
  {
    DigitsWhole(d);
    RunIs(d, |d|, |d|, Space);
    UnitsNamed();
    NoUnitAtEnd(d, UNITS);
    NoUnitAtEnd(d, COMPACT_UNITS);
    DigitPhrase(d, None, None);
  }

  lemma {:induction false} NoUnitAtEnd(d: string, units: seq<string>)
    requires NoEmptyWord(units)
    ensures AltWord(d, |d|, units) == None
  {
    if units != [] {
      NoUnitAtEnd(d, units[1..]);
    }
  }

  lemma OnlyDigits(d: string)
    requires d != "" && IsDigit(d[0]) && TimePhrase(d) == None
    ensures Branches(d, true) == BareTurn(d, true)
  {
    DigitHead(d);
    NoCommand(d);
    NoSymbol(d);
    NotHere(d, "tag");
    NotHere(d, "url");
    NoField(d);
  }

  lemma DigitsBare(d: string)
    requires d != "" && Run(d, 0, Name) == |d| == Run(d, 0, Pattern) && d[..|d|] == d
    requires AllDigits(d) && LevelOf(LowerAll(d)) == None && StatusOf(LowerAll(d)) == None && WordMeaning(d, true) == LimitToken(Num(d))
    ensures BareTurn(d, true) == Turn([Spanned(LimitToken(Num(d)), 0, |d|)], |d|)
  {
    var levels, statuses := BareCsv(d, LevelOf), BareCsv(d, StatusOf);
    NoList(d, |d|, LevelOf, levels);
    NoList(d, |d|, StatusOf, statuses);
    BareCases(d, true, |d|, levels, statuses);
  }

  /** A sort, a space, and a number read after a sort. */
  lemma SortThenLimit(step: (string, bool) -> Turn, s: string, w: string, rest: string, d: string, key: SortKey, found: seq<Spanned>)
    requires Consumes(step) && SkipsSpaces(step) && w != "" && d != "" && rest == " " + d && s == w + rest
    requires step(s, false) == Turn([Spanned(SortToken(By(key)), 0, |w|)], |w|)
    requires AllDigits(d) && step(d, true) == Turn([Spanned(LimitToken(Num(d)), 0, |d|)], |d|)
    requires found == Lex(step, s, 0, false)
    ensures Bare(found) == [SortToken(By(key)), LimitToken(Num(d))]
  {
    var t, u := Turn([Spanned(SortToken(By(key)), 0, |w|)], |w|), Turn([Spanned(LimitToken(Num(d)), 0, |d|)], |d|);
    var middle, last := Lex(step, rest, |w|, true), Lex(step, d, |w| + 1, true);
    assert s[|w|..] == rest;
    LexStep(step, s, 0, false, t, rest, |w|, true, middle, found);
    LexSpace(step, d, rest, |w|, true, middle, |w| + 1, last);
    LexStep(step, d, |w| + 1, true, u, "", |w| + 1 + |d|, false, [], last);
    BareOne(SortToken(By(key)), |w|, 0);
    BareOne(LimitToken(Num(d)), |d|, |w| + 1);
    BareCat(Shift(t.tokens, 0), middle);
    BareCat(Shift(u.tokens, |w| + 1), []);
  }

  lemma SpacesSkipped()
    ensures Consumes(Branches) && SkipsSpaces(Branches)
  {
    BranchesConsume();
  }

  lemma NumberIsPlain(d: string)
    requires d != "" && AllDigits(d)
    ensures Plain(" " + d)
  {
  }

  lemma SortWordLine(s: string, w: string, rest: string, d: string, key: SortKey)
    requires Shaped(w) && WordMeaning(w, false) == SortToken(By(key)) && d != "" && AllDigits(d) && rest == " " + d && s == w + rest
    ensures ParseQuery(s) == NO_QUERY.(sort := Some(By(key)), limit := Some(Num(d)))
  {
    SpacesSkipped();
    NumberIsPlain(d);
    SortWordTurn(s, w, rest, SortToken(By(key)));
    DigitsAfterSort(d);
    SortThenLimit(Branches, s, w, rest, d, key, Tokens(s));
    SortLimitBuild(key, Num(d));
  }

  /** A number right after a sort word is a limit: "noisy 10", "newest 10". */
  lemma SortThenNumber(s: string, w: string, d: string, key: SortKey)
    requires d != "" && AllDigits(d) && s == w + (" " + d)
    requires (key == Count && w in ["noisy", "loudest", "frequent"]) || (key == Recent && w in ["newest", "latest"])
    ensures ParseQuery(s) == NO_QUERY.(sort := Some(By(key)), limit := Some(Num(d)))
  {
    if key == Count {
      CountShapes(w);
      CountTokens(w);
    } else {
      RecentShapes(w);
      RecentTokens(w);
    }
    SortWordLine(s, w, " " + d, d, key);
  }

  // ----- "limit 5" -----

  lemma LimitHead(s: string, d: string)
    requires d != "" && AllDigits(d) && s == "limit" + (" " + d)
    ensures Quiet(s) && Starts(s, 'l', 'i') && LitAt(s, 0, "limit") && SpacedNumber(s, 5) == Some((6, |s|)) && s[6..|s|] == d
    ensures 6 < |s| && IsDigit(s[6])
  {
    assert s[0..] == s && s[0] == 'l' && s[1] == 'i';
    NumberAfter(s, 0, "limit", d, 6);
    assert s[6] == d[0];
  }

  lemma LimitParsed(s: string, d: string)
    requires LitAt(s, 0, "limit") && SpacedNumber(s, 5) == Some((6, |s|)) && s[6..|s|] == d && AllDigits(d) && 6 < |s| && IsDigit(s[6])
    ensures LimitTurn(s) == Some(Turn([Spanned(LimitToken(Num(d)), 0, |s|)], |s|))
  {
  }

  /** "limit N" without a colon is a limit too. */
  lemma LimitSpaced(s: string, d: string)
    requires d != "" && AllDigits(d) && s == "limit" + (" " + d)
    ensures ParseQuery(s) == NO_QUERY.(limit := Some(Num(d)))
  {
    LimitHead(s, d);
    LimitParsed(s, d);
    OnlyLimit(s, false);
    ReadAlone(s, LimitToken(Num(d)));
    SetsLimit(Num(d));
  }

  // ----- "since 5 m ago" -----

  lemma SinceAgoHead(s: string, x: string, c: string, d: string, gap: string, k: nat, unit: string) returns (u: nat, e: nat)
    requires IsCount(c, d, gap, k, unit) && x == c + " ago" && s == "since" + (" " + x)
    ensures ThenDigit(s, "since") && Starts(s, 's', 'i') && s[0] == 's'
    ensures e <= |s| && s[e..] == " ago" && Counted(s, 6, d, u, e, UnitLength(unit[0]), UNITS)
  {
    u, e := 6 + |d| + |gap|, 6 + |d| + |gap| + |unit|;
    CountText(c, d, gap, k, unit, " ago");
    HeadIs(s, "since", x);
    CountStands(s, 6, c, d, gap, k, unit, " ago", u, e);
    assert s[0] == 's';
  }

  lemma SinceAgoCounted(s: string, d: string, u: nat, e: nat, unit: nat)
    requires ThenDigit(s, "since") && Starts(s, 's', 'i') && Counted(s, 6, d, u, e, unit, UNITS) && e <= |s| && s[e..] == " ago"
    ensures TimePhrase(s) == Some(Phrase(Num(d) * unit, |s|))
  {
    CountIs(s, 6, d, u, e, unit, UNITS);
    SinceFixed(s);
    AgoAt(s, e);
    SinceAgoCases(s, Phrase(Num(d) * unit, e));
  }

  lemma SinceAgoCases(s: string, p: Phrase)
    requires ThenDigit(s, "since") && Starts(s, 's', 'i') && FixedPhrases(s) == None
    requires NoEmptyWord(UNITS) && CountUnit(s, 6, UNITS) == Some(p) && TwoWords(s, Some(p.end), ["ago"]) == Some(|s|)
    ensures TimePhrase(s) == Some(p.(end := |s|))
  {
    OnlySince(s);
    SinceAlt(s, p);
    AgoTaken(s, p);
    SinceAgoLast(s, p, p.(end := |s|));
  }

  lemma OnlySince(s: string)
    requires Starts(s, 's', 'i')
    ensures NoEmptyWord(LAST_PAST) && ThenWord(s, Alt(s, 0, ["in", "over", "for"]), ["the"]) == None
    ensures Alt(s, 0, ["the"]) == None && Alt(s, 0, LAST_PAST) == None
  {
    NotAny(s, ["in", "over", "for"]);
    NotAny(s, ["the"]);
    NotAny(s, LAST_PAST);
  }

  lemma SinceAlt(s: string, p: Phrase)
    requires LitAt(s, 0, "since") && Gap(s, 5) == Some(6) && NoEmptyWord(UNITS) && CountUnit(s, 6, UNITS) == Some(p)
    ensures ThenCount(s, Alt(s, 0, ["since"])) == Some(p)
  {
  }

  lemma AgoTaken(s: string, p: Phrase)
    requires GoodPhrase(Some(p), |s|) && TwoWords(s, Some(p.end), ["ago"]) == Some(|s|)
    ensures MaybeAgo(s, Some(p)) == Some(p.(end := |s|))
  {
  }

  lemma SinceAgoLast(s: string, p: Phrase, q: Phrase)
    requires NoEmptyWord(LAST_PAST) && FixedPhrases(s) == None && ThenWord(s, Alt(s, 0, ["in", "over", "for"]), ["the"]) == None
    requires Alt(s, 0, ["the"]) == None && Alt(s, 0, LAST_PAST) == None
    requires ThenCount(s, Alt(s, 0, ["since"])) == Some(p) && MaybeAgo(s, Some(p)) == Some(q)
    ensures TimePhrase(s) == Some(q)
  {
  }

  /** "since N units ago" is N units. */
  lemma SinceAgo(s: string, x: string, c: string, d: string, gap: string, k: nat, unit: string, length: nat, ms: nat)
    requires IsCount(c, d, gap, k, unit) && x == c + " ago" && s == "since" + (" " + x)
    requires length == UnitLength(unit[0]) && ms == Num(d) * length
    ensures ParseQuery(s) == NO_QUERY.(sinceMs := Some(ms))
  {
    var u, e := SinceAgoHead(s, x, c, d, gap, k, unit);
    SinceAgoQuery(s, d, u, e, length, ms);
  }

  lemma SinceAgoQuery(s: string, d: string, u: nat, e: nat, unit: nat, ms: nat)
    requires ThenDigit(s, "since") && Starts(s, 's', 'i') && s[0] == 's'
    requires Counted(s, 6, d, u, e, unit, UNITS) && e <= |s| && s[e..] == " ago" && ms == Num(d) * unit
    ensures ParseQuery(s) == NO_QUERY.(sinceMs := Some(ms))
  {
    SinceAgoCounted(s, d, u, e, unit);
    WindowQuery(s, ms);
  }
}
