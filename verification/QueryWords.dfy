/**
 Free text. It is printed after the other parts and read again as if typed: which
 words come back as words, and one that does not.
 */
module QueryWords {
  import opened Decimals
  import opened Filters
  import opened QueryBridge
  import opened QueryParser
  import opened QueryReading
  import opened QueryRoundTrip
  import opened QuerySynonyms
  import opened Scanning
  import opened Wrappers

  /** The words a command opens with. */
  const COMMAND_OPENERS: seq<string> := ["save", "forget", "unsave", "top", "first", "most", "limit"]

  /** The words a time phrase opens with, but for "a" and "an". */
  const PHRASE_OPENERS: seq<string> :=
    ["last", "past", "this", "overnight", "since", "in", "over", "for", "the", "today", "yesterday", "now"]

  /** The words a field opens with. */
  const FIELD_OPENERS: seq<string> := ["tag", "url", "level", "status", "text", "is", "has", "sort"]

  /** Lower-case letters, the first no "a", that open nothing and have no entry in any table. */
  predicate FreeWord(w: string) {
    && w != "" && (forall k :: 0 <= k < |w| ==> 'a' <= w[k] <= 'z') && w[0] != 'a'
    && w !in COMMAND_OPENERS && w !in PHRASE_OPENERS && w !in FIELD_OPENERS
    && WordMeaning(w, false) == WordToken(w)
  }

  // ----- a word goes on where an opener ends -----

  /** After position `i` comes a letter: no gap, no boundary, no colon, no digit. */
  ghost predicate GoesOn(s: string, i: nat) {
    i < |s| && Gap(s, i) == None && !Boundary(s, i) && Around(s, i, ':') == None && Run(s, i, Space) == i && !IsDigit(s[i]) && s[i] != ':'
  }

  lemma LetterGoesOn(s: string, i: nat)
    requires 0 < i < |s| && 'a' <= s[i] <= 'z' && 'a' <= Lower(s[i - 1]) <= 'z'
    ensures GoesOn(s, i)
  {
    RunIs(s, i, i, Space);
  }

  /** The line begins with the word `w`. */
  ghost predicate Begins(s: string, w: string, rest: string) {
    IsName(w) && w[0] != 'a' && Plain(rest) && s == w + rest
  }

  /** Of a word that is not the opener, the opener can only be the beginning. */
  lemma OpenerGoesOn(s: string, w: string, rest: string, opener: string)
    requires Begins(s, w, rest) && IsName(opener) && w != opener
    ensures LitAt(s, 0, opener) ==> GoesOn(s, |opener|)
  {
    var n := |opener|;
    if |w| < n {
      assert |w| < |s| ==> s[|w|] == rest[0] == ' ';
      Clash(s, 0, opener, |w|);
    } else if |w| == n {
      var j :| 0 <= j < n && w[j] != opener[j];
      assert s[j] == w[j];
      Clash(s, 0, opener, j);
    } else {
      assert s[n] == w[n] && s[n - 1] == w[n - 1];
      LetterGoesOn(s, n);
    }
  }

  /** No word of the list stands here in full; if one is the beginning of what does, it goes on. */
  ghost predicate Unopened(s: string, words: seq<string>)
    requires NoEmptyWord(words)
  {
    AltWord(s, 0, words) == None && (Alt(s, 0, words).Some? ==> GoesOn(s, Alt(s, 0, words).value))
  }

  lemma {:induction false} OpenersGoOn(s: string, w: string, rest: string, words: seq<string>)
    requires Begins(s, w, rest) && AreNames(words) && w !in words
    ensures NoEmptyWord(words) && Unopened(s, words)
  {
    if words != [] {
      OpenerGoesOn(s, w, rest, words[0]);
      OpenersGoOn(s, w, rest, words[1..]);
    }
  }

  /** A word that is not in the longer list is not in the shorter one, and opens nothing of it. */
  lemma SomeOpeners(s: string, w: string, rest: string, words: seq<string>, all: seq<string>)
    requires Begins(s, w, rest) && AreNames(words) && w !in all && forall x :: x in words ==> x in all
    ensures NoEmptyWord(words) && Unopened(s, words)
  {
    OpenersGoOn(s, w, rest, words);
  }

  // ----- the branches, one group after another -----

  lemma SaveAndForget(s: string, w: string, rest: string)
    requires Begins(s, w, rest) && w !in COMMAND_OPENERS
    ensures SaveTurn(s) == None && ForgetTurn(s) == None
  {
    OpenerGoesOn(s, w, rest, "save");
    SomeOpeners(s, w, rest, ["forget", "unsave"], COMMAND_OPENERS);
  }

  lemma TopMostLimit(s: string, w: string, rest: string)
    requires Begins(s, w, rest) && w !in COMMAND_OPENERS
    ensures TopTurn(s) == None && MostTurn(s) == None && LimitTurn(s) == None
  {
    SomeOpeners(s, w, rest, ["top", "first"], COMMAND_OPENERS);
    OpenerGoesOn(s, w, rest, "most");
    OpenerGoesOn(s, w, rest, "limit");
  }

  lemma NightAndMorning(s: string, w: string, rest: string)
    requires Begins(s, w, rest) && w !in PHRASE_OPENERS
    ensures NightPhrase(s) == None && MorningPhrase(s) == None
  {
    SomeOpeners(s, w, rest, ["last"], PHRASE_OPENERS);
    SomeOpeners(s, w, rest, ["overnight"], PHRASE_OPENERS);
    SomeOpeners(s, w, rest, ["this"], PHRASE_OPENERS);
  }

  lemma WeekToYesterday(s: string, w: string, rest: string)
    requires Begins(s, w, rest) && w !in PHRASE_OPENERS
    ensures WeekPhrase(s) == None && MonthPhrase(s) == None && YesterdayPhrase(s) == None
  {
    SomeOpeners(s, w, rest, ["this", "past", "last"], PHRASE_OPENERS);
    SomeOpeners(s, w, rest, ["since"], PHRASE_OPENERS);
    SomeOpeners(s, w, rest, ["past"], PHRASE_OPENERS);
  }

  lemma NoFixedWord(s: string, w: string, rest: string)
    requires Begins(s, w, rest) && w !in PHRASE_OPENERS
    ensures FixedPhrases(s) == None
  {
    NightAndMorning(s, w, rest);
    WeekToYesterday(s, w, rest);
  }

  lemma NoNumber(s: string, w: string, rest: string, units: seq<string>)
    requires Begins(s, w, rest) && NoEmptyWord(units)
    ensures CountUnit(s, 0, units) == None
  {
    assert s[0] == w[0];
  }

  lemma NoCountedWord(s: string, w: string, rest: string)
    requires Begins(s, w, rest) && w !in PHRASE_OPENERS
    ensures CountPhrases(s) == None
  {
    NoNumber(s, w, rest, UNITS);
    SomeOpeners(s, w, rest, ["in", "over", "for"], PHRASE_OPENERS);
    SomeOpeners(s, w, rest, ["the"], PHRASE_OPENERS);
    SomeOpeners(s, w, rest, LAST_PAST, PHRASE_OPENERS);
    SomeOpeners(s, w, rest, ["since"], PHRASE_OPENERS);
  }

  /** The last three patterns: "today", "yesterday", "now". */
  lemma NoSingleWord(s: string, w: string, rest: string)
    requires Begins(s, w, rest) && w !in PHRASE_OPENERS
    ensures AltWord(s, 0, ["today"]) == None && AltWord(s, 0, ["yesterday"]) == None && AltWord(s, 0, ["now"]) == None
  {
    SomeOpeners(s, w, rest, ["today"], PHRASE_OPENERS);
    SomeOpeners(s, w, rest, ["yesterday"], PHRASE_OPENERS);
    SomeOpeners(s, w, rest, ["now"], PHRASE_OPENERS);
  }

  lemma NoPhraseWord(s: string, w: string, rest: string)
    requires Begins(s, w, rest) && w !in PHRASE_OPENERS
    ensures WordPhrases(s) == None
  {
    assert s[0] == w[0];
    NoSingleWord(s, w, rest);
    NoArticle(s);
    SomeOpeners(s, w, rest, ["the"], PHRASE_OPENERS);
    SomeOpeners(s, w, rest, ["last", "past", "this"], PHRASE_OPENERS);
  }

  lemma NoTimeWord(s: string, w: string, rest: string)
    requires Begins(s, w, rest) && w !in PHRASE_OPENERS
    ensures TimeTurn(s) == None
  {
    NoFixedWord(s, w, rest);
    NoCountedWord(s, w, rest);
    NoPhraseWord(s, w, rest);
    UnitsNamed();
    NoNumber(s, w, rest, COMPACT_UNITS);
    NoTime(s);
  }

  lemma NoTime(s: string)
    requires NoEmptyWord(COMPACT_UNITS) && CountUnit(s, 0, COMPACT_UNITS) == None
    requires FixedPhrases(s) == None && CountPhrases(s) == None && WordPhrases(s) == None
    ensures TimeTurn(s) == None
  {
  }

  lemma NoPrefixWord(s: string, w: string, rest: string)
    requires Begins(s, w, rest) && w !in FIELD_OPENERS
    ensures PrefixTurn(s) == None
  {
    OpenerGoesOn(s, w, rest, "tag");
    OpenerGoesOn(s, w, rest, "url");
    SomeOpeners(s, w, rest, FIELDS, FIELD_OPENERS);
  }

  lemma FreeWordHead(s: string, w: string, rest: string)
    requires FreeWord(w) && Plain(rest) && s == w + rest
    ensures s != "" && 'b' <= s[0] <= 'z' && !IsSpace(s[0])
    ensures Run(s, 0, Name) == |w| == Run(s, 0, Pattern) && s[..|w|] == w && LowerAll(w) == w
  {
    assert s[0] == w[0];
    NameEnds(s, w, rest);
  }

  lemma FreeWordMeans(w: string, b: bool)
    requires FreeWord(w) && LowerAll(w) == w
    ensures LevelOf(w) == None && StatusOf(w) == None && WordMeaning(w, b) == WordToken(w)
  {
  }

  lemma FreeWordBare(s: string, w: string, rest: string, b: bool)
    requires FreeWord(w) && Plain(rest) && s == w + rest
    ensures BareTurn(s, b) == Turn([Spanned(WordToken(w), 0, |w|)], |w|)
  {
    FreeWordHead(s, w, rest);
    FreeWordMeans(w, b);
    var levels, statuses := BareCsv(s, LevelOf), BareCsv(s, StatusOf);
    NoList(s, |w|, LevelOf, levels);
    NoList(s, |w|, StatusOf, statuses);
    BareCases(s, b, |w|, levels, statuses);
  }

  lemma FreeWordTurn(s: string, w: string, rest: string, b: bool)
    requires FreeWord(w) && Plain(rest) && s == w + rest
    ensures Branches(s, b) == Turn([Spanned(WordToken(w), 0, |w|)], |w|)
  {
    FreeWordHead(s, w, rest);
    SaveAndForget(s, w, rest);
    TopMostLimit(s, w, rest);
    NoTimeWord(s, w, rest);
    NoSymbol(s);
    NoPrefixWord(s, w, rest);
    FreeWordBare(s, w, rest, b);
  }

  /** A free word is read as itself, whatever part follows. */
  lemma FreeWordReads(w: string)
    requires FreeWord(w)
    ensures Reads(Branches, w, WordToken(w))
  {
    forall rest, b | Plain(rest)
      ensures Branches(w + rest, b) == Turn([Spanned(WordToken(w), 0, |w|)], |w|)
    {
      FreeWordTurn(w + rest, w, rest, b);
    }
  }

  // ----- a line that ends in free words -----

  ghost predicate AllFree(words: seq<string>) {
    forall k :: 0 <= k < |words| ==> FreeWord(words[k])
  }

  function WordTokens(words: seq<string>): (r: seq<Token>)
    ensures |r| == |words| && forall k :: 0 <= k < |r| ==> r[k] == WordToken(words[k])
  {
    if words == [] then [] else [WordToken(words[0])] + WordTokens(words[1..])
  }

  lemma FreeWordsRead(words: seq<string>)
    requires AllFree(words)
    ensures AllRead(Branches, words, WordTokens(words))
  {
    forall k | 0 <= k < |words| ensures Reads(Branches, words[k], WordTokens(words)[k]) {
      FreeWordReads(words[k]);
    }
  }

  /** Joining the last parts first makes no difference. */
  lemma {:induction false} JoinFlat(a: seq<string>, b: seq<string>, sep: string)
    requires b != []
    ensures Join(a + [Join(b, sep)], sep) == Join(a + b, sep)
  {
    if a == [] {
      assert a + [Join(b, sep)] == [Join(b, sep)] && a + b == b;
    } else {
      JoinFlat(a[1..], b, sep);
      assert (a + [Join(b, sep)])[1..] == a[1..] + [Join(b, sep)];
      assert (a + b)[1..] == a[1..] + b;
    }
  }

  lemma {:induction false} JoinEnds(words: seq<string>)
    requires words != [] && AllFree(words)
    ensures var t := Join(words, " "); t != "" && !IsSpace(t[0]) && !IsSpace(t[|t| - 1])
  {
    if |words| > 1 {
      JoinEnds(words[1..]);
    }
  }

  lemma JoinTrimmed(words: seq<string>)
    requires words != [] && AllFree(words)
    ensures Trimmed(Join(words, " ")) == Join(words, " ") != ""
  {
    JoinEnds(words);
  }

  lemma PartsWithText(f: Filter, g: Filter)
    requires g == f.(query := "") && Trimmed(f.query) == f.query != ""
    ensures Parts(f) == Parts(g) + [f.query]
  {
    var head := FacetParts(g) + FlagParts(g);
    var tail := SortPart(g) + LimitPart(g);
    assert Trimmed(g.query) == "";
    assert TailParts(g) == tail && TailParts(f) == tail + [f.query];
    assert head + (tail + [f.query]) == (head + tail) + [f.query];
  }

  lemma WordsLast(f: Filter, g: Filter, words: seq<string>)
    requires words != [] && AllFree(words) && f.query == Join(words, " ") && g == f.(query := "")
    ensures QueryString(f) == Join(Parts(g) + words, " ")
  {
    JoinTrimmed(words);
    PartsWithText(f, g);
    JoinFlat(Parts(g), words, " ");
  }

  lemma WordLineTokens(f: Filter, g: Filter, words: seq<string>)
    requires words != [] && AllFree(words) && f.query == Join(words, " ") && g == f.(query := "") && Printable(g)
    ensures Bare(Tokens(QueryString(f))) == FilterTokens(g) + WordTokens(words)
  {
    WordsLast(f, g, words);
    PartsRead(g);
    FreeWordsRead(words);
    ReadCat(Branches, Parts(g), words, FilterTokens(g), WordTokens(words));
    TokensOf(Parts(g) + words, FilterTokens(g) + WordTokens(words));
  }

  lemma WordsSnoc(words: seq<string>, n: nat, ts: seq<Token>)
    requires n + 1 == |words| && ts == WordTokens(words)
    ensures ts[..n] == WordTokens(words[..n]) && ts[n] == WordToken(words[n]) && |ts| == n + 1
  {
  }

  lemma WordPut(q: Query, words: seq<string>, n: nat)
    requires n + 1 == |words|
    ensures Put(q.(words := q.words + words[..n]), WordToken(words[n]), false) == q.(words := q.words + words)
  {
    assert (q.words + words[..n]) + [words[n]] == q.words + words;
  }

  lemma {:induction false} WordsBuild(q: Query, words: seq<string>, ts: seq<Token>)
    requires ts == WordTokens(words)
    ensures PutAll(q, ts) == q.(words := q.words + words)
  {
    if words == [] {
      assert q.words + [] == q.words;
    } else {
      var n := |words| - 1;
      WordsSnoc(words, n, ts);
      WordsBuild(q, words[..n], ts[..n]);
      WordPut(q, words, n);
    }
  }

  lemma WordLineBuilds(g: Filter, words: seq<string>)
    requires Printable(g)
    ensures Build(FilterTokens(g) + WordTokens(words)) == QueryOf(g).(words := words)
  {
    NoMinusPrinted(g);
    BuildIsPutAll(FilterTokens(g) + WordTokens(words));
    PutCat(NO_QUERY, FilterTokens(g), WordTokens(words));
    TokensPut(g);
    WordsBuild(QueryOf(g), words, WordTokens(words));
    assert [] + words == words;
  }

  lemma WordsApply(f: Filter, g: Filter, words: seq<string>)
    requires Printable(g) && g == f.(query := "") && f.query == Join(words, " ")
    ensures Applied(QueryOf(g).(words := words)) == f
  {
    assert MatcherTexts([]) + words == words;
    QueryOfApplies(g);
  }

  /** A filter whose free text is free words comes back whole, under the same conditions as one without text. */
  lemma FreeTextReturns(f: Filter, words: seq<string>)
    requires words != [] && AllFree(words) && f.query == Join(words, " ") && Printable(f)
    ensures Applied(ParseQuery(QueryString(f))) == f
  {
    var g := f.(query := "");
    WordLineTokens(f, g, words);
    WordLineBuilds(g, words);
    WordsApply(f, g, words);
  }

  // ----- a word that does not come back -----

  lemma StaleLine(f: Filter)
    requires f == Filter("stale", DEFAULT_STATUSES, {}, None, false, By(Recent), None, false, false)
    ensures QueryString(f) == Join(["stale"], " ")
  {
    assert Trimmed("stale") == "stale";
    assert Parts(f) == ["stale"];
  }

  lemma StaleQuery(ts: seq<Token>)
    requires ts == [KeywordToken(StaleWord)]
    ensures Build(ts) == NO_QUERY.(staleOnly := true)
  {
    BuildIsPutAll(ts);
    PutOnly(NO_QUERY, true, ts[0]);
  }

  lemma LineMeans(parts: seq<string>, ts: seq<Token>, line: string, q: Query)
    requires AllRead(Branches, parts, ts) && line == Join(parts, " ") && q == ParseQuery(line)
    ensures q == Build(ts)
  {
    TokensOf(parts, ts);
  }

  lemma StaleReads(line: string, q: Query)
    requires line == Join(["stale"], " ") && q == ParseQuery(line)
    ensures q == NO_QUERY.(staleOnly := true)
  {
    var parts, ts := ["stale"], [KeywordToken(StaleWord)];
    FlagReads(parts[0], StaleWord);
    LineMeans(parts, ts, line, q);
    StaleQuery(ts);
  }

  lemma StaleApplies(f: Filter, q: Query)
    requires f == Filter("stale", DEFAULT_STATUSES, {}, None, false, By(Recent), None, false, false)
    requires q == NO_QUERY.(staleOnly := true)
    ensures Applied(q) == f.(query := "", staleOnly := true) != f
  {
  }

  /** A search for "stale" comes back as the stale flag without a search. */
  lemma StaleIsLost(f: Filter, q: Query)
    requires f == Filter("stale", DEFAULT_STATUSES, {}, None, false, By(Recent), None, false, false)
    requires q == ParseQuery(QueryString(f))
    ensures Applied(q) == f.(query := "", staleOnly := true) != f
  {
    StaleLine(f);
    StaleReads(QueryString(f), q);
    StaleApplies(f, q);
  }
}
