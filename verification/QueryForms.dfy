/** What the forms of the language are read as, from the text to the query. */
module QueryForms {
  import opened Filters
  import opened QueryBridge
  import opened QueryParser
  import opened QueryReading
  import opened QueryRoundTrip
  import opened QuerySynonyms
  import opened QueryTokens
  import opened QueryWords
  import opened Scanning
  import opened Wrappers
  import Schema

  // ----- one word -----

  /** The loop reads `w` as the one token `t`. */
  ghost predicate IsRead(step: (string, bool) -> Turn, w: string, t: Token) {
    w != "" && step(w, false) == Turn([Spanned(t, 0, |w|)], |w|)
  }

  lemma BuildsOne(t: Token)
    ensures Build([t]) == Put(NO_QUERY, t, false)
  {
    BuildSnoc([t], 0, []);
  }

  lemma ReadAlone(w: string, t: Token)
    requires IsRead(Branches, w, t)
    ensures ParseQuery(w) == Build([t])
  {
    var turn := Turn([Spanned(t, 0, |w|)], |w|);
    OneTurn(w, turn);
    assert Bare(turn.tokens) == [t];
  }

  /** Opens no command, phrase or field. */
  ghost predicate Opens(w: string) {
    w in COMMAND_OPENERS || w in PHRASE_OPENERS || w in FIELD_OPENERS
  }

  lemma OnlyBareWord(w: string)
    requires IsName(w) && w[0] != 'a' && !Opens(w)
    ensures Branches(w, false) == BareTurn(w, false)
  {
    assert w == w + "";
    NoSymbol(w);
    NoOpening(w);
  }

  lemma NoOpening(w: string)
    requires Begins(w, w, "") && !Opens(w)
    ensures CommandTurn(w) == None && TimeTurn(w) == None && PrefixTurn(w) == None
  {
    SaveAndForget(w, w, "");
    TopMostLimit(w, w, "");
    NoTimeWord(w, w, "");
    NoPrefixWord(w, w, "");
  }

  lemma OneEntry<T>(w: string, resolve: string -> Option<T>, r: (seq<T>, nat))
    requires IsName(w) && Run(w, 0, Name) == |w| && r == BareCsv(w, resolve)
    ensures |r.0| <= 1
  {
  }

  lemma WholeWord(w: string)
    requires IsName(w)
    ensures Run(w, 0, Name) == |w| == Run(w, 0, Pattern) && w[..|w|] == w
  {
    assert w == w + "";
    NameEnds(w, w, "");
  }

  lemma BareAlone(w: string)
    requires IsName(w)
    ensures BareTurn(w, false) == Turn([Spanned(WordMeaning(w, false), 0, |w|)], |w|)
  {
    WholeWord(w);
    var levels, statuses := BareCsv(w, LevelOf), BareCsv(w, StatusOf);
    OneEntry(w, LevelOf, levels);
    OneEntry(w, StatusOf, statuses);
    BareCases(w, false, |w|, levels, statuses);
  }

  /** A word of lower-case letters that opens nothing is looked up. */
  lemma WordIsRead(w: string)
    requires IsName(w) && w[0] != 'a' && !Opens(w)
    ensures IsRead(Branches, w, WordMeaning(w, false))
  {
    OnlyBareWord(w);
    BareAlone(w);
  }

  // ----- a minus before it -----

  /** A minus right before something that is no space. */
  lemma MinusTurn(s: string, w: string)
    requires s == "-" + w && w != "" && !IsSpace(w[0])
    ensures Branches(s, false) == Turn([Spanned(NegToken, 0, 1)], 1)
  {
    assert s[0] == '-' && s[1] == w[0];
    NoOperator(s);
    SymbolFirst(s, Turn([Spanned(NegToken, 0, 1)], 1));
  }

  /** Begins with a minus, an at sign or a quote. */
  ghost predicate Signed(s: string) {
    s != "" && (s[0] == '-' || s[0] == '@' || s[0] == '"')
  }

  lemma NoOperator(s: string)
    requires Signed(s)
    ensures OpTurn(s) == None
  {
    NotUpper(s, "AND");
    NotUpper(s, "OR");
    NotUpper(s, "NOT");
  }

  lemma SymbolFirst(s: string, t: Turn)
    requires Signed(s) && SymbolTurn(s) == Some(t)
    ensures Branches(s, false) == t
  {
    NoCommand(s);
    NoPhrase(s);
  }

  lemma MinusLex(step: (string, bool) -> Turn, s: string, w: string, t: Token, found: seq<Spanned>)
    requires Consumes(step) && s == "-" + w && IsRead(step, w, t)
    requires step(s, false) == Turn([Spanned(NegToken, 0, 1)], 1) && found == Lex(step, s, 0, false)
    ensures Bare(found) == [NegToken, t]
  {
    var minus, turn := Turn([Spanned(NegToken, 0, 1)], 1), Turn([Spanned(t, 0, |w|)], |w|);
    var rest := Lex(step, w, 1, false);
    assert s[1..] == w;
    LexStep(step, s, 0, false, minus, w, 1, false, rest, found);
    LexStep(step, w, 1, false, turn, "", 1 + |w|, EndsInSort(turn.tokens, false), [], rest);
    BareOne(NegToken, 1, 0);
    BareOne(t, |w|, 1);
    BareCat(Shift(turn.tokens, 1), []);
    BareCat(Shift(minus.tokens, 0), rest);
  }

  lemma BuildsMinus(t: Token)
    ensures Build([NegToken, t]) == Put(NO_QUERY, t, true)
  {
    var ts := [NegToken, t];
    assert ts[..1] == [NegToken];
    BuildSnoc(ts, 1, [NegToken]);
    BuildsOne(NegToken);
  }

  lemma MinusQuery(s: string, w: string, t: Token)
    requires s == "-" + w && IsRead(Branches, w, t) && !IsSpace(w[0])
    ensures ParseQuery(s) == Put(NO_QUERY, t, true)
  {
    BranchesConsume();
    MinusTurn(s, w);
    MinusLex(Branches, s, w, t, Tokens(s));
    BuildsMinus(t);
  }

  lemma LevelWord(l: Level, w: string)
    requires w == LevelName(l)
    ensures IsName(w) && w[0] != 'a' && !Opens(w) && WordMeaning(w, false) == LevelToken([l])
  {
    LevelNameReads(l);
    LowerSame(w);
  }

  lemma StatusWord(t: Status, w: string)
    requires w == StatusName(t)
    ensures IsName(w) && w[0] != 'a' && !Opens(w) && WordMeaning(w, false) == StatusToken([t])
  {
    StatusNameReads(t);
    LowerSame(w);
  }

  lemma MinusLevelQuery(l: Level, w: string, s: string)
    requires w == LevelName(l) && s == "-" + w
    ensures ParseQuery(s) == Put(NO_QUERY, LevelToken([l]), true)
  {
    LevelWord(l, w);
    WordIsRead(w);
    MinusQuery(s, w, LevelToken([l]));
  }

  lemma PutsNegLevel(l: Level, q: Query)
    requires q == Put(NO_QUERY, LevelToken([l]), true)
    ensures q == NO_QUERY.(negLevels := {l}) && LevelsFor(q) == ALL_LEVELS - {l}
  {
    assert SetOf([l]) == {l};
  }

  /** A minus before a level leaves the other four. */
  lemma MinusLevel(l: Level, s: string)
    requires s == "-" + LevelName(l)
    ensures ParseQuery(s) == NO_QUERY.(negLevels := {l}) && Applied(ParseQuery(s)).levels == ALL_LEVELS - {l}
  {
    MinusLevelQuery(l, LevelName(l), s);
    PutsNegLevel(l, ParseQuery(s));
  }

  lemma MinusStatusQuery(t: Status, w: string, s: string)
    requires w == StatusName(t) && s == "-" + w
    ensures ParseQuery(s) == Put(NO_QUERY, StatusToken([t]), true)
  {
    StatusWord(t, w);
    WordIsRead(w);
    MinusQuery(s, w, StatusToken([t]));
  }

  lemma PutsNegStatus(t: Status, q: Query)
    requires q == Put(NO_QUERY, StatusToken([t]), true)
    ensures q == NO_QUERY.(negStatuses := {t}) && StatusesFor(q) == ALL_STATUSES - {t}
  {
    assert SetOf([t]) == {t};
  }

  /** A minus before a status leaves the other three. */
  lemma MinusStatus(t: Status, s: string)
    requires s == "-" + StatusName(t)
    ensures ParseQuery(s) == NO_QUERY.(negStatuses := {t}) && Applied(ParseQuery(s)).statuses == ALL_STATUSES - {t}
  {
    MinusStatusQuery(t, StatusName(t), s);
    PutsNegStatus(t, ParseQuery(s));
  }

  // ----- words with an entry of their own -----

  /** What a word of the tables sets; the fillers set nothing. */
  function Entry(w: string): Option<Query> {
    if w == "spiking" then Some(NO_QUERY.(spiking := true))
    else if w == "new" || w == "fresh" then Some(NO_QUERY.(newOnly := true))
    else if w == "stale" || w == "old" || w == "zombie" then Some(NO_QUERY.(staleOnly := true))
    else if w == "crashes" || w == "crashing" then Some(NO_QUERY.(levels := {Fatal}))
    else if w == "noisy" || w == "loudest" || w == "frequent" then Some(NO_QUERY.(sort := Some(By(Count))))
    else if w == "newest" || w == "latest" then Some(NO_QUERY.(sort := Some(By(Recent))))
    else if w in FILLERS then Some(NO_QUERY)
    else None
  }

  const FILLERS: seq<string> := ["issues", "issue", "results", "result", "events", "event", "items", "item", "rows"]

  /** `w` is a word of letters that opens nothing. */
  ghost predicate Shaped(w: string) {
    IsName(w) && w[0] != 'a' && !Opens(w)
  }

  lemma FlagShapes(w: string)
    requires w in ["spiking", "new", "fresh"]
    ensures Shaped(w)
  {
  }

  lemma StaleShapes(w: string)
    requires w in ["stale", "old", "zombie"]
    ensures Shaped(w)
  {
  }

  lemma CrashShapes(w: string)
    requires w in ["crashes", "crashing"]
    ensures Shaped(w)
  {
  }

  lemma CountShapes(w: string)
    requires w in ["noisy", "loudest", "frequent"]
    ensures Shaped(w)
  {
  }

  lemma RecentShapes(w: string)
    requires w in ["newest", "latest"]
    ensures Shaped(w)
  {
  }

  lemma FillerShapes(w: string, k: nat)
    requires k < |FILLERS| && w == FILLERS[k]
    ensures Shaped(w)
  {
    if k < 4 {
      IssueShapes(w);
    } else {
      EventShapes(w);
    }
  }

  lemma IssueShapes(w: string)
    requires w in ["issues", "issue", "results", "result"]
    ensures Shaped(w)
  {
  }

  lemma EventShapes(w: string)
    requires w in ["events", "event", "items", "item", "rows"]
    ensures Shaped(w)
  {
  }

  lemma EntryShape(w: string)
    requires Entry(w).Some?
    ensures Shaped(w)
  {
    if w in ["spiking", "new", "fresh"] {
      FlagShapes(w);
    } else if w in ["stale", "old", "zombie"] {
      StaleShapes(w);
    } else if w in ["crashes", "crashing"] {
      CrashShapes(w);
    } else if w in ["noisy", "loudest", "frequent"] {
      CountShapes(w);
    } else if w in ["newest", "latest"] {
      RecentShapes(w);
    } else {
      var k :| 0 <= k < |FILLERS| && FILLERS[k] == w;
      FillerShapes(w, k);
    }
  }

  lemma FlagTokens(w: string)
    requires IsName(w) && (w == "spiking" || w == "new" || w == "fresh")
    ensures WordMeaning(w, false) == KeywordToken(if w == "spiking" then Spiking else New)
  {
    LowerSame(w);
  }

  lemma StaleTokens(w: string)
    requires IsName(w) && (w == "stale" || w == "old" || w == "zombie")
    ensures WordMeaning(w, false) == KeywordToken(StaleWord)
  {
    LowerSame(w);
  }

  lemma CrashTokens(w: string)
    requires IsName(w) && (w == "crashes" || w == "crashing")
    ensures WordMeaning(w, false) == LevelToken([Fatal])
  {
    LowerSame(w);
  }

  lemma CountTokens(w: string)
    requires IsName(w) && (w == "noisy" || w == "loudest" || w == "frequent")
    ensures WordMeaning(w, false) == SortToken(By(Count))
  {
    NoEntryCount(w);
    SortAliasToken(w, Count);
  }

  lemma NoEntryCount(w: string)
    requires w == "noisy" || w == "loudest" || w == "frequent"
    ensures LevelOf(w) == None && StatusOf(w) == None && KeywordOf(w) == None && SortAlias(w) == Some(Count)
    ensures w != "crashes" && w != "crashing"
  {
    assert w[..2] == "no" || w[..2] == "lo" || w[..2] == "fr";
    NoLevelName(w);
  }

  lemma SortAliasToken(w: string, key: SortKey)
    requires IsName(w) && w != "crashes" && w != "crashing"
    requires LevelOf(w) == None && StatusOf(w) == None && KeywordOf(w) == None && SortAlias(w) == Some(key)
    ensures WordMeaning(w, false) == SortToken(By(key))
  {
    LowerSame(w);
  }

  lemma RecentTokens(w: string)
    requires IsName(w) && (w == "newest" || w == "latest")
    ensures WordMeaning(w, false) == SortToken(By(Recent))
  {
    LowerSame(w);
  }

  /** A level is told by its first two letters. */
  lemma NoLevelName(w: string)
    requires |w| >= 3 && w[..2] !in ["fa", "er", "wa", "in", "de"]
    ensures LevelOf(w) == None
  {
    var v := w[..|w| - 1];
    assert v[..2] == w[..2];
    assert "fatal"[..2] == "fa" && "error"[..2] == "er" && "warning"[..2] == "wa" && "info"[..2] == "in" && "debug"[..2] == "de";
  }

  lemma NoEntryIssue(w: string)
    requires w in ["issues", "issue", "results", "result"]
    ensures LevelOf(w) == None && StatusOf(w) == None && KeywordOf(w) == None && SortAlias(w) == None && IsFiller(w)
  {
    assert w[..2] == "is" || w[..2] == "re";
    NoLevelName(w);
  }

  lemma NoEntryEvent(w: string)
    requires w in ["events", "event", "items", "item", "rows"]
    ensures LevelOf(w) == None && StatusOf(w) == None && KeywordOf(w) == None && SortAlias(w) == None && IsFiller(w)
  {
    assert w[..2] == "ev" || w[..2] == "it" || w[..2] == "ro";
    NoLevelName(w);
  }

  lemma IsFillerToken(w: string)
    requires IsName(w) && w != "crashes" && w != "crashing"
    requires LevelOf(w) == None && StatusOf(w) == None && KeywordOf(w) == None && SortAlias(w) == None && IsFiller(w)
    ensures WordMeaning(w, false) == FillerToken
  {
    LowerSame(w);
  }

  lemma FillerTokens(w: string, k: nat)
    requires IsName(w) && k < |FILLERS| && w == FILLERS[k]
    ensures WordMeaning(w, false) == FillerToken
  {
    if k < 4 {
      NoEntryIssue(w);
    } else {
      NoEntryEvent(w);
    }
    IsFillerToken(w);
  }

  /** What is set by a token that some entry stands for. */
  lemma Sets(t: Token, q: Query)
    requires q == Put(NO_QUERY, t, false)
    ensures t == LevelToken([Fatal]) ==> q == NO_QUERY.(levels := {Fatal})
    ensures t == KeywordToken(Spiking) ==> q == NO_QUERY.(spiking := true)
    ensures t == KeywordToken(New) ==> q == NO_QUERY.(newOnly := true)
    ensures t == KeywordToken(StaleWord) ==> q == NO_QUERY.(staleOnly := true)
    ensures t == FillerToken ==> q == NO_QUERY
    ensures t.SortToken? ==> q == NO_QUERY.(sort := Some(t.axis))
  {
    assert SetOf([Fatal]) == {Fatal};
  }

  lemma EntryMeans(w: string, t: Token)
    requires Entry(w).Some? && IsName(w) && t == WordMeaning(w, false)
    ensures Put(NO_QUERY, t, false) == Entry(w).value
  {
    Sets(t, Put(NO_QUERY, t, false));
    if w == "spiking" || w == "new" || w == "fresh" {
      FlagTokens(w);
    } else if w == "stale" || w == "old" || w == "zombie" {
      StaleTokens(w);
    } else if w == "crashes" || w == "crashing" {
      CrashTokens(w);
    } else if w == "noisy" || w == "loudest" || w == "frequent" {
      CountTokens(w);
    } else if w == "newest" || w == "latest" {
      RecentTokens(w);
    } else {
      var k :| 0 <= k < |FILLERS| && FILLERS[k] == w;
      FillerTokens(w, k);
    }
  }

  lemma ShapedQuery(w: string, t: Token)
    requires Shaped(w) && t == WordMeaning(w, false)
    ensures ParseQuery(w) == Put(NO_QUERY, t, false)
  {
    WordIsRead(w);
    ReadAlone(w, t);
    BuildsOne(t);
  }

  /** Every word of the tables sets what its entry says and nothing else. */
  lemma WordsMean(w: string)
    requires Entry(w).Some?
    ensures ParseQuery(w) == Entry(w).value
  {
    EntryShape(w);
    ShapedQuery(w, WordMeaning(w, false));
    EntryMeans(w, WordMeaning(w, false));
  }

  // ----- "@name", "save as :name", "forget @name" -----

  /** The name of a saved filter: word characters and dashes. */
  ghost predicate SavedName(n: string) {
    n != "" && forall k :: 0 <= k < |n| ==> In(Name, n[k])
  }

  lemma NameToEnd(s: string, pre: string, n: string, i: nat)
    requires SavedName(n) && s == pre + n && i == |pre|
    ensures Run(s, i, Name) == |s| && s[i..] == n && s[i..|s|] == n && !IsSpace(s[i])
  {
    forall k | i <= k < |s| ensures In(Name, s[k]) {
      assert s[k] == n[k - i];
    }
    RunIs(s, i, |s|, Name);
  }

  lemma AtIsRead(s: string, n: string)
    requires SavedName(n) && s == "@" + n
    ensures IsRead(Branches, s, SavedToken(n))
  {
    NameToEnd(s, "@", n, 1);
    NoOperator(s);
    SymbolFirst(s, Turn([Spanned(SavedToken(n), 0, |s|)], |s|));
  }

  /** "@name" recalls a saved filter. */
  lemma AtRecalls(s: string, n: string)
    requires SavedName(n) && s == "@" + n
    ensures ParseQuery(s) == NO_QUERY.(recallSaved := Some(n))
  {
    AtIsRead(s, n);
    ReadAlone(s, SavedToken(n));
    BuildsOne(SavedToken(n));
  }

  /** "-@name" excludes one. */
  lemma MinusAtExcludes(s: string, w: string, n: string)
    requires SavedName(n) && w == "@" + n && s == "-" + w
    ensures ParseQuery(s) == NO_QUERY.(negSavedNames := {n})
  {
    AtIsRead(w, n);
    MinusQuery(s, w, SavedToken(n));
    PutsNegSaved(n);
  }

  lemma PutsNegSaved(n: string)
    ensures Put(NO_QUERY, SavedToken(n), true) == NO_QUERY.(negSavedNames := {n})
  {
    assert {} + {n} == {n};
  }

  lemma SaveIsRead(s: string, n: string)
    requires SavedName(n) && s == "save as :" + n
    ensures IsRead(Branches, s, SaveToken(n))
  {
    SaveStands(s, n);
    SaveCases(s, n);
  }

  lemma SaveStands(s: string, n: string)
    requires SavedName(n) && s == "save as :" + n
    ensures |s| > 9 && s[0] == 's' && LitAt(s, 0, "save") && Gap(s, 4) == Some(5) && LitAt(s, 5, "as") && Around(s, 7, ':') == Some(9)
    ensures Run(s, 9, Name) == |s| && s[9..|s|] == n
  {
    NameToEnd(s, "save as :", n, 9);
    assert s[0] == 's' && s[1] == 'a' && s[2] == 'v' && s[3] == 'e' && s[4] == ' ' && s[5] == 'a' && s[6] == 's' && s[7] == ' ' && s[8] == ':';
    RunIs(s, 4, 5, Space);
    RunIs(s, 7, 8, Space);
    RunIs(s, 9, 9, Space);
  }

  lemma SaveCases(s: string, n: string)
    requires |s| > 9 && s[0] == 's' && LitAt(s, 0, "save") && Gap(s, 4) == Some(5) && LitAt(s, 5, "as") && Around(s, 7, ':') == Some(9)
    requires Run(s, 9, Name) == |s| && s[9..|s|] == n
    ensures Branches(s, false) == Turn([Spanned(SaveToken(n), 0, |s|)], |s|)
  {
  }

  /** "save as :name" saves the filter under that name. */
  lemma SaveAsSaves(s: string, n: string)
    requires SavedName(n) && s == "save as :" + n
    ensures ParseQuery(s) == NO_QUERY.(saveAs := Some(n))
  {
    SaveIsRead(s, n);
    ReadAlone(s, SaveToken(n));
    BuildsOne(SaveToken(n));
  }

  lemma ForgetIsRead(s: string, n: string)
    requires SavedName(n) && s == "forget @" + n
    ensures IsRead(Branches, s, ForgetToken(n))
  {
    ForgetStands(s, n);
    NotHere(s, "save");
    ForgetAlt(s);
    ForgetCases(s, n);
  }

  lemma ForgetCases(s: string, n: string)
    requires |s| > 8 && s[0] == 'f' && SaveTurn(s) == None && Alt(s, 0, ["forget", "unsave"]) == Some(6) && Gap(s, 6) == Some(7)
    requires s[7] == '@' && Run(s, 8, Name) == |s| && s[8..|s|] == n
    ensures Branches(s, false) == Turn([Spanned(ForgetToken(n), 0, |s|)], |s|)
  {
  }

  lemma ForgetAlt(s: string)
    requires LitAt(s, 0, "forget")
    ensures Alt(s, 0, ["forget", "unsave"]) == Some(6)
  {
  }

  lemma ForgetStands(s: string, n: string)
    requires SavedName(n) && s == "forget @" + n
    ensures |s| > 8 && LitAt(s, 0, "forget") && s[7] == '@' && s[0] == 'f' && s[1] == 'o' && Gap(s, 6) == Some(7)
    ensures Run(s, 8, Name) == |s| && s[8..|s|] == n
  {
    NameToEnd(s, "forget @", n, 8);
    assert s[0] == 'f' && s[1] == 'o' && s[2] == 'r' && s[3] == 'g' && s[4] == 'e' && s[5] == 't' && s[6] == ' ' && s[7] == '@';
    RunIs(s, 6, 7, Space);
  }

  /** "forget @name" forgets it. */
  lemma ForgetForgets(s: string, n: string)
    requires SavedName(n) && s == "forget @" + n
    ensures ParseQuery(s) == NO_QUERY.(forgetName := Some(n))
  {
    ForgetIsRead(s, n);
    ReadAlone(s, ForgetToken(n));
    BuildsOne(ForgetToken(n));
  }

  lemma UnsaveStands(s: string, n: string)
    requires SavedName(n) && s == "unsave " + n
    ensures |s| > 7 && s[0] == 'u' && s[1] == 'n' && LitAt(s, 0, "unsave") && Gap(s, 6) == Some(7)
    ensures Run(s, 7, Name) == |s| && s[7..|s|] == n && s[7] != '@'
  {
    NameToEnd(s, "unsave ", n, 7);
    assert s[0] == 'u' && s[1] == 'n' && s[2] == 's' && s[3] == 'a' && s[4] == 'v' && s[5] == 'e' && s[6] == ' ' && s[7] == n[0];
    RunIs(s, 6, 7, Space);
  }

  lemma UnsaveAlt(s: string)
    requires Starts(s, 'u', 'n') && LitAt(s, 0, "unsave")
    ensures Alt(s, 0, ["forget", "unsave"]) == Some(6) && SaveTurn(s) == None
  {
    NotHere(s, "forget");
    NotHere(s, "save");
    AltIs(s, ["forget", "unsave"], 1);
  }

  lemma UnsaveCases(s: string, n: string)
    requires |s| > 7 && s[0] == 'u' && SaveTurn(s) == None && Alt(s, 0, ["forget", "unsave"]) == Some(6) && Gap(s, 6) == Some(7)
    requires s[7] != '@' && Run(s, 7, Name) == |s| && s[7..|s|] == n
    ensures Branches(s, false) == Turn([Spanned(ForgetToken(n), 0, |s|)], |s|)
  {
  }

  /** So does "unsave name", and the "@" may be left out. */
  lemma UnsaveForgets(s: string, n: string)
    requires SavedName(n) && s == "unsave " + n
    ensures ParseQuery(s) == NO_QUERY.(forgetName := Some(n))
  {
    UnsaveStands(s, n);
    UnsaveAlt(s);
    UnsaveCases(s, n);
    ReadAlone(s, ForgetToken(n));
    BuildsOne(ForgetToken(n));
  }

  // ----- quoted text -----

  /** Only asterisks go, and the rest keeps its order. */
  lemma {:induction false} UnstarredCat(a: string, b: string)
    ensures Unstarred(a + b) == Unstarred(a) + Unstarred(b)
  {
    if a == "" {
      assert a + b == b;
    } else {
      var rest, first := a[1..], if a[0] == '*' then "" else [a[0]];
      var ab, more := a + b, rest + b;
      UnstarredCat(rest, b);
      UnstarredStep(a, rest, first);
      FrontStays(a, b, rest, ab, more);
      UnstarredStep(ab, more, first);
      Flat(first, Unstarred(rest), Unstarred(b));
    }
  }

  lemma FrontStays(a: string, b: string, rest: string, ab: string, more: string)
    requires a != "" && rest == a[1..] && ab == a + b && more == rest + b
    ensures ab != "" && ab[0] == a[0] && ab[1..] == more
  {
  }

  lemma Flat(a: string, b: string, c: string)
    ensures a + (b + c) == a + b + c
  {
  }

  lemma UnstarredStep(s: string, rest: string, first: string)
    requires s != "" && rest == s[1..] && first == if s[0] == '*' then "" else [s[0]]
    ensures Unstarred(s) == first + Unstarred(rest)
  {
  }

  lemma UnstarredOne(c: char)
    ensures Unstarred([c]) == if c == '*' then "" else [c]
  {
    assert [c][1..] == "";
  }

  /** In a pattern every slash gets a backslash, and nothing else changes. */
  lemma {:induction false} EscapedAt(s: string, t: string)
    ensures EscapeSlashes(s + t) == EscapeSlashes(s) + EscapeSlashes(t)
  {
    if s == "" {
      assert s + t == t;
    } else {
      var rest, first := s[1..], if s[0] == '/' then "\\/" else [s[0]];
      var st, more := s + t, rest + t;
      EscapedAt(rest, t);
      EscapeStep(s, rest, first);
      FrontStays(s, t, rest, st, more);
      EscapeStep(st, more, first);
      Flat(first, EscapeSlashes(rest), EscapeSlashes(t));
    }
  }

  lemma EscapeStep(s: string, rest: string, first: string)
    requires s != "" && rest == s[1..] && first == if s[0] == '/' then "\\/" else [s[0]]
    ensures EscapeSlashes(s) == first + EscapeSlashes(rest)
  {
  }

  lemma {:induction false} TextsAre(ms: seq<Matcher>, k: nat)
    requires k < |ms|
    ensures |MatcherTexts(ms)| == |ms|
    ensures MatcherTexts(ms)[k] == if ms[k].isPattern then "/" + EscapeSlashes(ms[k].value) + "/" else ms[k].value
  {
    var n := |ms| - 1;
    if k < n {
      TextsAre(ms[..n], k);
    } else if n > 0 {
      TextsAre(ms[..n], 0);
    }
  }

  /** The empty input is the default view. */
  lemma EmptyIsDefault()
    ensures Applied(ParseQuery(""))
            == Filter("", {Schema.Unresolved}, {}, None, false, By(Recent), None, false, false)
  {
    BranchesConsume();
    assert Tokens("") == [] && MatcherTexts([]) == [] && MatcherTexts([]) + [] == [];
  }

  lemma {:induction false} QuoteIs(s: string, i: nat, j: nat)
    requires i <= j < |s| && s[j] == '"' && forall k :: i <= k < j ==> s[k] != '"'
    ensures QuoteAt(s, i) == j
    decreases j - i
  {
    if i < j {
      QuoteIs(s, i + 1, j);
    }
  }

  lemma QuotedIsRead(s: string, x: string)
    requires '"' !in x && s == "\"" + x + "\""
    ensures IsRead(Branches, s, TextToken(Unstarred(x), '*' in x))
  {
    var end := |x| + 1;
    assert s[0] == '"' && s[end] == '"' && s[1..end] == x;
    forall k | 1 <= k < end ensures s[k] != '"' {
      assert s[k] == x[k - 1];
    }
    QuoteIs(s, 1, end);
    QuoteTaken(s, x, end);
    SymbolFirst(s, Turn([Spanned(TextToken(Unstarred(x), '*' in x), 0, |s|)], |s|));
  }

  lemma QuoteTaken(s: string, x: string, end: nat)
    requires s != "" && s[0] == '"' && end + 1 == |s| && 1 <= end && QuoteAt(s, 1) == end && s[1..end] == x
    ensures OpTurn(s) == None && NegTurn(s) == None
    ensures QuotedTurn(s) == Some(Turn([Spanned(TextToken(Unstarred(x), '*' in x), 0, |s|)], |s|))
  {
    NoOperator(s);
  }

  /** Text in quotes is searched for as it stands; with asterisks it is a pattern without them. */
  lemma QuotedMeans(s: string, x: string)
    requires '"' !in x && s == "\"" + x + "\""
    ensures ParseQuery(s) == NO_QUERY.(text := [Matcher(Unstarred(x), '*' in x)])
  {
    var t := TextToken(Unstarred(x), '*' in x);
    QuotedIsRead(s, x);
    ReadAlone(s, t);
    BuildsOne(t);
  }
}
