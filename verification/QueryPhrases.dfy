/** The time phrases in words, and the window each one is. */
module QueryPhrases {
  import opened QueryParser
  import opened QueryReading
  import opened QuerySynonyms
  import opened QueryWords
  import opened Scanning
  import opened Wrappers

  // ----- two words -----

  /** `s` is the words `a` and `b`; `b` starts at `next`. */
  ghost predicate Two(s: string, a: string, b: string, next: nat) {
    IsName(a) && IsName(b) && a[0] != 'a' && b[0] != 'a' && s == a + (" " + b) && next == |a| + 1
  }

  lemma TwoStands(s: string, a: string, b: string, next: nat)
    requires Two(s, a, b, next)
    ensures next < |s| && LitAt(s, 0, a) && Gap(s, |a|) == Some(next) && s[next..] == b && s[next] == b[0] && s[0] == a[0]
    ensures Begins(s, a, " " + b)
  {
    assert s[0..] == s;
    StepWord(s, 0, a, b, next);
  }

  /** `a` is among the words, and no other one before it starts with its letter. */
  ghost predicate IsFirst(a: string, firsts: seq<string>, k: nat) {
    AreNames(firsts) && k < |firsts| && firsts[k] == a && forall j :: 0 <= j < k ==> firsts[j][0] != a[0]
  }

  lemma FirstStands(s: string, a: string, b: string, next: nat, firsts: seq<string>, k: nat)
    requires Two(s, a, b, next) && IsFirst(a, firsts, k)
    ensures NoEmptyWord(firsts) && Alt(s, 0, firsts) == Some(|a|)
  {
    TwoStands(s, a, b, next);
    forall j | 0 <= j < k ensures !LitAt(s, 0, firsts[j]) {
      Clash(s, 0, firsts[j], 0);
    }
    AltIs(s, firsts, k);
  }

  /** The first word is not the one looked for. */
  lemma NotFirstWord(s: string, a: string, b: string, next: nat, firsts: seq<string>, words: seq<string>)
    requires Two(s, a, b, next) && AreNames(firsts) && a !in firsts && NoEmptyWord(words)
    ensures NoEmptyWord(firsts) && AltWord(s, 0, firsts) == None
    ensures TwoWords(s, Alt(s, 0, firsts), words) == None && ThenWord(s, Alt(s, 0, firsts), words) == None
  {
    TwoStands(s, a, b, next);
    OpenersGoOn(s, a, " " + b, firsts);
  }

  /** The second word is not one of those looked for. */
  lemma NotSecondWord(s: string, a: string, b: string, next: nat, firsts: seq<string>, k: nat, words: seq<string>)
    requires Two(s, a, b, next) && IsFirst(a, firsts, k) && AreNames(words) && b !in words
    ensures NoEmptyWord(firsts) && TwoWords(s, Alt(s, 0, firsts), words) == None
  {
    TwoStands(s, a, b, next);
    FirstStands(s, a, b, next, firsts, k);
    NoUnit(s, next, words, b);
  }

  /** Both words are looked for. */
  lemma BothWords(s: string, a: string, b: string, next: nat, firsts: seq<string>, k: nat)
    requires Two(s, a, b, next) && IsFirst(a, firsts, k)
    ensures NoEmptyWord(firsts) && TwoWords(s, Alt(s, 0, firsts), [b]) == Some(|s|)
  {
    TwoStands(s, a, b, next);
    FirstStands(s, a, b, next, firsts, k);
    assert b == b + "";
    WordIs(s, next, [b], 0, "");
  }

  /** "this", "past" or "last". */
  predicate IsSpan(a: string) {
    a == "this" || a == "past" || a == "last"
  }

  function SpanIndex(a: string): nat {
    if a == "this" then 0 else if a == "past" then 1 else 2
  }

  lemma SpanWord(a: string)
    requires IsSpan(a)
    ensures IsName(a) && a[0] != 'a' && |a| == 4 && IsFirst(a, ["this", "past", "last"], SpanIndex(a))
  {
  }

  // ----- the fixed phrases, one pattern after another -----

  lemma NightOnly(s: string, a: string, b: string, next: nat)
    requires Two(s, a, b, next) && a != "overnight" && (a != "last" || b != "night")
    ensures NightPhrase(s) == None
  {
    NotFirstWord(s, a, b, next, ["overnight"], []);
    if a == "last" {
      NotSecondWord(s, a, b, next, ["last"], 0, ["night"]);
    } else {
      NotFirstWord(s, a, b, next, ["last"], ["night"]);
    }
  }

  lemma MorningOnly(s: string, a: string, b: string, next: nat)
    requires Two(s, a, b, next) && (a != "this" || b != "morning")
    ensures MorningPhrase(s) == None
  {
    if a == "this" {
      NotSecondWord(s, a, b, next, ["this"], 0, ["morning"]);
    } else {
      NotFirstWord(s, a, b, next, ["this"], ["morning"]);
    }
  }

  lemma WeekOnly(s: string, a: string, b: string, next: nat)
    requires Two(s, a, b, next) && (!IsSpan(a) || b != "week")
    ensures WeekPhrase(s) == None
  {
    if IsSpan(a) {
      SpanWord(a);
      NotSecondWord(s, a, b, next, ["this", "past", "last"], SpanIndex(a), ["week"]);
    } else {
      NotFirstWord(s, a, b, next, ["this", "past", "last"], ["week"]);
    }
  }

  lemma MonthOnly(s: string, a: string, b: string, next: nat)
    requires Two(s, a, b, next) && (!IsSpan(a) || b != "month")
    ensures MonthPhrase(s) == None
  {
    if IsSpan(a) {
      SpanWord(a);
      NotSecondWord(s, a, b, next, ["this", "past", "last"], SpanIndex(a), ["month"]);
    } else {
      NotFirstWord(s, a, b, next, ["this", "past", "last"], ["month"]);
    }
  }

  lemma YesterdayOnly(s: string, a: string, b: string, next: nat)
    requires Two(s, a, b, next) && (a != "since" || b != "yesterday") && (a != "past" || b != "day")
    ensures YesterdayPhrase(s) == None
  {
    if a == "since" {
      NotSecondWord(s, a, b, next, ["since"], 0, ["yesterday"]);
    } else {
      NotFirstWord(s, a, b, next, ["since"], ["yesterday"]);
    }
    if a == "past" {
      NotSecondWord(s, a, b, next, ["past"], 0, ["day"]);
    } else {
      NotFirstWord(s, a, b, next, ["past"], ["day"]);
    }
  }

  /** The windows of the fixed two-word phrases, in milliseconds. */
  function FixedMs(a: string, b: string): Option<nat> {
    if a == "last" && b == "night" then Some(50_400_000)
    else if a == "this" && b == "morning" then Some(43_200_000)
    else if IsSpan(a) && b == "week" then Some(604_800_000)
    else if IsSpan(a) && b == "month" then Some(2_592_000_000)
    else if (a == "since" && b == "yesterday") || (a == "past" && b == "day") then Some(172_800_000)
    else None
  }

  lemma NightIs(s: string, next: nat)
    requires Two(s, "last", "night", next)
    ensures NightPhrase(s) == Some(Phrase(50_400_000, |s|))
  {
    BothWords(s, "last", "night", next, ["last"], 0);
  }

  lemma MorningIs(s: string, next: nat)
    requires Two(s, "this", "morning", next)
    ensures MorningPhrase(s) == Some(Phrase(43_200_000, |s|))
  {
    BothWords(s, "this", "morning", next, ["this"], 0);
  }

  lemma WeekIs(s: string, a: string, next: nat)
    requires Two(s, a, "week", next) && IsSpan(a)
    ensures WeekPhrase(s) == Some(Phrase(604_800_000, |s|))
  {
    SpanWord(a);
    BothWords(s, a, "week", next, ["this", "past", "last"], SpanIndex(a));
  }

  lemma MonthIs(s: string, a: string, next: nat)
    requires Two(s, a, "month", next) && IsSpan(a)
    ensures MonthPhrase(s) == Some(Phrase(2_592_000_000, |s|))
  {
    SpanWord(a);
    BothWords(s, a, "month", next, ["this", "past", "last"], SpanIndex(a));
  }

  lemma YesterdayIs(s: string, a: string, b: string, next: nat)
    requires Two(s, a, b, next) && ((a == "since" && b == "yesterday") || (a == "past" && b == "day"))
    ensures YesterdayPhrase(s) == Some(Phrase(172_800_000, |s|))
  {
    if a == "since" {
      BothWords(s, a, b, next, ["since"], 0);
    } else {
      NotFirstWord(s, a, b, next, ["since"], ["yesterday"]);
      BothWords(s, a, b, next, ["past"], 0);
    }
  }

  /** Of two words the fixed phrases take exactly those of the table. */
  lemma FixedMeans(s: string, a: string, b: string, next: nat)
    requires Two(s, a, b, next) && a != "overnight"
    ensures FixedPhrases(s) == if FixedMs(a, b).Some? then Some(Phrase(FixedMs(a, b).value, |s|)) else None
  {
    if a == "last" && b == "night" {
      NightIs(s, next);
    } else {
      NightOnly(s, a, b, next);
      AfterNight(s, a, b, next);
    }
  }

  lemma AfterNight(s: string, a: string, b: string, next: nat)
    requires Two(s, a, b, next) && NightPhrase(s) == None && (a != "last" || b != "night")
    ensures FixedPhrases(s) == if FixedMs(a, b).Some? then Some(Phrase(FixedMs(a, b).value, |s|)) else None
  {
    if a == "this" && b == "morning" {
      MorningIs(s, next);
    } else {
      MorningOnly(s, a, b, next);
      if IsSpan(a) && b == "week" {
        WeekIs(s, a, next);
      } else {
        WeekOnly(s, a, b, next);
        AfterWeek(s, a, b, next);
      }
    }
  }

  lemma AfterWeek(s: string, a: string, b: string, next: nat)
    requires Two(s, a, b, next) && NightPhrase(s) == None && MorningPhrase(s) == None && WeekPhrase(s) == None
    requires (a != "last" || b != "night") && (a != "this" || b != "morning") && (!IsSpan(a) || b != "week")
    ensures FixedPhrases(s) == if FixedMs(a, b).Some? then Some(Phrase(FixedMs(a, b).value, |s|)) else None
  {
    if IsSpan(a) && b == "month" {
      MonthIs(s, a, next);
    } else {
      MonthOnly(s, a, b, next);
      if (a == "since" && b == "yesterday") || (a == "past" && b == "day") {
        YesterdayIs(s, a, b, next);
      } else {
        YesterdayOnly(s, a, b, next);
      }
    }
  }

  // ----- "last hour" -----

  /** No number follows, so no counted phrase opens here. */
  lemma NoCountTwo(s: string, a: string, b: string, next: nat)
    requires Two(s, a, b, next) && (IsSpan(a) || a == "since")
    ensures CountPhrases(s) == None
  {
    NoThe(s, a, b, next);
    NoLastCount(s, a, b, next);
    NoSinceCount(s, a, b, next);
    NoCountCases(s);
  }

  lemma NoThe(s: string, a: string, b: string, next: nat)
    requires Two(s, a, b, next) && (IsSpan(a) || a == "since")
    ensures NoEmptyWord(LAST_PAST)
    ensures ThenWord(s, Alt(s, 0, ["in", "over", "for"]), ["the"]) == None && ThenWord(s, Alt(s, 0, ["the"]), LAST_PAST) == None
  {
    NotFirstWord(s, a, b, next, ["in", "over", "for"], ["the"]);
    NotFirstWord(s, a, b, next, ["the"], LAST_PAST);
  }

  lemma NoLastCount(s: string, a: string, b: string, next: nat)
    requires Two(s, a, b, next) && (IsSpan(a) || a == "since")
    ensures NoEmptyWord(LAST_PAST) && ThenCount(s, Alt(s, 0, LAST_PAST)) == None
  {
    NoCountAfter(s, a, b, next, LAST_PAST, if a == "last" then 0 else 1);
  }

  lemma NoSinceCount(s: string, a: string, b: string, next: nat)
    requires Two(s, a, b, next) && (IsSpan(a) || a == "since")
    ensures ThenCount(s, Alt(s, 0, ["since"])) == None && NoEmptyWord(UNITS) && CountUnit(s, 0, UNITS) == None
  {
    NoCountAfter(s, a, b, next, ["since"], 0);
  }

  lemma NoCountCases(s: string)
    requires NoEmptyWord(LAST_PAST) && NoEmptyWord(UNITS)
    requires ThenWord(s, Alt(s, 0, ["in", "over", "for"]), ["the"]) == None && ThenWord(s, Alt(s, 0, ["the"]), LAST_PAST) == None
    requires ThenCount(s, Alt(s, 0, LAST_PAST)) == None && ThenCount(s, Alt(s, 0, ["since"])) == None
    requires CountUnit(s, 0, UNITS) == None
    ensures CountPhrases(s) == None
  {
  }

  lemma NoCountAfter(s: string, a: string, b: string, next: nat, firsts: seq<string>, k: nat)
    requires Two(s, a, b, next) && AreNames(firsts) && (a !in firsts || IsFirst(a, firsts, k))
    ensures NoEmptyWord(firsts) && NoEmptyWord(UNITS)
    ensures ThenCount(s, Alt(s, 0, firsts)) == None && CountUnit(s, 0, UNITS) == None
  {
    TwoStands(s, a, b, next);
    if a in firsts {
      FirstStands(s, a, b, next, firsts, k);
    } else {
      OpenersGoOn(s, a, " " + b, firsts);
    }
  }

  /** The units a phrase without a number takes. */
  const SINGLES: seq<string> := ["minute", "min", "hour", "hr", "day"]

  function SingleMs(b: string): Option<nat> {
    if b == "minute" || b == "min" then Some(60_000)
    else if b == "hour" || b == "hr" then Some(3_600_000)
    else if b == "day" then Some(86_400_000)
    else None
  }

  function SingleIndex(b: string): nat {
    if b == "minute" then 0 else if b == "min" then 1 else if b == "hour" then 2 else if b == "hr" then 3 else 4
  }

  lemma SingleWord(b: string)
    requires SingleMs(b).Some?
    ensures IsName(b) && b[0] != 'a' && IsUnit(b[0]) && SingleMs(b) == Some(UnitLength(b[0]))
    ensures SingleIndex(b) < |SINGLES| && SINGLES[SingleIndex(b)] == b
    ensures AreNames(SINGLES) && forall j :: 0 <= j < SingleIndex(b) ==> SINGLES[j] != b
  {
  }

  lemma UnitWordIs(s: string, a: string, b: string, next: nat)
    requires Two(s, a, b, next) && SingleMs(b).Some?
    ensures NoEmptyWord(SINGLES) && UnitWord(s, Some(|a|), SINGLES) == Some(Phrase(SingleMs(b).value, |s|))
  {
    SingleWord(b);
    TwoStands(s, a, b, next);
    assert b == b + "";
    UnitOf(s, next, b, "");
    WordIs(s, next, SINGLES, SingleIndex(b), "");
  }

  lemma SpanThenUnit(s: string, a: string, b: string, next: nat)
    requires Two(s, a, b, next) && IsSpan(a) && SingleMs(b).Some?
    ensures WordPhrases(s) == Some(Phrase(SingleMs(b).value, |s|))
  {
    NotFirstWord(s, a, b, next, ["the"], ["last", "past", "this"]);
    FirstStands(s, a, b, next, ["last", "past", "this"], if a == "last" then 0 else if a == "past" then 1 else 2);
    UnitWordIs(s, a, b, next);
  }

  // ----- what the phrases mean -----

  /** The windows of all two-word phrases, in milliseconds; "past day" is two days, "last day" one. */
  function PhraseMs(a: string, b: string): Option<nat> {
    if FixedMs(a, b).Some? then FixedMs(a, b) else if IsSpan(a) then SingleMs(b) else None
  }

  lemma PhraseIs(s: string, a: string, b: string, next: nat)
    requires Two(s, a, b, next) && PhraseMs(a, b).Some?
    ensures TimePhrase(s) == Some(Phrase(PhraseMs(a, b).value, |s|))
  {
    FixedMeans(s, a, b, next);
    if FixedMs(a, b) == None {
      NoCountTwo(s, a, b, next);
      SpanThenUnit(s, a, b, next);
    }
  }

  lemma PhraseWords(a: string, b: string)
    requires PhraseMs(a, b).Some?
    ensures IsName(a) && IsName(b) && a[0] != 'a' && b[0] != 'a' && a !in COMMAND_OPENERS
  {
    if FixedMs(a, b) == None {
      SpanWord(a);
      SingleWord(b);
    }
  }

  /** A line that is one time phrase and opens no command. */
  lemma PhraseQuery(s: string, ms: nat)
    requires s != "" && !IsSpace(s[0]) && CommandTurn(s) == None && TimePhrase(s) == Some(Phrase(ms, |s|))
    ensures ParseQuery(s) == NO_QUERY.(sinceMs := Some(ms))
  {
    var t := Turn([Spanned(TimeToken(ms), 0, |s|)], |s|);
    OneTurn(s, t);
    assert Bare(t.tokens) == [TimeToken(ms)];
    WindowBuilds(ms, Bare(t.tokens));
  }

  lemma PhraseHead(s: string, a: string, b: string, next: nat)
    requires Two(s, a, b, next) && a !in COMMAND_OPENERS
    ensures s != "" && !IsSpace(s[0]) && CommandTurn(s) == None
  {
    TwoStands(s, a, b, next);
    SaveAndForget(s, a, " " + b);
    TopMostLimit(s, a, " " + b);
  }

  /** Every two-word phrase of the table sets its window and nothing else. */
  lemma PhraseMeans(s: string, a: string, b: string)
    requires PhraseMs(a, b).Some? && s == a + (" " + b)
    ensures ParseQuery(s) == NO_QUERY.(sinceMs := PhraseMs(a, b))
  {
    var next := |a| + 1;
    PhraseWords(a, b);
    PhraseHead(s, a, b, next);
    PhraseIs(s, a, b, next);
    PhraseQuery(s, PhraseMs(a, b).value);
  }

  // ----- "an hour" -----

  lemma ArticleOnly(s: string)
    requires |s| >= 2 && Lower(s[0]) == 'a'
    ensures FixedPhrases(s) == None && CountPhrases(s) == None && CommandTurn(s) == None
  {
    ArticleNoFixed(s);
    ArticleNoCount(s);
    NoCommandHere(s);
  }

  lemma ArticleNoFixed(s: string)
    requires |s| >= 2 && Lower(s[0]) == 'a'
    ensures FixedPhrases(s) == None
  {
    NotAny(s, ["last"]);
    NotAny(s, ["overnight"]);
    NotAny(s, ["this"]);
    NotAny(s, ["this", "past", "last"]);
    NotAny(s, ["since"]);
    NotAny(s, ["past"]);
  }

  lemma ArticleNoCount(s: string)
    requires |s| >= 2 && Lower(s[0]) == 'a'
    ensures CountPhrases(s) == None
  {
    NotAny(s, ["in", "over", "for"]);
    NotAny(s, ["the"]);
    NotAny(s, LAST_PAST);
    NotAny(s, ["since"]);
  }

  lemma ArticleWord(s: string, a: string, b: string, next: nat)
    requires (a == "a" || a == "an") && SingleMs(b).Some? && b != "min" && b != "hr" && s == a + (" " + b) && next == |a| + 1
    ensures WordPhrases(s) == Some(Phrase(SingleMs(b).value, |s|))
  {
    ArticleParts(s, a, b, next);
    ArticleStands(s, a);
    NotAny(s, ["the"]);
    NotAny(s, ["last", "past", "this"]);
    ArticleUnit(s, |a|, b, next);
    ArticleCases(s, |a|, Phrase(SingleMs(b).value, |s|));
  }

  lemma ArticleParts(s: string, a: string, b: string, next: nat)
    requires (a == "a" || a == "an") && SingleMs(b).Some? && s == a + (" " + b) && next == |a| + 1
    ensures |s| >= 2 && s[0] == 'a' && (a == "a" ==> s[1] == ' ') && LitAt(s, 0, a)
    ensures next < |s| && Gap(s, |a|) == Some(next) && s[next..] == b
  {
    SingleWord(b);
    assert s[0..] == s && s[0] == 'a' && s[1] == (if a == "a" then ' ' else 'n');
    StepWord(s, 0, a, b, next);
  }

  const ARTICLE_UNITS: seq<string> := ["minute", "hour", "day"]

  lemma ArticleUnit(s: string, i: nat, b: string, next: nat)
    requires SingleMs(b).Some? && b != "min" && b != "hr"
    requires i <= |s| && Gap(s, i) == Some(next) && s[next..] == b
    ensures NoEmptyWord(ARTICLE_UNITS) && UnitWord(s, Some(i), ARTICLE_UNITS) == Some(Phrase(SingleMs(b).value, |s|))
  {
    SingleWord(b);
    assert b == b + "";
    UnitOf(s, next, b, "");
    ArticleNames();
    WordIs(s, next, ARTICLE_UNITS, if b == "minute" then 0 else if b == "hour" then 1 else 2, "");
  }

  lemma ArticleNames()
    ensures AreNames(ARTICLE_UNITS)
  {
  }

  lemma ArticleCases(s: string, i: nat, p: Phrase)
    requires i <= |s| && Alt(s, 0, ["the"]) == None && Alt(s, 0, ["last", "past", "this"]) == None
    requires Alt(s, 0, ["an", "a"]) == Some(i)
    requires NoEmptyWord(ARTICLE_UNITS) && UnitWord(s, Some(i), ARTICLE_UNITS) == Some(p)
    ensures WordPhrases(s) == Some(p)
  {
  }

  lemma ArticleStands(s: string, a: string)
    requires (a == "a" || a == "an") && |s| >= 2 && LitAt(s, 0, a) && (a == "a" ==> s[1] == ' ')
    ensures Alt(s, 0, ["an", "a"]) == Some(|a|)
  {
    AltIs(s, ["an", "a"], if a == "an" then 0 else 1);
  }

  /** "a minute", "an hour", "a day". */
  lemma ArticleMeans(s: string, a: string, b: string)
    requires (a == "a" || a == "an") && SingleMs(b).Some? && b != "min" && b != "hr" && s == a + (" " + b)
    ensures ParseQuery(s) == NO_QUERY.(sinceMs := SingleMs(b))
  {
    assert s[0] == 'a';
    ArticleOnly(s);
    ArticleWord(s, a, b, |a| + 1);
    PhraseQuery(s, SingleMs(b).value);
  }

  // ----- one word -----

  function WordMs(w: string): Option<nat> {
    if w == "overnight" then Some(50_400_000)
    else if w == "today" then Some(86_400_000)
    else if w == "yesterday" then Some(172_800_000)
    else if w == "now" then Some(300_000)
    else None
  }

  lemma OtherOpeners(w: string, words: seq<string>)
    requires Begins(w, w, "") && AreNames(words) && w !in words
    ensures NoEmptyWord(words) && Unopened(w, words)
  {
    OpenersGoOn(w, w, "", words);
  }

  lemma OwnWord(w: string)
    requires IsName(w)
    ensures AltWord(w, 0, [w]) == Some(|w|)
  {
    assert w[0..] == w == w + "";
    WordIs(w, 0, [w], 0, "");
  }

  lemma OvernightIs(w: string)
    requires w == "overnight"
    ensures TimePhrase(w) == Some(Phrase(50_400_000, |w|))
  {
    assert w == w + "";
    OtherOpeners(w, ["last"]);
    OwnWord(w);
  }

  lemma SingleFixed(w: string)
    requires Begins(w, w, "") && (w == "today" || w == "yesterday" || w == "now")
    ensures FixedPhrases(w) == None
  {
    SingleNight(w);
    SingleWeek(w);
  }

  lemma SingleNight(w: string)
    requires Begins(w, w, "") && (w == "today" || w == "yesterday" || w == "now")
    ensures NightPhrase(w) == None && MorningPhrase(w) == None
  {
    OtherOpeners(w, ["last"]);
    OtherOpeners(w, ["overnight"]);
    OtherOpeners(w, ["this"]);
  }

  lemma SingleWeek(w: string)
    requires Begins(w, w, "") && (w == "today" || w == "yesterday" || w == "now")
    ensures WeekPhrase(w) == None && MonthPhrase(w) == None && YesterdayPhrase(w) == None
  {
    OtherOpeners(w, ["this", "past", "last"]);
    OtherOpeners(w, ["since"]);
    OtherOpeners(w, ["past"]);
  }

  lemma SingleCount(w: string)
    requires Begins(w, w, "") && (w == "today" || w == "yesterday" || w == "now")
    ensures CountPhrases(w) == None
  {
    SingleNoThe(w);
    SingleNoCount(w);
    NoCountCases(w);
  }

  lemma SingleNoThe(w: string)
    requires Begins(w, w, "") && (w == "today" || w == "yesterday" || w == "now")
    ensures NoEmptyWord(LAST_PAST)
    ensures ThenWord(w, Alt(w, 0, ["in", "over", "for"]), ["the"]) == None && ThenWord(w, Alt(w, 0, ["the"]), LAST_PAST) == None
  {
    OtherOpeners(w, ["in", "over", "for"]);
    OtherOpeners(w, ["the"]);
  }

  lemma SingleNoCount(w: string)
    requires Begins(w, w, "") && (w == "today" || w == "yesterday" || w == "now")
    ensures NoEmptyWord(LAST_PAST) && NoEmptyWord(UNITS)
    ensures ThenCount(w, Alt(w, 0, LAST_PAST)) == None && ThenCount(w, Alt(w, 0, ["since"])) == None && CountUnit(w, 0, UNITS) == None
  {
    OtherOpeners(w, LAST_PAST);
    OtherOpeners(w, ["since"]);
    NoNumber(w, w, "", UNITS);
  }

  lemma SingleIs(w: string)
    requires Begins(w, w, "") && (w == "today" || w == "yesterday" || w == "now")
    ensures WordPhrases(w) == Some(Phrase(WordMs(w).value, |w|))
  {
    var today, yesterday := w == "today", w == "yesterday";
    NoUnitWord(w);
    SingleWords(w, today, yesterday);
    SingleCases(w, today, yesterday);
  }

  lemma SingleWords(w: string, today: bool, yesterday: bool)
    requires Begins(w, w, "") && today == (w == "today") && yesterday == (w == "yesterday")
    requires today || yesterday || w == "now"
    ensures AltWord(w, 0, ["today"]) == if today then Some(|w|) else None
    ensures !today ==> AltWord(w, 0, ["yesterday"]) == if yesterday then Some(|w|) else None
    ensures !today && !yesterday ==> AltWord(w, 0, ["now"]) == Some(|w|)
  {
    IsWordThere(w, "today");
    IsWordThere(w, "yesterday");
    if w == "now" {
      OwnWord(w);
    }
  }

  lemma IsWordThere(w: string, other: string)
    requires Begins(w, w, "") && IsName(other)
    ensures AltWord(w, 0, [other]) == if w == other then Some(|w|) else None
  {
    if w == other {
      OwnWord(w);
    } else {
      OtherOpeners(w, [other]);
    }
  }

  lemma NoUnitWord(w: string)
    requires Begins(w, w, "") && (w == "today" || w == "yesterday" || w == "now")
    ensures ThenWord(w, Alt(w, 0, ["the"]), ["last", "past", "this"]) == None
    ensures UnitWord(w, Alt(w, 0, ["last", "past", "this"]), SINGLES) == None && Alt(w, 0, ["an", "a"]) == None
  {
    OtherOpeners(w, ["the"]);
    OtherOpeners(w, ["last", "past", "this"]);
    NoArticle(w);
  }

  lemma SingleCases(w: string, today: bool, yesterday: bool)
    requires ThenWord(w, Alt(w, 0, ["the"]), ["last", "past", "this"]) == None && NoEmptyWord(SINGLES)
    requires UnitWord(w, Alt(w, 0, ["last", "past", "this"]), SINGLES) == None && Alt(w, 0, ["an", "a"]) == None
    requires AltWord(w, 0, ["today"]) == if today then Some(|w|) else None
    requires !today ==> AltWord(w, 0, ["yesterday"]) == if yesterday then Some(|w|) else None
    requires !today && !yesterday ==> AltWord(w, 0, ["now"]) == Some(|w|)
    ensures WordPhrases(w)
            == Some(Phrase(if today then 86_400_000 else if yesterday then 172_800_000 else 300_000, |w|))
  {
  }

  lemma WordOpensNoCommand(w: string)
    requires WordMs(w).Some?
    ensures Begins(w, w, "") && !IsSpace(w[0]) && CommandTurn(w) == None
  {
    assert w == w + "";
    SaveAndForget(w, w, "");
    TopMostLimit(w, w, "");
  }

  /** "overnight", "today", "yesterday", "now". */
  lemma WordMeans(w: string)
    requires WordMs(w).Some?
    ensures ParseQuery(w) == NO_QUERY.(sinceMs := WordMs(w))
  {
    WordOpensNoCommand(w);
    if w == "overnight" {
      OvernightIs(w);
    } else {
      SingleFixed(w);
      SingleCount(w);
      SingleIs(w);
    }
    PhraseQuery(w, WordMs(w).value);
  }
}
