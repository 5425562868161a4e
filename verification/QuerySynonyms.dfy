/**
 Different spellings of one thing: the ways to write a window of N units, and the
 phrases that stand for a sort with a limit.
 */
module QuerySynonyms {
  import opened Decimals
  import opened Filters
  import opened QueryBridge
  import opened QueryParser
  import opened QueryReading
  import opened QueryRoundTrip
  import opened Scanning
  import opened Wrappers

  // ----- words at a position -----

  /** What may follow a word or a number: the end or a space. */
  ghost predicate Ends(post: string) {
    post == "" || post[0] == ' '
  }

  lemma Clash(s: string, i: nat, w: string, j: nat)
    requires j < |w| && (i + j >= |s| || Lower(s[i + j]) != w[j])
    ensures !LitAt(s, i, w)
  {
  }

  /** No word stands where a digit does. */
  lemma {:induction false} NoWordAtDigit(s: string, i: nat, words: seq<string>)
    requires i < |s| && IsDigit(s[i]) && AreNames(words)
    ensures Alt(s, i, words) == None && AltWord(s, i, words) == None
  {
    if words != [] {
      Clash(s, i, words[0], 0);
      NoWordAtDigit(s, i, words[1..]);
    }
  }

  /** A name in full, where a word boundary follows it, is the only name that stands there. */
  lemma OtherName(s: string, i: nat, n: string, w: string, post: string)
    requires IsName(n) && IsName(w) && n != w && i <= |s| && s[i..] == n + post && Ends(post)
    ensures !(LitAt(s, i, w) && Boundary(s, i + |w|))
  {
    if |w| <= |n| && w == n[..|w|] {
      assert s[i + |w| - 1] == s[i..][|w| - 1] && s[i + |w|] == s[i..][|w|];
    } else if |w| <= |n| {
      var j :| 0 <= j < |w| && w[j] != n[j];
      assert s[i + j] == s[i..][j];
      Clash(s, i, w, j);
    } else {
      assert post != "" ==> s[i + |n|] == s[i..][|n|];
      Clash(s, i, w, |n|);
    }
  }

  lemma NameStands(s: string, i: nat, n: string, post: string)
    requires IsName(n) && i <= |s| && s[i..] == n + post
    ensures LitAt(s, i, n) && i + |n| <= |s| && s[i + |n|..] == post
    ensures Ends(post) ==> Boundary(s, i + |n|)
    ensures post != "" && post[0] == ' ' && (|post| > 1 ==> !IsSpace(post[1])) ==> Gap(s, i + |n|) == Some(i + |n| + 1)
  {
    var j := i + |n|;
    forall k | 0 <= k < |n| ensures s[i + k] == n[k] {
      assert s[i + k] == s[i..][k];
    }
    assert post != "" ==> s[j] == s[i..][|n|];
    if post != "" && post[0] == ' ' && (|post| > 1 ==> !IsSpace(post[1])) {
      assert |post| > 1 ==> s[j + 1] == s[i..][|n| + 1];
      RunIs(s, j, j + 1, Space);
    }
  }

  lemma {:induction false} WordIs(s: string, i: nat, words: seq<string>, k: nat, post: string)
    requires AreNames(words) && k < |words| && forall j :: 0 <= j < k ==> words[j] != words[k]
    requires i <= |s| && s[i..] == words[k] + post && Ends(post)
    ensures AltWord(s, i, words) == Some(i + |words[k]|)
  {
    if k > 0 {
      OtherName(s, i, words[k], words[0], post);
      WordIs(s, i, words[1..], k - 1, post);
    } else {
      NameStands(s, i, words[0], post);
    }
  }

  // ----- a number and a unit -----

  ghost predicate AreUnits(units: seq<string>) {
    && AreNames(units)
    && (forall j, k :: 0 <= j < k < |units| ==> units[j] != units[k])
    && (forall k :: 0 <= k < |units| ==> IsUnit(units[k][0]))
  }

  lemma LongNames()
    ensures AreNames(UNITS) && forall k :: 0 <= k < |UNITS| ==> IsUnit(UNITS[k][0])
  {
  }

  lemma LongDistinct()
    ensures forall j, k :: 0 <= j < k < |UNITS| ==> UNITS[j] != UNITS[k]
  {
  }

  lemma LongUnits()
    ensures AreUnits(UNITS)
  {
    LongNames();
    LongDistinct();
  }

  /** The shorter list is the longer one without its third name. */
  lemma ShortIsLong(k: nat)
    requires k < |COMPACT_UNITS|
    ensures COMPACT_UNITS[k] == UNITS[if k < 2 then k else k + 1]
  {
  }

  lemma ShortUnits()
    ensures AreUnits(COMPACT_UNITS)
  {
    LongUnits();
    forall k | 0 <= k < |COMPACT_UNITS| ensures COMPACT_UNITS[k] == UNITS[if k < 2 then k else k + 1] {
      ShortIsLong(k);
    }
  }

  lemma UnitLists()
    ensures AreUnits(UNITS) && AreUnits(COMPACT_UNITS)
  {
    LongUnits();
    ShortUnits();
  }

  /** From position `i` on `s` is the digits `d`, perhaps a space, the unit and `post`; `u` and `e` are where the unit starts and ends. */
  ghost predicate CountAt(s: string, i: nat, d: string, gap: string, unit: string, post: string, u: nat, e: nat) {
    && d != "" && AllDigits(d) && (gap == "" || gap == " ") && Ends(post)
    && u == i + |d| + |gap| && e == u + |unit|
    && i <= |s| && s[i..] == d + (gap + (unit + post))
  }

  lemma CountParts(s: string, i: nat, d: string, gap: string, unit: string, post: string, u: nat, e: nat)
    requires CountAt(s, i, d, gap, unit, post, u, e) && IsName(unit)
    ensures u <= |s| && Run(s, i, Digit) == i + |d| && s[i..i + |d|] == d && s[i + |d|..] == gap + (unit + post)
  {
    var tail := gap + (unit + post);
    assert tail[0] == (if gap == "" then unit[0] else ' ');
    DigitsEnd(s, i, d, tail, i + |d|);
  }

  lemma GapParts(s: string, j: nat, gap: string, rest: string, u: nat)
    requires j <= |s| && s[j..] == gap + rest && (gap == "" || gap == " ") && u == j + |gap|
    requires rest != "" && !IsSpace(rest[0])
    ensures u <= |s| && Run(s, j, Space) == u && s[u..] == rest
  {
    assert |s| - j == |gap| + |rest|;
    assert s[u..] == s[j..][|gap|..];
    assert s[u] == s[j..][|gap|] == rest[0];
    assert gap != "" ==> s[j] == s[j..][0] == ' ';
    RunIs(s, j, u, Space);
  }

  lemma UnitOf(s: string, u: nat, unit: string, post: string)
    requires IsName(unit) && IsUnit(unit[0]) && u <= |s| && s[u..] == unit + post
    ensures UnitMs(s, u) == UnitLength(unit[0])
  {
    assert s[u] == s[u..][0] == unit[0];
    assert s[u + 0] == s[u];
    if unit[0] != 'm' {
      Clash(s, u, "m", 0);
    }
    if unit[0] != 'h' {
      Clash(s, u, "h", 0);
    }
  }

  lemma UnitReads(s: string, u: nat, units: seq<string>, k: nat, unit: string, post: string, e: nat)
    requires AreUnits(units) && NoEmptyWord(units) && k < |units| && unit == units[k] && Ends(post)
    requires u <= |s| && s[u..] == unit + post && e == u + |unit|
    ensures e <= |s| && s[e..] == post && AltWord(s, u, units) == Some(e) && UnitMs(s, u) == UnitLength(unit[0])
  {
    UnitOf(s, u, unit, post);
    WordIs(s, u, units, k, post);
    NameStands(s, u, unit, post);
  }

  lemma CountReads(s: string, i: nat, d: string, gap: string, units: seq<string>, k: nat, unit: string, post: string, u: nat, e: nat)
    requires AreUnits(units) && NoEmptyWord(units) && k < |units| && unit == units[k]
    requires CountAt(s, i, d, gap, unit, post, u, e)
    ensures e <= |s| && s[e..] == post && Counted(s, i, d, u, e, UnitLength(unit[0]), units)
  {
    var rest := unit + post;
    CountParts(s, i, d, gap, unit, post, u, e);
    GapParts(s, i + |d|, gap, rest, u);
    UnitReads(s, u, units, k, unit, post, e);
  }

  /** A number and a unit name, with or without a space between, are that many of that unit. */
  lemma CountMeans(s: string, i: nat, d: string, gap: string, units: seq<string>, k: nat, unit: string, post: string, u: nat, e: nat)
    requires AreUnits(units) && NoEmptyWord(units) && k < |units| && unit == units[k]
    requires CountAt(s, i, d, gap, unit, post, u, e)
    ensures CountUnit(s, i, units) == Some(Phrase(Num(d) * UnitLength(unit[0]), e))
  {
    CountReads(s, i, d, gap, units, k, unit, post, u, e);
    CountIs(s, i, d, u, e, UnitLength(unit[0]), units);
  }

  // ----- "last 5 m", "past 5 m", "since 5 m" -----

  /** The word `w`, one space, a digit. */
  ghost predicate ThenDigit(s: string, w: string) {
    && LitAt(s, 0, w) && |w| + 1 < |s| && Gap(s, |w|) == Some(|w| + 1) && IsDigit(s[|w| + 1])
  }

  /** A word, a space, and then `x`. */
  lemma StepWord(s: string, i: nat, w: string, x: string, next: nat)
    requires IsName(w) && x != "" && !IsSpace(x[0]) && i <= |s| && s[i..] == w + (" " + x) && next == i + |w| + 1
    ensures next < |s| && LitAt(s, i, w) && Gap(s, i + |w|) == Some(next) && s[next..] == x && s[next] == x[0]
  {
    var post := " " + x;
    NameStands(s, i, w, post);
    assert s[next..] == s[i + |w|..][1..] == x;
    assert s[next] == s[next..][0];
  }

  lemma HeadIs(s: string, w: string, c: string)
    requires IsName(w) && |w| >= 2 && c != "" && IsDigit(c[0]) && s == w + (" " + c)
    ensures ThenDigit(s, w) && Starts(s, w[0], w[1]) && s[|w| + 1..] == c
  {
    assert s[0..] == s;
    StepWord(s, 0, w, c, |w| + 1);
    assert s[0] == w[0] && s[1] == w[1];
  }

  /** A number where a word is wanted ends a fixed phrase. */
  lemma NoWordAfter(s: string, w: string, words: seq<string>)
    requires ThenDigit(s, w) && AreNames(words)
    ensures TwoWords(s, Some(|w|), words) == None
  {
    NoWordAtDigit(s, |w| + 1, words);
  }

  lemma LastFixed(s: string)
    requires ThenDigit(s, "last") && Starts(s, 'l', 'a')
    ensures FixedPhrases(s) == None
  {
    NoWordAfter(s, "last", ["night"]);
    NoWordAfter(s, "last", ["week"]);
    NoWordAfter(s, "last", ["month"]);
    NotAny(s, ["overnight"]);
    NotAny(s, ["this"]);
    NotAny(s, ["since"]);
    NotAny(s, ["past"]);
    AltIs(s, ["last"], 0);
    NotHere(s, "this");
    NotHere(s, "past");
    AltIs(s, ["this", "past", "last"], 2);
  }

  lemma PastFixed(s: string)
    requires ThenDigit(s, "past") && Starts(s, 'p', 'a')
    ensures FixedPhrases(s) == None
  {
    NoWordAfter(s, "past", ["week"]);
    NoWordAfter(s, "past", ["month"]);
    NoWordAfter(s, "past", ["day"]);
    NotAny(s, ["last"]);
    NotAny(s, ["overnight"]);
    NotAny(s, ["this"]);
    NotAny(s, ["since"]);
    AltIs(s, ["past"], 0);
    NotHere(s, "this");
    AltIs(s, ["this", "past", "last"], 1);
  }

  lemma SinceFixed(s: string)
    requires ThenDigit(s, "since") && Starts(s, 's', 'i')
    ensures FixedPhrases(s) == None
  {
    NoWordAfter(s, "since", ["yesterday"]);
    NotAny(s, ["last"]);
    NotAny(s, ["overnight"]);
    NotAny(s, ["this"]);
    NotAny(s, ["this", "past", "last"]);
    NotAny(s, ["past"]);
    AltIs(s, ["since"], 0);
  }

  lemma LastCount(s: string, p: Phrase)
    requires ThenDigit(s, "last") && Starts(s, 'l', 'a') && CountUnit(s, 5, UNITS) == Some(p)
    ensures TimePhrase(s) == Some(p)
  {
    LastFixed(s);
    NotAny(s, ["in", "over", "for"]);
    NotAny(s, ["the"]);
    AltIs(s, LAST_PAST, 0);
  }

  lemma PastCount(s: string, p: Phrase)
    requires ThenDigit(s, "past") && Starts(s, 'p', 'a') && CountUnit(s, 5, UNITS) == Some(p)
    ensures TimePhrase(s) == Some(p)
  {
    PastFixed(s);
    NotAny(s, ["in", "over", "for"]);
    NotAny(s, ["the"]);
    NotHere(s, "last");
    AltIs(s, LAST_PAST, 1);
  }

  lemma SinceCount(s: string, p: Phrase)
    requires ThenDigit(s, "since") && Starts(s, 's', 'i') && CountUnit(s, 6, UNITS) == Some(p) && p.end == |s|
    ensures TimePhrase(s) == Some(p)
  {
    SinceFixed(s);
    NotAny(s, ["in", "over", "for"]);
    NotAny(s, ["the"]);
    NotAny(s, LAST_PAST);
    AltIs(s, ["since"], 0);
    RunIs(s, |s|, |s|, Space);
    assert TwoWords(s, Some(|s|), ["ago"]) == None;
  }

  // ----- "the last 5 m", "in the last 5 m" -----

  /** "last" at `i`, one space, a digit. */
  ghost predicate LastAt(s: string, i: nat) {
    LitAt(s, i, "last") && i + 5 < |s| && Gap(s, i + 4) == Some(i + 5)
  }

  lemma LastPast(s: string, i: nat)
    requires LastAt(s, i)
    ensures Alt(s, i, LAST_PAST) == Some(i + 4)
  {
  }

  lemma TheLastCount(s: string, p: Phrase)
    requires Starts(s, 't', 'h') && LitAt(s, 0, "the") && Gap(s, 3) == Some(4) && LastAt(s, 4)
    requires CountUnit(s, 9, UNITS) == Some(p)
    ensures TimePhrase(s) == Some(p)
  {
    TheFixed(s);
    NotAny(s, ["in", "over", "for"]);
    AltIs(s, ["the"], 0);
    LastPast(s, 4);
    assert ThenWord(s, Some(3), LAST_PAST) == Some(8);
    assert ThenCount(s, Some(8)) == Some(p);
  }

  lemma TheFixed(s: string)
    requires Starts(s, 't', 'h') && LitAt(s, 0, "the")
    ensures FixedPhrases(s) == None
  {
    assert Lower(s[0 + 2]) == "the"[2];
    Clash(s, 0, "this", 2);
    NotAny(s, ["last"]);
    NotAny(s, ["overnight"]);
    NotAny(s, ["since"]);
    NotAny(s, ["past"]);
    NotHere(s, "past");
    NotHere(s, "last");
    AltIs(s, ["this", "past", "last"], 3);
    AltIs(s, ["this"], 1);
  }

  lemma InTheLastCount(s: string, p: Phrase)
    requires Starts(s, 'i', 'n') && LitAt(s, 0, "in") && Gap(s, 2) == Some(3) && LitAt(s, 3, "the") && Gap(s, 6) == Some(7)
    requires LastAt(s, 7) && CountUnit(s, 12, UNITS) == Some(p)
    ensures TimePhrase(s) == Some(p)
  {
    InFixed(s);
    AltIs(s, ["in", "over", "for"], 0);
    LastPast(s, 7);
    assert ThenWord(s, Some(2), ["the"]) == Some(6);
    assert ThenWord(s, Some(6), LAST_PAST) == Some(11);
    assert ThenCount(s, Some(11)) == Some(p);
  }

  lemma InFixed(s: string)
    requires Starts(s, 'i', 'n')
    ensures FixedPhrases(s) == None
  {
    NotAny(s, ["last"]);
    NotAny(s, ["overnight"]);
    NotAny(s, ["this"]);
    NotAny(s, ["this", "past", "last"]);
    NotAny(s, ["since"]);
    NotAny(s, ["past"]);
  }

  // ----- "5 m ago" -----

  lemma AgoAt(s: string, e: nat)
    requires e <= |s| && s[e..] == " ago"
    ensures TwoWords(s, Some(e), ["ago"]) == Some(|s|)
  {
    assert s[e] == s[e..][0] && s[e + 1] == s[e..][1];
    RunIs(s, e, e + 1, Space);
    assert s[e + 1..] == s[e..][1..] == "ago" + "";
    WordIs(s, e + 1, ["ago"], 0, "");
  }

  lemma AgoCount(s: string, e: nat, p: Phrase)
    requires s != "" && IsDigit(s[0]) && CountUnit(s, 0, UNITS) == Some(p) && p.end == e <= |s| && s[e..] == " ago"
    ensures TimePhrase(s) == Some(p.(end := |s|))
  {
    DigitHead(s);
    NoFixedPhrase(s);
    NoCountPhrase(s);
    AgoAt(s, e);
  }

  // ----- all spellings -----

  datatype Spelling = Last | Past | Since | TheLast | InTheLast | Ago | Short

  /** The spelling around the count `c`, a number and a unit. */
  function Spell(sp: Spelling, c: string): string {
    match sp
    case Last => "last " + c
    case Past => "past " + c
    case Since => "since " + c
    case TheLast => "the last " + c
    case InTheLast => "in the last " + c
    case Ago => c + " ago"
    case Short => c
  }

  /** `c` is the number `d`, perhaps a space, and the k-th unit. */
  ghost predicate IsCount(c: string, d: string, gap: string, k: nat, unit: string) {
    && k < |UNITS| && unit == UNITS[k] && IsName(unit)
    && d != "" && AllDigits(d) && (gap == "" || gap == " ") && c == d + (gap + unit)
  }

  lemma CountText(c: string, d: string, gap: string, k: nat, unit: string, post: string)
    requires IsCount(c, d, gap, k, unit)
    ensures c + post == d + (gap + (unit + post)) && c != "" && IsDigit(c[0])
  {
    assert c[0] == d[0];
  }

  /** The count `c` stands at `i`, and `post` after it. */
  lemma CountStands(s: string, i: nat, c: string, d: string, gap: string, k: nat, unit: string, post: string, u: nat, e: nat)
    requires IsCount(c, d, gap, k, unit) && i <= |s| && s[i..] == c + post && Ends(post)
    requires u == i + |d| + |gap| && e == u + |unit|
    ensures e <= |s| && s[e..] == post && Counted(s, i, d, u, e, UnitLength(unit[0]), UNITS)
  {
    UnitsNamed();
    UnitLists();
    CountText(c, d, gap, k, unit, post);
    CountReads(s, i, d, gap, UNITS, k, unit, post, u, e);
  }

  lemma CountLast(s: string, i: nat, c: string, d: string, gap: string, k: nat, unit: string, u: nat)
    requires IsCount(c, d, gap, k, unit) && i <= |s| && s[i..] == c && u == i + |d| + |gap|
    ensures Counted(s, i, d, u, |s|, UnitLength(unit[0]), UNITS)
  {
    assert c == c + "";
    CountStands(s, i, c, d, gap, k, unit, "", u, u + |unit|);
  }

  lemma AfterWord(s: string, w: string, c: string, d: string, gap: string, k: nat, unit: string, u: nat)
    requires IsName(w) && |w| >= 2 && IsCount(c, d, gap, k, unit) && s == w + (" " + c) && u == |w| + 1 + |d| + |gap|
    ensures ThenDigit(s, w) && Starts(s, w[0], w[1])
    ensures Counted(s, |w| + 1, d, u, |s|, UnitLength(unit[0]), UNITS)
  {
    CountText(c, d, gap, k, unit, "");
    HeadIs(s, w, c);
    CountLast(s, |w| + 1, c, d, gap, k, unit, u);
  }

  ghost predicate OneOf(w: string) {
    w == "last" || w == "past" || w == "since"
  }

  lemma WordSpelled(s: string, w: string, c: string, d: string, gap: string, k: nat, unit: string)
    requires OneOf(w) && IsCount(c, d, gap, k, unit) && s == w + (" " + c)
    ensures TimePhrase(s) == Some(Phrase(Num(d) * UnitLength(unit[0]), |s|))
  {
    var u := |w| + 1 + |d| + |gap|;
    AfterWord(s, w, c, d, gap, k, unit, u);
    WordCounted(s, w, d, u, UnitLength(unit[0]));
  }

  lemma WordCounted(s: string, w: string, d: string, u: nat, unit: nat)
    requires OneOf(w) && ThenDigit(s, w) && Starts(s, w[0], w[1]) && Counted(s, |w| + 1, d, u, |s|, unit, UNITS)
    ensures TimePhrase(s) == Some(Phrase(Num(d) * unit, |s|))
  {
    CountIs(s, |w| + 1, d, u, |s|, unit, UNITS);
    var p := Phrase(Num(d) * unit, |s|);
    if w == "last" {
      LastCount(s, p);
    } else if w == "past" {
      PastCount(s, p);
    } else {
      SinceCount(s, p);
    }
  }

  lemma TheLastSpelled(s: string, x: string, c: string, d: string, gap: string, k: nat, unit: string)
    requires IsCount(c, d, gap, k, unit) && x == "last" + (" " + c) && s == "the" + (" " + x)
    ensures TimePhrase(s) == Some(Phrase(Num(d) * UnitLength(unit[0]), |s|))
  {
    var u := 9 + |d| + |gap|;
    CountText(c, d, gap, k, unit, "");
    assert s[0..] == s && s[0] == 't' && s[1] == 'h';
    StepWord(s, 0, "the", x, 4);
    StepWord(s, 4, "last", c, 9);
    CountLast(s, 9, c, d, gap, k, unit, u);
    TheLastCounted(s, d, u, UnitLength(unit[0]));
  }

  lemma TheLastCounted(s: string, d: string, u: nat, unit: nat)
    requires Starts(s, 't', 'h') && LitAt(s, 0, "the") && Gap(s, 3) == Some(4) && LastAt(s, 4)
    requires Counted(s, 9, d, u, |s|, unit, UNITS)
    ensures TimePhrase(s) == Some(Phrase(Num(d) * unit, |s|))
  {
    CountIs(s, 9, d, u, |s|, unit, UNITS);
    TheLastCount(s, Phrase(Num(d) * unit, |s|));
  }

  lemma InTheLastSpelled(s: string, y: string, x: string, c: string, d: string, gap: string, k: nat, unit: string)
    requires IsCount(c, d, gap, k, unit) && x == "last" + (" " + c) && y == "the" + (" " + x) && s == "in" + (" " + y)
    ensures TimePhrase(s) == Some(Phrase(Num(d) * UnitLength(unit[0]), |s|))
  {
    var u := 12 + |d| + |gap|;
    CountText(c, d, gap, k, unit, "");
    assert s[0..] == s && s[0] == 'i' && s[1] == 'n';
    StepWord(s, 0, "in", y, 3);
    StepWord(s, 3, "the", x, 7);
    StepWord(s, 7, "last", c, 12);
    CountLast(s, 12, c, d, gap, k, unit, u);
    InTheLastCounted(s, d, u, UnitLength(unit[0]));
  }

  lemma InTheLastCounted(s: string, d: string, u: nat, unit: nat)
    requires Starts(s, 'i', 'n') && LitAt(s, 0, "in") && Gap(s, 2) == Some(3) && LitAt(s, 3, "the") && Gap(s, 6) == Some(7)
    requires LastAt(s, 7) && Counted(s, 12, d, u, |s|, unit, UNITS)
    ensures TimePhrase(s) == Some(Phrase(Num(d) * unit, |s|))
  {
    CountIs(s, 12, d, u, |s|, unit, UNITS);
    InTheLastCount(s, Phrase(Num(d) * unit, |s|));
  }

  lemma AgoSpelled(s: string, c: string, d: string, gap: string, k: nat, unit: string)
    requires IsCount(c, d, gap, k, unit) && s == c + " ago"
    ensures TimePhrase(s) == Some(Phrase(Num(d) * UnitLength(unit[0]), |s|))
  {
    var u := |d| + |gap|;
    CountText(c, d, gap, k, unit, " ago");
    assert s[0..] == s && s[0] == c[0];
    CountStands(s, 0, c, d, gap, k, unit, " ago", u, u + |unit|);
    AgoCounted(s, d, u, u + |unit|, UnitLength(unit[0]));
  }

  lemma AgoCounted(s: string, d: string, u: nat, e: nat, unit: nat)
    requires s != "" && IsDigit(s[0]) && Counted(s, 0, d, u, e, unit, UNITS) && e <= |s| && s[e..] == " ago"
    ensures TimePhrase(s) == Some(Phrase(Num(d) * unit, |s|))
  {
    CountIs(s, 0, d, u, e, unit, UNITS);
    AgoCount(s, e, Phrase(Num(d) * unit, e));
  }

  // ----- "5 m" alone -----

  lemma {:induction false} NoUnit(s: string, u: nat, units: seq<string>, unit: string)
    requires AreNames(units) && IsName(unit) && unit !in units && u <= |s| && s[u..] == unit
    ensures AltWord(s, u, units) == None
  {
    if units != [] {
      assert unit == unit + "";
      OtherName(s, u, unit, units[0], "");
      NoUnit(s, u, units[1..], unit);
    }
  }

  function ShortIndex(k: nat): nat {
    if k < 2 then k else k - 1
  }

  lemma ShortHas(k: nat)
    requires k < |UNITS| && UNITS[k] != "minute"
    ensures ShortIndex(k) < |COMPACT_UNITS| && COMPACT_UNITS[ShortIndex(k)] == UNITS[k]
  {
  }

  lemma ShortLacks()
    ensures "minute" !in COMPACT_UNITS && IsName("minute")
  {
    assert |"minute"| == 6 && "minute"[0] == 'm';
  }

  /** Every unit but the singular "minute" makes a window of a bare count. */
  lemma ShortSpelled(s: string, d: string, gap: string, k: nat, unit: string)
    requires IsCount(s, d, gap, k, unit) && unit != "minute"
    ensures TimePhrase(s) == Some(Phrase(Num(d) * UnitLength(unit[0]), |s|))
  {
    var u := |d| + |gap|;
    UnitsNamed();
    UnitLists();
    ShortHas(k);
    CountText(s, d, gap, k, unit, "");
    assert s[0..] == s == s + "";
    CountLast(s, 0, s, d, gap, k, unit, u);
    CountReads(s, 0, d, gap, COMPACT_UNITS, ShortIndex(k), unit, "", u, |s|);
    TimeOf(s, d, u, UnitLength(unit[0]), |s|);
  }

  lemma MinuteAlone(s: string, d: string, gap: string, k: nat)
    requires IsCount(s, d, gap, k, "minute")
    ensures TimePhrase(s) == None
  {
    var u := |d| + |gap|;
    MinuteParts(s, d, gap, k, u, "minute");
    MinuteCounted(s, d, u, UnitLength('m'));
  }

  lemma MinuteParts(s: string, d: string, gap: string, k: nat, u: nat, unit: string)
    requires IsCount(s, d, gap, k, unit) && u == |d| + |gap| && unit == "minute"
    ensures s != "" && IsDigit(s[0]) && Counted(s, 0, d, u, |s|, UnitLength('m'), UNITS)
    ensures NoEmptyWord(COMPACT_UNITS) && AltWord(s, u, COMPACT_UNITS) == None
  {
    CountText(s, d, gap, k, unit, "");
    WholeCount(s, d, gap, k, u, unit);
    MinuteUnit(s, d, gap, u, unit);
  }

  lemma WholeCount(s: string, d: string, gap: string, k: nat, u: nat, unit: string)
    requires IsCount(s, d, gap, k, unit) && u == |d| + |gap|
    ensures Counted(s, 0, d, u, |s|, UnitLength(unit[0]), UNITS)
  {
    assert s[0..] == s;
    CountLast(s, 0, s, d, gap, k, unit, u);
  }

  lemma MinuteUnit(s: string, d: string, gap: string, u: nat, unit: string)
    requires s == d + (gap + unit) && u == |d| + |gap| && unit == "minute"
    ensures NoEmptyWord(COMPACT_UNITS) && AltWord(s, u, COMPACT_UNITS) == None
  {
    ShortLacks();
    ShortUnits();
    assert s[u..] == unit;
    NoUnit(s, u, COMPACT_UNITS, unit);
  }

  lemma MinuteCounted(s: string, d: string, u: nat, unit: nat)
    requires s != "" && IsDigit(s[0]) && Counted(s, 0, d, u, |s|, unit, UNITS)
    requires NoEmptyWord(COMPACT_UNITS) && AltWord(s, u, COMPACT_UNITS) == None
    ensures TimePhrase(s) == None
  {
    CountIs(s, 0, d, u, |s|, unit, UNITS);
    var long := CountUnit(s, 0, UNITS);
    NotAgo(s, long.value);
    DigitPhrase(s, long, None);
  }

  // ----- what a spelling means -----

  lemma Unfolds(sp: Spelling, c: string)
    ensures sp.Last? ==> Spell(sp, c) == "last" + (" " + c)
    ensures sp.Past? ==> Spell(sp, c) == "past" + (" " + c)
    ensures sp.Since? ==> Spell(sp, c) == "since" + (" " + c)
    ensures sp.TheLast? ==> Spell(sp, c) == "the" + (" " + ("last" + (" " + c)))
    ensures sp.InTheLast? ==> Spell(sp, c) == "in" + (" " + ("the" + (" " + ("last" + (" " + c)))))
  {
    assert "last " + c == "last" + (" " + c);
    assert "past " + c == "past" + (" " + c);
    assert "since " + c == "since" + (" " + c);
    assert "the last " + c == "the" + (" " + ("last" + (" " + c)));
    assert "in the last " + c == "in" + (" " + ("the" + (" " + ("last" + (" " + c)))));
  }

  /** Every spelling is the same window, except that a bare count in "minute" is none. */
  lemma SpellingReads(sp: Spelling, s: string, c: string, d: string, gap: string, k: nat, unit: string)
    requires IsCount(c, d, gap, k, unit) && s == Spell(sp, c)
    ensures TimePhrase(s) == if sp.Short? && unit == "minute" then None
                             else Some(Phrase(Num(d) * UnitLength(unit[0]), |s|))
  {
    Unfolds(sp, c);
    match sp
    case Last => WordSpelled(s, "last", c, d, gap, k, unit);
    case Past => WordSpelled(s, "past", c, d, gap, k, unit);
    case Since => WordSpelled(s, "since", c, d, gap, k, unit);
    case TheLast => TheLastSpelled(s, "last" + (" " + c), c, d, gap, k, unit);
    case InTheLast =>
      var x := "last" + (" " + c);
      InTheLastSpelled(s, "the" + (" " + x), x, c, d, gap, k, unit);
    case Ago => AgoSpelled(s, c, d, gap, k, unit);
    case Short =>
      if unit == "minute" {
        MinuteAlone(s, d, gap, k);
      } else {
        ShortSpelled(s, d, gap, k, unit);
      }
  }

  /** Opens no command. */
  ghost predicate NotCommand(s: string) {
    && !Starts(s, 's', 'a') && !Starts(s, 'f', 'o') && !Starts(s, 'u', 'n') && !Starts(s, 't', 'o')
    && !Starts(s, 'f', 'i') && !Starts(s, 'm', 'o') && !Starts(s, 'l', 'i')
  }

  lemma NoCommandHere(s: string)
    requires NotCommand(s)
    ensures CommandTurn(s) == None
  {
    NotHere(s, "save");
    NotAny(s, ["forget", "unsave"]);
    NotAny(s, ["top", "first"]);
    NotHere(s, "most");
    NotHere(s, "limit");
  }

  lemma SpellingHead(sp: Spelling, s: string, c: string)
    requires s == Spell(sp, c) && c != "" && IsDigit(c[0])
    ensures s != "" && !IsSpace(s[0]) && NotCommand(s)
  {
    match sp
    case Last => assert s[0] == 'l' && s[1] == 'a';
    case Past => assert s[0] == 'p' && s[1] == 'a';
    case Since => assert s[0] == 's' && s[1] == 'i';
    case TheLast => assert s[0] == 't' && s[1] == 'h';
    case InTheLast => assert s[0] == 'i' && s[1] == 'n';
    case Ago => assert s[0] == c[0];
    case Short =>
  }

  /** An input that is one turn of the loop. */
  lemma OneTurn(s: string, t: Turn)
    requires s != "" && Branches(s, false) == t && t.next == |s|
    ensures Bare(Tokens(s)) == Bare(t.tokens)
  {
    BranchesConsume();
    var found := Tokens(s);
    LexStep(Branches, s, 0, false, t, "", |s|, EndsInSort(t.tokens, false), [], found);
    BareCat(Shift(t.tokens, 0), []);
    BareShift(t.tokens);
  }

  lemma {:induction false} BareShift(ts: seq<Spanned>)
    ensures Bare(Shift(ts, 0)) == Bare(ts)
  {
    if ts != [] {
      BareShift(ts[1..]);
    }
  }

  lemma WindowQuery(s: string, ms: nat)
    requires s != "" && !IsSpace(s[0]) && NotCommand(s) && TimePhrase(s) == Some(Phrase(ms, |s|))
    ensures ParseQuery(s) == NO_QUERY.(sinceMs := Some(ms))
  {
    var t := Turn([Spanned(TimeToken(ms), 0, |s|)], |s|);
    WindowTurn(s, ms, t);
    OneTurn(s, t);
    WindowBuilds(ms, Bare(t.tokens));
  }

  lemma WindowTurn(s: string, ms: nat, t: Turn)
    requires s != "" && !IsSpace(s[0]) && NotCommand(s) && TimePhrase(s) == Some(Phrase(ms, |s|))
    requires t == Turn([Spanned(TimeToken(ms), 0, |s|)], |s|)
    ensures Branches(s, false) == t && Bare(t.tokens) == [TimeToken(ms)]
  {
    NoCommandHere(s);
  }

  lemma WindowBuilds(ms: nat, ts: seq<Token>)
    requires ts == [TimeToken(ms)]
    ensures Build(ts) == NO_QUERY.(sinceMs := Some(ms))
  {
    BuildIsPutAll(ts);
    PutOnly(NO_QUERY, true, TimeToken(ms));
  }

  // ----- "5 minute" as bare words -----

  /** A word that begins with a digit and is no plural has no entry in any table. */
  lemma NoEntry(w: string)
    requires w != "" && IsDigit(w[0]) && w[|w| - 1] != 's'
    ensures LevelOf(w) == None && StatusOf(w) == None && KeywordOf(w) == None && SortAlias(w) == None && !IsFiller(w)
  {
  }

  lemma DigitWord(w: string)
    requires w != "" && IsDigit(w[0]) && Lower(w[|w| - 1]) != 's' && '*' !in w
    ensures LevelOf(LowerAll(w)) == None && StatusOf(LowerAll(w)) == None && WordMeaning(w, false) == WordToken(w)
  {
    NoEntry(LowerAll(w));
  }

  lemma MinuteWord(w: string)
    requires w == "minute"
    ensures IsName(w) && LowerAll(w) == w && LevelOf(w) == None && StatusOf(w) == None && WordMeaning(w, false) == WordToken(w)
  {
    LowerSame(w);
  }

  /** A word that is no level and no status starts no list. */
  lemma NoList<T>(s: string, m: nat, resolve: string -> Option<T>, r: (seq<T>, nat))
    requires m == Run(s, 0, Name) && r == BareCsv(s, resolve) && resolve(LowerAll(s[..m])) == None
    ensures r == ([], 0)
  {
  }

  lemma BareWord(s: string, m: nat, w: string)
    requires s != "" && m == Run(s, 0, Pattern) == Run(s, 0, Name) > 0 && w == s[..m]
    requires LevelOf(LowerAll(w)) == None && StatusOf(LowerAll(w)) == None && WordMeaning(w, false) == WordToken(w)
    ensures BareTurn(s, false) == Turn([Spanned(WordToken(w), 0, m)], m)
  {
    var levels, statuses := BareCsv(s, LevelOf), BareCsv(s, StatusOf);
    NoList(s, m, LevelOf, levels);
    NoList(s, m, StatusOf, statuses);
    BareCases(s, false, m, levels, statuses);
  }

  /** Where a number begins no window, only a bare word is left. */
  lemma OnlyWord(s: string)
    requires s != "" && IsDigit(s[0]) && TimePhrase(s) == None
    ensures Branches(s, false) == BareTurn(s, false)
  {
    DigitHead(s);
    NoCommand(s);
    NoSymbol(s);
    NotHere(s, "tag");
    NotHere(s, "url");
    NoField(s);
  }

  lemma WordBuilds(q: Query, w: string)
    ensures Put(q, WordToken(w), false) == q.(words := q.words + [w])
  {
  }

  lemma TightText(s: string, d: string)
    requires s == d + "minute" && d != "" && AllDigits(d)
    ensures Run(s, 0, Pattern) == |s| == Run(s, 0, Name) && s[..|s|] == s
    ensures IsDigit(s[0]) && Lower(s[|s| - 1]) != 's' && '*' !in s
  {
    assert s[0] == d[0] && s[|s| - 1] == 'e';
    forall k | 0 <= k < |s| ensures In(Name, s[k]) && In(Pattern, s[k]) && s[k] != '*' {
      if k < |d| {
        assert s[k] == d[k];
      } else {
        assert s[k] == "minute"[k - |d|];
      }
    }
    RunIs(s, 0, |s|, Name);
    RunIs(s, 0, |s|, Pattern);
  }

  lemma OneWordBuilds(w: string)
    ensures Build([WordToken(w)]) == NO_QUERY.(words := [w])
  {
    BuildIsPutAll([WordToken(w)]);
    PutOnly(NO_QUERY, true, WordToken(w));
    WordBuilds(NO_QUERY, w);
  }

  lemma WordLine(s: string, t: Turn)
    requires s != "" && t == Turn([Spanned(WordToken(s), 0, |s|)], |s|) && Branches(s, false) == t
    ensures ParseQuery(s) == NO_QUERY.(words := [s])
  {
    OneTurn(s, t);
    assert Bare(t.tokens) == [WordToken(s)];
    OneWordBuilds(s);
  }

  /** "5minute" is one word. */
  lemma MinuteTight(s: string, d: string)
    requires s == d + "minute" && d != "" && AllDigits(d) && TimePhrase(s) == None
    ensures ParseQuery(s) == NO_QUERY.(words := [s])
  {
    TightText(s, d);
    DigitWord(s);
    OnlyWord(s);
    BareWord(s, |s|, s);
    WordLine(s, Branches(s, false));
  }

  lemma NumberText(s: string, d: string, rest: string)
    requires s == d + rest && d != "" && AllDigits(d) && rest != "" && rest[0] == ' '
    ensures Run(s, 0, Pattern) == |d| == Run(s, 0, Name) && s[..|d|] == d && s[|d|..] == rest && IsDigit(s[0])
    ensures IsDigit(d[0]) && Lower(d[|d| - 1]) != 's' && '*' !in d
  {
    assert s[0] == d[0] && s[|d|] == rest[0];
    RunIs(s, 0, |d|, Name);
    RunIs(s, 0, |d|, Pattern);
  }

  lemma NumberTurn(s: string, d: string, rest: string)
    requires s == d + rest && d != "" && AllDigits(d) && rest != "" && rest[0] == ' ' && TimePhrase(s) == None
    ensures Branches(s, false) == Turn([Spanned(WordToken(d), 0, |d|)], |d|) && s[|d|..] == rest
  {
    NumberText(s, d, rest);
    DigitWord(d);
    OnlyWord(s);
    BareWord(s, |d|, d);
  }

  lemma MinuteTurn(s: string)
    requires s == "minute"
    ensures Branches(s, false) == Turn([Spanned(WordToken(s), 0, 6)], 6)
  {
    MinuteWord(s);
    RunIs(s, 0, 6, Name);
    RunIs(s, 0, 6, Pattern);
    assert s[..6] == s && s[0] == 'm' && s[1] == 'i';
    OnlyField(s, false);
    NoField(s);
    BareWord(s, 6, s);
  }

  ghost predicate ReadsWord(step: (string, bool) -> Turn, s: string, w: string) {
    w != "" && step(s, false) == Turn([Spanned(WordToken(w), 0, |w|)], |w|)
  }

  /** One word, then the rest of the line. */
  lemma WordThen(step: (string, bool) -> Turn, s: string, at: nat, w: string, rest: string, at': nat,
      tail: seq<Spanned>, found: seq<Spanned>)
    requires Consumes(step) && ReadsWord(step, s, w) && s == w + rest && at' == at + |w|
    requires found == Lex(step, s, at, false) && tail == Lex(step, rest, at', false)
    ensures Bare(found) == [WordToken(w)] + Bare(tail)
  {
    var turn := Turn([Spanned(WordToken(w), 0, |w|)], |w|);
    assert s[|w|..] == rest;
    LexStep(step, s, at, false, turn, rest, at', false, tail, found);
    BareOne(WordToken(w), |w|, at);
    BareCat(Shift(turn.tokens, at), tail);
  }

  lemma WordLast(step: (string, bool) -> Turn, w: string, at: nat, found: seq<Spanned>)
    requires Consumes(step) && ReadsWord(step, w, w) && found == Lex(step, w, at, false)
    ensures Bare(found) == [WordToken(w)]
  {
    assert w == w + "";
    WordThen(step, w, at, w, "", at + |w|, [], found);
  }

  lemma TwoWordLine(step: (string, bool) -> Turn, s: string, v: string, rest: string, w: string, found: seq<Spanned>)
    requires Consumes(step) && SkipsSpaces(step) && ReadsWord(step, s, v) && ReadsWord(step, w, w)
    requires s == v + rest && rest == " " + w && found == Lex(step, s, 0, false)
    ensures Bare(found) == [WordToken(v), WordToken(w)]
  {
    var middle := Lex(step, rest, |v|, false);
    var last := Lex(step, w, |v| + 1, false);
    WordThen(step, s, 0, v, rest, |v|, middle, found);
    LexSpace(step, w, rest, |v|, false, middle, |v| + 1, last);
    WordLast(step, w, |v| + 1, last);
  }

  lemma TwoWordsBuild(v: string, w: string)
    ensures Build([WordToken(v), WordToken(w)]) == NO_QUERY.(words := [v, w])
  {
    var ts := [WordToken(v), WordToken(w)];
    BuildIsPutAll(ts);
    PutOnly(NO_QUERY, true, ts[0]);
    assert ts[..1] == Only(true, ts[0]);
  }

  /** What a bare number of "minute" is read as. */
  function MinuteWords(d: string, gap: string): seq<string> {
    if gap == "" then [d + "minute"] else [d, "minute"]
  }

  /** "5 minute" is two words. */
  lemma MinuteSpaced(s: string, d: string, rest: string, w: string)
    requires s == d + rest && rest == " " + w && w == "minute" && d != "" && AllDigits(d) && TimePhrase(s) == None
    ensures ParseQuery(s) == NO_QUERY.(words := [d, w])
  {
    BranchesConsume();
    NumberTurn(s, d, rest);
    MinuteTurn(w);
    TwoWordLine(Branches, s, d, rest, w, Tokens(s));
    TwoWordsBuild(d, w);
  }

  lemma MinuteText(s: string, d: string, gap: string, k: nat)
    requires IsCount(s, d, gap, k, "minute")
    ensures if gap == "" then s == d + "minute" else gap == " " && s == d + (" " + "minute")
  {
  }

  /** A bare "N minute" is no window but its own words, whatever the number. */
  lemma MinuteQuery(s: string, d: string, gap: string, k: nat, q: Query)
    requires IsCount(s, d, gap, k, "minute") && q == ParseQuery(s)
    ensures q == NO_QUERY.(words := MinuteWords(d, gap))
  {
    MinuteAlone(s, d, gap, k);
    MinuteText(s, d, gap, k);
    if gap == "" {
      MinuteTight(s, d);
    } else {
      MinuteSpaced(s, d, " " + "minute", "minute");
    }
  }

  /**
   "last N u", "past N u", "since N u", "the last N u", "in the last N u", "N u ago"
   and "N u" all ask for N units, with any unit name, spaced or not, and for nothing
   else; only the bare "N minute" asks for its words instead.
   */
  lemma SpellingsAgree(sp: Spelling, n: nat, gap: string, k: nat, unit: string, ms: nat, c: string, s: string)
    requires unit != "" && ms == n * UnitLength(unit[0])
    requires IsCount(c, Decimal(n), gap, k, unit) && s == Spell(sp, c)
    ensures ParseQuery(s) == if sp.Short? && unit == "minute" then NO_QUERY.(words := MinuteWords(Decimal(n), gap))
                             else NO_QUERY.(sinceMs := Some(ms))
  {
    if sp.Short? && unit == "minute" {
      MinuteQuery(s, Decimal(n), gap, k, ParseQuery(s));
    } else {
      NumOfDecimal(n);
      CountText(c, Decimal(n), gap, k, unit, "");
      SpellingReads(sp, s, c, Decimal(n), gap, k, unit);
      SpellingHead(sp, s, c);
      WindowQuery(s, ms);
    }
  }

  // ----- "top 5", "most recent 5" -----

  /** The word `w`, one space, then the digits `d` and nothing more. */
  lemma NumberAfter(s: string, i: nat, w: string, d: string, next: nat)
    requires IsName(w) && d != "" && AllDigits(d) && i <= |s| && s[i..] == w + (" " + d) && next == i + |w| + 1
    ensures LitAt(s, i, w) && i + |w| <= |s| && next < |s| && SpacedNumber(s, i + |w|) == Some((next, |s|)) && s[next..|s|] == d
  {
    StepWord(s, i, w, d, next);
    assert s[next..] == d + "";
    DigitsEnd(s, next, d, "", |s|);
  }

  lemma SortLimitBuild(key: SortKey, n: nat)
    ensures Build([SortToken(By(key)), LimitToken(n)]) == NO_QUERY.(sort := Some(By(key)), limit := Some(n))
  {
    var ts := [SortToken(By(key)), LimitToken(n)];
    BuildIsPutAll(ts);
    PutOnly(NO_QUERY, true, ts[0]);
    assert ts[..1] == Only(true, ts[0]);
  }

  lemma BareTwo(a: Spanned, b: Spanned)
    ensures Bare([a, b]) == [a.token, b.token]
  {
  }

  lemma SortLimitQuery(s: string, t: Turn, key: SortKey, n: nat, middle: nat, from: nat)
    requires s != "" && Branches(s, false) == t && t.next == |s|
    requires t.tokens == [Spanned(SortToken(By(key)), 0, middle), Spanned(LimitToken(n), from, |s|)]
    ensures ParseQuery(s) == NO_QUERY.(sort := Some(By(key)), limit := Some(n))
  {
    OneTurn(s, t);
    BareTwo(t.tokens[0], t.tokens[1]);
    SortLimitBuild(key, n);
  }

  lemma TopTurnIs(s: string, d: string, t: Turn)
    requires d != "" && AllDigits(d) && s == "top" + (" " + d)
    requires t == Turn([Spanned(SortToken(By(Count)), 0, 3), Spanned(LimitToken(Num(d)), 4, |s|)], |s|)
    ensures Branches(s, false) == t
  {
    TopHead(s, d);
    TopParsed(s, d, t);
    OnlyTop(s, t);
  }

  lemma TopHead(s: string, d: string)
    requires d != "" && AllDigits(d) && s == "top" + (" " + d)
    ensures Starts(s, 't', 'o') && LitAt(s, 0, "top") && SpacedNumber(s, 3) == Some((4, |s|)) && s[4..|s|] == d
  {
    assert s[0..] == s && s[0] == 't' && s[1] == 'o';
    NumberAfter(s, 0, "top", d, 4);
  }

  lemma TopParsed(s: string, d: string, t: Turn)
    requires AllDigits(d) && LitAt(s, 0, "top") && SpacedNumber(s, 3) == Some((4, |s|)) && s[4..|s|] == d
    requires t == Turn([Spanned(SortToken(By(Count)), 0, 3), Spanned(LimitToken(Num(d)), 4, |s|)], |s|)
    ensures TopTurn(s) == Some(t)
  {
    AltIs(s, ["top", "first"], 0);
  }

  lemma OnlyTop(s: string, t: Turn)
    requires Starts(s, 't', 'o') && TopTurn(s) == Some(t)
    ensures Branches(s, false) == t
  {
    NotHere(s, "save");
    NotAny(s, ["forget", "unsave"]);
  }

  lemma TopText(s: string, d: string)
    requires s == "top " + d
    ensures s == "top" + (" " + d)
  {
  }

  lemma TopQuery(s: string, d: string, n: nat)
    requires d != "" && AllDigits(d) && n == Num(d) && s == "top" + (" " + d)
    ensures ParseQuery(s) == NO_QUERY.(sort := Some(By(Count)), limit := Some(n))
  {
    var t := Turn([Spanned(SortToken(By(Count)), 0, 3), Spanned(LimitToken(n), 4, |s|)], |s|);
    TopTurnIs(s, d, t);
    SortLimitQuery(s, t, Count, n, 3, 4);
  }

  lemma TwoPartLine(key: SortKey, n: nat, parts: seq<string>, line: string)
    requires parts == ["sort:" + SortName(key), "limit:" + IntText(n)]
    requires line == "sort:" + SortName(key) + " limit:" + Decimal(n)
    ensures Join(parts, " ") == line
  {
    assert parts[1..] == [parts[1]];
  }

  /** A sort and a limit, each in its own field. */
  lemma FieldsQuery(key: SortKey, n: nat, line: string)
    requires line == "sort:" + SortName(key) + " limit:" + Decimal(n)
    ensures ParseQuery(line) == NO_QUERY.(sort := Some(By(key)), limit := Some(n))
  {
    var parts := ["sort:" + SortName(key), "limit:" + IntText(n)];
    var ts := [SortToken(By(key)), LimitToken(n)];
    SortReads(key);
    LimitReads(n);
    TwoPartLine(key, n, parts, line);
    TokensOf(parts, ts);
    SortLimitBuild(key, n);
  }

  lemma TopPhrase(n: nat, s: string)
    requires s == "top " + Decimal(n)
    ensures ParseQuery(s) == NO_QUERY.(sort := Some(By(Count)), limit := Some(n))
  {
    NumOfDecimal(n);
    TopText(s, Decimal(n));
    TopQuery(s, Decimal(n), n);
  }

  /** "top N" is "sort:count limit:N". */
  lemma TopIsCountWithLimit(n: nat, s: string, line: string)
    requires s == "top " + Decimal(n) && line == "sort:" + SortName(Count) + " limit:" + Decimal(n)
    ensures ParseQuery(s) == ParseQuery(line) == NO_QUERY.(sort := Some(By(Count)), limit := Some(n))
  {
    TopPhrase(n, s);
    FieldsQuery(Count, n, line);
  }

  /** The key each word after "most" stands for. */
  function MostKey(k: nat): SortKey {
    if k == 0 || k == 4 then Recent else if k == 5 || k == 6 then Stale else Count
  }

  lemma MostNames()
    ensures AreNames(MOST_WORDS) && NoEmptyWord(MOST_WORDS)
    ensures forall j, k :: 0 <= j < k < |MOST_WORDS| ==> MOST_WORDS[j] != MOST_WORDS[k]
  {
  }

  /** Of the words after "most" only the k-th stands at its own place: none begins with another. */
  lemma MostStands(s: string, i: nat, k: nat, w: string, post: string)
    requires k < |MOST_WORDS| && w == MOST_WORDS[k] && i <= |s| && s[i..] == w + post && post != "" && post[0] == ' '
    ensures forall j :: 0 <= j < |MOST_WORDS| ==> (LitAt(s, i, MOST_WORDS[j]) <==> j == k)
  {
    MostNames();
    NameStands(s, i, w, post);
    forall j | 0 <= j < |MOST_WORDS| && j != k ensures !LitAt(s, i, MOST_WORDS[j]) {
      MostDiffers(s, i, w, MOST_WORDS[j], post);
    }
  }

  /** Neither of two words of that list is a prefix of the other. */
  lemma MostDiffers(s: string, i: nat, w: string, v: string, post: string)
    requires w in MOST_WORDS && v in MOST_WORDS && w != v && i <= |s| && s[i..] == w + post && post != "" && post[0] == ' '
    ensures !LitAt(s, i, v)
  {
    var j := if w[0] != v[0] then 0 else 1;
    assert w[j] != v[j];
    assert s[i + j] == s[i..][j];
    Clash(s, i, v, j);
  }

  lemma MostAxisIs(s: string, i: nat, k: nat)
    requires k < |MOST_WORDS| && forall j :: 0 <= j < |MOST_WORDS| ==> (LitAt(s, i, MOST_WORDS[j]) <==> j == k)
    ensures MostAxis(s, i) == MostKey(k)
  {
    assert MOST_WORDS[0] == "recent" && MOST_WORDS[4] == "new" && MOST_WORDS[5] == "old" && MOST_WORDS[6] == "stale";
  }

  lemma {:induction false} AltAt(s: string, i: nat, words: seq<string>, k: nat)
    requires i <= |s| && NoEmptyWord(words) && k < |words| && LitAt(s, i, words[k])
    requires forall j :: 0 <= j < k ==> !LitAt(s, i, words[j])
    ensures Alt(s, i, words) == Some(i + |words[k]|)
  {
    if k > 0 {
      AltAt(s, i, words[1..], k - 1);
    }
  }

  /** "most", a word of the list and a number. */
  ghost predicate MostAt(s: string, k: nat, w: string, d: string) {
    && k < |MOST_WORDS| && w == MOST_WORDS[k] && IsName(w) && d != "" && AllDigits(d)
    && s == "most" + (" " + (w + (" " + d)))
  }

  lemma MostPlaces(s: string, x: string, w: string, d: string, middle: nat, from: nat)
    requires IsName(w) && d != "" && AllDigits(d) && x == w + (" " + d) && s == "most" + (" " + x)
    requires middle == 5 + |w| && from == middle + 1
    ensures LitAt(s, 0, "most") && Gap(s, 4) == Some(5) && 5 < |s| && s[5..] == x && middle <= |s|
    ensures from < |s| && SpacedNumber(s, middle) == Some((from, |s|)) && s[from..|s|] == d
  {
    assert s[0..] == s && x[0] == w[0];
    StepWord(s, 0, "most", x, 5);
    NumberAfter(s, 5, w, d, from);
  }

  lemma MostWord(s: string, i: nat, k: nat, w: string, post: string, middle: nat)
    requires k < |MOST_WORDS| && w == MOST_WORDS[k] && i <= |s| && s[i..] == w + post && post != "" && post[0] == ' '
    requires middle == i + |w|
    ensures NoEmptyWord(MOST_WORDS) && Alt(s, i, MOST_WORDS) == Some(middle) && MostAxis(s, i) == MostKey(k)
  {
    MostNames();
    MostStands(s, i, k, w, post);
    AltAt(s, i, MOST_WORDS, k);
    MostAxisIs(s, i, k);
  }

  lemma MostTurnIs(s: string, key: SortKey, d: string, middle: nat, from: nat)
    requires LitAt(s, 0, "most") && Gap(s, 4) == Some(5) && NoEmptyWord(MOST_WORDS) && Alt(s, 5, MOST_WORDS) == Some(middle)
    requires MostAxis(s, 5) == key && middle <= |s| && SpacedNumber(s, middle) == Some((from, |s|))
    requires from <= |s| && s[from..|s|] == d && AllDigits(d)
    ensures MostTurn(s) == Some(Turn([Spanned(SortToken(By(key)), 0, middle), Spanned(LimitToken(Num(d)), from, |s|)], |s|))
  {
  }

  lemma OnlyMost(s: string, t: Turn)
    requires Starts(s, 'm', 'o') && MostTurn(s) == Some(t)
    ensures Branches(s, false) == t
  {
    NotHere(s, "save");
    NotAny(s, ["forget", "unsave"]);
    NotAny(s, ["top", "first"]);
  }

  lemma MostQuery(k: nat, w: string, n: nat, s: string)
    requires MostAt(s, k, w, Decimal(n))
    ensures ParseQuery(s) == NO_QUERY.(sort := Some(By(MostKey(k))), limit := Some(n))
  {
    var middle, from := 5 + |w|, 6 + |w|;
    NumOfDecimal(n);
    var t := Turn([Spanned(SortToken(By(MostKey(k))), 0, middle), Spanned(LimitToken(n), from, |s|)], |s|);
    MostBranch(s, k, w, Decimal(n), n, middle, from, t);
    SortLimitQuery(s, t, MostKey(k), n, middle, from);
  }

  lemma MostBranch(s: string, k: nat, w: string, d: string, n: nat, middle: nat, from: nat, t: Turn)
    requires MostAt(s, k, w, d) && n == Num(d) && middle == 5 + |w| && from == middle + 1
    requires t == Turn([Spanned(SortToken(By(MostKey(k))), 0, middle), Spanned(LimitToken(n), from, |s|)], |s|)
    ensures Branches(s, false) == t
  {
    var x := w + (" " + d);
    MostParsed(s, k, w, d, x, middle, from);
    MostHead(s, x);
    OnlyMost(s, t);
  }

  lemma MostHead(s: string, x: string)
    requires s == "most" + (" " + x)
    ensures Starts(s, 'm', 'o')
  {
    assert s[0] == 'm' && s[1] == 'o';
  }

  lemma MostParsed(s: string, k: nat, w: string, d: string, x: string, middle: nat, from: nat)
    requires MostAt(s, k, w, d) && x == w + (" " + d) && middle == 5 + |w| && from == middle + 1
    ensures MostTurn(s) == Some(Turn([Spanned(SortToken(By(MostKey(k))), 0, middle), Spanned(LimitToken(Num(d)), from, |s|)], |s|))
  {
    MostPlaces(s, x, w, d, middle, from);
    MostWord(s, 5, k, w, " " + d, middle);
    MostTurnIs(s, MostKey(k), d, middle, from);
  }

  /** "most recent N", "most noisy N" and the like are a sort with a limit. */
  lemma MostIsSortWithLimit(k: nat, w: string, n: nat, s: string, line: string)
    requires MostAt(s, k, w, Decimal(n)) && line == "sort:" + SortName(MostKey(k)) + " limit:" + Decimal(n)
    ensures ParseQuery(s) == ParseQuery(line) == NO_QUERY.(sort := Some(By(MostKey(k))), limit := Some(n))
  {
    MostQuery(k, w, n, s);
    FieldsQuery(MostKey(k), n, line);
  }
}
