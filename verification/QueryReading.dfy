/**
 Each part `filterToQueryString` prints is read back by the tokenizer as one
 token, whatever printed parts follow it.
 */
module QueryReading {
  import opened Decimals
  import opened Filters
  import opened QueryBridge
  import opened QueryParser
  import opened Scanning
  import opened Wrappers

  // ----- branches ruled out by the first two characters -----

  ghost predicate Starts(s: string, a: char, b: char) {
    |s| >= 2 && Lower(s[0]) == a && Lower(s[1]) == b
  }

  /** A literal needs its first two characters. */
  lemma NotHere(s: string, w: string)
    requires |w| >= 2 && !Starts(s, w[0], w[1])
    ensures !LitAt(s, 0, w)
  {
  }

  ghost predicate NoneStarts(s: string, words: seq<string>) {
    forall k :: 0 <= k < |words| ==> |words[k]| >= 2 && !Starts(s, words[k][0], words[k][1])
  }

  lemma {:induction false} NotAny(s: string, words: seq<string>)
    requires NoneStarts(s, words)
    ensures Alt(s, 0, words) == None && AltWord(s, 0, words) == None
  {
    if words != [] {
      NotHere(s, words[0]);
      NotAny(s, words[1..]);
    }
  }

  /** Opens no command but "limit", no phrase of words, no tag and no url. */
  ghost predicate Quiet(s: string) {
    && s != "" && Lower(s[0]) != 'a'
    && !Starts(s, 's', 'a') && !Starts(s, 'f', 'o') && !Starts(s, 'u', 'n') && !Starts(s, 't', 'o')
    && !Starts(s, 'f', 'i') && !Starts(s, 'm', 'o') && !Starts(s, 'l', 'a') && !Starts(s, 'o', 'v')
    && !Starts(s, 't', 'h') && !Starts(s, 'p', 'a') && !Starts(s, 's', 'i') && !Starts(s, 'y', 'e')
    && !Starts(s, 'n', 'o') && !Starts(s, 't', 'a') && !Starts(s, 'u', 'r')
    && (Starts(s, 'i', 'n') ==> |s| > 2 && !IsSpace(s[2]))
  }

  lemma NoCommand(s: string)
    requires Quiet(s)
    ensures SaveTurn(s) == None && ForgetTurn(s) == None && TopTurn(s) == None && MostTurn(s) == None
    ensures !Starts(s, 'l', 'i') ==> CommandTurn(s) == None
  {
    NotHere(s, "save");
    NotAny(s, ["forget", "unsave"]);
    NotAny(s, ["top", "first"]);
    NotHere(s, "most");
    if !Starts(s, 'l', 'i') {
      NotHere(s, "limit");
    }
  }

  // ----- time phrases ruled out -----

  /** Neither two-word phrase opens here. */
  lemma NoFixedPhrase(s: string)
    requires Quiet(s)
    ensures FixedPhrases(s) == None
  {
    NotAny(s, ["last"]);
    NotAny(s, ["overnight"]);
    NotAny(s, ["this"]);
    NotAny(s, ["this", "past", "last"]);
    NotAny(s, ["since"]);
    NotAny(s, ["past"]);
  }

  /** "in" or "a" not followed by white space opens no phrase. */
  lemma NoCountPhrase(s: string)
    requires Quiet(s)
    ensures CountPhrases(s) == MustAgo(s, CountUnit(s, 0, UNITS))
  {
    NotAny(s, ["last", "past"]);
    NotAny(s, ["since"]);
    NotAny(s, ["the"]);
    NotAny(s, ["over", "for"]);
    assert ["in", "over", "for"][1..] == ["over", "for"];
    if !Starts(s, 'i', 'n') {
      NotHere(s, "in");
    } else if LitAt(s, 0, "in") {
      assert Alt(s, 0, ["in", "over", "for"]) == Some(2);
      assert Gap(s, 2) == None;
    }
  }

  lemma NoWordPhrase(s: string)
    requires Quiet(s)
    ensures WordPhrases(s) == None
  {
    NotAny(s, ["the"]);
    NotAny(s, ["last", "past", "this"]);
    NotAny(s, ["today"]);
    NotAny(s, ["yesterday"]);
    NotAny(s, ["now"]);
    NoArticle(s);
  }

  lemma NotFirst(s: string, w: string)
    requires w != "" && (s == "" || Lower(s[0]) != w[0])
    ensures !LitAt(s, 0, w)
  {
    if s != "" {
      assert Lower(s[0 + 0]) != w[0];
    }
  }

  lemma NoArticle(s: string)
    requires s != "" && Lower(s[0]) != 'a'
    ensures Alt(s, 0, ["an", "a"]) == None
  {
    NotFirst(s, "an");
    NotFirst(s, "a");
    assert ["an", "a"][1..] == ["a"];
    assert Alt(s, 0, ["a"]) == None;
  }

  // ----- words -----

  /** Begins with a lower-case letter, in no way another branch looks for. */
  ghost predicate Lettered(s: string) {
    Quiet(s) && 'b' <= s[0] <= 'z' && !Starts(s, 'l', 'i')
  }

  lemma NoPhrase(s: string)
    requires Quiet(s) && !IsDigit(s[0])
    ensures TimeTurn(s) == None
  {
    NoFixedPhrase(s);
    NoCountPhrase(s);
    NoWordPhrase(s);
  }

  lemma NotUpper(s: string, w: string)
    requires s != "" && w != "" && s[0] != w[0]
    ensures !UpperAt(s, w)
  {
    if |w| <= |s| {
      assert s[..|w|][0] == s[0];
    }
  }

  lemma NoSymbol(s: string)
    requires s != "" && ('b' <= s[0] <= 'z' || IsDigit(s[0]))
    ensures SymbolTurn(s) == None
  {
    NotUpper(s, "AND");
    NotUpper(s, "OR");
    NotUpper(s, "NOT");
  }

  /** Only a field or a bare word is left. */
  lemma OnlyField(s: string, afterSort: bool)
    requires Lettered(s)
    ensures Branches(s, afterSort) == if FieldTurn(s).Some? then FieldTurn(s).value else BareTurn(s, afterSort)
  {
    NoCommand(s);
    NoPhrase(s);
    NoSymbol(s);
    NotHere(s, "tag");
    NotHere(s, "url");
  }

  lemma {:induction false} AltIs(s: string, words: seq<string>, k: nat)
    requires NoEmptyWord(words) && k <= |words| && forall j :: 0 <= j < k ==> !LitAt(s, 0, words[j])
    requires k < |words| ==> LitAt(s, 0, words[k])
    ensures Alt(s, 0, words) == if k < |words| then Some(|words[k]|) else None
  {
    if k > 0 {
      AltIs(s, words[1..], k - 1);
    }
  }

  lemma RunIs(s: string, i: nat, j: nat, cls: Class)
    requires i <= j <= |s| && forall k :: i <= k < j ==> In(cls, s[k])
    requires j < |s| ==> !In(cls, s[j])
    ensures Run(s, i, cls) == j
  {
  }

  lemma LowerSame(s: string)
    requires forall k :: 0 <= k < |s| ==> 'a' <= s[k] <= 'z'
    ensures LowerAll(s) == s
  {
  }

  // ----- what may follow a part -----

  /** The end, or a space and a part that does not begin with an "a" ("ago" would join a number and a unit). */
  ghost predicate Plain(rest: string) {
    rest == "" || (|rest| >= 2 && rest[0] == ' ' && !IsSpace(rest[1]) && Lower(rest[1]) != 'a')
  }

  ghost predicate IsName(n: string) {
    n != "" && forall k :: 0 <= k < |n| ==> 'a' <= n[k] <= 'z'
  }

  ghost predicate AreNames(ns: seq<string>) {
    forall k :: 0 <= k < |ns| ==> IsName(ns[k])
  }

  /** A name, then a comma, a space or the end. */
  lemma NameEnds(s: string, n: string, tail: string)
    requires IsName(n) && s == n + tail && (tail == "" || tail[0] == ' ' || tail[0] == ',')
    ensures Run(s, 0, Name) == |n| && Run(s, 0, Pattern) == |n| && s[..|n|] == n && LowerAll(n) == n
  {
    RunIs(s, 0, |n|, Name);
    RunIs(s, 0, |n|, Pattern);
    LowerSame(n);
  }

  // ----- comma-separated lists -----

  /** A list is its first name, or its first name, a comma and a list. */
  ghost predicate Listed(ns: seq<string>, list: string, more: string) {
    && ns != [] && AreNames(ns) && list == Join(ns, ",")
    && if |ns| == 1 then list == ns[0] else list == ns[0] + "," + more && more == Join(ns[1..], ",") && more != ""
  }

  /** What stands after the first name of a list. */
  function After(ns: seq<string>, more: string, rest: string): string {
    if |ns| == 1 then rest else "," + (more + rest)
  }

  lemma ListOf(ns: seq<string>) returns (list: string, more: string)
    requires ns != [] && AreNames(ns)
    ensures Listed(ns, list, more)
  {
    list := Join(ns, ",");
    more := Join(ns[1..], ",");
  }

  lemma BareLast<T>(s: string, m: nat, resolve: string -> Option<T>, r: (seq<T>, nat))
    requires 0 < m <= |s| && Run(s, 0, Name) == m && resolve(LowerAll(s[..m])).Some? && !CharAt(s, m, ',')
    requires r == BareCsv(s, resolve)
    ensures r == ([resolve(LowerAll(s[..m])).value], m)
  {
  }

  /** `s` is a name, a comma and `tail`. */
  ghost predicate Comma(s: string, n: string, tail: string) {
    && 0 < |n| < |s| && Run(s, 0, Name) == |n| && s[..|n|] == n && LowerAll(n) == n
    && s[|n|] == ',' && s[|n| + 1..] == tail
  }

  lemma CommaAfter(s: string, n: string, tail: string)
    requires IsName(n) && s == n + "," + tail
    ensures Comma(s, n, tail)
  {
    NameEnds(s, n, "," + tail);
  }

  lemma BareCons<T>(s: string, n: string, resolve: string -> Option<T>, r: (seq<T>, nat), tail: string, rest: (seq<T>, nat))
    requires Comma(s, n, tail) && resolve(n).Some?
    requires r == BareCsv(s, resolve) && rest == BareCsv(tail, resolve)
    ensures r == ([resolve(n).value] + rest.0, |n| + 1 + rest.1)
  {
  }

  ghost predicate Resolves<T>(ns: seq<string>, vs: seq<T>, resolve: string -> Option<T>) {
    |vs| == |ns| && forall k :: 0 <= k < |ns| ==> resolve(ns[k]) == Some(vs[k])
  }

  lemma {:induction false} BareList<T>(ns: seq<string>, list: string, more: string, vs: seq<T>, resolve: string -> Option<T>,
      s: string, rest: string, r: (seq<T>, nat))
    requires Listed(ns, list, more) && Plain(rest) && s == list + rest && r == BareCsv(s, resolve)
    requires Resolves(ns, vs, resolve)
    ensures r == (vs, |list|)
    decreases ns, 1
  {
    if |ns| > 1 {
      assert s == ns[0] + "," + (more + rest);
      BareTail(ns, more, vs, resolve, s, rest, r);
    } else {
      BareSingle(ns[0], vs[0], resolve, s, rest, r);
      assert vs == [vs[0]];
    }
  }

  lemma BareSingle<T>(n: string, v: T, resolve: string -> Option<T>, s: string, rest: string, r: (seq<T>, nat))
    requires IsName(n) && Plain(rest) && s == n + rest && r == BareCsv(s, resolve) && resolve(n) == Some(v)
    ensures r == ([v], |n|)
  {
    NameEnds(s, n, rest);
    BareLast(s, |n|, resolve, r);
  }

  lemma {:induction false} BareTail<T>(ns: seq<string>, more: string, vs: seq<T>, resolve: string -> Option<T>,
      s: string, rest: string, r: (seq<T>, nat))
    requires |ns| > 1 && AreNames(ns) && more == Join(ns[1..], ",") && Plain(rest) && Resolves(ns, vs, resolve)
    requires s == ns[0] + "," + (more + rest) && r == BareCsv(s, resolve)
    ensures r == (vs, |ns[0]| + 1 + |more|)
    decreases ns, 0
  {
    var list', more' := ListOf(ns[1..]);
    var s' := more + rest;
    var r' := BareCsv(s', resolve);
    BareList(ns[1..], more, more', vs[1..], resolve, s', rest, r');
    CommaAfter(s, ns[0], s');
    BareCons(s, ns[0], resolve, r, s', r');
    assert vs == [vs[0]] + vs[1..];
  }

  lemma NameAt(s: string, i: nat, n: string, tail: string)
    requires IsName(n) && i <= |s| && s[i..] == n + tail && (tail == "" || tail[0] == ' ' || tail[0] == ',')
    ensures i + |n| <= |s| && Run(s, i, Pattern) == i + |n| && s[i + |n|..] == tail
    ensures CharAt(s, i + |n|, ',') <==> tail != "" && tail[0] == ','
  {
    var j := i + |n|;
    assert |s| - i == |n| + |tail|;
    forall k | i <= k < j ensures In(Pattern, s[k]) {
      assert s[k] == s[i..][k - i] == n[k - i];
    }
    assert tail != "" ==> s[j] == s[i..][|n|] == tail[0];
    RunIs(s, i, j, Pattern);
  }

  lemma CsvLast(s: string, i: nat, j: nat, e: nat)
    requires i < j <= |s| && Run(s, i, Pattern) == j && !CharAt(s, j, ',') && e == CsvEnd(s, i)
    ensures e == j
  {
  }

  lemma CsvCons(s: string, i: nat, j: nat, e: nat, next: nat, further: nat)
    requires i < j < |s| && Run(s, i, Pattern) == j && s[j] == ',' && e == CsvEnd(s, i)
    requires next == j + 1 && further == CsvEnd(s, next) && further > next
    ensures e == further
  {
  }

  lemma {:induction false} CsvIs(ns: seq<string>, list: string, more: string, s: string, i: nat, rest: string, e: nat)
    requires Listed(ns, list, more) && Plain(rest) && i <= |s| && s[i..] == list + rest && e == CsvEnd(s, i)
    ensures e == i + |list|
    decreases ns, 1
  {
    var tail := After(ns, more, rest);
    assert list + rest == ns[0] + tail;
    NameAt(s, i, ns[0], tail);
    var j := i + |ns[0]|;
    if |ns| > 1 {
      CsvTail(ns, more, s, i, j, rest, e);
    } else {
      CsvLast(s, i, j, e);
    }
  }

  lemma {:induction false} CsvTail(ns: seq<string>, more: string, s: string, i: nat, j: nat, rest: string, e: nat)
    requires |ns| > 1 && AreNames(ns) && more == Join(ns[1..], ",") && Plain(rest)
    requires i < j <= |s| && s[j..] == "," + (more + rest) && Run(s, i, Pattern) == j && e == CsvEnd(s, i)
    ensures e == j + 1 + |more|
    decreases ns, 0
  {
    var list', more' := ListOf(ns[1..]);
    var next := j + 1;
    assert s[j] == s[j..][0];
    assert s[next..] == s[j..][1..] == more + rest;
    var further := CsvEnd(s, next);
    CsvIs(ns[1..], more, more', s, next, rest, further);
    CsvCons(s, i, j, e, next, further);
  }

  lemma SplitCons(s: string, j: nat)
    requires CommaAt(s) == j > 0
    ensures j == |s| ==> Split(s) == [s]
    ensures j < |s| ==> Split(s) == [s[..j]] + Split(s[j + 1..])
  {
    assert j == |s| ==> s[..j] == s;
  }

  lemma {:induction false} SplitIs(ns: seq<string>, list: string, more: string)
    requires Listed(ns, list, more)
    ensures Split(list) == ns
  {
    var m := |ns[0]|;
    var tail := After(ns, more, "");
    assert list == ns[0] + tail && list[..m] == ns[0];
    CommaIs(list, ns[0], tail);
    SplitCons(list, m);
    if |ns| > 1 {
      var list', more' := ListOf(ns[1..]);
      SplitIs(ns[1..], more, more');
      assert list[m + 1..] == more;
    }
  }

  lemma CommaIs(s: string, n: string, tail: string)
    requires IsName(n) && s == n + tail && (tail == "" || tail[0] == ',')
    ensures CommaAt(s) == |n|
  {
    assert forall k :: 0 <= k < |n| ==> s[k] == n[k];
    assert tail != "" ==> s[|n|] == tail[0];
  }

  // ----- levels -----

  /** The tokenizer reads `p` as the one token `t`, whatever plain text follows. */
  ghost predicate Reads(step: (string, bool) -> Turn, p: string, t: Token) {
    && p != "" && !IsSpace(p[0]) && Lower(p[0]) != 'a'
    && forall rest, b :: Plain(rest) ==> step(p + rest, b) == Turn([Spanned(t, 0, |p|)], |p|)
  }

  lemma NoField(s: string)
    requires !Starts(s, 'l', 'e') && !Starts(s, 't', 'e') && !Starts(s, 'i', 's') && !Starts(s, 'h', 'a')
    requires !Starts(s, 's', 'o') && (Starts(s, 's', 't') ==> |s| >= 4 && Lower(s[3]) != 't')
    ensures FieldTurn(s) == None
  {
    NotHere(s, "level");
    NotHere(s, "text");
    NotHere(s, "is");
    NotHere(s, "has");
    NotHere(s, "sort");
    if Starts(s, 's', 't') {
      assert "status"[3] == 't' && Lower(s[0 + 3]) != 't';
    } else {
      NotHere(s, "status");
    }
    AltIs(s, FIELDS, |FIELDS|);
  }

  lemma LevelHead(s: string, l: Level, tail: string)
    requires s == LevelName(l) + tail
    ensures Lettered(s) && FieldTurn(s) == None
  {
    var n := LevelName(l);
    assert s[0] == n[0] && s[1] == n[1] && s[2] == n[2];
    NoField(s);
  }

  lemma {:induction false} LevelNamesAre(ls: seq<Level>)
    ensures |LevelNames(ls)| == |ls|
    ensures forall k :: 0 <= k < |ls| ==> LevelNames(ls)[k] == LevelName(ls[k])
  {
    if ls != [] {
      LevelNamesAre(ls[1..]);
    }
  }

  lemma {:induction false} StatusNamesAre(ss: seq<Status>)
    ensures |StatusNames(ss)| == |ss|
    ensures forall k :: 0 <= k < |ss| ==> StatusNames(ss)[k] == StatusName(ss[k])
  {
    if ss != [] {
      StatusNamesAre(ss[1..]);
    }
  }

  lemma LevelNameReads(l: Level)
    ensures IsName(LevelName(l)) && LevelOf(LevelName(l)) == Some(l) && StatusOf(LevelName(l)) == None
  {
  }

  lemma StatusNameReads(t: Status)
    ensures IsName(StatusName(t)) && StatusOf(StatusName(t)) == Some(t)
  {
  }

  // ----- bare lists and bare words -----

  /** A name that does not resolve starts no list. */
  lemma BareNone<T>(n: string, resolve: string -> Option<T>, s: string, rest: string, r: (seq<T>, nat))
    requires IsName(n) && Plain(rest) && s == n + rest && resolve(n) == None && r == BareCsv(s, resolve)
    ensures r == ([], 0)
  {
    NameEnds(s, n, rest);
  }

  /** The bare-word branch, its two list attempts named. */
  lemma BareCases(s: string, b: bool, m: nat, levels: (seq<Level>, nat), statuses: (seq<Status>, nat))
    requires s != "" && m == Run(s, 0, Pattern) > 0
    requires levels == BareCsv(s, LevelOf) && statuses == BareCsv(s, StatusOf)
    ensures |levels.0| > 1 ==> BareTurn(s, b) == One(s, LevelToken(levels.0), levels.1)
    ensures |levels.0| <= 1 && |statuses.0| <= 1 ==> BareTurn(s, b) == One(s, WordMeaning(s[..m], b), m)
  {
  }

  lemma SingleLevel(l: Level, s: string, rest: string, b: bool)
    requires Plain(rest) && s == LevelName(l) + rest
    ensures BareTurn(s, b) == Turn([Spanned(LevelToken([l]), 0, |LevelName(l)|)], |LevelName(l)|)
  {
    var n := LevelName(l);
    LevelNameReads(l);
    NameEnds(s, n, rest);
    var levels, statuses := BareCsv(s, LevelOf), BareCsv(s, StatusOf);
    BareSingle(n, l, LevelOf, s, rest, levels);
    BareNone(n, StatusOf, s, rest, statuses);
    BareCases(s, b, |n|, levels, statuses);
  }

  lemma LevelsAreNames(ls: seq<Level>)
    ensures AreNames(LevelNames(ls)) && Resolves(LevelNames(ls), ls, LevelOf)
  {
    LevelNamesAre(ls);
    forall k | 0 <= k < |ls| ensures IsName(LevelNames(ls)[k]) && LevelOf(LevelNames(ls)[k]) == Some(ls[k]) {
      LevelNameReads(ls[k]);
    }
  }

  lemma SomeWord(s: string, n: string, tail: string)
    requires IsName(n) && s == n + tail
    ensures Run(s, 0, Pattern) > 0
  {
    assert s[0] == n[0];
  }

  lemma SeveralLevels(ns: seq<string>, ls: seq<Level>, list: string, more: string, s: string, rest: string, b: bool)
    requires |ls| > 1 && Listed(ns, list, more) && Resolves(ns, ls, LevelOf) && Plain(rest) && s == list + rest
    requires Run(s, 0, Pattern) > 0
    ensures BareTurn(s, b) == Turn([Spanned(LevelToken(ls), 0, |list|)], |list|)
  {
    var levels, statuses := BareCsv(s, LevelOf), BareCsv(s, StatusOf);
    BareList(ns, list, more, ls, LevelOf, s, rest, levels);
    BareCases(s, b, Run(s, 0, Pattern), levels, statuses);
  }

  /** One level or several: the bare-word branch. */
  lemma LevelsBare(ns: seq<string>, ls: seq<Level>, list: string, more: string, s: string, rest: string, b: bool)
    requires ls != [] && ns == LevelNames(ls) && Listed(ns, list, more) && Resolves(ns, ls, LevelOf)
    requires Plain(rest) && s == list + rest && Run(s, 0, Pattern) > 0
    ensures BareTurn(s, b) == Turn([Spanned(LevelToken(ls), 0, |list|)], |list|)
  {
    if |ls| == 1 {
      SingleLevel(ls[0], s, rest, b);
      assert ls == [ls[0]];
    } else {
      SeveralLevels(ns, ls, list, more, s, rest, b);
    }
  }

  lemma LevelsTurn(ns: seq<string>, ls: seq<Level>, list: string, more: string, s: string, rest: string, b: bool)
    requires ls != [] && ns == LevelNames(ls) && Listed(ns, list, more) && Resolves(ns, ls, LevelOf)
    requires Plain(rest) && s == list + rest
    ensures Branches(s, b) == Turn([Spanned(LevelToken(ls), 0, |list|)], |list|)
  {
    LevelsHead(ns, ls, list, more, s, rest);
    LevelsBare(ns, ls, list, more, s, rest, b);
    OnlyBare(s, b);
  }

  lemma LevelsHead(ns: seq<string>, ls: seq<Level>, list: string, more: string, s: string, rest: string)
    requires ls != [] && ns == LevelNames(ls) && Listed(ns, list, more) && s == list + rest
    ensures Lettered(s) && FieldTurn(s) == None && Run(s, 0, Pattern) > 0
  {
    var tail := After(ns, more, rest);
    assert s == ns[0] + tail;
    LevelHead(s, ls[0], tail);
    SomeWord(s, ns[0], tail);
  }

  lemma OnlyBare(s: string, b: bool)
    requires Lettered(s) && FieldTurn(s) == None
    ensures Branches(s, b) == BareTurn(s, b)
  {
    OnlyField(s, b);
  }

  lemma LevelsRead(ls: seq<Level>)
    requires ls != []
    ensures Reads(Branches, Join(LevelNames(ls), ","), LevelToken(ls))
  {
    var ns := LevelNames(ls);
    LevelsAreNames(ls);
    var list, more := ListOf(ns);
    forall rest, b | Plain(rest)
      ensures Branches(list + rest, b) == Turn([Spanned(LevelToken(ls), 0, |list|)], |list|)
    {
      LevelsTurn(ns, ls, list, more, list + rest, rest, b);
    }
    assert list[0] == ns[0][0];
  }

  /** The three words that stand for a flag. */
  ghost predicate FlagWord(n: string, keyword: Keyword) {
    (n == "spiking" && keyword == Spiking) || (n == "new" && keyword == New) || (n == "stale" && keyword == StaleWord)
  }

  lemma FlagHead(n: string, keyword: Keyword, s: string, rest: string)
    requires FlagWord(n, keyword) && s == n + rest
    ensures Lettered(s) && FieldTurn(s) == None
  {
    assert s[0] == n[0] && s[1] == n[1] && s[2] == n[2];
    assert n == "stale" ==> s[3] == 'l';
    NoField(s);
  }

  lemma FlagMeaning(n: string, keyword: Keyword, b: bool)
    requires FlagWord(n, keyword)
    ensures IsName(n) && LevelOf(n) == None && StatusOf(n) == None && WordMeaning(n, b) == KeywordToken(keyword)
  {
    LowerSame(n);
  }

  lemma FlagTurn(n: string, keyword: Keyword, s: string, rest: string, b: bool)
    requires FlagWord(n, keyword) && Plain(rest) && s == n + rest
    ensures BareTurn(s, b) == Turn([Spanned(KeywordToken(keyword), 0, |n|)], |n|)
  {
    FlagMeaning(n, keyword, b);
    NameEnds(s, n, rest);
    var levels, statuses := BareCsv(s, LevelOf), BareCsv(s, StatusOf);
    BareNone(n, LevelOf, s, rest, levels);
    BareNone(n, StatusOf, s, rest, statuses);
    BareCases(s, b, |n|, levels, statuses);
  }

  lemma FlagReads(n: string, keyword: Keyword)
    requires FlagWord(n, keyword)
    ensures Reads(Branches, n, KeywordToken(keyword))
  {
    forall rest, b | Plain(rest)
      ensures Branches(n + rest, b) == Turn([Spanned(KeywordToken(keyword), 0, |n|)], |n|)
    {
      FlagHead(n, keyword, n + rest, rest);
      OnlyField(n + rest, b);
      FlagTurn(n, keyword, n + rest, rest, b);
    }
  }

  // ----- "status:a,b" and "sort:a" -----

  /** `s` is the field `FIELDS[k]`, a colon, a list of names and plain text. */
  ghost predicate FieldAt(s: string, k: nat, ns: seq<string>, list: string, more: string, rest: string) {
    && k < |FIELDS| && Listed(ns, list, more) && Plain(rest) && s == FIELDS[k] + ":" + (list + rest)
    && forall j :: 0 <= j < k ==> !LitAt(s, 0, FIELDS[j])
  }

  lemma FieldColon(s: string, k: nat, w: string, ns: seq<string>, list: string, more: string, rest: string)
    requires FieldAt(s, k, ns, list, more, rest) && w == FIELDS[k]
    ensures Alt(s, 0, FIELDS) == Some(|w|) && Around(s, |w|, ':') == Some(|w| + 1) && s[|w| + 1..] == list + rest
  {
    assert forall j :: 0 <= j < |w| ==> s[0 + j] == w[j];
    assert forall j :: 0 <= j < |w| ==> 'a' <= w[j] <= 'z';
    AltIs(s, FIELDS, k);
    assert s[|w|] == ':' && s[|w| + 1..] == list + rest;
    assert s[|w| + 1] == list[0] == ns[0][0];
    RunIs(s, |w|, |w|, Space);
    RunIs(s, |w| + 1, |w| + 1, Space);
  }

  lemma FieldCases(s: string, w: nat, i: nat, e: nat, values: seq<string>)
    requires Alt(s, 0, FIELDS) == Some(w) && Around(s, w, ':') == Some(i) && e == CsvEnd(s, i) > i
    requires values == Split(s[i..e])
    ensures FieldTurn(s) == Some(Turn(OnSpan(FieldTokens(s, values), e), e))
  {
  }

  lemma FieldList(s: string, i: nat, e: nat, ns: seq<string>, list: string, more: string, rest: string)
    requires Listed(ns, list, more) && Plain(rest) && i <= |s| && s[i..] == list + rest && e == i + |list|
    ensures e <= |s| && CsvEnd(s, i) == e > i && Split(s[i..e]) == ns
  {
    CsvIs(ns, list, more, s, i, rest, CsvEnd(s, i));
    SplitIs(ns, list, more);
    assert s[i..e] == list;
  }

  lemma FieldReads(s: string, k: nat, w: string, ns: seq<string>, list: string, more: string, rest: string, e: nat)
    requires FieldAt(s, k, ns, list, more, rest) && w == FIELDS[k] && e == |w| + 1 + |list|
    ensures e <= |s| && FieldTurn(s) == Some(Turn(OnSpan(FieldTokens(s, ns), e), e))
  {
    FieldColon(s, k, w, ns, list, more, rest);
    FieldList(s, |w| + 1, e, ns, list, more, rest);
    FieldCases(s, |w|, |w| + 1, e, ns);
  }

  lemma {:induction false} StatusesAre(ss: seq<Status>)
    ensures AreNames(StatusNames(ss)) && StatusesIn(StatusNames(ss)) == ss && |StatusNames(ss)| == |ss|
  {
    if ss != [] {
      StatusesAre(ss[1..]);
      StatusNameReads(ss[0]);
      LowerSame(StatusName(ss[0]));
      assert StatusNames(ss)[1..] == StatusNames(ss[1..]);
      assert ss == [ss[0]] + ss[1..];
    }
  }

  lemma StatusTokens(s: string, ss: seq<Status>, ns: seq<string>, e: nat)
    requires Starts(s, 's', 't') && LitAt(s, 0, "status") && ss != [] && StatusesIn(ns) == ss
    ensures OnSpan(FieldTokens(s, ns), e) == [Spanned(StatusToken(ss), 0, e)]
  {
    NotHere(s, "level");
    assert FieldTokens(s, ns) == [StatusToken(ss)];
  }

  lemma StatusHead(s: string, tail: string)
    requires s == "status:" + tail
    ensures Lettered(s) && Starts(s, 's', 't') && LitAt(s, 0, "status") && !LitAt(s, 0, FIELDS[0])
  {
    assert forall k :: 0 <= k < 6 ==> s[0 + k] == "status"[k];
    assert s[0] == 's' && s[1] == 't';
    NotHere(s, FIELDS[0]);
  }

  lemma StatusesTurn(ss: seq<Status>, ns: seq<string>, list: string, more: string, s: string, rest: string, e: nat)
    requires ss != [] && Listed(ns, list, more) && StatusesIn(ns) == ss && Plain(rest) && s == "status:" + (list + rest)
    requires e == 7 + |list|
    ensures e <= |s| && FieldTurn(s) == Some(Turn([Spanned(StatusToken(ss), 0, e)], e))
  {
    StatusHead(s, list + rest);
    assert FIELDS[1] + ":" == "status:";
    FieldReads(s, 1, "status", ns, list, more, rest, e);
    StatusTokens(s, ss, ns, e);
  }

  lemma StatusesRead(ss: seq<Status>)
    requires ss != []
    ensures Reads(Branches, "status:" + Join(StatusNames(ss), ","), StatusToken(ss))
  {
    var ns := StatusNames(ss);
    StatusesAre(ss);
    var list, more := ListOf(ns);
    var p := "status:" + list;
    forall rest, b | Plain(rest)
      ensures Branches(p + rest, b) == Turn([Spanned(StatusToken(ss), 0, |p|)], |p|)
    {
      var s := p + rest;
      assert s == "status:" + (list + rest);
      StatusHead(s, list + rest);
      StatusesTurn(ss, ns, list, more, s, rest, |p|);
      OnlyField(s, b);
    }
  }

  lemma SortTokens(s: string, key: SortKey, e: nat)
    requires Starts(s, 's', 'o')
    ensures OnSpan(FieldTokens(s, [SortName(key)]), e) == [Spanned(SortToken(By(key)), 0, e)]
  {
    NotHere(s, "level");
    NotHere(s, "status");
    NotHere(s, "text");
    NotHere(s, "is");
    NotHere(s, "has");
    LowerSame(SortName(key));
    assert FieldTokens(s, [SortName(key)]) == [SortToken(By(key))];
  }

  lemma SortHead(s: string, tail: string)
    requires s == "sort:" + tail
    ensures Lettered(s) && Starts(s, 's', 'o') && forall j :: 0 <= j < 5 ==> !LitAt(s, 0, FIELDS[j])
  {
    assert s[0] == 's' && s[1] == 'o';
    forall j | 0 <= j < 5 ensures !LitAt(s, 0, FIELDS[j]) {
      NotHere(s, FIELDS[j]);
    }
  }

  lemma SortTurn(key: SortKey, list: string, s: string, rest: string, e: nat)
    requires Plain(rest) && list == SortName(key) && s == "sort:" + (list + rest) && e == 5 + |list|
    ensures e <= |s| && FieldTurn(s) == Some(Turn([Spanned(SortToken(By(key)), 0, e)], e))
  {
    SortHead(s, list + rest);
    assert FIELDS[5] + ":" == "sort:";
    FieldReads(s, 5, "sort", [list], list, "", rest, e);
    SortTokens(s, key, e);
  }

  lemma SortReads(key: SortKey)
    ensures Reads(Branches, "sort:" + SortName(key), SortToken(By(key)))
  {
    var p := "sort:" + SortName(key);
    forall rest, b | Plain(rest)
      ensures Branches(p + rest, b) == Turn([Spanned(SortToken(By(key)), 0, |p|)], |p|)
    {
      var s := p + rest;
      assert s == "sort:" + (SortName(key) + rest);
      SortHead(s, SortName(key) + rest);
      SortTurn(key, SortName(key), s, rest, |p|);
      OnlyField(s, b);
    }
  }

  // ----- "limit:5" -----

  /** `s` is `pre`, the digits `d` and plain text. */
  lemma DigitsEnd(s: string, i: nat, d: string, rest: string, k: nat)
    requires d != "" && AllDigits(d) && i <= |s| && s[i..] == d + rest && k == i + |d|
    requires rest == "" || !IsDigit(rest[0])
    ensures k <= |s| && Run(s, i, Digit) == k && s[i..k] == d && s[k..] == rest
    ensures rest == "" || rest[0] == ' ' ==> Boundary(s, k)
  {
    assert |s| - i == |d| + |rest|;
    forall j | i <= j < k ensures In(Digit, s[j]) {
      assert s[j] == s[i..][j - i] == d[j - i];
    }
    assert rest != "" ==> s[k] == s[i..][|d|] == rest[0];
    RunIs(s, i, k, Digit);
    assert s[i..k] == s[i..][..|d|];
    assert s[k..] == s[i..][|d|..];
  }

  lemma LimitParts(s: string, d: string, rest: string)
    requires d != "" && AllDigits(d) && s == "limit:" + (d + rest)
    ensures Quiet(s) && Starts(s, 'l', 'i') && LitAt(s, 0, "limit") && Run(s, 5, Space) == 5 && CharAt(s, 5, ':')
    ensures Run(s, 6, Space) == 6 && s[6..] == d + rest
  {
    assert forall k :: 0 <= k < 5 ==> s[0 + k] == "limit"[k];
    assert s[0] == 'l' && s[1] == 'i' && s[5] == ':' && s[6] == d[0];
    RunIs(s, 5, 5, Space);
    RunIs(s, 6, 6, Space);
    assert s[6..] == d + rest;
  }

  lemma LimitCases(s: string, d: string, k: nat)
    requires LitAt(s, 0, "limit") && Run(s, 5, Space) == 5 && CharAt(s, 5, ':') && Run(s, 6, Space) == 6
    requires 6 < k <= |s| && Run(s, 6, Digit) == k && s[6..k] == d && AllDigits(d) && Boundary(s, k)
    ensures LimitTurn(s) == Some(Turn([Spanned(LimitToken(Num(d)), 0, k)], k))
  {
  }

  lemma LimitIs(s: string, d: string, rest: string, k: nat)
    requires d != "" && AllDigits(d) && Plain(rest) && s == "limit:" + (d + rest) && k == 6 + |d|
    ensures k <= |s| && LimitTurn(s) == Some(Turn([Spanned(LimitToken(Num(d)), 0, k)], k))
  {
    LimitParts(s, d, rest);
    DigitsEnd(s, 6, d, rest, k);
    LimitCases(s, d, k);
  }

  lemma OnlyLimit(s: string, b: bool)
    requires Quiet(s) && Starts(s, 'l', 'i') && LimitTurn(s).Some?
    ensures Branches(s, b) == LimitTurn(s).value
  {
    NoCommand(s);
  }

  lemma LimitReads(n: nat)
    ensures Reads(Branches, "limit:" + IntText(n), LimitToken(n))
  {
    var p := "limit:" + Decimal(n);
    NumOfDecimal(n);
    forall rest, b | Plain(rest)
      ensures Branches(p + rest, b) == Turn([Spanned(LimitToken(n), 0, |p|)], |p|)
    {
      var s := p + rest;
      assert s == "limit:" + (Decimal(n) + rest);
      LimitParts(s, Decimal(n), rest);
      LimitIs(s, Decimal(n), rest, |p|);
      OnlyLimit(s, b);
    }
  }

  // ----- "5m", "24h", "7d" -----

  /** A one-letter unit that stands at `i` and is the first of its letter in the list. */
  lemma {:induction false} UnitIs(s: string, i: nat, words: seq<string>, k: nat, u: char)
    requires i < |s| && Lower(s[i]) == u && Boundary(s, i + 1)
    requires NoEmptyWord(words) && k < |words| && words[k] == [u] && forall j :: 0 <= j < k ==> words[j][0] != u
    ensures AltWord(s, i, words) == Some(i + 1)
  {
    assert s[i + 0] == s[i];
    if k > 0 {
      UnitIs(s, i, words[1..], k - 1, u);
    }
  }

  function UnitLength(u: char): nat {
    if u == 'm' then MINUTE else if u == 'h' then HOUR else DAY
  }

  predicate IsUnit(u: char) {
    u == 'm' || u == 'h' || u == 'd'
  }

  lemma LongUnitAt(s: string, i: nat, u: char)
    requires IsUnit(u) && i < |s| && s[i] == u && Boundary(s, i + 1)
    ensures NoEmptyWord(UNITS) && AltWord(s, i, UNITS) == Some(i + 1)
  {
    assert UNITS[0] == "m" && UNITS[4] == "h" && UNITS[8] == "d";
    UnitIs(s, i, UNITS, if u == 'm' then 0 else if u == 'h' then 4 else 8, u);
  }

  lemma ShortUnitAt(s: string, i: nat, u: char)
    requires IsUnit(u) && i < |s| && s[i] == u && Boundary(s, i + 1)
    ensures NoEmptyWord(COMPACT_UNITS) && AltWord(s, i, COMPACT_UNITS) == Some(i + 1)
  {
    assert COMPACT_UNITS[0] == "m" && COMPACT_UNITS[3] == "h" && COMPACT_UNITS[7] == "d";
    UnitIs(s, i, COMPACT_UNITS, if u == 'm' then 0 else if u == 'h' then 3 else 7, u);
  }

  lemma LengthAt(s: string, i: nat, u: char)
    requires IsUnit(u) && i < |s| && s[i] == u
    ensures UnitMs(s, i) == UnitLength(u)
  {
    assert Lower(s[i + 0]) == u;
    assert LitAt(s, i, "m") ==> u == "m"[0];
    assert LitAt(s, i, "h") ==> u == "h"[0];
  }

  lemma UnitAt(s: string, i: nat, u: char)
    requires IsUnit(u) && i < |s| && s[i] == u && Boundary(s, i + 1)
    ensures NoEmptyWord(UNITS) && AltWord(s, i, UNITS) == Some(i + 1)
    ensures NoEmptyWord(COMPACT_UNITS) && AltWord(s, i, COMPACT_UNITS) == Some(i + 1)
    ensures UnitMs(s, i) == UnitLength(u)
  {
    LongUnitAt(s, i, u);
    ShortUnitAt(s, i, u);
    LengthAt(s, i, u);
  }

  lemma NotAgo(s: string, p: Phrase)
    requires p.end <= |s| && Plain(s[p.end..]) && GoodPhrase(Some(p), |s|)
    ensures MustAgo(s, Some(p)) == None
  {
    var e := p.end;
    var rest := s[e..];
    if rest == "" {
      RunIs(s, e, e, Space);
    } else {
      assert s[e] == rest[0] && s[e + 1] == rest[1];
      RunIs(s, e, e + 1, Space);
      assert "ago"[0] == 'a' && Lower(s[e + 1 + 0]) != 'a';
      assert AltWord(s, e + 1, ["ago"]) == None;
    }
  }

  /** From `i` on: the digits `d`, white space to `u`, one of the units to `e`. */
  ghost predicate Counted(s: string, i: nat, d: string, u: nat, e: nat, unit: nat, units: seq<string>) {
    && d != "" && AllDigits(d) && i + |d| <= u <= |s| && Run(s, i, Digit) == i + |d| && s[i..i + |d|] == d
    && Run(s, i + |d|, Space) == u && NoEmptyWord(units) && AltWord(s, u, units) == Some(e) && UnitMs(s, u) == unit
  }

  lemma CountIs(s: string, i: nat, d: string, u: nat, e: nat, unit: nat, units: seq<string>)
    requires Counted(s, i, d, u, e, unit, units)
    ensures CountUnit(s, i, units) == Some(Phrase(Num(d) * unit, e))
  {
  }

  /** A number and a one-letter unit at the start, by either list of units. */
  lemma ShortCount(s: string, d: string, u: char, rest: string, k: nat, units: seq<string>)
    requires d != "" && AllDigits(d) && IsUnit(u) && Plain(rest) && s == d + ([u] + rest) && k == |d| + 1
    requires NoEmptyWord(units) && (units == UNITS || units == COMPACT_UNITS)
    ensures k <= |s| && s[k..] == rest && Counted(s, 0, d, |d|, k, UnitLength(u), units)
  {
    UnitParts(s, d, u, rest, k);
    UnitAt(s, |d|, u);
  }

  lemma UnitsNamed()
    ensures NoEmptyWord(UNITS) && NoEmptyWord(COMPACT_UNITS)
  {
  }

  lemma UnitParts(s: string, d: string, u: char, rest: string, k: nat)
    requires d != "" && AllDigits(d) && IsUnit(u) && Plain(rest) && s == d + ([u] + rest) && k == |d| + 1
    ensures k <= |s| && s[k..] == rest && Run(s, 0, Digit) == |d| && s[0..|d|] == d && Run(s, |d|, Space) == |d|
    ensures s[|d|] == u && Boundary(s, k)
  {
    assert s[0..] == s;
    DigitsEnd(s, 0, d, [u] + rest, |d|);
    assert s[|d|] == u && s[k..] == rest && (rest != "" ==> s[k] == ' ');
    RunIs(s, |d|, |d|, Space);
  }

  lemma DigitHead(s: string)
    requires s != "" && IsDigit(s[0])
    ensures Quiet(s) && !Starts(s, 'l', 'i')
  {
  }

  /** Before a digit only "5 m ago" and "5m" are left. */
  lemma DigitPhrase(s: string, long: Option<Phrase>, short: Option<Phrase>)
    requires s != "" && IsDigit(s[0])
    requires long == CountUnit(s, 0, UNITS) && short == CountUnit(s, 0, COMPACT_UNITS) && MustAgo(s, long) == None
    ensures TimePhrase(s) == short
  {
    DigitHead(s);
    NoFixedPhrase(s);
    NoCountPhrase(s);
    NoWordPhrase(s);
  }

  lemma TimeIs(s: string, d: string, u: char, rest: string, k: nat)
    requires d != "" && AllDigits(d) && IsUnit(u) && Plain(rest) && s == d + ([u] + rest) && k == |d| + 1
    ensures k <= |s| && TimePhrase(s) == Some(Phrase(Num(d) * UnitLength(u), k))
  {
    assert s[0] == d[0];
    UnitsNamed();
    ShortCount(s, d, u, rest, k, UNITS);
    ShortCount(s, d, u, rest, k, COMPACT_UNITS);
    TimeOf(s, d, |d|, UnitLength(u), k);
  }

  lemma TimeOf(s: string, d: string, u: nat, unit: nat, k: nat)
    requires Counted(s, 0, d, u, k, unit, UNITS) && Counted(s, 0, d, u, k, unit, COMPACT_UNITS) && k <= |s| && Plain(s[k..])
    requires s != "" && IsDigit(s[0])
    ensures TimePhrase(s) == Some(Phrase(Num(d) * unit, k))
  {
    CountIs(s, 0, d, u, k, unit, UNITS);
    CountIs(s, 0, d, u, k, unit, COMPACT_UNITS);
    var long := CountUnit(s, 0, UNITS);
    NotAgo(s, long.value);
    DigitPhrase(s, long, long);
  }

  lemma OnlyTime(s: string, b: bool)
    requires s != "" && IsDigit(s[0]) && TimeTurn(s).Some?
    ensures Branches(s, b) == TimeTurn(s).value
  {
    DigitHead(s);
    NoCommand(s);
  }

  lemma TimeTurnIs(s: string, d: string, u: char, rest: string, ms: nat, k: nat)
    requires d != "" && AllDigits(d) && IsUnit(u) && Plain(rest) && s == d + ([u] + rest) && k == |d| + 1
    requires ms == Num(d) * UnitLength(u)
    ensures k <= |s| && TimeTurn(s) == Some(Turn([Spanned(TimeToken(ms), 0, k)], k))
  {
    TimeIs(s, d, u, rest, k);
  }

  lemma TimeText(s: string, d: string, u: char, rest: string)
    requires d != "" && s == d + [u] + rest
    ensures s == d + ([u] + rest) && s != "" && s[0] == d[0]
  {
  }

  lemma TimePart(s: string, d: string, u: char, rest: string, ms: nat, k: nat, b: bool)
    requires d != "" && AllDigits(d) && IsUnit(u) && Plain(rest) && s == d + [u] + rest && k == |d| + 1
    requires ms == Num(d) * UnitLength(u)
    ensures Branches(s, b) == Turn([Spanned(TimeToken(ms), 0, k)], k)
  {
    TimeText(s, d, u, rest);
    TimeTurnIs(s, d, u, rest, ms, k);
    OnlyTime(s, b);
  }

  lemma TimeReads(d: string, u: char, ms: nat)
    requires d != "" && AllDigits(d) && IsUnit(u) && ms == Num(d) * UnitLength(u)
    ensures Reads(Branches, d + [u], TimeToken(ms))
  {
    var p := d + [u];
    forall rest, b | Plain(rest)
      ensures Branches(p + rest, b) == Turn([Spanned(TimeToken(ms), 0, |p|)], |p|)
    {
      TimePart(p + rest, d, u, rest, ms, |p|, b);
    }
    assert p[0] == d[0];
  }
}
