/** The fields with a colon, from the text to the query. */
module QueryFields {
  import opened Filters
  import opened QueryForms
  import opened QueryParser
  import opened QueryReading
  import opened QuerySorts
  import opened QuerySynonyms
  import opened Scanning
  import opened Wrappers

  /** `s` is the k-th field, a colon and the one value `n`. */
  ghost predicate OneValue(s: string, k: nat, n: string) {
    k < |FIELDS| && IsName(n) && s == FIELDS[k] + ":" + n
  }

  lemma FieldStarts(s: string, k: nat, n: string)
    requires OneValue(s, k, n)
    ensures Lettered(s) && s[0] == FIELDS[k][0] && s[1] == FIELDS[k][1]
  {
    assert s[0] == FIELDS[k][0] && s[1] == FIELDS[k][1];
  }

  lemma FieldsDiffer(k: nat, j: nat)
    requires j < k < |FIELDS|
    ensures FIELDS[j][0] != FIELDS[k][0] || FIELDS[j][1] != FIELDS[k][1]
  {
  }

  lemma FieldsBefore(s: string, k: nat, n: string, j: nat)
    requires OneValue(s, k, n) && j < k
    ensures !LitAt(s, 0, FIELDS[j])
  {
    FieldStarts(s, k, n);
    FieldsDiffer(k, j);
    NotHere(s, FIELDS[j]);
  }

  lemma OneValueTurn(s: string, k: nat, n: string, w: string)
    requires OneValue(s, k, n) && w == FIELDS[k]
    ensures FieldTurn(s) == Some(Turn(OnSpan(FieldTokens(s, [n]), |s|), |s|))
  {
    forall j | 0 <= j < k ensures !LitAt(s, 0, FIELDS[j]) {
      FieldsBefore(s, k, n, j);
    }
    assert s == w + ":" + (n + "");
    FieldReads(s, k, w, [n], n, "", "", |s|);
  }

  lemma FieldIsRead(s: string, k: nat, n: string, t: Token)
    requires OneValue(s, k, n) && FieldTokens(s, [n]) == [t]
    ensures IsRead(Branches, s, t)
  {
    FieldStarts(s, k, n);
    OneValueTurn(s, k, n, FIELDS[k]);
    OnlyField(s, false);
    assert OnSpan([t], |s|) == [Spanned(t, 0, |s|)];
  }

  lemma FieldQuery(s: string, k: nat, n: string, t: Token)
    requires OneValue(s, k, n) && FieldTokens(s, [n]) == [t]
    ensures ParseQuery(s) == Put(NO_QUERY, t, false)
  {
    FieldIsRead(s, k, n, t);
    ReadSets(s, t);
  }

  lemma ReadSets(s: string, t: Token)
    requires IsRead(Branches, s, t)
    ensures ParseQuery(s) == Put(NO_QUERY, t, false)
  {
    ReadAlone(s, t);
    BuildsOne(t);
  }

  // ----- "level:" -----

  lemma LevelFieldTokens(s: string, n: string, l: Level)
    requires OneValue(s, 0, n) && n == LevelName(l)
    ensures FieldTokens(s, [n]) == [LevelToken([l])]
  {
    LevelNameReads(l);
    LowerSame(n);
    assert forall k :: 0 <= k < 5 ==> s[k] == "level"[k];
    assert LevelsIn([n]) == [l];
  }

  lemma SetsLevel(l: Level)
    ensures Put(NO_QUERY, LevelToken([l]), false) == NO_QUERY.(levels := {l})
  {
    assert SetOf([l]) == {l} == {} + {l};
  }

  lemma SetsStatus(t: Status)
    ensures Put(NO_QUERY, StatusToken([t]), false) == NO_QUERY.(statuses := {t})
  {
    assert SetOf([t]) == {t} == {} + {t};
  }

  /** "level:error" asks for that level. */
  lemma LevelField(s: string, l: Level)
    requires s == "level:" + LevelName(l)
    ensures ParseQuery(s) == NO_QUERY.(levels := {l})
  {
    var n := LevelName(l);
    LevelNameReads(l);
    LevelFieldTokens(s, n, l);
    FieldQuery(s, 0, n, LevelToken([l]));
    SetsLevel(l);
  }

  // ----- "text:" -----

  lemma {:induction false} NameUnstarred(n: string)
    requires forall k :: 0 <= k < |n| ==> n[k] != '*'
    ensures Unstarred(n) == n
  {
    if n != "" {
      NameUnstarred(n[1..]);
      assert n == [n[0]] + n[1..];
    }
  }

  lemma TextFieldTokens(s: string, n: string)
    requires OneValue(s, 2, n)
    ensures FieldTokens(s, [n]) == [TextToken(n, false)]
  {
    FieldStarts(s, 2, n);
    NotHere(s, "level");
    NotHere(s, "status");
    NameUnstarred(n);
    assert forall k :: 0 <= k < 4 ==> s[k] == "text"[k];
    assert TextsIn([n]) == [TextToken(Unstarred(n), '*' in n)] + TextsIn([]);
  }

  /** "text:word" searches for the word. */
  lemma TextField(s: string, n: string)
    requires IsName(n) && s == "text:" + n
    ensures ParseQuery(s) == NO_QUERY.(text := [Matcher(n, false)])
  {
    var t := TextToken(n, false);
    TextFieldTokens(s, n);
    FieldQuery(s, 2, n, t);
    SetsText(n, false);
  }

  lemma SetsText(x: string, pattern: bool)
    ensures Put(NO_QUERY, TextToken(x, pattern), false) == NO_QUERY.(text := [Matcher(x, pattern)])
    ensures Put(NO_QUERY, UrlToken(x, pattern), false) == NO_QUERY.(urls := [Matcher(x, pattern)])
  {
    assert [] + [Matcher(x, pattern)] == [Matcher(x, pattern)];
  }

  // ----- "is:" and "has:" -----

  lemma FlagFieldTokens(s: string, k: nat, n: string, t: Token)
    requires OneValue(s, k, n) && (k == 3 || k == 4) && Flag(n) == [t]
    ensures FieldTokens(s, [n]) == [t]
  {
    FieldStarts(s, k, n);
    NotHere(s, "level");
    NotHere(s, "status");
    NotHere(s, "text");
    assert k == 3 ==> LitAt(s, 0, "is") by { if k == 3 { assert s[0] == 'i' && s[1] == 's'; } }
    assert k == 4 ==> LitAt(s, 0, "has") by { if k == 4 { assert s[0] == 'h' && s[1] == 'a' && s[2] == 's'; } }
    assert FlagsIn([n]) == Flag(n) + FlagsIn([]) == [t];
  }

  lemma IsOrHas(s: string, n: string, t: Token)
    requires IsName(n) && Flag(n) == [t] && (s == "is:" + n || s == "has:" + n)
    ensures ParseQuery(s) == Put(NO_QUERY, t, false)
  {
    var k := if s == "is:" + n then 3 else 4;
    FlagFieldTokens(s, k, n, t);
    FieldQuery(s, k, n, t);
  }

  /** What a value of "is:" or "has:" asks for. */
  function FlagEntry(n: string): Option<Query> {
    if n == "spiking" then Some(NO_QUERY.(spiking := true))
    else if n == "new" then Some(NO_QUERY.(newOnly := true))
    else if n == "stale" then Some(NO_QUERY.(staleOnly := true))
    else if n == "crashing" then Some(NO_QUERY)
    else None
  }

  lemma FlagOf(n: string, t: Token)
    requires FlagEntry(n).Some?
    requires t == KeywordToken(if n == "spiking" then Spiking else if n == "new" then New else if n == "stale" then StaleWord else Crashing)
    ensures IsName(n) && Flag(n) == [t] && Put(NO_QUERY, t, false) == FlagEntry(n).value
  {
    LowerSame(n);
  }

  /** "is:spiking", "has:new" and so on set their flag; "is:crashing" sets nothing. */
  lemma FlagField(s: string, n: string)
    requires FlagEntry(n).Some? && (s == "is:" + n || s == "has:" + n)
    ensures ParseQuery(s) == FlagEntry(n).value
  {
    var t := KeywordToken(if n == "spiking" then Spiking else if n == "new" then New else if n == "stale" then StaleWord else Crashing);
    FlagOf(n, t);
    IsOrHas(s, n, t);
  }

  lemma FlagLevel(n: string, l: Level)
    requires n == LevelName(l)
    ensures IsName(n) && Flag(n) == [LevelToken([l])]
  {
    LevelNameReads(l);
    LowerSame(n);
  }

  lemma FlagStatus(n: string, t: Status)
    requires n == StatusName(t)
    ensures IsName(n) && Flag(n) == [StatusToken([t])]
  {
    StatusNameReads(t);
    LowerSame(n);
  }

  /** "is:error" asks for that level. */
  lemma IsLevel(s: string, n: string, l: Level)
    requires n == LevelName(l) && (s == "is:" + n || s == "has:" + n)
    ensures ParseQuery(s) == NO_QUERY.(levels := {l})
  {
    FlagLevel(n, l);
    IsOrHas(s, n, LevelToken([l]));
    SetsLevel(l);
  }

  /** "is:muted" asks for that status. */
  lemma IsStatus(s: string, n: string, t: Status)
    requires n == StatusName(t) && (s == "is:" + n || s == "has:" + n)
    ensures ParseQuery(s) == NO_QUERY.(statuses := {t})
  {
    FlagStatus(n, t);
    IsOrHas(s, n, StatusToken([t]));
    SetsStatus(t);
  }

  // ----- "tag:" -----

  lemma TagOpens(s: string, n: string, tail: string)
    requires IsName(n) && s == "tag:" + (n + tail) && (tail == "" || tail[0] == ':')
    ensures |s| >= 5 && s[0] == 't' && s[1] == 'a' && LitAt(s, 0, "tag") && Around(s, 3, ':') == Some(4)
    ensures Run(s, 4, Name) == 4 + |n| && s[4..4 + |n|] == n && s[4 + |n|..] == tail
  {
    var j := 4 + |n|;
    assert s[0] == 't' && s[1] == 'a' && s[2] == 'g' && s[3] == ':' && s[4] == n[0];
    assert s[j..] == tail && (tail != "" ==> s[j] == tail[0]);
    forall k | 4 <= k < j ensures In(Name, s[k]) {
      assert s[k] == n[k - 4];
    }
    RunIs(s, 3, 3, Space);
    RunIs(s, 4, 4, Space);
    RunIs(s, 4, j, Name);
  }

  /** Begins like "tag" or "url". */
  ghost predicate TagOrUrl(s: string) {
    |s| >= 2 && ((s[0] == 't' && s[1] == 'a') || (s[0] == 'u' && s[1] == 'r'))
  }

  lemma NoFixedTag(s: string)
    requires TagOrUrl(s)
    ensures FixedPhrases(s) == None
  {
    NotAny(s, ["last"]);
    NotAny(s, ["overnight"]);
    NotAny(s, ["this"]);
    NotAny(s, ["this", "past", "last"]);
    NotAny(s, ["since"]);
    NotAny(s, ["past"]);
  }

  lemma NoCountTag(s: string)
    requires TagOrUrl(s)
    ensures CountPhrases(s) == None && NoEmptyWord(COMPACT_UNITS) && CountUnit(s, 0, COMPACT_UNITS) == None
  {
    NotAny(s, ["in", "over", "for"]);
    NotAny(s, ["the"]);
    NotAny(s, LAST_PAST);
    NotAny(s, ["since"]);
  }

  lemma NoWordTag(s: string)
    requires TagOrUrl(s)
    ensures WordPhrases(s) == None
  {
    NotAny(s, ["the"]);
    NotAny(s, ["last", "past", "this"]);
    NotAny(s, ["today"]);
    NotAny(s, ["yesterday"]);
    NotAny(s, ["now"]);
    NoArticle(s);
  }

  lemma NoPhraseTag(s: string)
    requires TagOrUrl(s)
    ensures TimeTurn(s) == None
  {
    NoFixedTag(s);
    NoCountTag(s);
    NoWordTag(s);
  }

  lemma OnlyPrefix(s: string, t: Turn)
    requires TagOrUrl(s) && PrefixTurn(s) == Some(t)
    ensures Branches(s, false) == t
  {
    NoCommandTag(s);
    NoPhraseTag(s);
    LastCases(s, t);
  }

  lemma NoCommandTag(s: string)
    requires TagOrUrl(s)
    ensures s != "" && !IsSpace(s[0]) && CommandTurn(s) == None && SymbolTurn(s) == None
  {
    NoCommandHere(s);
    NoSymbol(s);
  }

  lemma LastCases(s: string, t: Turn)
    requires s != "" && !IsSpace(s[0]) && CommandTurn(s) == None && TimeTurn(s) == None && SymbolTurn(s) == None
    requires PrefixTurn(s) == Some(t)
    ensures Branches(s, false) == t
  {
  }

  /** "tag:word" asks for the tag of that name, whatever its key. */
  lemma TagAlone(s: string, n: string)
    requires IsName(n) && s == "tag:" + n
    ensures ParseQuery(s) == NO_QUERY.(tags := [TagFilter(None, [n])])
  {
    var t := TagToken(None, [n]);
    TagAloneTurn(s, n);
    OnlyPrefix(s, Turn([Spanned(t, 0, |s|)], |s|));
    ReadSets(s, t);
    SetsTag(None, n);
  }

  lemma TagAloneTurn(s: string, n: string)
    requires IsName(n) && s == "tag:" + n
    ensures TagTurn(s) == Some(Turn([Spanned(TagToken(None, [n]), 0, |s|)], |s|)) && TagOrUrl(s)
  {
    assert s == "tag:" + (n + "");
    TagOpens(s, n, "");
    LowerSame(n);
    RunIs(s, |s|, |s|, Space);
  }

  lemma SetsTag(key: Option<string>, v: string)
    requires IsName(v)
    ensures Put(NO_QUERY, TagToken(key, [v]), false) == NO_QUERY.(tags := [TagFilter(key, [v])])
  {
    LowerSame(v);
    assert [v][1..] == [] && LowerEach([]) == [];
    assert LowerEach([v]) == [v];
    assert [] + [TagFilter(key, [v])] == [TagFilter(key, [v])];
  }

  lemma TagPairTurn(s: string, n: string, v: string)
    requires IsName(n) && IsName(v) && s == "tag:" + (n + (":" + v))
    ensures TagTurn(s) == Some(Turn([Spanned(TagToken(Some(n), [v]), 0, |s|)], |s|)) && TagOrUrl(s)
  {
    var j := 4 + |n|;
    TagOpens(s, n, ":" + v);
    LowerSame(n);
    assert s[j] == s[j..][0] == ':' && s[j + 1..] == s[j..][1..] == v;
    assert s[j + 1] == v[0];
    RunIs(s, j, j, Space);
    RunIs(s, j + 1, j + 1, Space);
    ValueEnds(s, j + 1, v);
  }

  lemma ValueEnds(s: string, i: nat, v: string)
    requires IsName(v) && i <= |s| && s[i..] == v
    ensures CsvEnd(s, i) == |s| > i && Split(s[i..|s|]) == [v]
  {
    assert s[i..] == v + "" && s[i..|s|] == v;
    FieldList(s, i, |s|, [v], v, "", "");
  }

  /** "tag:key:value" asks for that value under that key. */
  lemma TagPair(s: string, n: string, v: string)
    requires IsName(n) && IsName(v) && s == "tag:" + (n + (":" + v))
    ensures ParseQuery(s) == NO_QUERY.(tags := [TagFilter(Some(n), [v])])
  {
    var t := TagToken(Some(n), [v]);
    TagPairTurn(s, n, v);
    OnlyPrefix(s, Turn([Spanned(t, 0, |s|)], |s|));
    ReadSets(s, t);
    SetsTag(Some(n), v);
  }

  // ----- "url:" -----

  /** No white space and no quote. */
  ghost predicate IsPath(x: string) {
    x != "" && forall k :: 0 <= k < |x| ==> !IsSpace(x[k]) && x[k] != '"'
  }

  lemma UrlTurnIs(s: string, x: string)
    requires IsPath(x) && s == "url:" + x
    ensures UrlTurn(s) == Some(Turn([Spanned(UrlToken(Unstarred(x), '*' in x), 0, |s|)], |s|)) && TagOrUrl(s)
  {
    assert s[0] == 'u' && s[1] == 'r' && s[2] == 'l' && s[3] == ':' && s[4] == x[0];
    assert s[4..] == x && s[4..|s|] == x;
    forall k | 4 <= k < |s| ensures !IsSpace(s[k]) && s[k] != '"' {
      assert s[k] == x[k - 4];
    }
    RunIs(s, 3, 3, Space);
    RunIs(s, 4, 4, Space);
    RunIs(s, 4, |s|, NonSpace);
  }

  /** "url:path" asks for that text in the url; asterisks make it a pattern without them. */
  lemma UrlField(s: string, x: string)
    requires IsPath(x) && s == "url:" + x
    ensures ParseQuery(s) == NO_QUERY.(urls := [Matcher(Unstarred(x), '*' in x)])
  {
    var t := UrlToken(Unstarred(x), '*' in x);
    UrlTurnIs(s, x);
    NotHere(s, "tag");
    OnlyPrefix(s, Turn([Spanned(t, 0, |s|)], |s|));
    ReadSets(s, t);
    SetsText(Unstarred(x), '*' in x);
  }

  lemma QuotedUrlTurn(s: string, x: string)
    requires '"' !in x && s == "url:\"" + x + "\""
    ensures UrlTurn(s) == Some(Turn([Spanned(UrlToken(Unstarred(x), '*' in x), 0, |s|)], |s|)) && TagOrUrl(s)
  {
    var close := |s| - 1;
    assert s[0] == 'u' && s[1] == 'r' && s[2] == 'l' && s[3] == ':' && s[4] == '"' && s[close] == '"';
    assert s[5..close] == x;
    forall k | 5 <= k < close ensures s[k] != '"' {
      assert s[k] == x[k - 5];
    }
    RunIs(s, 3, 3, Space);
    RunIs(s, 4, 4, Space);
    QuoteIs(s, 5, close);
  }

  /** In quotes the text may hold spaces. */
  lemma QuotedUrl(s: string, x: string)
    requires '"' !in x && s == "url:\"" + x + "\""
    ensures ParseQuery(s) == NO_QUERY.(urls := [Matcher(Unstarred(x), '*' in x)])
  {
    var t := UrlToken(Unstarred(x), '*' in x);
    QuotedUrlTurn(s, x);
    NotHere(s, "tag");
    OnlyPrefix(s, Turn([Spanned(t, 0, |s|)], |s|));
    ReadSets(s, t);
    SetsText(Unstarred(x), '*' in x);
  }

  // ----- "sort:" -----

  const COUNT_WORDS: seq<string> := ["count", "frequent", "noisy", "top", "loudest"]

  const RECENT_WORDS: seq<string> := ["recent", "newest", "latest"]

  const STALE_WORDS: seq<string> := ["stale", "oldest"]

  lemma CountSort(w: string)
    requires w in COUNT_WORDS
    ensures IsName(w) && SortOf(w) == Some(By(Count))
  {
  }

  lemma RecentSort(w: string)
    requires w in RECENT_WORDS
    ensures IsName(w) && SortOf(w) == Some(By(Recent))
  {
  }

  lemma StaleSort(w: string)
    requires w in STALE_WORDS
    ensures IsName(w) && SortOf(w) == Some(By(Stale))
  {
  }

  lemma NoSort(w: string)
    requires w !in COUNT_WORDS && w !in RECENT_WORDS && w !in STALE_WORDS && w != "constructor" && w != "__proto__"
    ensures SortOf(w) == None
  {
  }

  /** The words each sort key goes by. */
  function SortWord(w: string): Option<SortValue> {
    if w in COUNT_WORDS then Some(By(Count))
    else if w in RECENT_WORDS then Some(By(Recent))
    else if w in STALE_WORDS then Some(By(Stale))
    else None
  }

  lemma SortTable(w: string)
    requires IsName(w) && w != "constructor"
    ensures SortOf(w) == SortWord(w)
  {
    if w in COUNT_WORDS {
      CountSort(w);
    } else if w in RECENT_WORDS {
      RecentSort(w);
    } else if w in STALE_WORDS {
      StaleSort(w);
    } else {
      assert "__proto__"[0] == '_';
      NoSort(w);
    }
  }

  lemma NameIsValue(w: string)
    requires IsName(w)
    ensures w != "" && IsValue(w) && LowerAll(w) == w
  {
    LowerSame(w);
  }

  /** "sort:word" sets the key the word is for; any other word of letters but the inherited one gives no sort. */
  lemma SortField(s: string, w: string)
    requires IsName(w) && w != "constructor" && s == "sort:" + w
    ensures ParseQuery(s) == NO_QUERY.(sort := SortWord(w))
  {
    NameIsValue(w);
    SortFieldMeans(w, s);
    SortTable(w);
  }
}
