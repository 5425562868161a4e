/**
 The `sort:` field. Its table is a plain object, so besides the words for the three
 keys it answers to two names every object inherits: exactly which inputs are
 taken for a sort that is none of the keys.
 */
module QuerySorts {
  import opened Filters
  import opened QueryBridge
  import opened QueryParser
  import opened QueryReading
  import opened QueryRoundTrip
  import opened QuerySynonyms
  import opened Scanning
  import opened Wrappers

  /** A value of a field: word characters, dashes and asterisks. */
  predicate IsValue(w: string) {
    forall k :: 0 <= k < |w| ==> In(Pattern, w[k])
  }

  /** The tokens a `sort:` field with the value `w` is read as. */
  function SortTokensOf(w: string): seq<Token> {
    if SortOf(LowerAll(w)).Some? then [SortToken(SortOf(LowerAll(w)).value)] else []
  }

  lemma WholeValue(w: string)
    requires w != "" && IsValue(w)
    ensures Split(w) == [w]
  {
    assert CommaAt(w) == |w|;
    assert w[..|w|] == w;
  }

  lemma ValueAt(s: string, w: string)
    requires w != "" && IsValue(w) && s == "sort:" + w
    ensures 5 < |s| && s[4] == ':' && s[5] == w[0] && s[5..|s|] == w && CsvEnd(s, 5) == |s|
  {
    forall k | 5 <= k < |s| ensures In(Pattern, s[k]) {
      assert s[k] == w[k - 5];
    }
    RunIs(s, 5, |s|, Pattern);
    CsvLast(s, 5, |s|, CsvEnd(s, 5));
  }

  lemma SortColon(s: string, w: string)
    requires w != "" && IsValue(w) && s == "sort:" + w
    ensures Alt(s, 0, FIELDS) == Some(4) && Around(s, 4, ':') == Some(5)
  {
    SortHead(s, w);
    assert forall j :: 0 <= j < 4 ==> s[0 + j] == "sort"[j];
    AltIs(s, FIELDS, 5);
    assert FIELDS[5] == "sort" && s[4] == ':' && s[5] == w[0];
    RunIs(s, 4, 4, Space);
    RunIs(s, 5, 5, Space);
  }

  lemma SortValues(s: string, w: string)
    requires Starts(s, 's', 'o')
    ensures FieldTokens(s, [w]) == SortTokensOf(w)
  {
    NotHere(s, "level");
    NotHere(s, "status");
    NotHere(s, "text");
    NotHere(s, "is");
    NotHere(s, "has");
  }

  lemma SortFieldTurn(s: string, w: string, t: Turn)
    requires w != "" && IsValue(w) && s == "sort:" + w && t == Turn(OnSpan(SortTokensOf(w), |s|), |s|)
    ensures Branches(s, false) == t
  {
    SortHead(s, w);
    SortColon(s, w);
    ValueAt(s, w);
    WholeValue(w);
    SortValues(s, w);
    FieldCases(s, 4, 5, |s|, [w]);
    OnlyField(s, false);
  }

  lemma SortBuilds(axis: Option<SortValue>, ts: seq<Token>)
    requires ts == if axis.Some? then [SortToken(axis.value)] else []
    ensures Build(ts) == NO_QUERY.(sort := axis)
  {
    BuildIsPutAll(ts);
    if axis.Some? {
      PutOnly(NO_QUERY, true, SortToken(axis.value));
    }
  }

  lemma BareOnSpan(ts: seq<Token>, to: nat)
    requires |ts| <= 1
    ensures Bare(OnSpan(ts, to)) == ts
  {
  }

  /** A `sort:` field sets what the table holds under its value in lower case, and nothing else. */
  lemma SortFieldMeans(w: string, s: string)
    requires w != "" && IsValue(w) && s == "sort:" + w
    ensures ParseQuery(s) == NO_QUERY.(sort := SortOf(LowerAll(w)))
  {
    var ts := SortTokensOf(w);
    var t := Turn(OnSpan(ts, |s|), |s|);
    SortFieldTurn(s, w, t);
    OneTurn(s, t);
    BareOnSpan(ts, |s|);
    SortBuilds(SortOf(LowerAll(w)), ts);
  }

  predicate SortsByNoKey(q: Query) {
    q.sort.Some? && q.sort.value.Inherited?
  }

  lemma TableMeans(w: string, q: Query)
    requires q.sort == SortOf(w)
    ensures SortsByNoKey(q) <==> OnPrototype(w)
  {
  }

  lemma EmptyField(s: string, w: string)
    requires s == "sort:" + w && w == ""
    ensures !Occurs(s, "constructor") && !Occurs(s, "__proto__") && !OnPrototype(LowerAll(w))
  {
  }

  /** For every word of value characters, the empty one too: it sorts by no key exactly when it names an inherited property. */
  lemma SortIsInheritedIff(w: string, s: string, q: Query)
    requires IsValue(w) && s == "sort:" + w && q == ParseQuery(s)
    ensures SortsByNoKey(q) <==> OnPrototype(LowerAll(w))
  {
    if w == "" {
      EmptyField(s, w);
      SortIsAKey(s, q);
    } else {
      SortFieldMeans(w, s);
      TableMeans(LowerAll(w), q);
    }
  }

  lemma ConstructorField(w: string)
    requires w == "constructor"
    ensures "sort:constructor" == "sort:" + w && w != "" && IsValue(w) && LowerAll(w) == w && OnPrototype(w)
  {
  }

  lemma ConstructorMeans(w: string)
    requires w == "constructor"
    ensures SortOf(w) == Some(Inherited("constructor"))
  {
  }

  lemma ConstructorQuery(s: string)
    requires s == "sort:constructor"
    ensures ParseQuery(s) == NO_QUERY.(sort := Some(Inherited("constructor")))
  {
    var w := "constructor";
    ConstructorField(w);
    ConstructorMeans(w);
    SortFieldMeans(w, s);
  }

  /** The input for which a parse yields none of the three keys. */
  lemma ConstructorIsASort(s: string)
    requires s == "sort:constructor"
    ensures ParseQuery(s).sort == Some(Inherited("constructor"))
  {
    ConstructorQuery(s);
  }

  /** The filter that input sets is not the one its printed form sets. */
  lemma ConstructorIsLost(s: string, f: Filter)
    requires s == "sort:constructor" && f == Applied(ParseQuery(s))
    ensures f.query == "" && f.statuses != {} && Applied(ParseQuery(QueryString(f))) != f
  {
    ConstructorQuery(s);
    PlainText(ParseQuery(s), f);
    ParsePrintParse(s, f);
  }

  lemma PlainText(q: Query, f: Filter)
    requires q == NO_QUERY.(sort := Some(Inherited("constructor"))) && f == Applied(q)
    ensures f.query == "" && Trimmed(f.query) == "" && f.statuses != {} && f.sort.Inherited?
  {
    assert DEFAULT_STATUSES != {};
  }

  /** Whatever the input, a sort that is none of the three keys is spelled out in it. */
  lemma SortIsAKey(s: string, q: Query)
    requires !Occurs(s, "constructor") && !Occurs(s, "__proto__") && q == ParseQuery(s)
    ensures !SortsByNoKey(q)
  {
    ParseHonest(s);
  }
}
