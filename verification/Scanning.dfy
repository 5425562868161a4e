/**
 The pieces the query tokenizer's regular expressions are made of, anchored at a
 position: character runs, case-insensitive literals, word boundaries. Strings
 are sequences of Unicode scalar values.
 */
module Scanning {
  import opened Decimals
  import opened Wrappers

  // ----- characters -----

  /** `\w` */
  predicate IsWord(c: char) {
    'a' <= c <= 'z' || 'A' <= c <= 'Z' || IsDigit(c) || c == '_'
  }

  /** `\s`: the white space and line terminators of ECMAScript. */
  predicate IsSpace(c: char) {
    var u := c as int;
    9 <= u <= 13 || u == 0x20 || u == 0xa0 || u == 0x1680 || 0x2000 <= u <= 0x200a
    || u == 0x2028 || u == 0x2029 || u == 0x202f || u == 0x205f || u == 0x3000 || u == 0xfeff
  }

  /** Lower case of an ASCII letter; no other character folds to one under the `i` flag. */
  function Lower(c: char): char {
    if 'A' <= c <= 'Z' then (c as int + 32) as char else c
  }

  function LowerAll(s: string): (r: string)
    ensures |r| == |s|
    ensures forall k :: 0 <= k < |s| ==> r[k] == Lower(s[k])
  {
    seq(|s|, k requires 0 <= k < |s| => Lower(s[k]))
  }

  /** The character classes that occur under `+` or `*`. */
  datatype Class = Space | NonSpace | Digit | Name | Pattern

  predicate In(cls: Class, c: char) {
    match cls
    case Space => IsSpace(c)
    case NonSpace => !IsSpace(c)
    case Digit => IsDigit(c)
    case Name => IsWord(c) || c == '-'
    case Pattern => IsWord(c) || c == '-' || c == '*'
  }

  // ----- anchored pieces -----

  /** End of the longest run of `cls` from `i`. */
  function Run(s: string, i: nat, cls: Class): (j: nat)
    requires i <= |s|
    ensures i <= j <= |s|
    ensures forall k :: i <= k < j ==> In(cls, s[k])
    ensures j < |s| ==> !In(cls, s[j])
    decreases |s| - i
  {
    if i < |s| && In(cls, s[i]) then Run(s, i + 1, cls) else i
  }

  /** The lower-case literal `w` at `i`, in any case. */
  predicate LitAt(s: string, i: nat, w: string) {
    i + |w| <= |s| && forall k :: 0 <= k < |w| ==> Lower(s[i + k]) == w[k]
  }

  predicate CharAt(s: string, i: nat, c: char) {
    i < |s| && s[i] == c
  }

  /** `\b` at position `j`. */
  predicate Boundary(s: string, j: nat)
    requires j <= |s|
  {
    (j > 0 && IsWord(s[j - 1])) != (j < |s| && IsWord(s[j]))
  }

  predicate NoEmptyWord(words: seq<string>) {
    forall k :: 0 <= k < |words| ==> words[k] != ""
  }

  /** The first of the words that stands at `i`: its end. No word here is a prefix of another. */
  function Alt(s: string, i: nat, words: seq<string>): (r: Option<nat>)
    requires i <= |s| && NoEmptyWord(words)
    ensures r.Some? ==> i < r.value <= |s|
  {
    if words == [] then None
    else if LitAt(s, i, words[0]) then Some(i + |words[0]|)
    else Alt(s, i, words[1..])
  }

  /** The word among `words` that stands at `i` and ends at a word boundary: its end. */
  function AltWord(s: string, i: nat, words: seq<string>): (r: Option<nat>)
    requires i <= |s| && NoEmptyWord(words)
    ensures r.Some? ==> i < r.value <= |s|
  {
    if words == [] then None
    else if LitAt(s, i, words[0]) && Boundary(s, i + |words[0]|) then Some(i + |words[0]|)
    else AltWord(s, i, words[1..])
  }

  /** `\s+` from `i`. */
  function Gap(s: string, i: nat): (r: Option<nat>)
    requires i <= |s|
    ensures r.Some? ==> i < r.value <= |s|
  {
    var j := Run(s, i, Space);
    if j > i then Some(j) else None
  }

  /** `\s*c\s*` from `i`. */
  function Around(s: string, i: nat, c: char): (r: Option<nat>)
    requires i <= |s|
    ensures r.Some? ==> i < r.value <= |s|
  {
    var j := Run(s, i, Space);
    if CharAt(s, j, c) then Some(Run(s, j + 1, Space)) else None
  }

  // ----- lists of values -----

  /** End of `[\w*-]+(?:,[\w*-]+)*` from `i`; `i` itself when it does not match. */
  function CsvEnd(s: string, i: nat): (j: nat)
    requires i <= |s|
    ensures i <= j <= |s|
    decreases |s| - i
  {
    var j := Run(s, i, Pattern);
    if j > i && CharAt(s, j, ',') && CsvEnd(s, j + 1) > j + 1 then CsvEnd(s, j + 1) else j
  }

  /** `split(',')` followed by dropping empty pieces. */
  function Split(s: string): seq<string> {
    var j := CommaAt(s);
    (if j > 0 then [s[..j]] else []) + if j < |s| then Split(s[j + 1..]) else []
  }

  /** Position of the first comma, or the length. */
  function CommaAt(s: string): (j: nat)
    ensures j <= |s|
    ensures forall k :: 0 <= k < j ==> s[k] != ','
    ensures j < |s| ==> s[j] == ','
  {
    if s == "" || s[0] == ',' then 0 else 1 + CommaAt(s[1..])
  }

  /** Without its asterisks. */
  function Unstarred(s: string): string {
    if s == "" then "" else (if s[0] == '*' then "" else [s[0]]) + Unstarred(s[1..])
  }
}
