/**
 `fingerprint.rs`: FNV-1a over a tagged encoding of the fields that group an
 event. Words are natural numbers below 2^64; strings are their UTF-8 bytes.
 */
module Fingerprint {
  import opened Octets
  import opened Wrappers

  const WORDS: int := 0x1_0000_0000_0000_0000

  type Word = w: int | 0 <= w < WORDS

  const OFFSET_BASIS: Word := 0xcbf2_9ce4_8422_2325

  const PRIME: Word := 0x0000_0100_0000_01b3

  /** PRIME * INVERSE == 1 modulo 2^64. */
  const INVERSE: Word := 0xce96_5057_aff6_957b

  // ----- exclusive or, bit by bit -----

  function Pow2(k: nat): nat {
    if k == 0 then 1 else 2 * Pow2(k - 1)
  }

  function XorBits(a: nat, b: nat, k: nat): (r: nat)
    requires a < Pow2(k) && b < Pow2(k)
    ensures r < Pow2(k)
  {
    if k == 0 then 0 else (if a % 2 == b % 2 then 0 else 1) + 2 * XorBits(a / 2, b / 2, k - 1)
  }

  lemma {:induction false} XorBitsCancels(a: nat, b: nat, k: nat)
    requires a < Pow2(k) && b < Pow2(k)
    ensures XorBits(XorBits(a, b, k), b, k) == a
  {
    if k > 0 {
      XorBitsCancels(a / 2, b / 2, k - 1);
      var x, low := XorBits(a, b, k), if a % 2 == b % 2 then 0 else 1;
      assert x == low + 2 * XorBits(a / 2, b / 2, k - 1);
      assert x / 2 == XorBits(a / 2, b / 2, k - 1) && x % 2 == low;
    }
  }

  lemma EightBits()
    ensures Pow2(8) == 256
  {
    assert Pow2(2) == 4 && Pow2(4) == 16 && Pow2(6) == 64;
  }

  function Xor(a: Byte, b: Byte): Byte {
    EightBits();
    XorBits(a, b, 8)
  }

  lemma XorCancels(a: Byte, b: Byte)
    ensures Xor(Xor(a, b), b) == a
  {
    EightBits();
    XorBitsCancels(a, b, 8);
  }

  lemma {:induction false} XorBitsCommutes(a: nat, b: nat, k: nat)
    requires a < Pow2(k) && b < Pow2(k)
    ensures XorBits(a, b, k) == XorBits(b, a, k)
  {
    if k > 0 {
      XorBitsCommutes(a / 2, b / 2, k - 1);
    }
  }

  /** Different bytes change the same byte differently. */
  lemma XorSeparates(a: Byte, b: Byte, c: Byte)
    requires Xor(a, b) == Xor(a, c)
    ensures b == c
  {
    EightBits();
    XorBitsCommutes(a, b, 8);
    XorBitsCommutes(a, c, 8);
    XorBitsCancels(b, a, 8);
    XorBitsCancels(c, a, 8);
  }

  // ----- one step -----

  /** XOR of a word with a byte: only the low eight bits change. */
  function XorLow(h: Word, b: Byte): Word {
    h - h % 256 + Xor(h % 256, b)
  }

  /** `h ^= b; h = h.wrapping_mul(PRIME)`. */
  function Step(h: Word, b: Byte): Word {
    XorLow(h, b) * PRIME % WORDS
  }

  function Unstep(h: Word, b: Byte): Word {
    XorLow(h * INVERSE % WORDS, b)
  }

  lemma LowByte(k: nat, low: Byte)
    ensures (256 * k + low) % 256 == low && (256 * k + low) - (256 * k + low) % 256 == 256 * k
  {
  }

  lemma XorLowCancels(h: Word, b: Byte)
    ensures XorLow(XorLow(h, b), b) == h
  {
    var low := Xor(h % 256, b);
    XorCancels(h % 256, b);
    LowByte(h / 256, low);
    assert h - h % 256 == 256 * (h / 256);
  }

  /** Multiplying by p and then by q gives a word back when p * q is one more than a multiple of 2^64. */
  lemma MulInverse(x: Word, p: Word, q: Word, k: int)
    requires p * q == 1 + k * WORDS
    ensures (x * p % WORDS) * q % WORDS == x
  {
    var y, n := x * p % WORDS, x * p / WORDS;
    assert x * p == n * WORDS + y;
    assert y * q == x * (p * q) - n * WORDS * q;
    assert y * q == x + (x * k - n * q) * WORDS;
    Remainder(y * q, x, x * k - n * q);
  }

  lemma Remainder(n: int, r: Word, q: int)
    requires n == r + q * WORDS
    ensures n % WORDS == r
  {
    assert (n / WORDS - q) * WORDS == r - n % WORDS;
  }

  const COFACTOR: int := 887_285_111_055

  /** Every step is a bijection of the state: `Unstep` undoes it on both sides. */
  lemma StepIsBijective(h: Word, b: Byte)
    ensures Unstep(Step(h, b), b) == h
    ensures Step(Unstep(h, b), b) == h
  {
    assert PRIME * INVERSE == 1 + COFACTOR * WORDS;
    assert INVERSE * PRIME == 1 + COFACTOR * WORDS;
    MulInverse(XorLow(h, b), PRIME, INVERSE, COFACTOR);
    XorLowCancels(h, b);
    MulInverse(h, INVERSE, PRIME, COFACTOR);
    XorLowCancels(h * INVERSE % WORDS, b);
  }

  /** Two different bytes never take one state to one state. */
  lemma StepSeparates(h: Word, b: Byte, c: Byte)
    requires Step(h, b) == Step(h, c)
    ensures b == c
  {
    assert PRIME * INVERSE == 1 + COFACTOR * WORDS;
    MulInverse(XorLow(h, b), PRIME, INVERSE, COFACTOR);
    MulInverse(XorLow(h, c), PRIME, INVERSE, COFACTOR);
    XorSeparates(h % 256, b, c);
  }

  // ----- streams -----

  function Hash(h: Word, bytes: Bytes): Word {
    if bytes == [] then h else Step(Hash(h, bytes[..|bytes| - 1]), bytes[|bytes| - 1])
  }

  /** Writes compose: hashing a concatenation is hashing the parts in turn. */
  lemma {:induction false} HashAppend(h: Word, a: Bytes, b: Bytes)
    ensures Hash(h, a + b) == Hash(Hash(h, a), b)
  {
    if b == [] {
      assert a + b == a;
    } else {
      HashAppend(h, a, b[..|b| - 1]);
      assert (a + b)[..|a + b| - 1] == a + b[..|b| - 1];
    }
  }

  /** Different states stay different under the same bytes. */
  lemma {:induction false} HashKeepsApart(g: Word, h: Word, bytes: Bytes)
    requires g != h
    ensures Hash(g, bytes) != Hash(h, bytes)
  {
    if bytes != [] {
      var n := |bytes| - 1;
      HashKeepsApart(g, h, bytes[..n]);
      StepIsBijective(Hash(g, bytes[..n]), bytes[n]);
      StepIsBijective(Hash(h, bytes[..n]), bytes[n]);
    }
  }

  /** Streams of one length that differ in exactly one byte never collide. */
  lemma OneByteNeverCollides(h: Word, a: Bytes, b: Bytes, i: nat)
    requires |a| == |b| && i < |a| && a[i] != b[i]
    requires forall k :: 0 <= k < |a| && k != i ==> a[k] == b[k]
    ensures Hash(h, a) != Hash(h, b)
  {
    var left, right := a[..i], a[i + 1..];
    assert a == left + ([a[i]] + right) && b == left + ([b[i]] + right);
    HashAppend(h, left, [a[i]] + right);
    HashAppend(h, left, [b[i]] + right);
    HashAppend(Hash(h, left), [a[i]], right);
    HashAppend(Hash(h, left), [b[i]], right);
    OneStep(Hash(h, left), a[i]);
    OneStep(Hash(h, left), b[i]);
    if Step(Hash(h, left), a[i]) == Step(Hash(h, left), b[i]) {
      StepSeparates(Hash(h, left), a[i], b[i]);
    } else {
      HashKeepsApart(Step(Hash(h, left), a[i]), Step(Hash(h, left), b[i]), right);
    }
  }

  lemma OneStep(h: Word, b: Byte)
    ensures Hash(h, [b]) == Step(h, b)
  {
    assert [b][..0] == [];
  }

  // ----- the sixteen hex digits -----

  function HexChar(n: int): char
    requires 0 <= n < 16
  {
    "0123456789abcdef"[n]
  }

  /** `{:016x}`. */
  function Hex(w: nat, digits: nat): (s: string)
    ensures |s| == digits
  {
    if digits == 0 then "" else Hex(w / 16, digits - 1) + [HexChar(w % 16)]
  }

  function Pow16(k: nat): nat {
    if k == 0 then 1 else 16 * Pow16(k - 1)
  }

  lemma HexCharSeparates(m: int, n: int)
    requires 0 <= m < 16 && 0 <= n < 16 && HexChar(m) == HexChar(n)
    ensures m == n
  {
  }

  lemma {:induction false} HexSeparates(v: nat, w: nat, digits: nat)
    requires v < Pow16(digits) && w < Pow16(digits) && Hex(v, digits) == Hex(w, digits)
    ensures v == w
  {
    if digits > 0 {
      var s, t := Hex(v, digits), Hex(w, digits);
      assert s[..digits - 1] == Hex(v / 16, digits - 1) && t[..digits - 1] == Hex(w / 16, digits - 1);
      assert s[digits - 1] == HexChar(v % 16) && t[digits - 1] == HexChar(w % 16);
      HexCharSeparates(v % 16, w % 16);
      HexSeparates(v / 16, w / 16, digits - 1);
    }
  }

  lemma SixteenDigits()
    ensures Pow16(16) == WORDS
  {
    assert Pow16(4) == 0x1_0000;
    assert Pow16(8) == 0x1_0000_0000;
    assert Pow16(12) == 0x1_0000_0000_0000;
  }

  // ----- what gets hashed -----

  type Field = Option<Bytes>

  datatype Frame = Frame(function_: Field, filename: Field)

  datatype ExceptionInfo = ExceptionInfo(ty: Field, frames: seq<Frame>)

  datatype Event = Event(exceptions: seq<ExceptionInfo>, message: Field, eventId: Bytes)

  /** `write_opt_str`: presence tag, the bytes, terminator. */
  function FieldBytes(f: Field): Bytes {
    match f
    case Some(s) => [1] + s + [0xff]
    case None => [0] + [0xff]
  }

  function FieldsBytes(fs: seq<Field>): Bytes {
    if fs == [] then [] else FieldBytes(fs[0]) + FieldsBytes(fs[1..])
  }

  /** The fields that identify an event: the first exception's type and last frame, or else the message. */
  function Fields(e: Event): Option<seq<Field>> {
    if e.exceptions != [] then
      var ex := e.exceptions[0];
      if ex.frames != [] then
        var frame := ex.frames[|ex.frames| - 1];
        Some([ex.ty, frame.function_, frame.filename])
      else Some([ex.ty])
    else if e.message.Some? then Some([e.message])
    else None
  }

  function Stream(e: Event): Bytes {
    if Fields(e).Some? then FieldsBytes(Fields(e).value) else e.eventId
  }

  function Derive(e: Event): string {
    Hex(Hash(OFFSET_BASIS, Stream(e)), 16)
  }

  class Fnv1a {
    var state: Word

    constructor ()
      ensures state == OFFSET_BASIS
    {
      state := OFFSET_BASIS;
    }

    method Write(bytes: Bytes)
      modifies this
      ensures state == Hash(old(state), bytes)
    {
      for k := 0 to |bytes|
        invariant state == Hash(old(state), bytes[..k])
      {
        assert bytes[..k + 1][..k] == bytes[..k];
        state := XorLow(state, bytes[k]);
        state := state * PRIME % WORDS;
      }
      assert bytes[..|bytes|] == bytes;
    }

    method WriteOptStr(s: Field)
      modifies this
      ensures state == Hash(old(state), FieldBytes(s))
    {
      match s {
        case Some(bytes) =>
          Write([1]);
          Write(bytes);
          HashAppend(old(state), [1], bytes);
          HashAppend(old(state), [1] + bytes, [0xff]);
        case None =>
          Write([0]);
          HashAppend(old(state), [0], [0xff]);
      }
      Write([0xff]);
    }
  }

  method DeriveFingerprint(e: Event) returns (fp: string)
    ensures fp == Derive(e)
  {
    var w := HashEvent(e);
    fp := Hex(w, 16);
  }

  method HashEvent(e: Event) returns (w: Word)
    ensures w == Hash(OFFSET_BASIS, Stream(e))
  {
    var h := new Fnv1a();
    if e.exceptions != [] {
      var ex := e.exceptions[0];
      OneField(ex.ty);
      h.WriteOptStr(ex.ty);
      if ex.frames != [] {
        var frame := ex.frames[|ex.frames| - 1];
        ThreeFields(ex.ty, frame.function_, frame.filename);
        h.WriteOptStr(frame.function_);
        h.WriteOptStr(frame.filename);
        assert Stream(e) == FieldsBytes([ex.ty, frame.function_, frame.filename]);
        return h.state;
      }
      assert Stream(e) == FieldsBytes([ex.ty]);
    } else if e.message.Some? {
      OneField(e.message);
      h.WriteOptStr(e.message);
      assert Stream(e) == FieldsBytes([e.message]);
    } else {
      h.Write(e.eventId);
    }
    return h.state;
  }

  lemma OneField(f: Field)
    ensures FieldsBytes([f]) == FieldBytes(f)
  {
    assert [f][1..] == [];
    assert FieldBytes(f) + [] == FieldBytes(f);
  }

  lemma ThreeFields(a: Field, b: Field, c: Field)
    ensures Hash(OFFSET_BASIS, FieldsBytes([a, b, c]))
            == Hash(Hash(Hash(OFFSET_BASIS, FieldBytes(a)), FieldBytes(b)), FieldBytes(c))
  {
    assert [a, b, c][1..] == [b, c] && [b, c][1..] == [c];
    OneField(c);
    HashAppend(OFFSET_BASIS, FieldBytes(a), FieldBytes(b) + FieldBytes(c));
    HashAppend(Hash(OFFSET_BASIS, FieldBytes(a)), FieldBytes(b), FieldBytes(c));
  }

  // ----- the encoding is injective -----

  ghost predicate IsText(f: Field) {
    f.Some? ==> forall k :: 0 <= k < |f.value| ==> f.value[k] != 0xff
  }

  /** UTF-8 never uses the byte 0xff. */
  lemma {:induction false} Utf8IsText(s: string)
    ensures IsText(Some(Utf8(s)))
  {
    if s != "" {
      Utf8IsText(s[1..]);
      assert forall k :: 0 <= k < |EncodeChar(s[0])| ==> EncodeChar(s[0])[k] <= 0xf4;
    }
  }

  ghost predicate AllText(fs: seq<Field>) {
    forall k :: 0 <= k < |fs| ==> IsText(fs[k])
  }

  /** The terminator's place is the first 0xff, so a first field can be read off. */
  lemma FirstField(f: Field, g: Field, x: Bytes, y: Bytes)
    requires IsText(f) && IsText(g) && FieldBytes(f) + x == FieldBytes(g) + y
    ensures f == g && x == y
  {
    FieldEnds(f, FieldBytes(f));
    FieldEnds(g, FieldBytes(g));
    FirstEnded(FieldBytes(f), FieldBytes(g), x, y, FieldBytes(f) + x);
    FieldOf(f, FieldBytes(f));
    FieldOf(g, FieldBytes(g));
  }

  /** The terminator is last and nowhere else. */
  ghost predicate Ended(b: Bytes) {
    b != [] && b[|b| - 1] == 0xff && forall k :: 0 <= k < |b| - 1 ==> b[k] != 0xff
  }

  lemma FieldEnds(f: Field, b: Bytes)
    requires IsText(f) && b == FieldBytes(f)
    ensures Ended(b)
  {
  }

  lemma FirstEnded(a: Bytes, b: Bytes, x: Bytes, y: Bytes, all: Bytes)
    requires Ended(a) && Ended(b) && all == a + x && all == b + y
    ensures a == b && x == y
  {
    assert all[|a| - 1] == 0xff && all[|b| - 1] == 0xff;
    assert forall k :: 0 <= k < |a| - 1 ==> all[k] == a[k] != 0xff;
    assert forall k :: 0 <= k < |b| - 1 ==> all[k] == b[k] != 0xff;
    assert |a| == |b|;
    assert a == all[..|a|] && b == all[..|b|];
    assert x == all[|a|..] && y == all[|b|..];
  }

  /** A field is read off its bytes. */
  lemma FieldOf(f: Field, b: Bytes)
    requires b == FieldBytes(f)
    ensures b != [] && (f.Some? <==> b[0] == 1) && (f.Some? ==> |b| >= 2 && f.value == b[1..|b| - 1])
  {
  }

  /** Lists of text fields, of any lengths, have the same bytes only if they are the same list. */
  lemma {:induction false} EncodingIsInjective(fs: seq<Field>, gs: seq<Field>)
    requires AllText(fs) && AllText(gs) && FieldsBytes(fs) == FieldsBytes(gs)
    ensures fs == gs
  {
    assert fs != [] ==> |FieldsBytes(fs)| > 0;
    assert gs != [] ==> |FieldsBytes(gs)| > 0;
    if fs != [] && gs != [] {
      FirstField(fs[0], gs[0], FieldsBytes(fs[1..]), FieldsBytes(gs[1..]));
      EncodingIsInjective(fs[1..], gs[1..]);
      assert fs == [fs[0]] + fs[1..] && gs == [gs[0]] + gs[1..];
    }
  }

  /**
   Two events with an exception or a message are hashed from the same bytes
   exactly when their identifying fields agree: same exception type and same last
   frame; and a type without frames counts as the same message.
   */
  lemma SameStreamIffSameFields(a: Event, b: Event)
    requires Fields(a).Some? && Fields(b).Some?
    requires AllText(Fields(a).value) && AllText(Fields(b).value)
    ensures Stream(a) == Stream(b) <==> Fields(a) == Fields(b)
  {
    if Stream(a) == Stream(b) {
      EncodingIsInjective(Fields(a).value, Fields(b).value);
    }
  }

  /** Events whose streams differ in exactly one byte never share a fingerprint. */
  lemma OneByteNeverShares(a: Event, b: Event, i: nat)
    requires |Stream(a)| == |Stream(b)| && i < |Stream(a)| && Stream(a)[i] != Stream(b)[i]
    requires forall k :: 0 <= k < |Stream(a)| && k != i ==> Stream(a)[k] == Stream(b)[k]
    ensures Derive(a) != Derive(b)
  {
    OneByteNeverCollides(OFFSET_BASIS, Stream(a), Stream(b), i);
    SixteenDigits();
    if Derive(a) == Derive(b) {
      HexSeparates(Hash(OFFSET_BASIS, Stream(a)), Hash(OFFSET_BASIS, Stream(b)), 16);
    }
  }

  /** An absent string and an empty one never group together, whatever follows. */
  lemma NoneIsNotEmpty(h: Word, rest: Bytes)
    ensures Hash(h, FieldBytes(None) + rest) != Hash(h, FieldBytes(Some([])) + rest)
  {
    var a, b := FieldBytes(None) + rest, FieldBytes(Some([])) + rest;
    assert FieldBytes(None) == [0, 0xff] && FieldBytes(Some([])) == [1, 0xff];
    OneByteNeverCollides(h, a, b, 0);
  }
}
