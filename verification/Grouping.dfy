/**
 Which events become one issue: what of an event is hashed, for each kind of event,
 and what makes no difference.
 */
module Grouping {
  import opened Octets
  import opened Fingerprint

  // ----- the three kinds of event -----

  /** Its first exception has frames. */
  predicate Framed(e: Event) {
    e.exceptions != [] && e.exceptions[0].frames != []
  }

  /** It has a first exception, without frames. */
  predicate Frameless(e: Event) {
    e.exceptions != [] && e.exceptions[0].frames == []
  }

  /** It has a message and no exception. */
  predicate MessageOnly(e: Event) {
    e.exceptions == [] && e.message.Some?
  }

  /** The frame the failure happened in: the last one. */
  function Innermost(e: Event): Frame
    requires Framed(e)
  {
    e.exceptions[0].frames[|e.exceptions[0].frames| - 1]
  }

  ghost predicate FramedText(e: Event)
    requires Framed(e)
  {
    IsText(e.exceptions[0].ty) && IsText(Innermost(e).function_) && IsText(Innermost(e).filename)
  }

  // ----- what is hashed -----

  lemma FramedStream(e: Event, fs: seq<Field>)
    requires Framed(e)
    requires fs == [e.exceptions[0].ty, Innermost(e).function_, Innermost(e).filename]
    ensures Stream(e) == FieldsBytes(fs)
  {
  }

  lemma OneFieldAgrees(a: Field, b: Field)
    requires IsText(a) && IsText(b)
    ensures FieldsBytes([a]) == FieldsBytes([b]) <==> a == b
  {
    if FieldsBytes([a]) == FieldsBytes([b]) {
      EncodingIsInjective([a], [b]);
      assert [a][0] == [b][0];
    }
  }

  /**
   Two events with frames are hashed from the same bytes exactly when the types of
   their first exceptions agree and so do function and file of their last frames.
   */
  lemma FramedGroup(a: Event, b: Event)
    requires Framed(a) && Framed(b) && FramedText(a) && FramedText(b)
    ensures Stream(a) == Stream(b)
            <==> && a.exceptions[0].ty == b.exceptions[0].ty
                 && a.exceptions[0].frames[|a.exceptions[0].frames| - 1].function_
                    == b.exceptions[0].frames[|b.exceptions[0].frames| - 1].function_
                 && a.exceptions[0].frames[|a.exceptions[0].frames| - 1].filename
                    == b.exceptions[0].frames[|b.exceptions[0].frames| - 1].filename
  {
    var fs := [a.exceptions[0].ty, Innermost(a).function_, Innermost(a).filename];
    var gs := [b.exceptions[0].ty, Innermost(b).function_, Innermost(b).filename];
    FramedStream(a, fs);
    FramedStream(b, gs);
    if Stream(a) == Stream(b) {
      EncodingIsInjective(fs, gs);
      assert fs[0] == gs[0] && fs[1] == gs[1] && fs[2] == gs[2];
    }
  }

  /** Other exceptions, earlier frames, message and event id make no difference to an event with frames. */
  lemma FramedIgnores(a: Event, b: Event)
    requires Framed(a) && Framed(b) && a.exceptions[0].ty == b.exceptions[0].ty && Innermost(a) == Innermost(b)
    ensures Derive(a) == Derive(b)
  {
    var fs := [a.exceptions[0].ty, Innermost(a).function_, Innermost(a).filename];
    FramedStream(a, fs);
    FramedStream(b, fs);
  }

  /** An exception without frames groups by its type alone. */
  lemma FramelessGroup(a: Event, b: Event)
    requires Frameless(a) && Frameless(b) && IsText(a.exceptions[0].ty) && IsText(b.exceptions[0].ty)
    ensures Stream(a) == Stream(b) <==> a.exceptions[0].ty == b.exceptions[0].ty
  {
    OneFieldAgrees(a.exceptions[0].ty, b.exceptions[0].ty);
  }

  lemma FramelessIgnores(a: Event, b: Event)
    requires Frameless(a) && Frameless(b) && a.exceptions[0].ty == b.exceptions[0].ty
    ensures Derive(a) == Derive(b)
  {
  }

  /** Without an exception the message decides. */
  lemma MessageGroup(a: Event, b: Event)
    requires MessageOnly(a) && MessageOnly(b) && IsText(a.message) && IsText(b.message)
    ensures Stream(a) == Stream(b) <==> a.message == b.message
    ensures a.message == b.message ==> Derive(a) == Derive(b)
  {
    OneFieldAgrees(a.message, b.message);
  }

  /** With neither, the event id is hashed as it is, so each event is its own issue. */
  lemma IdGroup(a: Event, b: Event)
    requires a.exceptions == [] && a.message.None? && b.exceptions == [] && b.message.None?
    ensures Stream(a) == Stream(b) <==> a.eventId == b.eventId
    ensures a.eventId == b.eventId ==> Derive(a) == Derive(b)
  {
  }

  /** The bytes of a field: a tag of one, the text and a terminator, or a tag of zero and the terminator. */
  function Encoded(f: Field): Bytes {
    if f.Some? then [1] + f.value + [255] else [0, 255]
  }

  /** What is hashed, byte by byte. */
  lemma BytesHashed(e: Event)
    ensures Framed(e) ==>
              Stream(e) == Encoded(e.exceptions[0].ty) + Encoded(Innermost(e).function_) + Encoded(Innermost(e).filename)
    ensures Frameless(e) ==> Stream(e) == Encoded(e.exceptions[0].ty)
    ensures MessageOnly(e) ==> Stream(e) == [1] + e.message.value + [255]
    ensures e.exceptions == [] && e.message.None? ==> Stream(e) == e.eventId
  {
    if Framed(e) {
      var fs := [e.exceptions[0].ty, Innermost(e).function_, Innermost(e).filename];
      FramedStream(e, fs);
      ThreeFields(fs[0], fs[1], fs[2]);
    } else if Frameless(e) {
      OneFieldBytes(e.exceptions[0].ty);
    } else if MessageOnly(e) {
      OneFieldBytes(e.message);
    }
  }

  lemma OneFieldBytes(f: Field)
    ensures FieldsBytes([f]) == Encoded(f) == FieldBytes(f)
  {
    assert [f][1..] == [] && FieldBytes(f) + [] == FieldBytes(f);
  }

  lemma ThreeFields(f: Field, g: Field, h: Field)
    ensures FieldsBytes([f, g, h]) == Encoded(f) + Encoded(g) + Encoded(h)
  {
    OneFieldBytes(f);
    OneFieldBytes(g);
    OneFieldBytes(h);
    assert [f, g, h][1..] == [g, h] && [g, h][1..] == [h];
    assert FieldsBytes([g, h]) == Encoded(g) + Encoded(h);
    assert Encoded(f) + (Encoded(g) + Encoded(h)) == Encoded(f) + Encoded(g) + Encoded(h);
  }

  // ----- across kinds -----

  /** An event with frames is never hashed from the bytes of one without. */
  lemma FramesSetApart(a: Event, b: Event)
    requires Framed(a) && FramedText(a)
    requires Frameless(b) || MessageOnly(b)
    requires IsText(if b.exceptions != [] then b.exceptions[0].ty else b.message)
    ensures Stream(a) != Stream(b)
  {
    var fs := [a.exceptions[0].ty, Innermost(a).function_, Innermost(a).filename];
    var gs := [if b.exceptions != [] then b.exceptions[0].ty else b.message];
    FramedStream(a, fs);
    assert Stream(b) == FieldsBytes(gs);
    if Stream(a) == Stream(b) {
      EncodingIsInjective(fs, gs);
    }
  }

  /** But an exception without frames and a message with the same text are one issue. */
  lemma TypeAndMessageShare(a: Event, b: Event)
    requires Frameless(a) && MessageOnly(b) && a.exceptions[0].ty == b.message
    ensures Derive(a) == Derive(b)
  {
  }

  // ----- the hash -----

  function BitAt(n: nat, k: nat): nat {
    if k == 0 then n % 2 else BitAt(n / 2, k - 1)
  }

  lemma {:induction false} XorBitsAt(a: nat, b: nat, n: nat, k: nat)
    requires a < Pow2(n) && b < Pow2(n) && k < n
    ensures BitAt(XorBits(a, b, n), k) == if BitAt(a, k) == BitAt(b, k) then 0 else 1
  {
    var low, high := if a % 2 == b % 2 then 0 else 1, XorBits(a / 2, b / 2, n - 1);
    LowAndHigh(XorBits(a, b, n), low, high);
    if k > 0 {
      XorBitsAt(a / 2, b / 2, n - 1, k - 1);
    }
  }

  lemma LowAndHigh(x: nat, low: nat, high: nat)
    requires low < 2 && x == low + 2 * high
    ensures x % 2 == low && x / 2 == high
  {
  }

  /** A bit of the exclusive or is set exactly when the two bits differ. */
  lemma XorAt(a: Byte, b: Byte, k: nat)
    requires k < 8
    ensures BitAt(Xor(a, b), k) == if BitAt(a, k) == BitAt(b, k) then 0 else 1
  {
    EightBits();
    XorBitsAt(a, b, 8, k);
  }

  lemma LetterXor()
    ensures Xor(0x25, 0x61) == 0x44
  {
    EightBits();
    assert XorBits(2, 6, 4) == 4;
    assert XorBits(37, 97, 8) == 68;
  }

  /** The published FNV-1a values of the empty text and of "a". */
  lemma TestVectors()
    ensures Hash(OFFSET_BASIS, []) == 0xcbf29ce484222325
    ensures Hash(OFFSET_BASIS, [0x61]) == 0xaf63dc4c8601ec8c
  {
    LetterXor();
    assert OFFSET_BASIS % 256 == 0x25;
    assert XorLow(OFFSET_BASIS, 0x61) == 0xcbf29ce484222344;
    assert 0xcbf29ce484222344 * 0x100000001b3 % WORDS == 0xaf63dc4c8601ec8c;
    assert Hash(Step(OFFSET_BASIS, 0x61), []) == Step(OFFSET_BASIS, 0x61);
  }

  // ----- the digits -----

  function HexDigitAt(n: nat, k: nat): (d: nat)
    ensures d < 16
  {
    if k == 0 then n % 16 else HexDigitAt(n / 16, k - 1)
  }

  /** The k-th character from the right shows the k-th hexadecimal digit, in lower case. */
  lemma {:induction false} HexAt(w: nat, digits: nat, k: nat)
    requires k < digits
    ensures Hex(w, digits)[digits - 1 - k] == ['0', '1', '2', '3', '4', '5', '6', '7', '8', '9', 'a', 'b', 'c', 'd', 'e', 'f'][HexDigitAt(w, k)]
  {
    if k > 0 {
      HexAt(w / 16, digits - 1, k - 1);
    }
  }

  /** Whatever is hashed, equal fingerprints mean equal hashes: sixteen digits show all of it. */
  lemma DigitsShowTheHash(a: Event, b: Event)
    ensures |Derive(a)| == 16
    ensures Derive(a) == Derive(b) <==> Hash(OFFSET_BASIS, Stream(a)) == Hash(OFFSET_BASIS, Stream(b))
  {
    SixteenDigits();
    if Derive(a) == Derive(b) {
      HexSeparates(Hash(OFFSET_BASIS, Stream(a)), Hash(OFFSET_BASIS, Stream(b)), 16);
    }
  }
}
