/** RFC 3339 texts with a fraction and an offset (section 5.6 of RFC 3339), which the parser reads and the printer does not write. */
module IsoForms {
  import opened Calendar
  import opened Decimals
  import opened Iso
  import opened Wrappers

  /** Zeros appended to a numeral multiply it. */
  lemma {:induction false} NumZeros(a: string, k: nat)
    requires AllDigits(a)
    ensures AllDigits(a + Zeros(k)) && Num(a + Zeros(k)) == Num(a) * Pow10(k)
  {
    var s := a + Zeros(k);
    if k == 0 {
      assert s == a;
    } else {
      NumZeros(a, k - 1);
      OneZeroMore(a + Zeros(k - 1), s, Num(a), k);
    }
  }

  lemma OneZeroMore(t: string, s: string, n: nat, k: nat)
    requires k > 0 && AllDigits(t) && Num(t) == n * Pow10(k - 1) && s == t + "0"
    ensures AllDigits(s) && Num(s) == n * Pow10(k)
  {
    assert s[..|s| - 1] == t && s[|s| - 1] == '0';
    TenTimes(n, Pow10(k - 1), Pow10(k));
  }

  lemma TenTimes(n: nat, p: nat, q: nat)
    requires q == 10 * p
    ensures n * q == 10 * (n * p)
  {
  }

  lemma SixZeros()
    ensures Pow10(6) == 1_000_000
  {
    assert Pow10(3) == 1000;
  }

  lemma Milliseconds(frac: string)
    requires AllDigits(frac) && |frac| == 3
    ensures Nanos(frac) / 1_000_000 == Num(frac)
  {
    NumZeros(frac, 6);
    SixZeros();
    assert (frac + Zeros(6))[..9] == frac + Zeros(6);
  }

  lemma {:induction false} DigitsStop(s: string, i: nat, j: nat)
    requires i <= j < |s| && (forall k :: i <= k < j ==> IsDigit(s[k])) && !IsDigit(s[j])
    ensures DigitsEnd(s, i) == j
    decreases j - i
  {
    if i < j {
      DigitsStop(s, i + 1, j);
    }
  }

  /** `text` is a date, a time, a fraction of three digits and an offset. */
  ghost predicate Written(text: string, date: string, time: string, frac: string, sign: char, oh: string, om: string) {
    && |date| == 10 && |time| == 8 && |frac| == 3 && |oh| == 2 && |om| == 2 && AllDigits(frac)
    && text == date + "T" + time + "." + frac + [sign] + oh + ":" + om
  }

  lemma FieldPlaces(text: string, date: string, time: string, frac: string, sign: char, oh: string, om: string)
    requires Written(text, date, time, frac, sign, oh, om)
    ensures |text| == 29 && text[0..4] == date[0..4] && text[5..7] == date[5..7] && text[8..10] == date[8..10]
    ensures text[11..13] == time[0..2] && text[14..16] == time[3..5] && text[17..19] == time[6..8]
  {
  }

  lemma TailPlaces(text: string, date: string, time: string, frac: string, sign: char, oh: string, om: string)
    requires Written(text, date, time, frac, sign, oh, om)
    ensures |text| == 29 && text[19] == '.' && text[20..23] == frac && text[23] == sign
    ensures text[24..26] == oh && text[27..29] == om
  {
  }

  lemma FractionIs(text: string, frac: string)
    requires |text| == 29 && text[19] == '.' && text[20..23] == frac && AllDigits(frac) && !IsDigit(text[23])
    ensures Fraction(text) == (23, Nanos(frac))
  {
    forall k | 20 <= k < 23 ensures IsDigit(text[k]) {
      assert text[k] == frac[k - 20];
    }
    DigitsStop(text, 20, 23);
  }

  /** East of Greenwich is earlier. */
  function OffsetSecs(sign: char, oh: nat, om: nat): int {
    if sign == '-' then -(oh * 3600 + om * 60) else oh * 3600 + om * 60
  }

  lemma OffsetIs(text: string, sign: char, oh: nat, om: nat, off: int)
    requires |text| == 29 && text[23] == sign && (sign == '+' || sign == '-') && oh < 100 && om < 100
    requires text[24..26] == Padded(oh, 2) && text[27..29] == Padded(om, 2)
    requires off == OffsetSecs(sign, oh, om)
    ensures ParseOffset(text, 23) == Secs(off)
  {
    Pow10Values();
    PaddedReads(oh, 2);
    PaddedReads(om, 2);
  }

  lemma FieldsAre(text: string, d: Date, rem: nat, frac: string, sign: char, oh: string, om: string)
    requires Valid(d) && 0 <= d.year <= 9999 && rem < DAY_SECS
    requires Written(text, DateText(d), TimeText(rem), frac, sign, oh, om)
    ensures |text| == 29
    ensures ParseFields(text) == Some(Fields(d.year, d.month, d.day, rem / 3600, rem % 3600 / 60, rem % 60))
  {
    DateFields(d);
    TimeFields(rem);
    FieldPlaces(text, DateText(d), TimeText(rem), frac, sign, oh, om);
  }

  lemma WholeIs(text: string, f: Fields, off: int, nanos: nat, secs: int)
    requires ParseFields(text) == Some(f) && |text| >= 19 && Fraction(text) == (23, nanos)
    requires 23 <= |text| && ParseOffset(text, 23) == Secs(off)
    requires YmdToDays(f.y, f.mo, f.d) * DAY_SECS + f.hh * 3600 + f.mm * 60 + f.ss == secs
    ensures ParseIso(text) == Some(AsU128((secs - off) * 1000 + nanos / 1_000_000))
  {
  }

  lemma MillisecondsRead(text: string, frac: string) returns (nanos: nat)
    requires |text| == 29 && text[19] == '.' && text[20..23] == frac && |frac| == 3 && AllDigits(frac) && !IsDigit(text[23])
    ensures Fraction(text) == (23, nanos) && nanos / 1_000_000 == Num(frac)
  {
    nanos := Nanos(frac);
    FractionIs(text, frac);
    Milliseconds(frac);
  }

  lemma PartsRead(text: string, f: Fields, frac: string, sign: char, oh: nat, om: nat, secs: int, off: int)
    requires |text| == 29 && text[19] == '.' && text[20..23] == frac && |frac| == 3 && AllDigits(frac)
    requires text[23] == sign && (sign == '+' || sign == '-') && oh < 100 && om < 100
    requires text[24..26] == Padded(oh, 2) && text[27..29] == Padded(om, 2) && off == OffsetSecs(sign, oh, om)
    requires ParseFields(text) == Some(f) && YmdToDays(f.y, f.mo, f.d) * DAY_SECS + f.hh * 3600 + f.mm * 60 + f.ss == secs
    ensures ParseIso(text) == Some(AsU128((secs - off) * 1000 + Num(frac)))
  {
    OffsetIs(text, sign, oh, om, off);
    TailRead(text, f, frac, off, secs);
  }

  lemma TailRead(text: string, f: Fields, frac: string, off: int, secs: int)
    requires |text| == 29 && text[19] == '.' && text[20..23] == frac && |frac| == 3 && AllDigits(frac) && !IsDigit(text[23])
    requires ParseFields(text) == Some(f) && ParseOffset(text, 23) == Secs(off)
    requires YmdToDays(f.y, f.mo, f.d) * DAY_SECS + f.hh * 3600 + f.mm * 60 + f.ss == secs
    ensures ParseIso(text) == Some(AsU128((secs - off) * 1000 + Num(frac)))
  {
    var nanos := MillisecondsRead(text, frac);
    WholeIs(text, f, off, nanos, secs);
  }

  /**
   A time written with milliseconds and an offset reads as the second it names, less
   the offset, in milliseconds.
   */
  lemma OffsetReads(text: string, d: Date, rem: nat, date: string, time: string, frac: string, sign: char,
      oh: nat, om: nat, hours: string, minutes: string, secs: int, off: int)
    requires Valid(d) && 0 <= d.year <= 9999 && rem < 86_400 && secs == DayNumber(d) * 86_400 + rem
    requires (sign == '+' || sign == '-') && oh < 100 && om < 100 && hours == Padded(oh, 2) && minutes == Padded(om, 2)
    requires date == DateText(d) && time == TimeText(rem) && Written(text, date, time, frac, sign, hours, minutes)
    requires off == OffsetSecs(sign, oh, om)
    ensures ParseIso(text) == Some(AsU128((secs - off) * 1000 + Num(frac)))
  {
    var f := FieldsRead(text, d, rem, date, time, frac, sign, hours, minutes);
    TailPlaces(text, date, time, frac, sign, hours, minutes);
    PartsRead(text, f, frac, sign, oh, om, secs, off);
  }

  lemma FieldsRead(text: string, d: Date, rem: nat, date: string, time: string, frac: string, sign: char, hours: string, minutes: string)
    returns (f: Fields)
    requires Valid(d) && 0 <= d.year <= 9999 && rem < DAY_SECS && date == DateText(d) && time == TimeText(rem)
    requires Written(text, date, time, frac, sign, hours, minutes)
    ensures |text| == 29 && ParseFields(text) == Some(f)
    ensures YmdToDays(f.y, f.mo, f.d) * DAY_SECS + f.hh * 3600 + f.mm * 60 + f.ss == DayNumber(d) * DAY_SECS + rem
  {
    f := Fields(d.year, d.month, d.day, rem / 3600, rem % 3600 / 60, rem % 60);
    FieldsAre(text, d, rem, frac, sign, hours, minutes);
    TimeParts(rem);
  }

  /** A numeral may carry a plus, and a signed one a minus; nothing else is a number. */
  lemma SignsRead(d: string)
    requires d != "" && AllDigits(d)
    ensures ParseUnsigned(d) == Some(Num(d)) && ParseUnsigned("+" + d) == Some(Num(d)) && ParseUnsigned("-" + d) == None
    ensures ParseSigned(d) == Some(Num(d)) && ParseSigned("+" + d) == Some(Num(d)) && ParseSigned("-" + d).Some? && ParseSigned("-" + d).value + Num(d) == 0
    ensures ParseSigned("-") == None && ParseUnsigned("") == None
  {
    assert d[0] == d[0] && IsDigit(d[0]);
    assert ("+" + d)[1..] == d && ("-" + d)[1..] == d && ("-" + d)[0] == '-' && ("+" + d)[0] == '+';
    assert !IsDigit(("-" + d)[0]);
  }

  /** A time before 1970 is taken modulo 2^128. */
  lemma WrapsAround(n: int)
    requires -TWO_128 <= n < TWO_128
    ensures 0 <= AsU128(n) < 0x1_0000_0000_0000_0000_0000_0000_0000_0000
    ensures (AsU128(n) - n) % 0x1_0000_0000_0000_0000_0000_0000_0000_0000 == 0
  {
  }

  /** Too short a text, or a sign without five more characters, is no time. */
  lemma CutShort(s: string)
    ensures |s| < 19 ==> ParseIso(s) == None
    ensures 19 < |s| < 25 && (s[19] == '+' || s[19] == '-') ==> ParseIso(s) == None
  {
  }
}
