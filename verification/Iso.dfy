/**
 The harness's RFC 3339 printer and parser (the date-time form of section 5.6),
 and what comparing such texts byte by byte means. A text is one char per byte.
 */
module Iso {
  import opened Wrappers
  import opened Calendar
  import opened Decimals

  /** `{n:0width}`. */
  function Padded(n: nat, width: nat): (s: string)
    ensures AllDigits(s)
  {
    Zeros(width - |Decimal(n)|) + Decimal(n)
  }

  function Zeros(k: int): (s: string)
    ensures |s| == if k > 0 then k else 0
    ensures forall i :: 0 <= i < |s| ==> s[i] == '0'
  {
    if k <= 0 then "" else Zeros(k - 1) + "0"
  }

  // ----- the printer -----

  function DateText(d: Date): string
    requires d.year >= 0 && d.month >= 0 && d.day >= 0
  {
    Padded(d.year, 4) + "-" + Padded(d.month, 2) + "-" + Padded(d.day, 2)
  }

  function TimeText(rem: nat): string {
    Padded(rem / 3600, 2) + ":" + Padded(rem % 3600 / 60, 2) + ":" + Padded(rem % 60, 2)
  }

  lemma YearsAreNatural(days: nat)
    ensures var d := DaysToYmd(days);
            Valid(d) && d.year >= 1970
  {
    Epoch();
    DaysRoundTrip(days);
    DateOrder(DaysToYmd(days), Date(1970, 1, 1));
  }

  function EpochToIso(secs: nat): string {
    YearsAreNatural(secs / DAY_SECS);
    DateText(DaysToYmd(secs / DAY_SECS)) + "T" + TimeText(secs % DAY_SECS) + "Z"
  }

  // ----- the parser -----

  function ParseDigits(s: string): Option<nat> {
    if s != "" && AllDigits(s) then Some(Num(s)) else None
  }

  /** Rust's `str::parse` for unsigned integers takes one leading '+'. */
  function ParseUnsigned(s: string): Option<nat> {
    if s != "" && s[0] == '+' then ParseDigits(s[1..]) else ParseDigits(s)
  }

  function ParseSigned(s: string): Option<int> {
    if s != "" && s[0] == '-' then
      match ParseDigits(s[1..])
      case Some(n) => Some(0 - n)
      case None => None
    else
      match ParseUnsigned(s)
      case Some(n) => Some(n)
      case None => None
  }

  /** End of the run of digits that starts at `i`. */
  function DigitsEnd(s: string, i: nat): (j: nat)
    requires i <= |s|
    ensures i <= j <= |s| && AllDigits(s[i..j])
    ensures j < |s| ==> !IsDigit(s[j])
    decreases |s| - i
  {
    if i < |s| && IsDigit(s[i]) then
      var j := DigitsEnd(s, i + 1);
      assert forall k :: i < k < j ==> s[k] == s[i + 1..j][k - (i + 1)];
      j
    else
      i
  }

  /** Right-padded to nine digits and cut to nine: nanoseconds. */
  function Nanos(frac: string): nat
    requires AllDigits(frac)
  {
    Num((frac + Zeros(9 - |frac|))[..9])
  }

  const TWO_128: int := 0x1_0000_0000_0000_0000_0000_0000_0000_0000

  /** `as u128` of a signed value. */
  function AsU128(n: int): int {
    if n < 0 then n + TWO_128 else n
  }

  datatype Offset = Bad | Secs(value: int)

  /** What follows the seconds: "+HH:MM" or "-HH:MM" count, anything else is UTC. */
  function ParseOffset(s: string, idx: nat): Offset
    requires idx <= |s|
  {
    if idx < |s| && (s[idx] == '+' || s[idx] == '-') then
      if |s| < idx + 6 then Bad
      else
        match (ParseSigned(s[idx + 1..idx + 3]), ParseSigned(s[idx + 4..idx + 6]))
        case (Some(oh), Some(om)) => Secs((if s[idx] == '-' then -1 else 1) * (oh * 3600 + om * 60))
        case _ => Bad
    else Secs(0)
  }

  datatype Fields = Fields(y: int, mo: nat, d: nat, hh: nat, mm: nat, ss: nat)

  /** The six numbers at their fixed places; the separators are not looked at. */
  function ParseFields(s: string): Option<Fields> {
    if |s| < 19 then None
    else
      match (ParseSigned(s[0..4]), ParseUnsigned(s[5..7]), ParseUnsigned(s[8..10]),
             ParseUnsigned(s[11..13]), ParseUnsigned(s[14..16]), ParseUnsigned(s[17..19]))
      case (Some(y), Some(mo), Some(d), Some(hh), Some(mm), Some(ss)) => Some(Fields(y, mo, d, hh, mm, ss))
      case _ => None
  }

  /** The optional ".fff" after the seconds: where it ends and the nanoseconds it stands for. */
  function Fraction(s: string): (r: (nat, nat))
    requires |s| >= 19
    ensures r.0 <= |s|
  {
    if |s| > 19 && s[19] == '.' then
      var idx := DigitsEnd(s, 20);
      (idx, Nanos(s[20..idx]))
    else
      (19, 0)
  }

  function ParseIso(s: string): Option<int> {
    match ParseFields(s)
    case None => None
    case Some(f) =>
      var (idx, nanos) := Fraction(s);
      match ParseOffset(s, idx)
      case Bad => None
      case Secs(off) =>
        var secs := YmdToDays(f.y, f.mo, f.d) * DAY_SECS + f.hh * 3600 + f.mm * 60 + f.ss - off;
        Some(AsU128(secs * 1000 + nanos / 1_000_000))
  }

  method ParseFraction(s: string) returns (idx: nat, nanos: nat)
    requires |s| >= 19
    ensures (idx, nanos) == Fraction(s)
  {
    idx, nanos := 19, 0;
    if idx < |s| && s[idx] == '.' {
      idx := idx + 1;
      var fracStart := idx;
      while idx < |s| && IsDigit(s[idx])
        invariant fracStart <= idx <= |s|
        invariant AllDigits(s[fracStart..idx])
        invariant DigitsEnd(s, idx) == DigitsEnd(s, fracStart)
      {
        assert s[fracStart..idx + 1] == s[fracStart..idx] + [s[idx]];
        idx := idx + 1;
      }
      nanos := PadAndRead(s[fracStart..idx]);
    }
  }

  method PadAndRead(frac: string) returns (nanos: nat)
    requires AllDigits(frac)
    ensures nanos == Nanos(frac)
  {
    var padded := frac;
    while |padded| < 9
      invariant |frac| <= |padded| && (|padded| <= 9 || padded == frac)
      invariant padded == frac + Zeros(|padded| - |frac|)
      decreases 9 - |padded|
    {
      assert Zeros(|padded| + 1 - |frac|) == Zeros(|padded| - |frac|) + "0";
      padded := padded + "0";
    }
    nanos := Num(padded[..9]);
  }

  method ParseIsoToMs(s: string) returns (r: Option<int>)
    ensures r == ParseIso(s)
  {
    var fields := ParseFields(s);
    if fields.None? {
      return None;
    }
    var f := fields.value;
    var idx, nanos := ParseFraction(s);
    var off := ParseOffset(s, idx);
    if off.Bad? {
      return None;
    }
    var secs := YmdToDays(f.y, f.mo, f.d) * DAY_SECS + f.hh * 3600 + f.mm * 60 + f.ss - off.value;
    return Some(AsU128(secs * 1000 + nanos / 1_000_000));
  }

  // ----- printing then parsing -----

  lemma {:induction false} NumOfZeros(k: int, s: string)
    requires AllDigits(s)
    ensures AllDigits(Zeros(k) + s) && Num(Zeros(k) + s) == Num(s)
  {
    if s == "" {
      assert Zeros(k) + s == Zeros(k);
      OnlyZeros(Zeros(k));
    } else {
      var n := |s| - 1;
      NumOfZeros(k, s[..n]);
      SameLastDigit(Zeros(k) + s, s, Zeros(k) + s[..n], s[..n]);
    }
  }

  lemma {:induction false} OnlyZeros(z: string)
    requires forall i :: 0 <= i < |z| ==> z[i] == '0'
    ensures AllDigits(z) && Num(z) == 0
  {
    if z != "" {
      OnlyZeros(z[..|z| - 1]);
    }
  }

  lemma SameLastDigit(t: string, s: string, t': string, s': string)
    requires AllDigits(t) && AllDigits(s) && s != "" && t != "" && t[|t| - 1] == s[|s| - 1]
    requires t[..|t| - 1] == t' && s[..|s| - 1] == s' && Num(t') == Num(s')
    ensures Num(t) == Num(s)
  {
  }

  lemma {:induction false} DecimalLength(n: nat, w: nat, limit: nat)
    requires w >= 1 && limit == Pow10(w) && n < limit
    ensures |Decimal(n)| <= w
  {
    if n >= 10 {
      DecimalLength(n / 10, w - 1, Pow10(w - 1));
    }
  }

  function Pow10(w: nat): nat {
    if w == 0 then 1 else 10 * Pow10(w - 1)
  }

  /** A number that fits prints in exactly `w` digits and reads back. */
  lemma PaddedReads(n: nat, w: nat)
    requires w >= 1 && n < Pow10(w)
    ensures |Padded(n, w)| == w && Num(Padded(n, w)) == n
    ensures ParseUnsigned(Padded(n, w)) == Some(n) && ParseSigned(Padded(n, w)) == Some(n)
  {
    DecimalLength(n, w, Pow10(w));
    NumOfDecimal(n);
    NumOfZeros(w - |Decimal(n)|, Decimal(n));
    assert IsDigit(Padded(n, w)[0]);
  }

  /** The last second of the year 9999. */
  const LAST: nat := 253_402_300_799

  lemma YearFits(days: nat)
    requires days <= LAST / DAY_SECS
    ensures var d := DaysToYmd(days);
            Valid(d) && 1970 <= d.year <= 9999 && DayNumber(d) == days
  {
    YearsAreNatural(days);
    DaysRoundTrip(days);
    FirstTooLate();
    DateOrder(DaysToYmd(days), Date(10_000, 1, 1));
  }

  lemma FirstTooLate()
    ensures DayNumber(Date(10_000, 1, 1)) == LAST / DAY_SECS + 1 && Valid(Date(10_000, 1, 1))
  {
  }

  lemma Pow10Values()
    ensures Pow10(2) == 100 && Pow10(4) == 10_000
  {
    assert Pow10(1) == 10 && Pow10(3) == 1000;
  }

  lemma DateLayout(t: string, year: string, month: string, day: string)
    requires |year| == 4 && |month| == 2 && |day| == 2 && t == year + "-" + month + "-" + day
    ensures |t| == 10 && t[0..4] == year && t[5..7] == month && t[8..10] == day
  {
  }

  lemma DateFields(d: Date)
    requires Valid(d) && 0 <= d.year <= 9999
    ensures var t := DateText(d);
            && |t| == 10 && t[0..4] == Padded(d.year, 4) && t[5..7] == Padded(d.month, 2) && t[8..10] == Padded(d.day, 2)
            && ParseSigned(t[0..4]) == Some(d.year)
            && ParseUnsigned(t[5..7]) == Some(d.month) && ParseUnsigned(t[8..10]) == Some(d.day)
  {
    Pow10Values();
    PaddedReads(d.year, 4);
    PaddedReads(d.month, 2);
    PaddedReads(d.day, 2);
    DateLayout(DateText(d), Padded(d.year, 4), Padded(d.month, 2), Padded(d.day, 2));
  }

  lemma TimeLayout(t: string, hour: string, minute: string, second: string)
    requires |hour| == 2 && |minute| == 2 && |second| == 2 && t == hour + ":" + minute + ":" + second
    ensures |t| == 8 && t[0..2] == hour && t[3..5] == minute && t[6..8] == second
  {
  }

  lemma TimeFields(rem: nat)
    requires rem < DAY_SECS
    ensures var t := TimeText(rem);
            && |t| == 8 && ParseUnsigned(t[0..2]) == Some(rem / 3600)
            && ParseUnsigned(t[3..5]) == Some(rem % 3600 / 60) && ParseUnsigned(t[6..8]) == Some(rem % 60)
  {
    Pow10Values();
    PaddedReads(rem / 3600, 2);
    PaddedReads(rem % 3600 / 60, 2);
    PaddedReads(rem % 60, 2);
    TimeLayout(TimeText(rem), Padded(rem / 3600, 2), Padded(rem % 3600 / 60, 2), Padded(rem % 60, 2));
  }

  lemma FieldsOfParts(date: string, time: string, s: string)
    requires |date| == 10 && |time| == 8 && s == date + "T" + time + "Z"
    ensures && |s| == 20 && s[19] == 'Z'
            && s[0..4] == date[0..4] && s[5..7] == date[5..7] && s[8..10] == date[8..10]
            && s[11..13] == time[0..2] && s[14..16] == time[3..5] && s[17..19] == time[6..8]
  {
  }

  /** The printed fields sit where the parser looks for them. */
  lemma FieldsOfText(d: Date, rem: nat, s: string)
    requires Valid(d) && 0 <= d.year <= 9999 && rem < DAY_SECS
    requires s == DateText(d) + "T" + TimeText(rem) + "Z"
    ensures && |s| == 20 && s[19] == 'Z'
            && ParseFields(s) == Some(Fields(d.year, d.month, d.day, rem / 3600, rem % 3600 / 60, rem % 60))
  {
    DateFields(d);
    TimeFields(rem);
    FieldsOfParts(DateText(d), TimeText(rem), s);
  }

  lemma ParseWhole(s: string, f: Fields, days: nat, rem: nat)
    requires |s| == 20 && s[19] == 'Z' && ParseFields(s) == Some(f)
    requires YmdToDays(f.y, f.mo, f.d) == days && f.hh * 3600 + f.mm * 60 + f.ss == rem
    ensures ParseIso(s) == Some((days * DAY_SECS + rem) * 1000)
  {
    assert ParseOffset(s, 19) == Secs(0);
  }

  lemma TimeParts(rem: nat)
    requires rem < DAY_SECS
    ensures rem / 3600 * 3600 + rem % 3600 / 60 * 60 + rem % 60 == rem
  {
  }

  lemma TextReads(secs: nat, d: Date, days: nat, rem: nat, text: string)
    requires secs == days * DAY_SECS + rem
    requires Valid(d) && 0 <= d.year <= 9999 && DayNumber(d) == days && rem < DAY_SECS
    requires text == DateText(d) + "T" + TimeText(rem) + "Z"
    ensures ParseIso(text) == Some(secs * 1000)
  {
    FieldsOfText(d, rem, text);
    TimeParts(rem);
    FieldsRead(text, d, rem / 3600, rem % 3600 / 60, rem % 60, days, rem);
  }

  lemma FieldsRead(text: string, d: Date, hh: nat, mm: nat, ss: nat, days: nat, rem: nat)
    requires Valid(d) && d.year >= 0
    requires |text| == 20 && text[19] == 'Z' && ParseFields(text) == Some(Fields(d.year, d.month, d.day, hh, mm, ss))
    requires DayNumber(d) == days && hh * 3600 + mm * 60 + ss == rem
    ensures ParseIso(text) == Some((days * DAY_SECS + rem) * 1000)
  {
    ParseWhole(text, Fields(d.year, d.month, d.day, hh, mm, ss), days, rem);
  }

  /** Up to the end of the year 9999, parsing a printed second gives its milliseconds. */
  lemma IsoRoundTrip(secs: nat, text: string)
    requires secs <= LAST && text == EpochToIso(secs)
    ensures ParseIso(text) == Some(secs * 1000)
  {
    YearFits(secs / DAY_SECS);
    TextReads(secs, DaysToYmd(secs / DAY_SECS), secs / DAY_SECS, secs % DAY_SECS, text);
  }

  // ----- comparing texts -----

  /** Byte order, as SQLite's default collation compares TEXT. */
  predicate Less(a: string, b: string) {
    if b == "" then false
    else if a == "" then true
    else if a[0] != b[0] then a[0] < b[0]
    else Less(a[1..], b[1..])
  }

  lemma {:induction false} LessAppend(a: string, b: string, x: string, y: string)
    requires |a| == |b|
    ensures Less(a + x, b + y) == if a == b then Less(x, y) else Less(a, b)
  {
    if a == "" {
      assert a + x == x && b + y == y;
    } else {
      assert (a + x)[1..] == a[1..] + x && (b + y)[1..] == b[1..] + y;
      assert a == [a[0]] + a[1..] && b == [b[0]] + b[1..];
      if a[0] == b[0] {
        LessAppend(a[1..], b[1..], x, y);
      }
    }
  }

  /** On digit runs of one length, byte order is the order of the numbers. */
  lemma {:induction false} LessIsNumeric(a: string, b: string)
    requires |a| == |b| && AllDigits(a) && AllDigits(b)
    ensures Less(a, b) <==> Num(a) < Num(b)
    ensures a == b <==> Num(a) == Num(b)
  {
    if a != "" {
      var n := |a| - 1;
      LessIsNumeric(a[..n], b[..n]);
      assert a == a[..n] + [a[n]] && b == b[..n] + [b[n]];
      LessAppend(a[..n], b[..n], [a[n]], [b[n]]);
    }
  }

  /** Two texts that start with fields of one width compare by the fields first. */
  lemma FieldOrder(a: string, b: string, x: string, y: string)
    requires |a| == |b|
    ensures Less(a + "-" + x, b + "-" + y) <==> Less(a, b) || (a == b && Less(x, y))
  {
    assert a + "-" + x == a + ("-" + x) && b + "-" + y == b + ("-" + y);
    LessAppend(a, b, "-" + x, "-" + y);
    assert ("-" + x)[1..] == x && ("-" + y)[1..] == y;
    LessIrreflexive(a);
  }

  lemma {:induction false} LessIrreflexive(a: string)
    ensures !Less(a, a)
  {
    if a != "" {
      LessIrreflexive(a[1..]);
    }
  }

  lemma PaddedOrder(m: nat, n: nat, w: nat)
    requires w >= 1 && m < Pow10(w) && n < Pow10(w)
    ensures |Padded(m, w)| == |Padded(n, w)| == w
    ensures Less(Padded(m, w), Padded(n, w)) <==> m < n
    ensures Padded(m, w) == Padded(n, w) <==> m == n
  {
    PaddedReads(m, w);
    PaddedReads(n, w);
    LessIsNumeric(Padded(m, w), Padded(n, w));
  }

  lemma FirstDash(s: string, a: string, m: string, x: string, u: string)
    requires s == a + "-" + m + "-" + x && u == m + "-" + x
    ensures s == a + "-" + u
  {
  }

  lemma ThreeFields(s: string, t: string, a: string, b: string, m: string, n: string, x: string, y: string)
    requires |a| == |b| && |m| == |n| && |x| == |y|
    requires s == a + "-" + m + "-" + x && t == b + "-" + n + "-" + y
    ensures Less(s, t) <==> Less(a, b) || (a == b && (Less(m, n) || (m == n && Less(x, y))))
  {
    var u, v := m + "-" + x, n + "-" + y;
    FieldOrder(m, n, x, y);
    FieldOrder(a, b, u, v);
    FirstDash(s, a, m, x, u);
    FirstDash(t, b, n, y, v);
  }

  /** Date texts sort as the dates do. */
  lemma DateTextOrder(d: Date, e: Date)
    requires Valid(d) && Valid(e) && 0 <= d.year <= 9999 && 0 <= e.year <= 9999
    ensures Less(DateText(d), DateText(e)) <==> Earlier(d, e)
  {
    Pow10Values();
    PaddedOrder(d.year, e.year, 4);
    PaddedOrder(d.month, e.month, 2);
    PaddedOrder(d.day, e.day, 2);
    ThreeFields(DateText(d), DateText(e), Padded(d.year, 4), Padded(e.year, 4), Padded(d.month, 2), Padded(e.month, 2),
      Padded(d.day, 2), Padded(e.day, 2));
  }

  lemma SameDateText(d: Date, e: Date)
    requires Valid(d) && Valid(e) && 0 <= d.year <= 9999 && 0 <= e.year <= 9999
    ensures |DateText(d)| == |DateText(e)| && (DateText(d) == DateText(e) <==> d == e)
  {
    DateFields(d);
    DateFields(e);
  }

  /**
   The retention cutoff: a CURRENT_TIMESTAMP text is below an RFC 3339 text exactly
   when its day is not after the other's, whatever the two times of day are.
   */
  lemma TextBeforeIsDayOrder(received: nat, cutoff: nat, time: string, rest: string)
    requires received <= LAST && cutoff <= LAST
    ensures var a := DateText(DaysToYmd(received / DAY_SECS)) + " " + time;
            var b := DateText(DaysToYmd(cutoff / DAY_SECS)) + "T" + rest;
            Less(a, b) <==> received / DAY_SECS <= cutoff / DAY_SECS
  {
    YearFits(received / DAY_SECS);
    YearFits(cutoff / DAY_SECS);
    StampOrder(DaysToYmd(received / DAY_SECS), DaysToYmd(cutoff / DAY_SECS), time, rest);
  }

  lemma StampOrder(d: Date, e: Date, time: string, rest: string)
    requires Valid(d) && Valid(e) && 0 <= d.year <= 9999 && 0 <= e.year <= 9999
    ensures Less(DateText(d) + " " + time, DateText(e) + "T" + rest) <==> DayNumber(d) <= DayNumber(e)
  {
    DateTextOrder(d, e);
    SameDateText(d, e);
    DateOrder(d, e);
    DateOrder(e, d);
    assert DateText(d) + " " + time == DateText(d) + (" " + time);
    assert DateText(e) + "T" + rest == DateText(e) + ("T" + rest);
    LessAppend(DateText(d), DateText(e), " " + time, "T" + rest);
    assert Less(" " + time, "T" + rest);
  }
}
