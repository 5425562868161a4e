/**
 The date arithmetic of the load harness (scripts/stress/src/main.rs), checked
 against the rules of the Gregorian calendar.
 */
module Calendar {

  const DAY_SECS: int := 86_400

  datatype Date = Date(year: int, month: int, day: int)

  // ----- the calendar's own rules -----

  predicate Leap(y: int) {
    y % 4 == 0 && (y % 100 != 0 || y % 400 == 0)
  }

  function MonthDays(y: int, m: int): int
    requires 1 <= m <= 12
  {
    if m == 2 then (if Leap(y) then 29 else 28)
    else if m == 4 || m == 6 || m == 9 || m == 11 then 30
    else 31
  }

  predicate Valid(d: Date) {
    1 <= d.month <= 12 && 1 <= d.day <= MonthDays(d.year, d.month)
  }

  function NextDate(d: Date): Date
    requires Valid(d)
  {
    if d.day < MonthDays(d.year, d.month) then Date(d.year, d.month, d.day + 1)
    else if d.month < 12 then Date(d.year, d.month + 1, 1)
    else Date(d.year + 1, 1, 1)
  }

  // ----- the harness's arithmetic -----

  /** Days before year `yoe` of a 400-year era that starts on 1 March. */
  function YearStart(yoe: int): int {
    365 * yoe + yoe / 4 - yoe / 100
  }

  function ShiftedMonth(m: int): int {
    if m > 2 then m - 3 else m + 9
  }

  /** `ymd_to_days`: days since 1970-01-01. */
  function YmdToDays(y: int, m: int, d: int): int {
    var y' := if m <= 2 then y - 1 else y;
    var era := y' / 400;
    var yoe := y' - era * 400;
    var doy := (153 * ShiftedMonth(m) + 2) / 5 + d - 1;
    var doe := yoe * 365 + yoe / 4 - yoe / 100 + doy;
    era * 146_097 + doe - 719_468
  }

  /** `days_to_ymd`. */
  function DaysToYmd(days: int): Date {
    var n := days + 719_468;
    var era := n / 146_097;
    var doe := n % 146_097;
    var yoe := (doe - doe / 1460 + doe / 36_524 - doe / 146_096) / 365;
    var y := yoe + era * 400;
    var doy := doe - (365 * yoe + yoe / 4 - yoe / 100);
    var mp := (5 * doy + 2) / 153;
    var d := doy - (153 * mp + 2) / 5 + 1;
    var m := if mp < 10 then mp + 3 else mp - 9;
    Date(if m <= 2 then y + 1 else y, m, d)
  }

  function DayNumber(d: Date): int {
    YmdToDays(d.year, d.month, d.day)
  }

  /** Day zero is the Unix epoch. */
  lemma Epoch()
    ensures DayNumber(Date(1970, 1, 1)) == 0
  {
  }

  lemma Multiple(k: int, d: int)
    requires k > 0
    ensures d >= 1 ==> k * d >= k
    ensures d <= -1 ==> k * d <= -k
  {
    if d >= 1 {
      assert k * (d - 1) >= 0;
    } else if d <= -1 {
      assert k * (-1 - d) >= 0;
    }
  }

  /** Division with remainder is unique. */
  lemma Quotient(n: int, k: int, q: int, r: int)
    requires k > 0 && n == k * q + r && 0 <= r < k
    ensures n / k == q && n % k == r
  {
    assert k * (n / k - q) == r - n % k;
    Multiple(k, n / k - q);
  }

  // ----- years that start on 1 March -----

  /** Days before 1 March of year y. */
  function Start(y: int): int {
    365 * y + y / 4 - y / 100 + y / 400
  }

  lemma FloorStep(y: int, k: int)
    requires k > 1
    ensures (y + 1) / k - y / k == if (y + 1) % k == 0 then 1 else 0
  {
    if y % k == k - 1 {
      Quotient(y + 1, k, y / k + 1, 0);
    } else {
      Quotient(y + 1, k, y / k, y % k + 1);
    }
  }

  /** The leap day, if there is one, ends the shifted year. */
  lemma StartStep(y: int)
    ensures Start(y + 1) - Start(y) == if Leap(y + 1) then 366 else 365
  {
    FloorStep(y, 4);
    FloorStep(y, 100);
    FloorStep(y, 400);
    var z := y + 1;
    if z % 400 == 0 {
      Quotient(z, 100, 4 * (z / 400), 0);
    }
    if z % 100 == 0 {
      Quotient(z, 4, 25 * (z / 100), 0);
    }
  }

  lemma StartGrows(a: int, b: int)
    requires a < b
    ensures Start(a + 1) <= Start(b)
  {
  }

  function ShiftedYear(d: Date): int {
    if d.month <= 2 then d.year - 1 else d.year
  }

  function DayOfYear(d: Date): int {
    (153 * ShiftedMonth(d.month) + 2) / 5 + d.day - 1
  }

  lemma EraForm(y: int)
    ensures var era, yoe := y / 400, y % 400;
            Start(y) == era * 146_097 + YearStart(yoe)
  {
    var era, yoe := y / 400, y % 400;
    Quotient(y, 4, 100 * era + yoe / 4, yoe % 4);
    Quotient(y, 100, 4 * era + yoe / 100, yoe % 100);
  }

  lemma DayNumberForm(d: Date)
    requires Valid(d)
    ensures DayNumber(d) == Start(ShiftedYear(d)) + DayOfYear(d) - 719_468
  {
    EraForm(ShiftedYear(d));
  }

  lemma DayOfYearRange(d: Date)
    requires Valid(d)
    ensures 0 <= DayOfYear(d) < Start(ShiftedYear(d) + 1) - Start(ShiftedYear(d))
  {
    StartStep(ShiftedYear(d));
  }

  // ----- the numbering is the calendar's -----

  /** The day after a date has the next number, in every month of every year. */
  lemma NextDay(d: Date)
    requires Valid(d)
    ensures Valid(NextDate(d)) && DayNumber(NextDate(d)) == DayNumber(d) + 1
  {
    DayNumberForm(d);
    DayNumberForm(NextDate(d));
    if d.day == MonthDays(d.year, d.month) && d.month == 2 {
      StartStep(ShiftedYear(d));
    } else {
      NextInYear(d);
    }
  }

  lemma NextInYear(d: Date)
    requires Valid(d) && !(d.day == MonthDays(d.year, d.month) && d.month == 2)
    ensures var e := NextDate(d);
            Valid(e) && ShiftedYear(e) == ShiftedYear(d) && DayOfYear(e) == DayOfYear(d) + 1
  {
  }

  predicate Earlier(d: Date, e: Date) {
    d.year < e.year || (d.year == e.year && (d.month < e.month || (d.month == e.month && d.day < e.day)))
  }

  lemma SameYearOrder(d: Date, e: Date)
    requires Valid(d) && Valid(e) && Earlier(d, e) && ShiftedYear(d) == ShiftedYear(e)
    ensures DayOfYear(d) < DayOfYear(e)
  {
    var a, b := ShiftedMonth(d.month), ShiftedMonth(e.month);
    if a < b {
      assert (153 * b + 2) / 5 >= (153 * (a + 1) + 2) / 5;
      assert a == 0 || a == 1 || a == 2 || a == 3 || a == 4 || a == 5 || a == 6 || a == 7 || a == 8 || a == 9 || a == 10;
    }
  }

  /** Day numbers follow the order of the calendar. */
  lemma DateOrder(d: Date, e: Date)
    requires Valid(d) && Valid(e)
    ensures DayNumber(d) < DayNumber(e) <==> Earlier(d, e)
  {
    OneWay(d, e);
    OneWay(e, d);
  }

  lemma YearGap(y: int, doy: int, z: int, doz: int)
    requires y < z && doy < Start(y + 1) - Start(y) && 0 <= doz
    ensures Start(y) + doy < Start(z) + doz
  {
    StartGrows(y, z);
  }

  lemma OneWay(d: Date, e: Date)
    requires Valid(d) && Valid(e)
    ensures Earlier(d, e) ==> DayNumber(d) < DayNumber(e)
  {
    if Earlier(d, e) {
      DayNumberForm(d);
      DayNumberForm(e);
      if ShiftedYear(d) == ShiftedYear(e) {
        SameYearOrder(d, e);
      } else {
        DayOfYearRange(d);
        DayOfYearRange(e);
        YearGap(ShiftedYear(d), DayOfYear(d), ShiftedYear(e), DayOfYear(e));
      }
    }
  }

  // ----- back from days to dates -----

  /** A day of an era that is not its last, as centuries c, four-year cycles q, years j and the days s past the cycles. */
  predicate EraSplit(c: int, q: int, s: int, j: int) {
    0 <= c < 4 && 0 <= q < 25 && 0 <= s < 1461 && (q == 24 ==> s < 1460) && j == if s == 1460 then 3 else s / 365
  }

  lemma SplitEra(doe: int) returns (c: int, q: int, s: int, j: int)
    requires 0 <= doe < 146_096
    ensures EraSplit(c, q, s, j) && doe == 36_524 * c + 1461 * q + s
  {
    c, q, s := doe / 36_524, doe % 36_524 / 1461, doe % 36_524 % 1461;
    j := if s == 1460 then 3 else s / 365;
  }

  /** The closed form of the year of the era. */
  lemma YearParts(c: int, q: int, s: int, j: int)
    requires EraSplit(c, q, s, j)
    ensures var doe := 36_524 * c + 1461 * q + s;
            (doe - doe / 1460 + doe / 36_524 - doe / 146_096) / 365 == 100 * c + 4 * q + j
  {
    var doe := 36_524 * c + 1461 * q + s;
    var over := 24 * c + q + s;
    var x := if over >= 1460 then 1 else 0;
    Quotient(doe, 1460, 25 * c + q + x, over - 1460 * x);
    Quotient(doe, 36_524, c, 1461 * q + s);
    Quotient(doe, 146_096, 0, doe);
    Quotient(doe - doe / 1460 + doe / 36_524, 365, 100 * c + 4 * q + j, s - x - 365 * j);
  }

  lemma StartOfParts(c: int, q: int, j: int)
    requires 0 <= c < 4 && 0 <= q < 25 && 0 <= j < 4
    ensures YearStart(100 * c + 4 * q + j) == 36_524 * c + 1461 * q + 365 * j
  {
    var yoe := 100 * c + 4 * q + j;
    Quotient(yoe, 4, 25 * c + q, j);
    Quotient(yoe, 100, c, 4 * q + j);
  }

  lemma LastDayOfEra(yoe: int)
    requires yoe == (146_096 - 146_096 / 1460 + 146_096 / 36_524 - 146_096 / 146_096) / 365
    ensures yoe == 399 && YearStart(yoe) == 146_096 - 365 && Leap(yoe + 1)
  {
  }

  /** The closed form finds the year of the era: the day falls in it, the 366th only if it ends in a leap day. */
  lemma YearOfEra(doe: int)
    requires 0 <= doe < 146_097
    ensures var yoe := (doe - doe / 1460 + doe / 36_524 - doe / 146_096) / 365;
            && 0 <= yoe < 400
            && 0 <= doe - YearStart(yoe) < if Leap(yoe + 1) then 366 else 365
  {
    var yoe := (doe - doe / 1460 + doe / 36_524 - doe / 146_096) / 365;
    if doe < 146_096 {
      var c, q, s, j := SplitEra(doe);
      YearParts(c, q, s, j);
      DayInYear(c, q, s, j, yoe);
    } else {
      LastDayOfEra(yoe);
    }
  }

  lemma DayInYear(c: int, q: int, s: int, j: int, yoe: int)
    requires EraSplit(c, q, s, j) && yoe == 100 * c + 4 * q + j
    ensures 0 <= yoe < 400
    ensures 0 <= 36_524 * c + 1461 * q + s - YearStart(yoe) < if Leap(yoe + 1) then 366 else 365
  {
    StartOfParts(c, q, j);
    if s == 1460 {
      LeapCycle(c, q);
    }
  }

  lemma LeapCycle(c: int, q: int)
    requires 0 <= c < 4 && 0 <= q < 24
    ensures Leap(100 * c + 4 * q + 4)
  {
    Quotient(100 * c + 4 * q + 4, 4, 25 * c + q + 1, 0);
    Quotient(100 * c + 4 * q + 4, 100, c, 4 * q + 4);
  }

  lemma LeapIsPeriodic(y: int, era: int)
    ensures Leap(y + 400 * era) == Leap(y)
  {
    Quotient(y + 400 * era, 4, y / 4 + 100 * era, y % 4);
    Quotient(y + 400 * era, 100, y / 100 + 4 * era, y % 100);
    Quotient(y + 400 * era, 400, y / 400 + era, y % 400);
  }

  lemma MonthOfYear(doy: int)
    requires 0 <= doy < 366
    ensures var mp := (5 * doy + 2) / 153;
            0 <= mp < 12 && (153 * mp + 2) / 5 <= doy < (153 * (mp + 1) + 2) / 5
  {
  }

  /** Day `doy` of the year that starts on 1 March of `y`. */
  function DateAt(y: int, doy: int): Date {
    var mp := (5 * doy + 2) / 153;
    var m := if mp < 10 then mp + 3 else mp - 9;
    Date(if m <= 2 then y + 1 else y, m, doy - (153 * mp + 2) / 5 + 1)
  }

  lemma DateOfYear(y: int, doy: int)
    requires 0 <= doy < if Leap(y + 1) then 366 else 365
    ensures var d := DateAt(y, doy);
            Valid(d) && ShiftedYear(d) == y && DayOfYear(d) == doy
  {
    MonthOfYear(doy);
    var mp := (5 * doy + 2) / 153;
    assert mp == 0 || mp == 1 || mp == 2 || mp == 3 || mp == 4 || mp == 5 || mp == 6 || mp == 7 || mp == 8 || mp == 9
           || mp == 10 || mp == 11;
  }

  /** The shifted year and the day in it that `DaysToYmd` computes. */
  function EraYear(doe: int): int {
    (doe - doe / 1460 + doe / 36_524 - doe / 146_096) / 365
  }

  lemma DaysForm(days: int, era: int, doe: int, y: int, doy: int)
    requires days + 719_468 == 146_097 * era + doe && 0 <= doe < 146_097
    requires y == EraYear(doe) + era * 400 && doy == doe - YearStart(EraYear(doe))
    ensures Start(y) + doy == days + 719_468
    ensures 0 <= doy < if Leap(y + 1) then 366 else 365
  {
    YearOfEra(doe);
    LeapIsPeriodic(EraYear(doe) + 1, era);
    Quotient(y, 400, era, EraYear(doe));
    EraForm(y);
  }

  /** Every day number has a valid date, and it is the right one. */
  lemma DaysRoundTrip(days: int)
    ensures Valid(DaysToYmd(days)) && DayNumber(DaysToYmd(days)) == days
  {
    var era, doe := (days + 719_468) / 146_097, (days + 719_468) % 146_097;
    var y, doy := EraYear(doe) + era * 400, doe - YearStart(EraYear(doe));
    YmdIsDateAt(days, era, doe, y, doy);
    DaysForm(days, era, doe, y, doy);
    DateOfYear(y, doy);
    DayNumberForm(DateAt(y, doy));
  }

  lemma YmdIsDateAt(days: int, era: int, doe: int, y: int, doy: int)
    requires era == (days + 719_468) / 146_097 && doe == (days + 719_468) % 146_097
    requires y == EraYear(doe) + era * 400 && doy == doe - YearStart(EraYear(doe))
    ensures DaysToYmd(days) == DateAt(y, doy)
  {
  }

  /** And every valid date comes back from its number. */
  lemma DateRoundTrip(d: Date)
    requires Valid(d)
    ensures DaysToYmd(DayNumber(d)) == d
  {
    var e := DaysToYmd(DayNumber(d));
    DaysRoundTrip(DayNumber(d));
    DateOrder(d, e);
    DateOrder(e, d);
  }
}
