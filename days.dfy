/** Calendar days as abstract day numbers. Day 0 is Monday 1 January 2001, so
    the ISO 8601 weekday (Monday first) of a day is its number modulo 7. The
    proleptic Gregorian calendar gives months their first day and length. */
module DayNumbers {

  /** A calendar day, counted from Monday 2001-01-01. */
  type Day = int

  /** ISO 8601 weekday with Monday first: 0 = Monday, ..., 6 = Sunday. */
  function Weekday(d: Day): (w: nat)
    ensures w < 7
  {
    d % 7
  }

  /** JavaScript's `Date.prototype.getDay()`: 0 = Sunday, 1 = Monday, ..., 6 = Saturday. */
  function JsGetDay(d: Day): (w: nat)
    ensures w < 7
  {
    (d + 1) % 7
  }

  lemma NextDayWeekday(d: Day)
    ensures Weekday(d + 1) == (Weekday(d) + 1) % 7
  {
  }

  /** `startOfWeek(d, { weekStartsOn: 1 })`: the Monday on or before `d`. */
  function StartOfWeek(d: Day): (r: Day)
    ensures Weekday(r) == 0 && r <= d < r + 7
  {
    d - Weekday(d)
  }

  /** `endOfWeek(d, { weekStartsOn: 1 })`: the Sunday on or after `d`. */
  function EndOfWeek(d: Day): (r: Day)
    ensures Weekday(r) == 6 && r - 7 < d <= r
  {
    d + 6 - Weekday(d)
  }

  // ---------------------------------------------------------------------
  // Years and months

  /** A month as JavaScript counts it: `month` is `getMonth()`, 0 = January. */
  datatype YearMonth = YearMonth(year: int, month: int)
  {
    predicate Valid() { 0 <= month < 12 }
  }

  predicate IsLeap(y: int)
  {
    y % 4 == 0 && (y % 100 != 0 || y % 400 == 0)
  }

  function MonthLength(ym: YearMonth): (n: nat)
    requires ym.Valid()
    ensures 28 <= n <= 31
  {
    var m := ym.month;
    if m == 1 then (if IsLeap(ym.year) then 29 else 28)
    else if m == 3 || m == 5 || m == 8 || m == 10 then 30
    else 31
  }

  /** Days from 0001-01-01 to the first day of the year after `y`, shifted. */
  function DaysThroughYear(y: int): int
  {
    365 * y + y / 4 - y / 100 + y / 400
  }

  function FirstDayOfYear(y: int): Day
  {
    DaysThroughYear(y - 1) - DaysThroughYear(2000)
  }

  /** Days of the year before the first day of the month. */
  function DaysBeforeMonth(ym: YearMonth): nat
    requires ym.Valid()
  {
    var common := [0, 31, 59, 90, 120, 151, 181, 212, 243, 273, 304, 334][ym.month];
    common + (if ym.month >= 2 && IsLeap(ym.year) then 1 else 0)
  }

  /** `startOfMonth`: the first day of the month. */
  function FirstDayOfMonth(ym: YearMonth): Day
    requires ym.Valid()
  {
    FirstDayOfYear(ym.year) + DaysBeforeMonth(ym)
  }

  /** `endOfMonth`: the last day of the month. */
  function LastDayOfMonth(ym: YearMonth): (r: Day)
    requires ym.Valid()
    ensures r >= FirstDayOfMonth(ym) + 27
  {
    FirstDayOfMonth(ym) + MonthLength(ym) - 1
  }

  /** `isSameMonth(d, ym)` */
  predicate InMonth(d: Day, ym: YearMonth)
    requires ym.Valid()
  {
    FirstDayOfMonth(ym) <= d <= LastDayOfMonth(ym)
  }

  /** `addMonths(·, 1)` on the displayed month. */
  function NextMonth(ym: YearMonth): (r: YearMonth)
    requires ym.Valid()
    ensures r.Valid() && MonthIndex(r) == MonthIndex(ym) + 1
  {
    if ym.month == 11 then YearMonth(ym.year + 1, 0) else YearMonth(ym.year, ym.month + 1)
  }

  /** `subMonths(·, 1)` on the displayed month. */
  function PrevMonth(ym: YearMonth): (r: YearMonth)
    requires ym.Valid()
    ensures r.Valid() && MonthIndex(r) == MonthIndex(ym) - 1
  {
    if ym.month == 0 then YearMonth(ym.year - 1, 11) else YearMonth(ym.year, ym.month - 1)
  }

  /** Months counted from January of year 0, to compare months by distance. */
  function MonthIndex(ym: YearMonth): int
  {
    12 * ym.year + ym.month
  }

  lemma NextPrevInverse(ym: YearMonth)
    requires ym.Valid()
    ensures PrevMonth(NextMonth(ym)) == ym && NextMonth(PrevMonth(ym)) == ym
  {
  }

  lemma {:induction false} MulAtLeast(k: int, d: int)
    requires k > 0 && d >= 1
    ensures k * d >= k
    decreases d
  {
    if d > 1 {
      MulAtLeast(k, d - 1);
      assert k * d == k * (d - 1) + k;
    }
  }

  lemma DivUnique(a: int, k: int, q: int, r: int)
    requires k > 0 && a == k * q + r && 0 <= r < k
    ensures a / k == q
  {
    var d := q - a / k;
    assert k * d == a % k - r;
    if d >= 1 {
      MulAtLeast(k, d);
    } else if d <= -1 {
      MulAtLeast(k, -d);
    }
  }

  lemma DivStep(y: int, k: int)
    requires k > 0
    ensures y / k - (y - 1) / k == if y % k == 0 then 1 else 0
  {
    var q, r := y / k, y % k;
    if r == 0 {
      DivUnique(y - 1, k, q - 1, k - 1);
    } else {
      DivUnique(y - 1, k, q, r - 1);
    }
  }

  lemma YearLength(y: int)
    ensures FirstDayOfYear(y + 1) - FirstDayOfYear(y) == if IsLeap(y) then 366 else 365
  {
    DivStep(y, 4);
    DivStep(y, 100);
    DivStep(y, 400);
    assert y % 400 == 0 ==> y % 100 == 0 && y % 4 == 0;
    assert y % 100 == 0 ==> y % 4 == 0;
  }

  /** Consecutive months tile the day line: the next month starts the day after
      this month ends. */
  lemma MonthsTile(ym: YearMonth)
    requires ym.Valid()
    ensures FirstDayOfMonth(NextMonth(ym)) == LastDayOfMonth(ym) + 1
  {
    if ym.month == 11 {
      YearLength(ym.year);
    }
  }

  /** A date as written `yyyy-MM-dd`, with the month counted from 0. */
  datatype CivilDate = CivilDate(year: int, month: int, day: int)
  {
    predicate Valid()
    {
      YearMonth(year, month).Valid() && 1 <= day <= MonthLength(YearMonth(year, month))
    }
  }

  /** The day number of a civil date. */
  function DayOf(c: CivilDate): (d: Day)
    requires c.Valid()
    ensures InMonth(d, YearMonth(c.year, c.month))
  {
    FirstDayOfMonth(YearMonth(c.year, c.month)) + c.day - 1
  }

  /** The anchor of the numbering: 2001-01-01 is day 0, a Monday. */
  lemma EpochIsMonday()
    ensures DayOf(CivilDate(2001, 0, 1)) == 0 && Weekday(0) == 0
  {
  }
}
