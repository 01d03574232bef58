/**
 * Gregorian calendar arithmetic on integer day numbers.
 *
 * The calendar code works with JavaScript `Date` values and the date-fns helpers
 * `addDays`, `getDay`, `getDate`, `getMonth` and `format(…, 'yyyy-MM-dd')`. Here a
 * date is a day number (Rata Die: day 1 is Monday 0001-01-01 of the proleptic
 * Gregorian calendar), so adding days is integer addition and the weekday is the
 * day number modulo 7, with 0 for Sunday as `getDay` reports it. A `CivilDate`
 * is the (year, month, day) triple that a `YYYY-MM-DD` key spells out; `DayOf`
 * numbers it, and the lemmas below show that this numbering is consecutive and
 * one-to-one on real dates, so keying a map by day number is keying it by the
 * ISO date string.
 */
module Gregorian {

  type Day = int

  datatype CivilDate = CivilDate(year: int, month: int, day: int)

  predicate IsLeapYear(y: int) {
    y % 4 == 0 && (y % 100 != 0 || y % 400 == 0)
  }

  function DaysInMonth(y: int, m: int): (n: int)
    requires 1 <= m <= 12
    ensures 28 <= n <= 31
    ensures n == 29 <==> m == 2 && IsLeapYear(y)
  {
    if m == 2 then (if IsLeapYear(y) then 29 else 28)
    else if m == 4 || m == 6 || m == 9 || m == 11 then 30
    else 31
  }

  function DaysInYear(y: int): int {
    if IsLeapYear(y) then 366 else 365
  }

  predicate ValidDate(c: CivilDate) {
    1 <= c.month <= 12 && 1 <= c.day <= DaysInMonth(c.year, c.month)
  }

  /** Days of the years before `y`, counted from the start of year 1. */
  function DaysBeforeYear(y: int): int {
    var p := y - 1;
    365 * p + p / 4 - p / 100 + p / 400
  }

  /** Days of the months of year `y` before month `m`. */
  function DaysBeforeMonth(y: int, m: int): int
    requires 1 <= m <= 12
  {
    var leap := if m > 2 && IsLeapYear(y) then 1 else 0;
    leap + (
      if m == 1 then 0 else if m == 2 then 31 else if m == 3 then 59
      else if m == 4 then 90 else if m == 5 then 120 else if m == 6 then 151
      else if m == 7 then 181 else if m == 8 then 212 else if m == 9 then 243
      else if m == 10 then 273 else if m == 11 then 304 else 334)
  }

  /** The day number of a civil date (`new Date(y, m - 1, d)` reduced to its day). */
  function DayOf(c: CivilDate): Day
    requires 1 <= c.month <= 12
  {
    DaysBeforeYear(c.year) + DaysBeforeMonth(c.year, c.month) + c.day
  }

  /** `getDay`: 0 = Sunday, 1 = Monday, …, 6 = Saturday. */
  function Weekday(d: Day): (w: int)
    ensures 0 <= w < 7
  {
    d % 7
  }

  const Sunday := 0
  const Monday := 1
  const Saturday := 6

  /** The civil date that follows `c`. */
  function NextDate(c: CivilDate): CivilDate
    requires ValidDate(c)
  {
    if c.day < DaysInMonth(c.year, c.month) then CivilDate(c.year, c.month, c.day + 1)
    else if c.month < 12 then CivilDate(c.year, c.month + 1, 1)
    else CivilDate(c.year + 1, 1, 1)
  }

  /** `a` comes strictly before `b` in (year, month, day) order, which is the order of their ISO strings. */
  predicate Before(a: CivilDate, b: CivilDate) {
    a.year < b.year
    || (a.year == b.year && a.month < b.month)
    || (a.year == b.year && a.month == b.month && a.day < b.day)
  }

  lemma YearLength(y: int)
    ensures DaysBeforeYear(y + 1) == DaysBeforeYear(y) + DaysInYear(y)
  {
    var p := y - 1;
    assert y / 4 == p / 4 + (if y % 4 == 0 then 1 else 0);
    assert y / 100 == p / 100 + (if y % 100 == 0 then 1 else 0);
    assert y / 400 == p / 400 + (if y % 400 == 0 then 1 else 0);
  }

  lemma MonthLength(y: int, m: int)
    requires 1 <= m < 12
    ensures DaysBeforeMonth(y, m + 1) == DaysBeforeMonth(y, m) + DaysInMonth(y, m)
  {
  }

  lemma LastMonthLength(y: int)
    ensures DaysBeforeMonth(y, 12) + DaysInMonth(y, 12) == DaysInYear(y)
  {
  }

  /** Day numbers are consecutive: the next civil date has the next day number. */
  lemma DayOfNext(c: CivilDate)
    requires ValidDate(c)
    ensures ValidDate(NextDate(c))
    ensures DayOf(NextDate(c)) == DayOf(c) + 1
  {
    if c.day == DaysInMonth(c.year, c.month) {
      if c.month < 12 {
        MonthLength(c.year, c.month);
      } else {
        YearLength(c.year);
        LastMonthLength(c.year);
      }
    }
  }

  /** A valid date's day number lies inside its own year. */
  lemma DayOfWithinYear(c: CivilDate)
    requires ValidDate(c)
    ensures DaysBeforeYear(c.year) < DayOf(c) <= DaysBeforeYear(c.year) + DaysInYear(c.year)
  {
    if c.month < 12 {
      DaysBeforeMonthBound(c.year, c.month + 1);
      MonthLength(c.year, c.month);
    } else {
      LastMonthLength(c.year);
    }
  }

  lemma DaysBeforeMonthBound(y: int, m: int)
    requires 1 <= m <= 12
    ensures DaysBeforeMonth(y, m) <= DaysInYear(y) - 31
  {
  }

  lemma {:induction false} DaysBeforeYearMonotone(a: int, b: int)
    requires a < b
    ensures DaysBeforeYear(a) + DaysInYear(a) <= DaysBeforeYear(b)
    decreases b - a
  {
    YearLength(a);
    if a + 1 < b {
      DaysBeforeYearMonotone(a + 1, b);
    }
  }

  lemma DaysBeforeMonthMonotone(y: int, m: int, n: int)
    requires 1 <= m < n <= 12
    ensures DaysBeforeMonth(y, m) + DaysInMonth(y, m) <= DaysBeforeMonth(y, n)
  {
  }

  /** The day numbering preserves the calendar order of real dates. */
  lemma DayOfStrictlyMonotone(a: CivilDate, b: CivilDate)
    requires ValidDate(a) && ValidDate(b)
    requires Before(a, b)
    ensures DayOf(a) < DayOf(b)
  {
    if a.year < b.year {
      DayOfWithinYear(a);
      DayOfWithinYear(b);
      DaysBeforeYearMonotone(a.year, b.year);
    } else if a.month < b.month {
      DaysBeforeMonthMonotone(a.year, a.month, b.month);
    }
  }

  /** Two real dates with the same day number are the same date, so day-number keys stand for ISO date keys. */
  lemma DayOfInjective(a: CivilDate, b: CivilDate)
    requires ValidDate(a) && ValidDate(b)
    requires DayOf(a) == DayOf(b)
    ensures a == b
  {
    if Before(a, b) {
      DayOfStrictlyMonotone(a, b);
    } else if Before(b, a) {
      DayOfStrictlyMonotone(b, a);
    }
  }

  lemma WeekdayShift(d: Day, k: int)
    requires 0 <= k
    ensures Weekday(d + k) == (Weekday(d) + k) % 7
  {
  }

  /** Two days fall on the same weekday exactly when they are a whole number of weeks apart. */
  lemma SameWeekday(a: Day, t: Day)
    requires a <= t
    ensures Weekday(a) == Weekday(t) <==> (t - a) % 7 == 0
  {
    var k := t - a;
    var q, r := k / 7, k % 7;
    assert k == 7 * q + r;
    WeekdayShift(a, r);
    assert t == (a + r) + 7 * q;
    assert Weekday(t) == Weekday(a + r);
  }

  // ---------------------------------------------------------------------------
  // From a day number back to its civil date

  /** The year holding day `d`, searched upward from a year `y` that starts before `d`. */
  function YearFrom(d: Day, y: int): (year: int)
    requires DaysBeforeYear(y) < d
    ensures DaysBeforeYear(year) < d <= DaysBeforeYear(year) + DaysInYear(year)
    decreases d - DaysBeforeYear(y)
  {
    YearLength(y);
    if d <= DaysBeforeYear(y) + DaysInYear(y) then y else YearFrom(d, y + 1)
  }

  /** The year holding day `d`, searched downward from a year `y` that ends on or after `d`. */
  function YearBelow(d: Day, y: int): (year: int)
    requires d <= DaysBeforeYear(y) + DaysInYear(y)
    ensures DaysBeforeYear(year) < d <= DaysBeforeYear(year) + DaysInYear(year)
    decreases DaysBeforeYear(y) + DaysInYear(y) - d
  {
    YearLength(y - 1);
    if DaysBeforeYear(y) < d then y else YearBelow(d, y - 1)
  }

  /** The month of year `y` holding the `r`-th day of the year, searched from month `m` on. */
  function MonthFrom(y: int, r: int, m: int): (month: int)
    requires 1 <= m <= 12 && DaysBeforeMonth(y, m) < r <= DaysInYear(y)
    ensures m <= month <= 12
    ensures DaysBeforeMonth(y, month) < r <= DaysBeforeMonth(y, month) + DaysInMonth(y, month)
    decreases 12 - m
  {
    if m == 12 || r <= DaysBeforeMonth(y, m) + DaysInMonth(y, m) then m
    else MonthLength(y, m); MonthFrom(y, r, m + 1)
  }

  /** The civil date with day number `d`: what `format(date, 'yyyy-MM-dd')` spells for a grid cell. */
  function CivilOf(d: Day): (c: CivilDate)
    ensures ValidDate(c) && DayOf(c) == d
  {
    var y := if DaysBeforeYear(1) < d then YearFrom(d, 1) else YearBelow(d, 1);
    var m := MonthFrom(y, d - DaysBeforeYear(y), 1);
    CivilDate(y, m, d - DaysBeforeYear(y) - DaysBeforeMonth(y, m))
  }

  /** `CivilOf` and `DayOf` are inverse on real dates. */
  lemma CivilOfDayOf(c: CivilDate)
    requires ValidDate(c)
    ensures CivilOf(DayOf(c)) == c
  {
    DayOfInjective(CivilOf(DayOf(c)), c);
  }

  /** Anchors of the numbering against the real calendar: 2024-01-01 was a Monday, 2024-02-10 a Saturday. */
  lemma KnownWeekdays()
    ensures Weekday(DayOf(CivilDate(2024, 1, 1))) == Monday
    ensures Weekday(DayOf(CivilDate(2024, 2, 10))) == Saturday
    ensures Weekday(DayOf(CivilDate(2024, 2, 11))) == Sunday
  {
  }
}
