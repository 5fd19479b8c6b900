/** Calendar dates as JavaScript's `Date` handles them: a proleptic Gregorian
    calendar date with a time of day, compared by its millisecond timestamp
    (`getTime()`), and the setters `setDate`, `setMonth`, `setFullYear`, which
    accept out-of-range values and roll them over into the neighbouring months.
    The calendar fields are taken in UTC (the device's time zone is not modelled). */
module Dates {

  const MS_PER_DAY: int := 86_400_000
  /** Days from 0000-01-01 to 1970-01-01. */
  const UNIX_EPOCH_DAY: int := 719_528

  /** `month` counts from 0 like `getMonth()`; `day` from 1 like `getDate()`. */
  datatype DateTime = DateTime(year: int, month: int, day: int, msOfDay: int)

  predicate IsLeapYear(y: int) {
    (y % 4 == 0 && y % 100 != 0) || y % 400 == 0
  }

  function DaysInYear(y: int): int {
    if IsLeapYear(y) then 366 else 365
  }

  function DaysInMonth(y: int, m: int): (n: int)
    requires 0 <= m < 12
    ensures 28 <= n <= 31
    ensures m != 1 ==> n >= 30
  {
    if m == 1 then (if IsLeapYear(y) then 29 else 28)
    else if m == 3 || m == 5 || m == 8 || m == 10 then 30
    else 31
  }

  predicate IsValid(d: DateTime) {
    && 0 <= d.month < 12
    && 1 <= d.day <= DaysInMonth(d.year, d.month)
    && 0 <= d.msOfDay < MS_PER_DAY
  }

  /** A date that some `Date` object holds: every field in range. */
  type Date = d: DateTime | IsValid(d) witness DateTime(1970, 0, 1, 0)

  /** Days from 0000-01-01 to January 1 of year `y` (negative before year 0). */
  function DaysBeforeYear(y: int): int {
    365 * y + (y + 3) / 4 - (y + 99) / 100 + (y + 399) / 400
  }

  /** Each of the three leap-day counts of `DaysBeforeYear` grows by one
      exactly past a year divisible by its period. */
  lemma QuadrennialStep(y: int)
    ensures (y + 4) / 4 - (y + 3) / 4 == if y % 4 == 0 then 1 else 0
  {
  }

  lemma CentennialStep(y: int)
    ensures (y + 100) / 100 - (y + 99) / 100 == if y % 100 == 0 then 1 else 0
  {
  }

  lemma QuadricentennialStep(y: int)
    ensures (y + 400) / 400 - (y + 399) / 400 == if y % 400 == 0 then 1 else 0
  {
  }

  /** A multiple of 400 is a multiple of 100, and a multiple of 100 one of 4. */
  lemma PeriodsNest(y: int)
    ensures y % 400 == 0 ==> y % 100 == 0
    ensures y % 100 == 0 ==> y % 4 == 0
  {
    if y % 400 == 0 {
      HundredDivides(y, 4 * (y / 400));
    }
    if y % 100 == 0 {
      FourDivides(y, 25 * (y / 100));
    }
  }

  /** A multiple of 100 leaves no remainder. */
  lemma HundredDivides(y: int, q: int)
    requires y == 100 * q
    ensures y % 100 == 0
  {
  }

  /** A multiple of 4 leaves no remainder. */
  lemma FourDivides(y: int, q: int)
    requires y == 4 * q
    ensures y % 4 == 0
  {
  }


  lemma YearLength(y: int)
    ensures DaysBeforeYear(y + 1) == DaysBeforeYear(y) + DaysInYear(y)
  {
    QuadrennialStep(y);
    CentennialStep(y);
    QuadricentennialStep(y);
    PeriodsNest(y);
    var a, b, c := (y + 4) / 4 - (y + 3) / 4, (y + 100) / 100 - (y + 99) / 100, (y + 400) / 400 - (y + 399) / 400;
    assert DaysBeforeYear(y + 1) - DaysBeforeYear(y) == 365 + a - b + c;
  }

  /** Days from January 1 to the first day of month `m` of year `y`. */
  function DaysBeforeMonth(y: int, m: int): int
    requires 0 <= m < 12
  {
    if m == 0 then 0 else DaysBeforeMonth(y, m - 1) + DaysInMonth(y, m - 1)
  }

  /** The twelve months fill the year. */
  lemma MonthsFillYear(y: int)
    ensures DaysBeforeMonth(y, 11) + DaysInMonth(y, 11) == DaysInYear(y)
  {
    var leap := if IsLeapYear(y) then 1 else 0;
    assert DaysBeforeMonth(y, 1) == 31;
    assert DaysBeforeMonth(y, 2) == 59 + leap;
    assert DaysBeforeMonth(y, 3) == 90 + leap;
    assert DaysBeforeMonth(y, 4) == 120 + leap;
    assert DaysBeforeMonth(y, 5) == 151 + leap;
    assert DaysBeforeMonth(y, 6) == 181 + leap;
    assert DaysBeforeMonth(y, 7) == 212 + leap;
    assert DaysBeforeMonth(y, 8) == 243 + leap;
    assert DaysBeforeMonth(y, 9) == 273 + leap;
    assert DaysBeforeMonth(y, 10) == 304 + leap;
    assert DaysBeforeMonth(y, 11) == 334 + leap;
  }

  /** The day number (days since 0000-01-01) of the first day of month `m` of year `y`. */
  function MonthStart(y: int, m: int): int
    requires 0 <= m < 12
  {
    DaysBeforeYear(y) + DaysBeforeMonth(y, m)
  }

  function NextMonth(y: int, m: int): (r: (int, int))
    requires 0 <= m < 12
    ensures 0 <= r.1 < 12 && 12 * r.0 + r.1 == 12 * y + m + 1
  {
    if m == 11 then (y + 1, 0) else (y, m + 1)
  }

  function PrevMonth(y: int, m: int): (r: (int, int))
    requires 0 <= m < 12
    ensures 0 <= r.1 < 12 && NextMonth(r.0, r.1) == (y, m)
  {
    if m == 0 then (y - 1, 11) else (y, m - 1)
  }

  lemma NextMonthStart(y: int, m: int)
    requires 0 <= m < 12
    ensures MonthStart(NextMonth(y, m).0, NextMonth(y, m).1) == MonthStart(y, m) + DaysInMonth(y, m)
  {
    if m == 11 {
      YearLength(y);
      MonthsFillYear(y);
    }
  }

  /** Days since 0000-01-01. */
  function DayNumber(d: Date): int {
    CalendarDays(d, 1)
  }

  /** The day count of `d` reached after `k` further unfoldings. The
      indirection keeps the calendar arithmetic out of the proofs that only
      compare dates; `DayNumberIs` states it where a proof computes with it. */
  function CalendarDays(d: Date, k: nat): int {
    if k == 0 then MonthStart(d.year, d.month) + d.day - 1 else CalendarDays(d, k - 1)
  }

  lemma DayNumberIs(d: Date)
    ensures DayNumber(d) == MonthStart(d.year, d.month) + d.day - 1
  {
    assert CalendarDays(d, 0) == MonthStart(d.year, d.month) + d.day - 1;
  }

  /** `getTime()`: milliseconds since 1970-01-01T00:00:00Z. */
  function EpochMs(d: Date): int {
    (DayNumber(d) - UNIX_EPOCH_DAY) * MS_PER_DAY + d.msOfDay
  }

  /** `a <= b` on two `Date` objects. */
  predicate NotAfter(a: Date, b: Date) {
    EpochMs(a) <= EpochMs(b)
  }

  /** The date `d - 1` days after the first of month `m` of year `y`, for any
      integer `d`: how `new Date(y, m, d)` and the setters roll a day that is
      out of range over into the neighbouring months. */
  function Normalize(y: int, m: int, d: int, ms: int): (r: Date)
    requires 0 <= m < 12 && 0 <= ms < MS_PER_DAY
    ensures DayNumber(r) == MonthStart(y, m) + d - 1
    ensures r.msOfDay == ms
    decreases if d < 1 then 1 else 0, if d < 1 then -d else d
  {
    if d < 1 then
      var p := PrevMonth(y, m);
      NextMonthStart(p.0, p.1);
      Normalize(p.0, p.1, d + DaysInMonth(p.0, p.1), ms)
    else if d > DaysInMonth(y, m) then
      var n := NextMonth(y, m);
      NextMonthStart(y, m);
      Normalize(n.0, n.1, d - DaysInMonth(y, m), ms)
    else
      DayNumberIs(DateTime(y, m, d, ms));
      DateTime(y, m, d, ms)
  }

  /** The year and month `n` months after month `m` of year `y`, as
      `setMonth(m + n)` computes them. */
  function MonthsLater(y: int, m: int, n: int): (r: (int, int))
    ensures 0 <= r.1 < 12 && 12 * r.0 + r.1 == 12 * y + m + n
  {
    (y + (m + n) / 12, (m + n) % 12)
  }

  /** `addWeeks` (recurringProcessor.ts): `setDate(getDate() + weeks * 7)`. */
  function AddWeeks(d: Date, weeks: int): (r: Date)
    ensures DayNumber(r) == DayNumber(d) + 7 * weeks
    ensures r.msOfDay == d.msOfDay
  {
    DayNumberIs(d);
    Normalize(d.year, d.month, d.day + 7 * weeks, d.msOfDay)
  }

  /** `addMonths`: `setMonth(getMonth() + months)`. The day of the month is
      kept; if the target month is too short the surplus days spill into the
      month after it (January 31 plus one month is March 2 or 3). */
  function AddMonths(d: Date, months: int): (r: Date)
    ensures r.msOfDay == d.msOfDay
    ensures var t := MonthsLater(d.year, d.month, months);
      if d.day <= DaysInMonth(t.0, t.1) then r == DateTime(t.0, t.1, d.day, d.msOfDay)
      else r == DateTime(NextMonth(t.0, t.1).0, NextMonth(t.0, t.1).1, d.day - DaysInMonth(t.0, t.1), d.msOfDay)
  {
    var t := MonthsLater(d.year, d.month, months);
    var n := NextMonth(t.0, t.1);
    assert d.day > DaysInMonth(t.0, t.1) ==>
      Normalize(t.0, t.1, d.day, d.msOfDay) == Normalize(n.0, n.1, d.day - DaysInMonth(t.0, t.1), d.msOfDay);
    Normalize(t.0, t.1, d.day, d.msOfDay)
  }

  /** `addYears`: `setFullYear(getFullYear() + years)`. Month and day are
      kept, except that February 29 becomes March 1 in a common year. */
  function AddYears(d: Date, years: int): (r: Date)
    ensures r.msOfDay == d.msOfDay
    ensures d.day <= DaysInMonth(d.year + years, d.month) ==> r == DateTime(d.year + years, d.month, d.day, d.msOfDay)
    ensures d.day > DaysInMonth(d.year + years, d.month) ==>
      d.month == 1 && d.day == 29 && r == DateTime(d.year + years, 2, 1, d.msOfDay)
  {
    Normalize(d.year + years, d.month, d.day, d.msOfDay)
  }

  /** The first days of months grow by at least 28 days per month: month
      `b` is `k` months after month `a`. */
  lemma {:induction false} MonthStartGrows(a: (int, int), b: (int, int), k: nat)
    requires 0 <= a.1 < 12 && 0 <= b.1 < 12
    requires 12 * b.0 + b.1 == 12 * a.0 + a.1 + k
    ensures MonthStart(b.0, b.1) >= MonthStart(a.0, a.1) + 28 * k
    decreases k
  {
    if k > 0 {
      var p := PrevMonth(b.0, b.1);
      MonthStartGrows(a, p, k - 1);
      NextMonthStart(p.0, p.1);
    }
  }

  lemma AddWeeksIsLater(d: Date, weeks: int)
    requires weeks >= 1
    ensures EpochMs(AddWeeks(d, weeks)) > EpochMs(d)
  {
  }

  lemma {:induction false} AddMonthsIsLater(d: Date, months: int)
    requires months >= 1
    ensures EpochMs(AddMonths(d, months)) > EpochMs(d)
  {
    MonthStartGrows((d.year, d.month), MonthsLater(d.year, d.month, months), months);
    DayNumberIs(d);
    DayNumberIs(AddMonths(d, months));
  }

  lemma {:induction false} AddYearsIsLater(d: Date, years: int)
    requires years >= 1
    ensures EpochMs(AddYears(d, years)) > EpochMs(d)
  {
    MonthStartGrows((d.year, d.month), (d.year + years, d.month), 12 * years);
    DayNumberIs(d);
    DayNumberIs(AddYears(d, years));
  }
}
