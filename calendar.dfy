/**
 * Local civil dates and the two date-fns operations the schedule relies on:
 * `addWeeks`/`addDays`, which move by whole days and keep the time of day,
 * and `addMonths`, which moves to the same day of a later month, or to that
 * month's last day when it is shorter. Dates follow the proleptic Gregorian
 * calendar; a date is compared by its local millisecond count.
 */
module Calendar {

  const MsPerDay := 86400000

  /** A local date and time of day, as a JavaScript Date shows it through its getters. */
  datatype DateTime = DateTime(year: int, month: int, day: int, msOfDay: int)

  predicate IsLeapYear(y: int) {
    y % 4 == 0 && (y % 100 != 0 || y % 400 == 0)
  }

  function DaysInMonth(y: int, m: int): (n: int)
    requires 1 <= m <= 12
    ensures 28 <= n <= 31
    ensures n == 29 <==> m == 2 && IsLeapYear(y)
  {
    if m == 2 then (if IsLeapYear(y) then 29 else 28)
    else if m == 4 || m == 6 || m == 9 || m == 11 then 30
    else 31
  }

  predicate ValidDate(d: DateTime) {
    && 1 <= d.month <= 12
    && 1 <= d.day <= DaysInMonth(d.year, d.month)
    && 0 <= d.msOfDay < MsPerDay
  }

  /** A date that exists: what a Date object can hold. */
  type Date = d: DateTime | ValidDate(d) witness DateTime(1970, 1, 1, 0)

  function YearLength(y: int): int {
    if IsLeapYear(y) then 366 else 365
  }

  /** The days of year y before the first of month m. */
  function DaysBeforeMonth(y: int, m: int): (n: nat)
    requires 1 <= m <= 12
    ensures n <= 31 * (m - 1)
  {
    if m == 1 then 0 else DaysBeforeMonth(y, m - 1) + DaysInMonth(y, m - 1)
  }

  /** The days from 1 January of year 0 to 1 January of year y (negative before year 0). */
  function DaysBeforeYear(y: int): int {
    365 * y + (y + 3) / 4 - (y + 99) / 100 + (y + 399) / 400
  }

  /** The number of the day, counting 1 January of year 0 as day 0. */
  function DayNumber(d: Date): int {
    DaysBeforeYear(d.year) + DaysBeforeMonth(d.year, d.month) + d.day - 1
  }

  /** Milliseconds since the start of day 0, in local time. */
  function LocalMs(d: Date): int {
    DayNumber(d) * MsPerDay + d.msOfDay
  }

  /** Floor division by a constant steps up by one exactly when the numerator reaches a multiple. */
  lemma DivSteps(x: int)
    ensures (x + 4) / 4 - (x + 3) / 4 == (if x % 4 == 0 then 1 else 0)
    ensures (x + 100) / 100 - (x + 99) / 100 == (if x % 100 == 0 then 1 else 0)
    ensures (x + 400) / 400 - (x + 399) / 400 == (if x % 400 == 0 then 1 else 0)
  {
    var q4, r4 := x / 4, x % 4;
    assert x == 4 * q4 + r4;
    assert (x + 4) / 4 == q4 + 1;
    assert (x + 3) / 4 == (if r4 == 0 then q4 else q4 + 1);
    var q100, r100 := x / 100, x % 100;
    assert x == 100 * q100 + r100;
    assert (x + 100) / 100 == q100 + 1;
    assert (x + 99) / 100 == (if r100 == 0 then q100 else q100 + 1);
    var q400, r400 := x / 400, x % 400;
    assert x == 400 * q400 + r400;
    assert (x + 400) / 400 == q400 + 1;
    assert (x + 399) / 400 == (if r400 == 0 then q400 else q400 + 1);
  }

  /** One year further on the day count is that year's length later. */
  lemma YearStep(y: int)
    ensures DaysBeforeYear(y + 1) == DaysBeforeYear(y) + YearLength(y)
  {
    DivSteps(y);
  }

  /** The months of a year add up to its length. */
  lemma MonthsFillYear(y: int)
    ensures DaysBeforeMonth(y, 12) + DaysInMonth(y, 12) == YearLength(y)
  {
    assert DaysBeforeMonth(y, 2) == 31;
    assert DaysBeforeMonth(y, 3) == 31 + DaysInMonth(y, 2);
    assert DaysBeforeMonth(y, 4) == DaysBeforeMonth(y, 3) + 31;
    assert DaysBeforeMonth(y, 5) == DaysBeforeMonth(y, 4) + 30;
    assert DaysBeforeMonth(y, 6) == DaysBeforeMonth(y, 5) + 31;
    assert DaysBeforeMonth(y, 7) == DaysBeforeMonth(y, 6) + 30;
    assert DaysBeforeMonth(y, 8) == DaysBeforeMonth(y, 7) + 31;
    assert DaysBeforeMonth(y, 9) == DaysBeforeMonth(y, 8) + 31;
    assert DaysBeforeMonth(y, 10) == DaysBeforeMonth(y, 9) + 30;
    assert DaysBeforeMonth(y, 11) == DaysBeforeMonth(y, 10) + 31;
    assert DaysBeforeMonth(y, 12) == DaysBeforeMonth(y, 11) + 30;
  }

  /** The next calendar day at the same time of day. */
  function NextDay(d: Date): (r: Date)
    ensures DayNumber(r) == DayNumber(d) + 1 && r.msOfDay == d.msOfDay
  {
    if d.day < DaysInMonth(d.year, d.month) then
      DateTime(d.year, d.month, d.day + 1, d.msOfDay)
    else if d.month < 12 then
      DateTime(d.year, d.month + 1, 1, d.msOfDay)
    else
      YearStep(d.year);
      MonthsFillYear(d.year);
      DateTime(d.year + 1, 1, 1, d.msOfDay)
  }

  /** `addDays(d, n)`: n calendar days later, at the same local time of day. */
  function AddDays(d: Date, n: nat): (r: Date)
    ensures DayNumber(r) == DayNumber(d) + n && r.msOfDay == d.msOfDay
    decreases n
  {
    if n == 0 then d else AddDays(NextDay(d), n - 1)
  }

  /** `addWeeks(d, n)` */
  function AddWeeks(d: Date, n: nat): (r: Date)
    ensures DayNumber(r) == DayNumber(d) + 7 * n && r.msOfDay == d.msOfDay
  {
    AddDays(d, 7 * n)
  }

  /** The year and month one month after (y, m). */
  function NextMonth(y: int, m: int): (r: (int, int))
    requires 1 <= m <= 12
    ensures 1 <= r.1 <= 12
    ensures 12 * r.0 + r.1 == 12 * y + m + 1
  {
    if m < 12 then (y, m + 1) else (y + 1, 1)
  }

  /**
   * `addMonths(d, 1)`: the same day and time of the next month, clamped to
   * that month's last day.
   */
  function AddOneMonth(d: Date): (r: Date)
    ensures (r.year, r.month) == NextMonth(d.year, d.month)
    ensures r.day == (if d.day <= DaysInMonth(r.year, r.month) then d.day else DaysInMonth(r.year, r.month))
    ensures r.msOfDay == d.msOfDay
  {
    var (y, m) := NextMonth(d.year, d.month);
    var last := DaysInMonth(y, m);
    DateTime(y, m, if d.day <= last then d.day else last, d.msOfDay)
  }

  /** Moving forward by at least one day is strictly later, whatever the times of day. */
  lemma LaterDayIsLater(a: Date, b: Date)
    requires DayNumber(b) > DayNumber(a) && b.msOfDay == a.msOfDay
    ensures LocalMs(b) > LocalMs(a)
  {
    assert DayNumber(b) * MsPerDay >= (DayNumber(a) + 1) * MsPerDay;
  }

  /** Adding a positive number of days gives a strictly later date. */
  lemma AddDaysIsLater(d: Date, n: nat)
    requires n > 0
    ensures LocalMs(AddDays(d, n)) > LocalMs(d)
  {
    LaterDayIsLater(d, AddDays(d, n));
  }

  /** The month step lands on a strictly later day. */
  lemma AddOneMonthIsLater(d: Date)
    ensures DayNumber(AddOneMonth(d)) > DayNumber(d)
    ensures LocalMs(AddOneMonth(d)) > LocalMs(d)
  {
    var r := AddOneMonth(d);
    if d.month == 12 {
      YearStep(d.year);
      MonthsFillYear(d.year);
    }
    LaterDayIsLater(d, r);
  }

  /** A day that exists in the next month is kept. */
  lemma AddOneMonthKeepsDay(d: Date)
    requires d.day <= 28
    ensures AddOneMonth(d).day == d.day
  {
  }

  /** The 31st of January becomes the last day of February. */
  lemma AddOneMonthExample()
    ensures AddOneMonth(DateTime(2023, 1, 31, 0)) == DateTime(2023, 2, 28, 0)
    ensures AddOneMonth(DateTime(2024, 1, 31, 0)) == DateTime(2024, 2, 29, 0)
    ensures AddOneMonth(DateTime(2024, 12, 15, 0)) == DateTime(2025, 1, 15, 0)
  {
  }
}
