/** The reference year of the fixed-format weather file: 2015, not a leap year,
    8760 hourly records starting at 2015-01-01 00:00 in UTC+1. Timestamps are
    minutes since that first record. */
module Calendar {

  const HoursPerYear: nat := 8760
  const MinutesPerHour: int := 60

  /** Days before the first of month `m` (`m == 13` gives the length of the year). */
  function DaysBefore(m: int): nat
    requires 1 <= m <= 13
  {
    [0, 31, 59, 90, 120, 151, 181, 212, 243, 273, 304, 334, 365][m - 1]
  }

  function MonthLength(m: int): nat
    requires 1 <= m <= 12
  {
    DaysBefore(m + 1) - DaysBefore(m)
  }

  /** The month containing the zero-based day of year `d`, searching from month `m`. */
  function MonthFrom(d: nat, m: int): (r: int)
    requires 1 <= m <= 12 && DaysBefore(m) <= d < 365
    ensures m <= r <= 12
    ensures DaysBefore(r) <= d < DaysBefore(r + 1)
    decreases 12 - m
  {
    if d < DaysBefore(m + 1) then m else MonthFrom(d, m + 1)
  }

  /** A calendar position within the reference year. */
  datatype Date = Date(month: int, day: int, hour: int)

  predicate ValidDate(dt: Date) {
    && 1 <= dt.month <= 12
    && 1 <= dt.day <= MonthLength(dt.month)
    && 0 <= dt.hour < 24
  }

  /** Zero-based hour index of a calendar position. */
  function HourIndex(dt: Date): int
    requires ValidDate(dt)
  {
    (DaysBefore(dt.month) + dt.day - 1) * 24 + dt.hour
  }

  /** Month, day and hour of the `i`-th hourly record (pandas' `dt.month`, `dt.day`,
      `dt.hour` of the 2015 date range). */
  function DateOfHour(i: nat): (dt: Date)
    requires i < HoursPerYear
    ensures ValidDate(dt)
    ensures dt.hour == i % 24
    ensures HourIndex(dt) == i
  {
    var d := i / 24;
    var m := MonthFrom(d, 1);
    Date(m, d - DaysBefore(m) + 1, i % 24)
  }

  /** Every calendar position of the year is the date of exactly its own hour index. */
  lemma DateOfHourIndex(dt: Date)
    requires ValidDate(dt)
    ensures 0 <= HourIndex(dt) < HoursPerYear
    ensures DateOfHour(HourIndex(dt)) == dt
  {
    var i := HourIndex(dt);
    var d := DaysBefore(dt.month) + dt.day - 1;
    assert i / 24 == d && i % 24 == dt.hour;
    var dt' := DateOfHour(i);
    assert HourIndex(dt') == i;
    MonthUnique(d, dt.month, dt'.month);
  }

  lemma MonthUnique(d: nat, m1: int, m2: int)
    requires 1 <= m1 <= 12 && 1 <= m2 <= 12
    requires DaysBefore(m1) <= d < DaysBefore(m1 + 1)
    requires DaysBefore(m2) <= d < DaysBefore(m2 + 1)
    ensures m1 == m2
  {
    DaysBeforeMonotone(m1, m2);
    DaysBeforeMonotone(m2, m1);
  }

  lemma DaysBeforeMonotone(a: int, b: int)
    requires 1 <= a <= 12 && 1 <= b <= 12
    ensures a < b ==> DaysBefore(a + 1) <= DaysBefore(b)
  {
  }
}
