// Local calendar dates and times as plain numbers.
// A `Date` holds what `getFullYear`, `getMonth() + 1` and `getDate` report; days are counted
// from 1970-01-01 (a Thursday) in the proleptic Gregorian calendar, so `setDate` with an
// out-of-range day, `new Date(y, m, 0)` and adding days all become day-number arithmetic.
module Calendar {
  /** Milliseconds in a day. */
  const DayMs := 86400000

  datatype Date = Date(year: int, month: int, day: int)

  /** A local date and time: the calendar date and the milliseconds since its midnight. */
  datatype DateTime = DateTime(date: Date, msOfDay: int)

  predicate IsLeap(y: int)
  {
    y % 4 == 0 && (y % 100 != 0 || y % 400 == 0)
  }

  function MonthLength(y: int, m: int): (n: int)
    requires 1 <= m <= 12
    ensures 28 <= n <= 31
    ensures m == 2 ==> (n == 29 <==> IsLeap(y))
  {
    if m == 2 then (if IsLeap(y) then 29 else 28)
    else if m == 4 || m == 6 || m == 9 || m == 11 then 30
    else 31
  }

  predicate ValidDate(d: Date)
  {
    1 <= d.month <= 12 && 1 <= d.day <= MonthLength(d.year, d.month)
  }

  predicate ValidDateTime(t: DateTime)
  {
    ValidDate(t.date) && 0 <= t.msOfDay < DayMs
  }

  /** Days in the years before `y`, counted from year 1. */
  function DaysBeforeYear(y: int): int
  {
    365 * (y - 1) + (y - 1) / 4 - (y - 1) / 100 + (y - 1) / 400
  }

  /** Days in the months of year `y` before month `m`; month 13 means the whole year. */
  function DaysBeforeMonth(y: int, m: int): (n: int)
    requires 1 <= m <= 13
    ensures 28 * (m - 1) <= n <= 31 * (m - 1)
  {
    if m == 1 then 0 else DaysBeforeMonth(y, m - 1) + MonthLength(y, m - 1)
  }

  const EpochOffset := DaysBeforeYear(1970)

  /** The day number of year `y`, month `m`, day `d`, counted from 1970-01-01. */
  function DayNumber(y: int, m: int, d: int): int
    requires 1 <= m <= 12
  {
    DaysBeforeYear(y) + DaysBeforeMonth(y, m) + d - 1 - EpochOffset
  }

  function DayOf(d: Date): int
    requires 1 <= d.month <= 12
  {
    DayNumber(d.year, d.month, d.day)
  }

  /** What `getDay` reports for a day number: 0 for Sunday through 6 for Saturday. */
  function Weekday(dn: int): (w: int)
    ensures 0 <= w < 7
    ensures dn == 0 ==> w == 4
  {
    (dn + 4) % 7
  }

  /** The next day's weekday follows on, Saturday wrapping to Sunday. */
  lemma WeekdayNext(dn: int)
    ensures Weekday(dn + 1) == (Weekday(dn) + 1) % 7
  {
  }

  /** Moving by `k` days moves the weekday by `k`, modulo 7. */
  lemma WeekdayShift(dn: int, k: int)
    ensures Weekday(dn + k) == (Weekday(dn) + k) % 7
  {
  }

  /** Milliseconds since 1970-01-01 00:00 local time. */
  function Instant(t: DateTime): int
    requires 1 <= t.date.month <= 12
  {
    DayOf(t.date) * DayMs + t.msOfDay
  }

  /** The day count of a leap year is 366 and of any other year 365. */
  lemma YearLength(y: int)
    ensures DaysBeforeYear(y + 1) - DaysBeforeYear(y) == if IsLeap(y) then 366 else 365
  {
    assert y / 4 - (y - 1) / 4 == if y % 4 == 0 then 1 else 0;
    assert y / 100 - (y - 1) / 100 == if y % 100 == 0 then 1 else 0;
    assert y / 400 - (y - 1) / 400 == if y % 400 == 0 then 1 else 0;
  }

  /** The twelve months add up to the year. */
  lemma MonthsMakeYear(y: int)
    ensures DaysBeforeMonth(y, 13) == DaysBeforeYear(y + 1) - DaysBeforeYear(y)
  {
    var feb := MonthLength(y, 2);
    assert DaysBeforeMonth(y, 2) == 31;
    assert DaysBeforeMonth(y, 3) == 31 + feb;
    assert DaysBeforeMonth(y, 4) == 62 + feb;
    assert DaysBeforeMonth(y, 5) == 92 + feb;
    assert DaysBeforeMonth(y, 6) == 123 + feb;
    assert DaysBeforeMonth(y, 7) == 153 + feb;
    assert DaysBeforeMonth(y, 8) == 184 + feb;
    assert DaysBeforeMonth(y, 9) == 215 + feb;
    assert DaysBeforeMonth(y, 10) == 245 + feb;
    assert DaysBeforeMonth(y, 11) == 276 + feb;
    assert DaysBeforeMonth(y, 12) == 306 + feb;
    assert DaysBeforeMonth(y, 13) == 337 + feb;
    YearLength(y);
  }

  /** `new Date(y, m, 0)`: day 0 of the next month is the last day of month `m`,
      which is the day before the first of the next month, also across a year end. */
  lemma LastDayPrecedesNextMonth(y: int, m: int)
    requires 1 <= m <= 12
    ensures m < 12 ==> DayNumber(y, m, MonthLength(y, m)) + 1 == DayNumber(y, m + 1, 1)
    ensures m == 12 ==> DayNumber(y, 12, 31) + 1 == DayNumber(y + 1, 1, 1)
  {
    if m == 12 {
      MonthsMakeYear(y);
    }
  }
}
