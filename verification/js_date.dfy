/** The part of JavaScript's `Date` that the shadow calculation relies on: a
    wall-clock instant in the host's local time on the proleptic Gregorian
    calendar. Months are numbered 1..12 here (JavaScript counts them 0..11).
    The local timeline has no daylight-saving jumps: every day is 24 hours. */
module JsDate {

  const MsPerMinute: int := 60 * 1000
  const MinutesPerDay: int := 24 * 60
  const MsPerDay: int := MinutesPerDay * MsPerMinute

  predicate IsLeapYear(year: int) {
    year % 4 == 0 && (year % 100 != 0 || year % 400 == 0)
  }

  function DaysInYear(year: int): int {
    if IsLeapYear(year) then 366 else 365
  }

  function DaysInMonth(year: int, month: int): (n: int)
    requires 1 <= month <= 12
    ensures 28 <= n <= 31
    ensures n == 29 <==> month == 2 && IsLeapYear(year)
  {
    if month == 2 then (if IsLeapYear(year) then 29 else 28)
    else if month == 4 || month == 6 || month == 9 || month == 11 then 30
    else 31
  }

  /** The number of days of `year` before the first of `month`. */
  function DaysBeforeMonth(year: int, month: int): int
    requires 1 <= month <= 13
  {
    if month == 1 then 0 else DaysBeforeMonth(year, month - 1) + DaysInMonth(year, month - 1)
  }

  /** The twelve months together make up the year. */
  lemma DaysBeforeMonthEnd(year: int)
    ensures DaysBeforeMonth(year, 13) == DaysInYear(year)
  {
    var feb := DaysInMonth(year, 2);
    assert DaysBeforeMonth(year, 2) == 31;
    assert DaysBeforeMonth(year, 3) == 31 + feb;
    assert DaysBeforeMonth(year, 4) == 62 + feb;
    assert DaysBeforeMonth(year, 5) == 92 + feb;
    assert DaysBeforeMonth(year, 6) == 123 + feb;
    assert DaysBeforeMonth(year, 7) == 153 + feb;
    assert DaysBeforeMonth(year, 8) == 184 + feb;
    assert DaysBeforeMonth(year, 9) == 215 + feb;
    assert DaysBeforeMonth(year, 10) == 245 + feb;
    assert DaysBeforeMonth(year, 11) == 276 + feb;
    assert DaysBeforeMonth(year, 12) == 306 + feb;
    assert DaysBeforeMonth(year, 13) == 337 + feb;
  }

  /** Days before a month grow with the month. */
  lemma {:induction false} DaysBeforeMonthMonotone(year: int, m: int, n: int)
    requires 1 <= m <= n <= 13
    ensures DaysBeforeMonth(year, m) + (n - m) * 28 <= DaysBeforeMonth(year, n)
    decreases n - m
  {
    if m < n {
      DaysBeforeMonthMonotone(year, m + 1, n);
    }
  }

  /** A wall-clock reading, as `getFullYear`, `getMonth` (+1), `getDate`,
      `getHours` and `getMinutes` report it. */
  datatype DateTime = DateTime(year: int, month: int, day: int, hours: int, minutes: int)

  predicate ValidDateTime(t: DateTime) {
    && 1 <= t.month <= 12
    && 1 <= t.day <= DaysInMonth(t.year, t.month)
    && 0 <= t.hours < 24
    && 0 <= t.minutes < 60
  }

  /** A wall-clock reading that names a real calendar day and time. The year
      is unbounded: the range limit of a `Date` (about 275,000 years either
      side of 1970, outside which it is an Invalid Date) is not modelled. */
  type LocalDateTime = t: DateTime | ValidDateTime(t) witness DateTime(1970, 1, 1, 0, 0)

  /** Milliseconds from local midnight at the start of 1 January of `year` to
      the given wall-clock time, as the difference of two `getTime()` values.
      A `day` of 0 stands for the last day of the previous month, as in the
      `Date` constructor; the constructor's reading of years 0 to 99 as
      1900 to 1999 is not modelled. */
  function YearOffsetMs(year: int, month: int, day: int, hours: int, minutes: int): int
    requires 1 <= month <= 12
  {
    ((DaysBeforeMonth(year, month) + day - 1) * MinutesPerDay + hours * 60 + minutes) * MsPerMinute
  }

  /** The same time of day on the next calendar day. */
  function NextDay(t: LocalDateTime): (u: LocalDateTime)
    ensures u.hours == t.hours && u.minutes == t.minutes
    ensures u.year == t.year || (u.year == t.year + 1 && u.month == 1 && u.day == 1)
  {
    if t.day < DaysInMonth(t.year, t.month) then t.(day := t.day + 1)
    else if t.month < 12 then t.(month := t.month + 1, day := 1)
    else t.(year := t.year + 1, month := 1, day := 1)
  }
}
