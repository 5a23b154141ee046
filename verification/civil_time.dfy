/**
 * UTC calendar date-times at seconds precision, with the day arithmetic that
 * `datetime.utcnow() - timedelta(days=7)` performs: Python's proleptic
 * Gregorian calendar, years 1 through 9999, days numbered by `toordinal`.
 */
module CivilTime {
  import opened Results

  /** Python's `datetime.MINYEAR` and `datetime.MAXYEAR`. */
  const MinYear: int := 1
  const MaxYear: int := 9999

  predicate IsLeapYear(y: int) {
    y % 4 == 0 && (y % 100 != 0 || y % 400 == 0)
  }

  function DaysInYear(y: int): int {
    if IsLeapYear(y) then 366 else 365
  }

  function DaysInMonth(y: int, m: int): int
    requires 1 <= m <= 12
  {
    if m == 2 then (if IsLeapYear(y) then 29 else 28)
    else if m == 4 || m == 6 || m == 9 || m == 11 then 30
    else 31
  }

  datatype DateTime = DateTime(year: int, month: int, day: int, hour: int, minute: int, second: int)

  predicate Valid(d: DateTime) {
    && MinYear <= d.year <= MaxYear
    && 1 <= d.month <= 12
    && 1 <= d.day <= DaysInMonth(d.year, d.month)
    && 0 <= d.hour < 24
    && 0 <= d.minute < 60
    && 0 <= d.second < 60
  }

  /** A date-time Python's `datetime` can represent. */
  type Instant = d: DateTime | Valid(d) witness DateTime(1970, 1, 1, 0, 0, 0)

  /** Two date-times show the same wall-clock time of day. */
  predicate SameClock(a: DateTime, b: DateTime) {
    a.hour == b.hour && a.minute == b.minute && a.second == b.second
  }

  /** Days in the years before `y`. */
  function DaysBeforeYear(y: int): nat
    requires y >= 1
    decreases y
  {
    if y == 1 then 0 else DaysBeforeYear(y - 1) + DaysInYear(y - 1)
  }

  /** Days in the months of year `y` before month `m`. */
  function DaysBeforeMonth(y: int, m: int): nat
    requires 1 <= m <= 12
    decreases m
  {
    if m == 1 then 0 else DaysBeforeMonth(y, m - 1) + DaysInMonth(y, m - 1)
  }

  /** The months January to November leave exactly December's 31 days of the year. */
  lemma DaysBeforeDecember(y: int)
    ensures DaysBeforeMonth(y, 12) + 31 == DaysInYear(y)
  {
    assert DaysBeforeMonth(y, 3) == 31 + DaysInMonth(y, 2);
    assert DaysBeforeMonth(y, 6) == DaysBeforeMonth(y, 3) + 31 + 30 + 31;
    assert DaysBeforeMonth(y, 9) == DaysBeforeMonth(y, 6) + 30 + 31 + 31;
    assert DaysBeforeMonth(y, 12) == DaysBeforeMonth(y, 9) + 30 + 31 + 30;
  }

  /** Python's `toordinal`: 0001-01-01 is day 1. */
  function Ordinal(d: Instant): (n: int)
    ensures n >= 1
    ensures n == 1 <==> d.year == 1 && d.month == 1 && d.day == 1
  {
    DaysBeforeYear(d.year) + DaysBeforeMonth(d.year, d.month) + d.day
  }

  /** The same time of day one calendar day earlier; None before 0001-01-01. */
  function PrevDay(d: Instant): (r: Option<Instant>)
    ensures r.None? <==> Ordinal(d) == 1
    ensures r.Some? ==> Ordinal(r.value) == Ordinal(d) - 1 && SameClock(r.value, d)
  {
    if d.day > 1 then
      Some(d.(day := d.day - 1))
    else if d.month > 1 then
      Some(d.(month := d.month - 1, day := DaysInMonth(d.year, d.month - 1)))
    else if d.year > MinYear then
      DaysBeforeDecember(d.year - 1);
      Some(DateTime(d.year - 1, 12, 31, d.hour, d.minute, d.second))
    else
      None
  }

  /**
   * `d - timedelta(days=n)`: the same time of day n days earlier, or None
   * where Python raises OverflowError because the result precedes 0001-01-01.
   */
  function DaysBefore(d: Instant, n: nat): (r: Option<Instant>)
    ensures r.None? <==> Ordinal(d) <= n
    ensures r.Some? ==> Ordinal(r.value) == Ordinal(d) - n && SameClock(r.value, d)
    decreases n
  {
    if n == 0 then Some(d)
    else
      match PrevDay(d)
      case None => None
      case Some(p) => DaysBefore(p, n - 1)
  }

  /** A month's days all come before the next month's. */
  lemma {:induction false} MonthsAscend(y: int, m1: int, m2: int)
    requires 1 <= m1 < m2 <= 12
    ensures DaysBeforeMonth(y, m1) + DaysInMonth(y, m1) <= DaysBeforeMonth(y, m2)
    decreases m2
  {
    if m2 > m1 + 1 {
      MonthsAscend(y, m1, m2 - 1);
    }
  }

  /** A year's days all come before the next year's. */
  lemma {:induction false} YearsAscend(y1: int, y2: int)
    requires 1 <= y1 < y2
    ensures DaysBeforeYear(y1) + DaysInYear(y1) <= DaysBeforeYear(y2)
    decreases y2
  {
    if y2 > y1 + 1 {
      YearsAscend(y1, y2 - 1);
    }
  }

  /** The ordinal of a date falls within its own year. */
  lemma OrdinalWithinYear(d: Instant)
    ensures DaysBeforeYear(d.year) < Ordinal(d) <= DaysBeforeYear(d.year) + DaysInYear(d.year)
  {
    DaysBeforeDecember(d.year);
    if d.month < 12 {
      MonthsAscend(d.year, d.month, 12);
    }
  }

  /** The calendar day of `a` comes before that of `b`. */
  predicate DayBefore(a: DateTime, b: DateTime) {
    || a.year < b.year
    || (a.year == b.year && (a.month < b.month || (a.month == b.month && a.day < b.day)))
  }

  predicate SameDay(a: DateTime, b: DateTime) {
    a.year == b.year && a.month == b.month && a.day == b.day
  }

  /** The time of day of `a` is not later than that of `b`. */
  predicate ClockNotAfter(a: DateTime, b: DateTime) {
    || a.hour < b.hour
    || (a.hour == b.hour && (a.minute < b.minute || (a.minute == b.minute && a.second <= b.second)))
  }

  /** Chronological order: `a` is not later than `b`. */
  predicate NotAfter(a: DateTime, b: DateTime) {
    DayBefore(a, b) || (SameDay(a, b) && ClockNotAfter(a, b))
  }

  /** Ordinals count days in calendar order. */
  lemma OrdinalOrder(a: Instant, b: Instant)
    ensures DayBefore(a, b) <==> Ordinal(a) < Ordinal(b)
    ensures SameDay(a, b) <==> Ordinal(a) == Ordinal(b)
  {
    OrdinalWithinYear(a);
    OrdinalWithinYear(b);
    if a.year < b.year {
      YearsAscend(a.year, b.year);
    } else if b.year < a.year {
      YearsAscend(b.year, a.year);
    } else if a.month < b.month {
      MonthsAscend(a.year, a.month, b.month);
    } else if b.month < a.month {
      MonthsAscend(a.year, b.month, a.month);
    }
  }

  /**
   * Distinct calendar days have distinct ordinals, so DaysBefore's contract
   * determines its result: it is the one date Python's day arithmetic yields.
   */
  lemma OrdinalInjective(a: Instant, b: Instant)
    requires Ordinal(a) == Ordinal(b)
    ensures a.year == b.year && a.month == b.month && a.day == b.day
  {
    OrdinalOrder(a, b);
  }

  /** `n` days back is chronologically earlier, for any positive n. */
  lemma DaysBeforeIsEarlier(d: Instant, n: nat)
    requires n > 0 && DaysBefore(d, n).Some?
    ensures DayBefore(DaysBefore(d, n).value, d)
    ensures NotAfter(DaysBefore(d, n).value, d) && DaysBefore(d, n).value != d
  {
    OrdinalOrder(DaysBefore(d, n).value, d);
  }
}
