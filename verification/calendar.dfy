/**
 * Calendar dates and naive wall-clock timestamps.
 *
 * A date is represented by its proleptic Gregorian ordinal, the number that
 * Python's `date.toordinal()` gives it (0001-01-01 is day 1). A naive
 * `datetime` is represented by the number of microseconds since midnight of
 * day 0, which is the resolution of `timedelta`, so subtracting two
 * timestamps gives a duration exactly as `end - start` does on datetimes.
 */
module Calendar {

  /** A calendar date as a day ordinal. */
  type Day = int

  /** A naive local datetime, in microseconds. */
  type Timestamp = int

  const MicrosPerMinute: int := 60_000_000
  const MicrosPerHour: int := 3_600_000_000
  const MinutesPerDay: int := 1440
  const MicrosPerDay: int := 86_400_000_000

  /** A wall-clock time with minute resolution, as `%H:%M` yields it. */
  type MinuteOfDay = m: int | 0 <= m < MinutesPerDay

  predicate IsLeapYear(y: int) {
    y % 4 == 0 && (y % 100 != 0 || y % 400 == 0)
  }

  function DaysInYear(y: int): int {
    if IsLeapYear(y) then 366 else 365
  }

  function DaysInMonth(y: int, m: int): (n: int)
    requires 1 <= m <= 12
    ensures 28 <= n <= 31
    ensures n == 29 <==> m == 2 && IsLeapYear(y)
    ensures DaysBeforeMonth(y, m) + n == if m == 12 then DaysInYear(y) else DaysBeforeMonth(y, m + 1)
  {
    if m == 2 then (if IsLeapYear(y) then 29 else 28)
    else if m == 4 || m == 6 || m == 9 || m == 11 then 30
    else 31
  }

  /** The dates `datetime.date` accepts: years 1 to 9999, real month days. */
  predicate ValidDate(y: int, m: int, d: int) {
    1 <= y <= 9999 && 1 <= m <= 12 && 1 <= d <= DaysInMonth(y, m)
  }

  /** Days in the years 1 .. y-1. */
  function DaysBeforeYear(y: int): int
    requires y >= 1
  {
    if y == 1 then 0 else DaysBeforeYear(y - 1) + DaysInYear(y - 1)
  }

  /** Days in the months 1 .. m-1 of year y. */
  function DaysBeforeMonth(y: int, m: int): int
    requires 1 <= m <= 12
  {
    [0, 31, 59, 90, 120, 151, 181, 212, 243, 273, 304, 334][m - 1]
      + (if m > 2 && IsLeapYear(y) then 1 else 0)
  }

  /** The ordinal of a valid date, as `date.toordinal()`. */
  function DayNumber(y: int, m: int, d: int): (n: Day)
    requires ValidDate(y, m, d)
    ensures DaysBeforeYear(y) < n <= DaysBeforeYear(y) + DaysInYear(y)
  {
    DayOfYearBounds(y, m, d);
    DaysBeforeYear(y) + DaysBeforeMonth(y, m) + d
  }

  /** The ordinal of 9999-12-31, the last date `datetime` can hold. */
  const MaxDay: Day := 3652059

  /** Days in the years before y, counted with the Gregorian leap rule. */
  lemma {:induction false} DaysBeforeYearClosed(y: int)
    requires y >= 1
    ensures DaysBeforeYear(y) == 365 * (y - 1) + (y - 1) / 4 - (y - 1) / 100 + (y - 1) / 400
  {
    if y > 1 {
      DaysBeforeYearClosed(y - 1);
      LeapCount(y - 2);
    }
  }

  /** Year x+1 is a leap year exactly when the leap-rule count grows by one from x to x+1. */
  lemma LeapCount(x: int)
    requires x >= 0
    ensures DaysInYear(x + 1) == 365 + ((x + 1) / 4 - x / 4) - ((x + 1) / 100 - x / 100) + ((x + 1) / 400 - x / 400)
  {
    LeapCountStep(x);
    if (x + 1) % 400 == 0 {
      assert (x + 1) % 100 == 0 && (x + 1) % 4 == 0;
    } else if (x + 1) % 100 == 0 {
      assert (x + 1) % 4 == 0;
    }
  }

  /** Counting one year further, each leap-rule quotient grows by one exactly at a multiple. */
  lemma LeapCountStep(x: int)
    requires x >= 0
    ensures (x + 1) / 4 == x / 4 + (if (x + 1) % 4 == 0 then 1 else 0)
    ensures (x + 1) / 100 == x / 100 + (if (x + 1) % 100 == 0 then 1 else 0)
    ensures (x + 1) / 400 == x / 400 + (if (x + 1) % 400 == 0 then 1 else 0)
  {
  }

  /** No valid date lies after 9999-12-31, and only that date has ordinal MaxDay. */
  lemma LastDate(y: int, m: int, d: int)
    requires ValidDate(y, m, d)
    ensures DayNumber(y, m, d) <= MaxDay
    ensures DayNumber(y, m, d) == MaxDay <==> y == 9999 && m == 12 && d == 31
  {
    DaysBeforeYearClosed(y);
    DaysBeforeYearClosed(y + 1);
    DayOfYearBounds(y, m, d);
    if y == 9999 && m < 12 {
      MonthsOrdered(y, m, 12);
    }
  }

  /** Chronological order of (year, month, day) triples. */
  predicate Before(y1: int, m1: int, d1: int, y2: int, m2: int, d2: int) {
    y1 < y2 || (y1 == y2 && (m1 < m2 || (m1 == m2 && d1 < d2)))
  }

  /** A day of a valid date lies within its year. */
  lemma DayOfYearBounds(y: int, m: int, d: int)
    requires ValidDate(y, m, d)
    ensures 1 <= DaysBeforeMonth(y, m) + d <= DaysInYear(y)
  {
  }

  /** Earlier months of the same year end before a later month starts. */
  lemma MonthsOrdered(y: int, m1: int, m2: int)
    requires 1 <= m1 < m2 <= 12
    ensures DaysBeforeMonth(y, m1) + DaysInMonth(y, m1) <= DaysBeforeMonth(y, m2)
  {
  }

  /** Earlier years end before a later year starts. */
  lemma {:induction false} YearsOrdered(y1: int, y2: int)
    requires 1 <= y1 < y2
    ensures DaysBeforeYear(y1) + DaysInYear(y1) <= DaysBeforeYear(y2)
  {
    if y2 > y1 + 1 {
      YearsOrdered(y1, y2 - 1);
    }
  }

  /**
   * Comparing ordinals is comparing dates: the journal's ordering check on
   * day numbers is the check `date <= date` makes.
   */
  lemma DayNumberOrder(y1: int, m1: int, d1: int, y2: int, m2: int, d2: int)
    requires ValidDate(y1, m1, d1) && ValidDate(y2, m2, d2)
    ensures Before(y1, m1, d1, y2, m2, d2) <==> DayNumber(y1, m1, d1) < DayNumber(y2, m2, d2)
    ensures (y1, m1, d1) == (y2, m2, d2) <==> DayNumber(y1, m1, d1) == DayNumber(y2, m2, d2)
  {
    DayOfYearBounds(y1, m1, d1);
    DayOfYearBounds(y2, m2, d2);
    if y1 < y2 {
      YearsOrdered(y1, y2);
    } else if y2 < y1 {
      YearsOrdered(y2, y1);
    } else if m1 < m2 {
      MonthsOrdered(y1, m1, m2);
    } else if m2 < m1 {
      MonthsOrdered(y1, m2, m1);
    }
  }

  /** `assemble_datetime`: the given time of day on the given date. */
  function AssembleDateTime(day: Day, minute: MinuteOfDay): (t: Timestamp)
    ensures DayOf(t) == day
    ensures t - DayOf(t) * MicrosPerDay == minute * MicrosPerMinute
  {
    day * MicrosPerDay + minute * MicrosPerMinute
  }

  /** The date part of a timestamp. */
  function DayOf(t: Timestamp): Day {
    t / MicrosPerDay
  }

  /** A timestamp lies within its own day. */
  lemma DayOfBounds(t: Timestamp)
    ensures DayOf(t) * MicrosPerDay <= t < (DayOf(t) + 1) * MicrosPerDay
  {
  }
}
