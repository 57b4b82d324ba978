/**
 * The proleptic Gregorian calendar of `LocalDate` / `OffsetDateTime`, as far
 * as the app uses it: valid dates, their position on a day line (day 0 is
 * 1970-01-01), the ISO-8601 day of week (Monday = 1 ... Sunday = 7) and
 * timestamps with nanosecond resolution at one fixed UTC offset.
 */
module Calendar {

  const NanosPerDay: int := 86_400_000_000_000

  predicate IsLeap(y: int) {
    y % 4 == 0 && (y % 100 != 0 || y % 400 == 0)
  }

  function DaysInYear(y: int): int {
    if IsLeap(y) then 366 else 365
  }

  function DaysInMonth(y: int, m: int): (n: int)
    requires 1 <= m <= 12
    ensures 28 <= n <= 31
  {
    if m == 2 then (if IsLeap(y) then 29 else 28)
    else if m == 4 || m == 6 || m == 9 || m == 11 then 30
    else 31
  }

  datatype YMD = YMD(year: int, month: int, day: int)

  predicate ValidYMD(d: YMD) {
    1 <= d.month <= 12 && 1 <= d.day <= DaysInMonth(d.year, d.month)
  }

  /** A `LocalDate`: a year, a month 1..12 and a day that exists in that month. */
  type LocalDate = d: YMD | ValidYMD(d) witness YMD(1970, 1, 1)

  /** Days of year `y` that lie before the first day of month `m` (13 = the next year). */
  function DaysBeforeMonth(y: int, m: int): (n: int)
    requires 1 <= m <= 13
    ensures 0 <= n <= DaysInYear(y)
  {
    var table := [0, 0, 31, 59, 90, 120, 151, 181, 212, 243, 273, 304, 334, 365];
    table[m] + (if IsLeap(y) && m > 2 then 1 else 0)
  }

  lemma DaysBeforeMonthStep(y: int, m: int)
    requires 1 <= m <= 12
    ensures DaysBeforeMonth(y, m + 1) == DaysBeforeMonth(y, m) + DaysInMonth(y, m)
    ensures DaysBeforeMonth(y, 1) == 0 && DaysBeforeMonth(y, 13) == DaysInYear(y)
  {
  }

  /** Number of leap years in 1..x (shifted consistently for x <= 0). */
  function LeapsUpTo(x: int): int {
    x / 4 - x / 100 + x / 400
  }

  lemma LeapsStep(y: int)
    ensures LeapsUpTo(y) - LeapsUpTo(y - 1) == if IsLeap(y) then 1 else 0
  {
    var q4, q100, q400 := (y - 1) / 4, (y - 1) / 100, (y - 1) / 400;
    assert y / 4 == q4 + (if y % 4 == 0 then 1 else 0);
    assert y / 100 == q100 + (if y % 100 == 0 then 1 else 0);
    assert y / 400 == q400 + (if y % 400 == 0 then 1 else 0);
    assert y % 100 == 0 ==> y % 4 == 0;
    assert y % 400 == 0 ==> y % 100 == 0;
  }

  /** Days from 1970-01-01 to the first day of year `y`. */
  function DaysBeforeYear(y: int): int {
    365 * (y - 1970) + LeapsUpTo(y - 1) - LeapsUpTo(1969)
  }

  lemma YearStep(y: int)
    ensures DaysBeforeYear(y + 1) == DaysBeforeYear(y) + DaysInYear(y)
  {
    LeapsStep(y);
  }

  lemma {:induction false} YearsMonotone(y1: int, y2: int)
    requires y1 <= y2
    ensures DaysBeforeYear(y1) + 365 * (y2 - y1) <= DaysBeforeYear(y2)
    decreases y2 - y1
  {
    if y1 < y2 {
      YearsMonotone(y1, y2 - 1);
      YearStep(y2 - 1);
    }
  }

  /** The position of a date on the day line; 1970-01-01 is day 0. */
  function DayNumber(d: LocalDate): int {
    DaysBeforeYear(d.year) + DaysBeforeMonth(d.year, d.month) + d.day - 1
  }

  /** A date lies inside its own year on the day line. */
  lemma DayNumberInYear(d: LocalDate)
    ensures DaysBeforeYear(d.year) <= DayNumber(d) < DaysBeforeYear(d.year + 1)
  {
    DaysBeforeMonthStep(d.year, d.month);
    YearStep(d.year);
  }

  lemma MonthsMonotone(y: int, m1: int, m2: int)
    requires 1 <= m1 < m2 <= 13
    ensures DaysBeforeMonth(y, m1) + DaysInMonth(y, m1) <= DaysBeforeMonth(y, m2)
  {
    DaysBeforeMonthStep(y, m1);
  }

  /** The `LocalDate` order: year, then month, then day. */
  predicate IsBefore(a: LocalDate, b: LocalDate) {
    a.year < b.year || (a.year == b.year && (a.month < b.month || (a.month == b.month && a.day < b.day)))
  }

  /** A date of an earlier year has a smaller day number. */
  lemma EarlierYear(a: LocalDate, b: LocalDate)
    requires a.year < b.year
    ensures DayNumber(a) < DayNumber(b)
  {
    DayNumberInYear(a);
    DayNumberInYear(b);
    YearsMonotone(a.year + 1, b.year);
  }

  /** A date of an earlier month of the same year has a smaller day number. */
  lemma EarlierMonth(a: LocalDate, b: LocalDate)
    requires a.year == b.year && a.month < b.month
    ensures DayNumber(a) < DayNumber(b)
  {
    MonthsMonotone(a.year, a.month, b.month);
  }

  /** The library's date order is the order of day numbers. */
  lemma IsBeforeIffDayNumber(a: LocalDate, b: LocalDate)
    ensures IsBefore(a, b) <==> DayNumber(a) < DayNumber(b)
  {
    if a.year < b.year {
      EarlierYear(a, b);
    } else if b.year < a.year {
      EarlierYear(b, a);
    } else if a.month < b.month {
      EarlierMonth(a, b);
    } else if b.month < a.month {
      EarlierMonth(b, a);
    }
  }

  /** Two dates are the same date exactly when they have the same day number. */
  lemma DayNumberInjective(a: LocalDate, b: LocalDate)
    ensures a == b <==> DayNumber(a) == DayNumber(b)
  {
    IsBeforeIffDayNumber(a, b);
    IsBeforeIffDayNumber(b, a);
  }

  /** ISO-8601 day of week of a day number: Monday = 1 ... Sunday = 7 (1970-01-01 was a Thursday). */
  function DayOfWeekOf(n: int): (w: int)
    ensures 1 <= w <= 7
  {
    (n + 3) % 7 + 1
  }

  function DayOfWeek(d: LocalDate): (w: int)
    ensures 1 <= w <= 7
  {
    DayOfWeekOf(DayNumber(d))
  }

  /** The Monday of the ISO week holding day `n` (`with(DayOfWeek.MONDAY)` / `previousOrSame(MONDAY)`). */
  function WeekMonday(n: int): (m: int)
    ensures m <= n <= m + 6
    ensures DayOfWeekOf(m) == 1
    ensures n - m == DayOfWeekOf(n) - 1
  {
    n - (n + 3) % 7
  }

  /** Sunday of the same ISO week (`with(DayOfWeek.SUNDAY)`). */
  function WeekSunday(n: int): (s: int)
    ensures n <= s && s == WeekMonday(n) + 6
    ensures DayOfWeekOf(s) == 7
  {
    WeekMonday(n) + 6
  }

  /** Days in the same ISO week share their Monday. */
  lemma SameWeekSameMonday(n: int, k: int)
    requires WeekMonday(n) <= k <= WeekMonday(n) + 6
    ensures WeekMonday(k) == WeekMonday(n)
  {
  }

  /** The first day of a month follows the last day of the month before. */
  lemma NewMonth(y: int, m: int)
    requires 1 <= m < 12
    ensures var last: LocalDate := YMD(y, m, DaysInMonth(y, m));
      var first: LocalDate := YMD(y, m + 1, 1);
      DayNumber(first) == DayNumber(last) + 1
  {
    DaysBeforeMonthStep(y, m);
  }

  /** The first of January follows the thirty-first of December of the year before. */
  lemma NewYear(y: int)
    ensures var last: LocalDate := YMD(y, 12, 31);
      var first: LocalDate := YMD(y + 1, 1, 1);
      DayNumber(first) == DayNumber(last) + 1
  {
    DaysBeforeMonthStep(y, 12);
    DaysBeforeMonthStep(y + 1, 1);
    YearStep(y);
  }

  /** `minusDays(1)`. */
  function PrevDay(d: LocalDate): (p: LocalDate)
    ensures DayNumber(p) == DayNumber(d) - 1
  {
    if d.day > 1 then YMD(d.year, d.month, d.day - 1)
    else if d.month > 1 then
      NewMonth(d.year, d.month - 1);
      YMD(d.year, d.month - 1, DaysInMonth(d.year, d.month - 1))
    else
      NewYear(d.year - 1);
      YMD(d.year - 1, 12, 31)
  }

  /** `plusDays(1)`. */
  function NextDay(d: LocalDate): (n: LocalDate)
    ensures DayNumber(n) == DayNumber(d) + 1
  {
    if d.day < DaysInMonth(d.year, d.month) then YMD(d.year, d.month, d.day + 1)
    else if d.month < 12 then
      NewMonth(d.year, d.month);
      YMD(d.year, d.month + 1, 1)
    else
      NewYear(d.year);
      YMD(d.year + 1, 1, 1)
  }

  /** `plusDays(k)`. */
  function PlusDays(d: LocalDate, k: nat): (r: LocalDate)
    ensures DayNumber(r) == DayNumber(d) + k
  {
    if k == 0 then d else NextDay(PlusDays(d, k - 1))
  }

  /** `minusDays(k)`. */
  function MinusDays(d: LocalDate, k: nat): (r: LocalDate)
    ensures DayNumber(r) == DayNumber(d) - k
  {
    if k == 0 then d else PrevDay(MinusDays(d, k - 1))
  }

  /** First day of the month after `d`'s month. */
  function FirstOfNextMonth(d: LocalDate): (f: LocalDate)
    ensures f.day == 1
    ensures DayNumber(f) == DayNumber(YMD(d.year, d.month, 1)) + DaysInMonth(d.year, d.month)
  {
    DaysBeforeMonthStep(d.year, d.month);
    YearStep(d.year);
    if d.month < 12 then YMD(d.year, d.month + 1, 1) else YMD(d.year + 1, 1, 1)
  }

  /** A day lies in month (y, m) exactly when it falls between that month's first day and the next month's. */
  lemma InMonthIffBetween(d: LocalDate, y: int, m: int)
    requires 1 <= m <= 12
    ensures var first: LocalDate := YMD(y, m, 1);
      (d.year == y && d.month == m) <==>
      DayNumber(first) <= DayNumber(d) < DayNumber(first) + DaysInMonth(y, m)
  {
    var first: LocalDate := YMD(y, m, 1);
    var next := FirstOfNextMonth(first);
    IsBeforeIffDayNumber(d, first);
    IsBeforeIffDayNumber(d, next);
  }

  /** A day lies in year `y` exactly when it falls between that year's first day and the next year's. */
  lemma InYearIffBetween(d: LocalDate, y: int)
    ensures (d.year == y) <==> DaysBeforeYear(y) <= DayNumber(d) < DaysBeforeYear(y + 1)
  {
    DayNumberInYear(d);
    if d.year < y { YearsMonotone(d.year + 1, y); }
    if d.year > y { YearsMonotone(y + 1, d.year); }
  }

  type NanoOfDay = n: int | 0 <= n < NanosPerDay

  /** An `OffsetDateTime`: a date and the nanoseconds since its midnight. */
  datatype DateTime = DateTime(date: LocalDate, nanoOfDay: NanoOfDay)

  /** Nanoseconds since 1970-01-01T00:00 at the shared offset. */
  function Instant(t: DateTime): int {
    DayNumber(t.date) * NanosPerDay + t.nanoOfDay
  }

  /** A timestamp falls in the day starting at `n * NanosPerDay` exactly when its date is day `n`. */
  lemma InstantInDay(t: DateTime, n: int)
    ensures n * NanosPerDay <= Instant(t) < (n + 1) * NanosPerDay <==> DayNumber(t.date) == n
  {
  }

  /** Timestamps compare by date and then by time of day. */
  lemma InstantOrder(a: DateTime, b: DateTime)
    ensures Instant(a) < Instant(b) <==>
      DayNumber(a.date) < DayNumber(b.date) || (a.date == b.date && a.nanoOfDay < b.nanoOfDay)
  {
    DayNumberInjective(a.date, b.date);
  }

  /** 2024-01-01 was a Monday. */
  lemma KnownWeekday()
    ensures DayOfWeek(YMD(2024, 1, 1)) == 1
  {
    assert LeapsUpTo(1969) == 477 by {
      assert 1969 / 4 == 492 && 1969 / 100 == 19 && 1969 / 400 == 4;
    }
    assert LeapsUpTo(2023) == 490 by {
      assert 2023 / 4 == 505 && 2023 / 100 == 20 && 2023 / 400 == 5;
    }
    assert DaysBeforeYear(2024) == 19723;
    assert DaysBeforeMonth(2024, 1) == 0;
    assert DayNumber(YMD(2024, 1, 1)) == 19723;
    assert (19723 + 3) % 7 == 0;
  }
}
