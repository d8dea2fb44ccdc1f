/**
  Calendar values shared by the dashboard's cores: a local date-time as the
  JavaScript `Date` values of the application carry it, the Gregorian month
  lengths that `endOfMonth` relies on, and the `yyyy-MM` month key that the
  monthly chart groups by.
 */
module Calendar {

  /** A local date-time. `month` is 0-based (January = 0), as `getMonth`
      returns it; `day` is the day of the month, as `getDate` returns it;
      `millis` counts the milliseconds since local midnight. */
  datatype Date = Date(year: int, month: int, day: int, millis: int)

  const MillisPerDay: int := 86400000

  /** `Math.min` on integers. */
  function Min(x: int, y: int): int {
    if x < y then x else y
  }

  predicate IsLeapYear(y: int) {
    (y % 4 == 0 && y % 100 != 0) || y % 400 == 0
  }

  /** Number of days of month `m` (0-based) of year `y`. */
  function DaysInMonth(y: int, m: int): (n: int)
    requires 0 <= m < 12
    ensures 28 <= n <= 31
    ensures n == 28 <==> m == 1 && !IsLeapYear(y)
    ensures n == 29 <==> m == 1 && IsLeapYear(y)
    ensures n == 30 <==> m in {3, 5, 8, 10}
  {
    if m == 1 then (if IsLeapYear(y) then 29 else 28)
    else if m == 3 || m == 5 || m == 8 || m == 10 then 30
    else 31
  }

  /** A date that a JavaScript `Date` can denote after normalisation. */
  predicate ValidDate(d: Date) {
    && 0 <= d.month < 12
    && 1 <= d.day <= DaysInMonth(d.year, d.month)
    && 0 <= d.millis < MillisPerDay
  }

  /** Chronological order of date-times: `Before(a, b)` when `a` is earlier. */
  predicate Before(a: Date, b: Date) {
    || a.year < b.year
    || (a.year == b.year && a.month < b.month)
    || (a.year == b.year && a.month == b.month && a.day < b.day)
    || (a.year == b.year && a.month == b.month && a.day == b.day && a.millis < b.millis)
  }

  /** An integer time stamp that stands for `getTime`: it is not the number of
      milliseconds since the epoch, but it orders valid dates the same way
      (InstantOrder). */
  function Instant(d: Date): int {
    ((d.year * 12 + d.month) * 31 + (d.day - 1)) * MillisPerDay + d.millis
  }

  /** Calendar-month index: the difference of two of them is what
      `differenceInCalendarMonths` computes. */
  function MonthIndex(d: Date): int {
    d.year * 12 + d.month
  }

  lemma MonthIndexOrder(a: Date, b: Date)
    requires 0 <= a.month < 12 && 0 <= b.month < 12
    ensures MonthIndex(a) < MonthIndex(b) <==> a.year < b.year || (a.year == b.year && a.month < b.month)
    ensures MonthIndex(a) == MonthIndex(b) <==> a.year == b.year && a.month == b.month
  {
    if a.year < b.year {
      assert MonthIndex(a) <= a.year * 12 + 11 < b.year * 12 <= MonthIndex(b);
    } else if b.year < a.year {
      assert MonthIndex(b) <= b.year * 12 + 11 < a.year * 12 <= MonthIndex(a);
    }
  }

  /** On valid dates the time stamp is faithful to chronological order, and
      equal time stamps mean equal dates. */
  lemma InstantOrder(a: Date, b: Date)
    requires ValidDate(a) && ValidDate(b)
    ensures Instant(a) < Instant(b) <==> Before(a, b)
    ensures Instant(a) == Instant(b) <==> a == b
  {
    var da := MonthIndex(a) * 31 + (a.day - 1);
    var db := MonthIndex(b) * 31 + (b.day - 1);
    assert Instant(a) == da * MillisPerDay + a.millis;
    assert Instant(b) == db * MillisPerDay + b.millis;
    MonthIndexOrder(a, b);
    assert da < db ==> Instant(a) < Instant(b) by {
      if da < db { assert (da + 1) * MillisPerDay <= db * MillisPerDay; }
    }
    assert db < da ==> Instant(b) < Instant(a) by {
      if db < da { assert (db + 1) * MillisPerDay <= da * MillisPerDay; }
    }
    assert da < db <==> MonthIndex(a) < MonthIndex(b) || (MonthIndex(a) == MonthIndex(b) && a.day < b.day);
  }

  /** The `yyyy-MM` key of a month. With four-digit years, the lexicographic
      order of the formatted strings is the chronological order `KeyBefore`. */
  datatype MonthKey = MonthKey(year: int, month: int)

  function MonthOf(d: Date): MonthKey {
    MonthKey(d.year, d.month)
  }

  predicate KeyBefore(a: MonthKey, b: MonthKey) {
    a.year < b.year || (a.year == b.year && a.month < b.month)
  }

  /** The `MMM` label of a month key, as `format(startOfMonth(d), 'MMM')`. */
  function MonthLabel(m: int): string
    requires 0 <= m < 12
  {
    ["Jan", "Feb", "Mar", "Apr", "May", "Jun", "Jul", "Aug", "Sep", "Oct", "Nov", "Dec"][m]
  }
}
