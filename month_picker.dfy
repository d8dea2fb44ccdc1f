/**
  The month picker of the transactions card: the ten years it offers, the
  month and year it shows as selected, and the whole-month range (the 1st at
  midnight through the last millisecond of the last day) that choosing a
  month or a year produces. The current date, which the picker reads from
  the clock, is the parameter `today`.
 */
module MonthPicker {
  import opened Calendar
  import opened Types

  /** A `DateRange` of the day picker: both ends may be unset. */
  datatype DateRange = DateRange(from: Option<Date>, to: Option<Date>)

  /** The range a handler passes to `setDateRange`: both ends set. */
  datatype MonthRange = MonthRange(from: Date, to: Date)

  /** How many years the year selector lists. */
  const YearCount: nat := 10

  /** The `years` list: the `i`-th entry is `i` years before the current one. */
  function Years(currentYear: int): seq<int> {
    seq(YearCount, i requires 0 <= i < YearCount => currentYear - i)
  }

  /** The list starts at the current year and goes back nine years, one year
      at a time, newest first; it holds exactly the years of that span. */
  lemma YearsSpan(currentYear: int, y: int)
    ensures var ys := Years(currentYear);
      && |ys| == 10 && ys[0] == currentYear && ys[9] == currentYear - 9
      && (forall i, j :: 0 <= i < j < |ys| ==> ys[i] > ys[j])
      && (y in ys <==> currentYear - 9 <= y <= currentYear)
  {
    var ys := Years(currentYear);
    if currentYear - 9 <= y <= currentYear {
      assert ys[currentYear - y] == y;
    }
  }

  /** The date the handlers start from: the range's start when there is one,
      otherwise today. */
  function Base(range: Option<DateRange>, today: Date): (d: Date)
    ensures range.Some? && range.value.from.Some? ==> d == range.value.from.value
    ensures !(range.Some? && range.value.from.Some?) ==> d == today
  {
    if range.Some? && range.value.from.Some? then range.value.from.value else today
  }

  /** `selectedMonth` and `selectedYear`: those of the range's start, or
      today's when no start is set. */
  function Selected(range: Option<DateRange>, today: Date): (sel: (int, int))
    ensures sel == (Base(range, today).month, Base(range, today).year)
  {
    if range.Some? && range.value.from.Some? then
      (range.value.from.value.month, range.value.from.value.year)
    else
      (today.month, today.year)
  }

  /** With no range, the selected month and year are today's. */
  lemma SelectedDefault(today: Date, noStart: DateRange)
    requires noStart.from.None?
    ensures Selected(None, today) == (today.month, today.year)
    ensures Selected(Some(noStart), today) == (today.month, today.year)
  {
  }

  /** `startOfMonth`: the 1st of the month at midnight. */
  function StartOfMonth(d: Date): Date {
    Date(d.year, d.month, 1, 0)
  }

  /** `endOfMonth`: the last day of the month at 23:59:59.999. */
  function EndOfMonth(d: Date): (e: Date)
    requires 0 <= d.month < 12
    ensures ValidDate(e) && e.year == d.year && e.month == d.month
    ensures e.day == DaysInMonth(d.year, d.month) && e.millis == MillisPerDay - 1
  {
    Date(d.year, d.month, DaysInMonth(d.year, d.month), MillisPerDay - 1)
  }

  /** The whole month that contains `d`. */
  function WholeMonth(d: Date): MonthRange
    requires 0 <= d.month < 12
  {
    MonthRange(StartOfMonth(d), EndOfMonth(d))
  }

  /** A range covering exactly the month `m` (0-based) of year `y`: from the
      1st at midnight to the end of its last day, 28, 29, 30 or 31. */
  predicate IsMonth(r: MonthRange, y: int, m: int)
    requires 0 <= m < 12
  {
    && r.from == Date(y, m, 1, 0)
    && r.to == Date(y, m, DaysInMonth(y, m), MillisPerDay - 1)
  }

  /** A whole-month range is well formed and starts before it ends. */
  lemma WholeMonthOrdered(d: Date)
    requires 0 <= d.month < 12
    ensures ValidDate(WholeMonth(d).from) && ValidDate(WholeMonth(d).to)
    ensures Before(WholeMonth(d).from, WholeMonth(d).to)
    ensures IsMonth(WholeMonth(d), d.year, d.month)
  {
  }

  /** date-fns `setMonth(d, month)`: moves to month `month` of `d`'s year,
      where a month index outside 0..11 carries into the years before or
      after, keeping the day of the month but no later than the last day of
      the new month. */
  function SetMonth(d: Date, month: int): (r: Date)
    requires ValidDate(d)
    ensures ValidDate(r)
    ensures r.year * 12 + r.month == d.year * 12 + month
    ensures r.day == Min(d.day, DaysInMonth(r.year, r.month)) && r.millis == d.millis
  {
    var y, m := d.year + month / 12, month % 12;
    Date(y, m, Min(d.day, DaysInMonth(y, m)), d.millis)
  }

  /** `handleMonthChange(monthIndex)`: the whole month `monthIndex` of the
      base date's year. */
  function HandleMonthChange(range: Option<DateRange>, today: Date, monthIndex: int): MonthRange
    requires ValidDate(Base(range, today))
  {
    WholeMonth(SetMonth(Base(range, today), monthIndex))
  }

  /** Choosing one of the listed months gives the 1st through the last day of
      that month, in the year of the range's start (or today's year). */
  lemma MonthChangeRange(range: Option<DateRange>, today: Date, monthIndex: int)
    requires ValidDate(Base(range, today))
    requires 0 <= monthIndex < 12
    ensures var r := HandleMonthChange(range, today, monthIndex);
      IsMonth(r, Base(range, today).year, monthIndex) && Before(r.from, r.to)
  {
    WholeMonthOrdered(SetMonth(Base(range, today), monthIndex));
  }

  /** `Date.prototype.setFullYear(year)` as date-fns `setYear` calls it: the
      month and day are kept, and a day past the end of the month (February
      29 in a common year) rolls over into the next month. */
  function SetYearAsWritten(d: Date, year: int): (r: Date)
    requires ValidDate(d)
    ensures ValidDate(r) && r.year == year && r.millis == d.millis
    ensures d.day <= DaysInMonth(year, d.month) ==> r.month == d.month && r.day == d.day
    ensures d.day > DaysInMonth(year, d.month) ==> r.month == d.month + 1 && r.day == d.day - DaysInMonth(year, d.month)
  {
    var n := DaysInMonth(year, d.month);
    if d.day <= n then Date(year, d.month, d.day, d.millis)
    else Date(year, d.month + 1, d.day - n, d.millis)
  }

  /** `handleYearChange(year)` as written: the whole month of the base date
      moved to `year` by `setYear`. */
  function HandleYearChange(range: Option<DateRange>, today: Date, year: int): MonthRange
    requires ValidDate(Base(range, today))
  {
    WholeMonth(SetYearAsWritten(Base(range, today), year))
  }

  /** As written, choosing a year keeps the shown month except from February
      29, which lands in March of a common year. */
  lemma YearChangeAsWritten(range: Option<DateRange>, today: Date, year: int)
    requires ValidDate(Base(range, today))
    ensures var b, r := Base(range, today), HandleYearChange(range, today, year);
      && (b.day <= DaysInMonth(year, b.month) ==> IsMonth(r, year, b.month))
      && (b.day > DaysInMonth(year, b.month) ==> b.month == 1 && b.day == 29 && !IsLeapYear(year) && IsMonth(r, year, 2))
      && Before(r.from, r.to)
  {
    var b := Base(range, today);
    WholeMonthOrdered(SetYearAsWritten(b, year));
  }

  /** With no range set on 29 February 2028, choosing the year 2027 selects
      March 2027 instead of February 2027. */
  lemma YearChangeSkipsFebruary()
    ensures var r := HandleYearChange(None, Date(2028, 1, 29, 0), 2027);
      r.from == Date(2027, 2, 1, 0) && r.to == Date(2027, 2, 31, MillisPerDay - 1)
  {
    assert IsLeapYear(2028) && !IsLeapYear(2027);
  }

  /** `setYear` that keeps the month, as `setMonth` does: the day is clamped
      to the last day of the month in the new year. */
  function SetYear(d: Date, year: int): (r: Date)
    requires ValidDate(d)
    ensures ValidDate(r) && r.year == year && r.month == d.month && r.millis == d.millis
    ensures r.day == Min(d.day, DaysInMonth(year, d.month))
  {
    Date(year, d.month, Min(d.day, DaysInMonth(year, d.month)), d.millis)
  }

  /** `handleYearChange(year)` as intended: the shown month in the chosen
      year. */
  function HandleYearChangeIntended(range: Option<DateRange>, today: Date, year: int): MonthRange
    requires ValidDate(Base(range, today))
  {
    WholeMonth(SetYear(Base(range, today), year))
  }

  /** Choosing a year gives the 1st through the last day of the base date's
      month in that year, whatever the base date's day. */
  lemma YearChangeRange(range: Option<DateRange>, today: Date, year: int)
    requires ValidDate(Base(range, today))
    ensures var r := HandleYearChangeIntended(range, today, year);
      IsMonth(r, year, Base(range, today).month) && Before(r.from, r.to)
  {
    WholeMonthOrdered(SetYear(Base(range, today), year));
  }
}
