/**
  The EMI progress calculator: how many monthly instalments of a loan have
  fallen due by a given day, and the amounts and completion percentage that
  follow from it. The current date, which the application reads from the
  clock, is the parameter `now`.
 */
module EmiProgress {
  import opened Calendar
  import opened Types

  /** A JavaScript number that is either an ordinary value or `NaN`
      (`0 / 0`). */
  datatype Percent = Num(value: real) | NaN

  datatype Progress = Progress(
    paidMonths: int,
    remainingMonths: int,
    totalPaid: real,
    remainingAmount: real,
    progressPercentage: Percent,
    totalAmount: real)

  /** The months-passed count before clamping: the calendar-month difference,
      zero when `now` is in the start month but on an earlier day, and
      otherwise one more when `now`'s day of the month has reached the start's. */
  function MonthsPassed(start: Date, now: Date): int {
    var diff := MonthIndex(now) - MonthIndex(start);
    if now.year == start.year && now.month == start.month && now.day < start.day then 0
    else if diff >= 0 then diff + (if now.day >= start.day then 1 else 0)
    else diff
  }

  /** Instalment `k` (counting from 0) falls due `k` calendar months after the
      start, on the start's day of the month; it is due at `now` when that day
      is not later than `now`. */
  predicate InstalmentDue(start: Date, k: nat, now: Date) {
    MonthIndex(start) + k < MonthIndex(now)
    || (MonthIndex(start) + k == MonthIndex(now) && start.day <= now.day)
  }

  /** Clamping the months-passed count to zero gives exactly the number of
      instalments due: instalment `k` is due iff `k` is below the count. */
  lemma InstalmentsDue(start: Date, now: Date, k: nat)
    requires 0 <= start.month < 12 && 0 <= now.month < 12
    ensures InstalmentDue(start, k, now) <==> k < Max0(MonthsPassed(start, now))
  {
    MonthIndexOrder(start, now);
  }

  function Max0(x: int): (r: nat)
    ensures r >= x
  {
    if x < 0 then 0 else x
  }

  /** `calculateEmiProgress(emi)` evaluated at the date `now`. */
  function CalculateEmiProgress(startDate: Date, totalMonths: int, monthlyAmount: real, now: Date): (p: Progress)
    ensures totalMonths >= 0 ==> 0 <= p.paidMonths <= totalMonths
    ensures totalMonths >= 0 ==> 0 <= p.remainingMonths <= totalMonths
    ensures p.paidMonths + p.remainingMonths == totalMonths
    ensures p.totalAmount == totalMonths as real * monthlyAmount
    ensures p.totalPaid == p.paidMonths as real * monthlyAmount
    ensures p.totalPaid + p.remainingAmount == p.totalAmount
    ensures p.progressPercentage.NaN? <==> totalMonths == 0
    ensures totalMonths > 0 ==> 0.0 <= p.progressPercentage.value <= 100.0
    ensures totalMonths > 0 ==> p.progressPercentage.value * totalMonths as real == 100.0 * p.paidMonths as real
  {
    var paidMonths := Min(Max0(MonthsPassed(startDate, now)), totalMonths);
    var remainingMonths := totalMonths - paidMonths;
    var totalPaid := paidMonths as real * monthlyAmount;
    var totalAmount := totalMonths as real * monthlyAmount;
    var remainingAmount := totalAmount - totalPaid;
    var percentage := if totalMonths == 0 then NaN else Num(Percentage(paidMonths, totalMonths));
    Progress(paidMonths, remainingMonths, totalPaid, remainingAmount, percentage, totalAmount)
  }

  /** `(paid / total) * 100`. */
  function Percentage(paid: int, total: int): (r: real)
    requires total != 0
    ensures r * total as real == 100.0 * paid as real
    ensures 0 <= paid <= total ==> 0.0 <= r <= 100.0
  {
    RatioBounds(paid, total);
    (paid as real / total as real) * 100.0
  }

  lemma RatioBounds(paid: int, total: int)
    requires total != 0
    ensures (paid as real / total as real) * total as real == paid as real
    ensures 0 <= paid <= total ==> 0.0 <= paid as real / total as real <= 1.0
  {
    var q := paid as real / total as real;
    if 0 <= paid <= total {
      if q > 1.0 {
        assert q * total as real > 1.0 * total as real;
      }
    }
  }

  /** The paid-months figure is the number of instalments due at `now`, capped
      at the term. */
  lemma PaidMonthsAreDueInstalments(startDate: Date, totalMonths: nat, monthlyAmount: real, now: Date, k: nat)
    requires 0 <= startDate.month < 12 && 0 <= now.month < 12
    ensures k < CalculateEmiProgress(startDate, totalMonths, monthlyAmount, now).paidMonths
      <==> k < totalMonths && InstalmentDue(startDate, k, now)
  {
    InstalmentsDue(startDate, now, k);
  }

  /** If `now` is in the start month on an earlier day, nothing is paid. */
  lemma EarlierDaySameMonth(startDate: Date, totalMonths: int, monthlyAmount: real, now: Date)
    requires now.year == startDate.year && now.month == startDate.month && now.day < startDate.day
    ensures CalculateEmiProgress(startDate, totalMonths, monthlyAmount, now).paidMonths == Min(0, totalMonths)
  {
  }

  /** If `now` is in an earlier calendar month than the start, nothing is paid. */
  lemma EarlierMonth(startDate: Date, totalMonths: nat, monthlyAmount: real, now: Date)
    requires 0 <= startDate.month < 12 && 0 <= now.month < 12
    requires now.year < startDate.year || (now.year == startDate.year && now.month < startDate.month)
    ensures CalculateEmiProgress(startDate, totalMonths, monthlyAmount, now).paidMonths == 0
  {
    MonthIndexOrder(now, startDate);
  }

  /** Otherwise, from the start month on, the count is the calendar-month
      difference plus one once `now`'s day has reached the start's. */
  lemma LaterMonthCount(startDate: Date, now: Date)
    requires 0 <= startDate.month < 12 && 0 <= now.month < 12
    requires !(now.year == startDate.year && now.month == startDate.month && now.day < startDate.day)
    requires MonthIndex(now) >= MonthIndex(startDate)
    ensures MonthsPassed(startDate, now)
      == (now.year - startDate.year) * 12 + (now.month - startDate.month) + (if now.day >= startDate.day then 1 else 0)
  {
  }

  /** Progress never goes backwards as time passes. */
  lemma {:induction false} PaidMonthsMonotonic(startDate: Date, totalMonths: int, monthlyAmount: real, now: Date, later: Date)
    requires ValidDate(now) && ValidDate(later) && 0 <= startDate.month < 12
    requires !Before(later, now)
    ensures CalculateEmiProgress(startDate, totalMonths, monthlyAmount, now).paidMonths
         <= CalculateEmiProgress(startDate, totalMonths, monthlyAmount, later).paidMonths
  {
    MonthIndexOrder(now, later);
    MonthIndexOrder(startDate, now);
    MonthIndexOrder(startDate, later);
    var a, b := Max0(MonthsPassed(startDate, now)), Max0(MonthsPassed(startDate, later));
    if a > b {
      // instalment `b` would be due at `now` but not at the later date
      InstalmentsDue(startDate, now, b);
      InstalmentsDue(startDate, later, b);
    }
  }

  /** A loan that passed `EmiSchema` has a term that makes the percentage an
      ordinary number between 0 and 100. */
  lemma ValidEmiHasPercentage(id: string, x: EmiInput, now: Date)
    requires ParseEmi(x).Success?
    ensures EmiOf(id, x).totalMonths > 0
    ensures var e := EmiOf(id, x);
      var p := CalculateEmiProgress(e.startDate, e.totalMonths, e.monthlyAmount, now);
      p.progressPercentage.Num? && 0.0 <= p.progressPercentage.value <= 100.0
  {
  }
}
