# Household finance dashboard — derived arithmetic

A Dafny model of the computations behind the dashboard of a household
finance tracker. Users record incomes, fuel expenses, home expenses and
instalment loans (EMIs). The dashboard derives its figures from those
records:

- **EMI progress** (`emi_progress.dfy`). From a loan's start date, monthly
  amount and term, plus the current date, it computes the months paid, the
  months remaining, the amounts paid and remaining, and a completion
  percentage. The current date is a parameter.
- **Dashboard aggregation** (`dashboard.dfy`). It computes total income, fuel
  and home expenses. Home expenses in category `EMI` are split off as EMI
  payments. It also computes total expenses and the net balance. While any
  collection is still loading it returns an all-zero default. It merges the
  three recent-record streams into a tagged list, newest first, and keeps
  ten.
- **Charts** (`charts.dfy`). The monthly series buckets every record by its
  `yyyy-MM` month, in two loops that update a dictionary, and keeps the
  latest six months. The expense breakdown has one slice per household
  category, plus a fuel slice and an EMI slice when those totals are
  positive, largest first.
- **Month picker** (`month_picker.dfy`). It lists ten selectable years and
  shows a selected month and year. Choosing a month or a year produces a
  whole-month date range.
- **Record types and form schemas** (`types.dfy`). The records, the tagged
  `Transaction` union, and the three form schemas as validators.
- **Transaction rows** (`recent_transactions.dfy`). For each table row: the
  collection a delete goes to, the badge label, the amount's sign and the
  details cell.

Shared pieces:
- `calendar.dfy`: dates as (year, 0-based month, day, milliseconds of the
  day), month lengths and leap years, month keys.
- `folds.dfy`: sums, filters and grouping by key.
- `sorting.dfy`: the stable sort into non-increasing key order that
  `Array.prototype.sort` performs with a subtracting comparator.

Amounts are `real`. Dates are integer fields. A date read from the store
(`Timestamp.toDate()`) or taken from the clock is always a valid calendar
date, so several members require `ValidDate`, or a month in `0..11`, of the
dates they receive. A date field of a submitted form may instead be an
Invalid Date (`new Date` of an unparsable string); the form inputs model it
as `None`.

The EMI calculator is the elapsed-time calculation of
src/lib/helpers.ts:18-52: months paid are counted from the start date to the
current date. The code keeps no set of paid months and no ledger of
payments, so none is modelled.

## Model

| member | source | states |
|---|---|---|
| `EmiProgress.CalculateEmiProgress` | src/lib/helpers.ts:18-52 | For a non-negative term, 0 ≤ paid ≤ term and 0 ≤ remaining ≤ term, and paid + remaining = term. totalAmount = term·monthly and totalPaid = paid·monthly, so totalPaid + remainingAmount = totalAmount. The percentage is NaN exactly when the term is 0. For a positive term it lies in [0, 100] and equals 100·paid/term. |
| `EmiProgress.MonthsPassed` | src/lib/helpers.ts:22-35 | Computes the raw month count. Its meaning after clamping is stated by `EmiProgress.PaidMonthsAreDueInstalments` and `EmiProgress.PaidMonthsMonotonic`. |
| `EmiProgress.EarlierDaySameMonth` | src/lib/helpers.ts:26-27 | If now is in the start's month but on an earlier day, no month is paid. |
| `EmiProgress.LaterMonthCount` | src/lib/helpers.ts:28-35 | The count formula of the branch from the start month on (12·Δyear + Δmonth, plus 1 when now's day ≥ the start's day); what the count means is stated by `EmiProgress.PaidMonthsAreDueInstalments`. |
| `EmiProgress.EarlierMonth` | src/lib/helpers.ts:22-37 | If now is in an earlier calendar month than the start, paid months is 0. |
| `EmiProgress.PaidMonthsAreDueInstalments` | src/lib/helpers.ts:22-37 | Instalment k is counted as paid iff k < term and its due day (k months after the start, on the start's day) is not after now. |
| `EmiProgress.PaidMonthsMonotonic` | src/lib/helpers.ts:22-37 | For valid dates, paid months never decreases as now moves later. |
| `EmiProgress.Percentage` | src/lib/helpers.ts:42 | The percentage times the term equals 100·paid, and it lies in [0, 100] when 0 ≤ paid ≤ term. |
| `EmiProgress.ValidEmiHasPercentage` | src/lib/types.ts:17-23 | A loan accepted by the EMI schema has a positive term, so its percentage is an ordinary number in [0, 100]. |
| `Dashboard.Aggregate` | src/app/page.tsx:69-112 | If any of the seven collections is missing, the result is the all-zero default. Otherwise: income and fuel totals are the sums of their amounts. The home total sums the non-EMI home expenses and the EMI total sums the EMI ones; together they make all home expenses. totalExpenses is home + fuel + EMI, and netBalance is income − expenses. The list is the merged recent list, and the mapped collections are the inputs. |
| `Dashboard.HouseholdTotal` | src/app/page.tsx:78-79 | The sum of the non-EMI home expenses. `Dashboard.EmiSplit` and `Dashboard.SplitByCategory` state how it and the EMI total partition the home expenses. |
| `Dashboard.EmiTotal` | src/app/page.tsx:81-83 | The sum of the EMI-category home expenses. It is specified together with `Dashboard.HouseholdTotal` by `Dashboard.EmiSplit` and `Dashboard.SplitByCategory`. |
| `Dashboard.EmiSplit` | src/app/page.tsx:77-83 | The household total plus the EMI total is the sum of all home expenses: nothing is dropped or counted twice. |
| `Dashboard.SplitByCategory` | src/app/page.tsx:78-83 | One more home expense adds its amount to the EMI total exactly when its category is `EMI`, and otherwise to the household total. |
| `Dashboard.LoansContributeNothing` | src/app/page.tsx:71-86 | Any two loaded loan lists give the same result: loans only gate the default. |
| `Dashboard.Tagged` | src/app/page.tsx:89-92 | The merged list holds the incomes tagged income, then every home expense (EMI ones included) tagged home, then the fuel expenses tagged fuel. |
| `Dashboard.Recent` | src/app/page.tsx:89-106 | The recent list has min(n, 10) entries, where n is the merged count. It is sorted newest first and drawn from the merged list without duplication. When n ≤ 10 it is a permutation of the merged list. |
| `Dashboard.RecentKeepsNewest` | src/app/page.tsx:93-106 | A merged transaction left out of the ten kept is no newer than any kept one: its sort key is at most theirs, and for valid dates no kept transaction is earlier than it. |
| `Dashboard.RecentIsStable` | src/app/page.tsx:93 | The sort is stable: transactions with equal dates keep their merged order. |
| `Dashboard.RecentNewestFirst` | src/app/page.tsx:93 | For valid dates, no transaction in the list is earlier than one after it. |
| `Dashboard.ExampleMonth` | src/app/page.tsx:75-86 | Take one income of 5000, groceries of 1000, an EMI payment of 2000 and fuel of 500. Then expenses are 3500 and the balance is 1500. |
| `Sorting.SortDesc` | src/app/page.tsx:93 | The sort returns a permutation of its input in non-increasing key order. |
| `Sorting.SortDescStable` | src/app/page.tsx:93 | Elements with equal keys keep their relative order. |
| `Calendar.InstantOrder` | src/app/page.tsx:93 | On valid dates, the time stamp orders dates chronologically and is injective. |
| `Calendar.DaysInMonth` | src/components/dashboard/month-picker.tsx:34 | A month has 28 to 31 days. Only February has 28 or 29 (29 iff leap year). April, June, September and November have 30. |
| `Charts.IncomeStep` | src/components/dashboard/charts.tsx:42-48 | Adding an income to its own month's bucket keeps every bucket equal to its month's sums. A new month's bucket starts at income 0, expense 0. |
| `Charts.ExpenseStep` | src/components/dashboard/charts.tsx:50-56 | The same for one expense, added to the expense field of its month's bucket. |
| `Charts.AddIncomes` | src/components/dashboard/charts.tsx:42-48 | After the income loop there is one bucket per month met, in first-met order. Each holds the sum of that month's incomes and expense 0. |
| `Charts.AddExpenses` | src/components/dashboard/charts.tsx:50-56 | After the expense loop over home then fuel expenses (EMI included), each bucket also holds its month's expense sum. Months first met here start at income 0. |
| `Charts.MonthlySummary` | src/components/dashboard/charts.tsx:39-62 | The monthly series as a value. `Charts.MonthlySummaryLength`, `Charts.MonthlySummaryAscending`, `Charts.MonthlySummaryLatest` and `Charts.MonthlySummaryTotals` state its length, order, choice of months and totals. |
| `Charts.MonthlyData` | src/components/dashboard/charts.tsx:39-62 | The dictionary-updating method yields the monthly summary: the buckets of the record months, sorted by key, last six. |
| `Charts.ChartKeyFromRecords` | src/components/dashboard/charts.tsx:59 | Every month on the chart is the month of some record. |
| `Charts.MonthlySummaryLength` | src/components/dashboard/charts.tsx:59-61 | The chart has min(number of record months, 6) entries. |
| `Charts.MonthlySummaryAscending` | src/components/dashboard/charts.tsx:59 | Chart months are in strictly ascending chronological (yyyy-MM) order. |
| `Charts.MonthlySummaryLatest` | src/components/dashboard/charts.tsx:59 | A record month left off the chart is earlier than every month on it. |
| `Charts.MonthlySummaryTotals` | src/components/dashboard/charts.tsx:42-56 | When the records span at most 6 months, the income bars sum to all income. The expense bars sum to all home plus fuel expenses. |
| `Charts.GroupStep` | src/components/dashboard/charts.tsx:69-71 | Adding a household expense to its category's running total (0 if absent) keeps every total equal to its category sum. |
| `Charts.GroupByCategory` | src/components/dashboard/charts.tsx:67-71 | After the loop, each category met has one entry, in first-met order. Its value is the sum of that category's amounts. |
| `Charts.Breakdown` | src/components/dashboard/charts.tsx:64-92 | The slice list as a value. `Charts.BreakdownSlice`, `Charts.BreakdownHasCategory`, `Charts.BreakdownCategoryOnce`, `Charts.BreakdownEmiSlice`, `Charts.BreakdownFuelSlice`, `Charts.BreakdownSorted` and `Charts.BreakdownTotal` state its contents, order and total. |
| `Charts.ExpenseBreakdown` | src/components/dashboard/charts.tsx:64-92 | The method yields the category slices (colour `i % 5 + 1`), then Fuel (colour 3) if total fuel > 0, then EMI (colour 5) if the EMI total > 0, stably sorted by value, largest first. |
| `Charts.CategoriesOfHome` | src/components/dashboard/charts.tsx:69-75 | The categories with a slice are exactly the categories other than `EMI` of the home expenses. |
| `Charts.HouseholdCategoryTotal` | src/components/dashboard/charts.tsx:69-70 | Filtering out EMI payments does not change any other category's sum. |
| `Charts.BreakdownHasCategory` | src/components/dashboard/charts.tsx:67-75 | Every non-EMI home category has a slice whose value is the sum of that category's amounts; with `Charts.BreakdownCategoryOnce` that slice is the only one of its name (unless the category is `Fuel`). |
| `Charts.BreakdownSlice` | src/components/dashboard/charts.tsx:67-92 | Every slice is a household category's slice with that category's sum, or the Fuel slice with the positive fuel total, or the EMI slice with the positive EMI total. |
| `Charts.UnsortedNameOnce` | src/components/dashboard/charts.tsx:67-75 | Before sorting, a household category other than `Fuel` names exactly one slice. |
| `Charts.BreakdownCategoryOnce` | src/components/dashboard/charts.tsx:67-91 | After sorting, a household category other than `Fuel` still names exactly one slice: two slices with its name are the same slice. |
| `Charts.BreakdownEmiSlice` | src/components/dashboard/charts.tsx:82-89 | A slice named EMI exists iff the EMI-category total is > 0, and its value is that total. |
| `Charts.BreakdownFuelSlice` | src/components/dashboard/charts.tsx:77-80 | A slice named Fuel exists iff total fuel > 0, and its value is that total. |
| `Charts.BreakdownSorted` | src/components/dashboard/charts.tsx:91 | The slices are in non-increasing order of value. |
| `Charts.BreakdownTotal` | src/components/dashboard/charts.tsx:64-92 | The slices sum to the household total, plus the fuel and EMI totals when positive. |
| `MonthPicker.Years` | src/components/dashboard/month-picker.tsx:20-21 | The selectable years. Their span and order are stated by `MonthPicker.YearsSpan`. |
| `MonthPicker.YearsSpan` | src/components/dashboard/month-picker.tsx:20-21 | Exactly 10 years, from the current year down to current − 9, strictly decreasing, holding exactly the years of that span. |
| `MonthPicker.Base` | src/components/dashboard/month-picker.tsx:31 | The base date is exactly the range's start when a range with a start is set, and exactly today otherwise. |
| `MonthPicker.Selected` | src/components/dashboard/month-picker.tsx:27-28 | The selected month and year are those of the start date the handlers use. |
| `MonthPicker.SelectedDefault` | src/components/dashboard/month-picker.tsx:27-28 | With no range or no start, the selected month and year are today's. |
| `MonthPicker.EndOfMonth` | src/components/dashboard/month-picker.tsx:34 | The end of a month is a valid date in the same month, on its last day, at the last millisecond. |
| `MonthPicker.WholeMonthOrdered` | src/components/dashboard/month-picker.tsx:32-35 | A whole-month range runs from the 1st at midnight to the end of the last day. Both ends are valid and from is before to. |
| `MonthPicker.SetMonth` | src/components/dashboard/month-picker.tsx:31 | Setting the month keeps the calendar-month index arithmetic (overflow carries into the year). It keeps the day clamped to the month's length, and it gives a valid date. |
| `MonthPicker.HandleMonthChange` | src/components/dashboard/month-picker.tsx:30-36 | The range chosen by a month change. It is the whole chosen month by `MonthPicker.MonthChangeRange`. |
| `MonthPicker.MonthChangeRange` | src/components/dashboard/month-picker.tsx:30-36 | Choosing month m gives the 1st through the last day (28/29/30/31) of month m in the base date's year, with from before to. |
| `MonthPicker.SetYearAsWritten` | src/components/dashboard/month-picker.tsx:39 | Setting the year keeps month and day, except that a day past the month's end rolls into the next month. |
| `MonthPicker.HandleYearChange` | src/components/dashboard/month-picker.tsx:38-44 | The range chosen by a year change, as written. `MonthPicker.YearChangeAsWritten` and `MonthPicker.YearChangeSkipsFebruary` state it. |
| `MonthPicker.YearChangeAsWritten` | src/components/dashboard/month-picker.tsx:38-44 | As written, choosing a year gives the base month in that year, except from 29 February into a common year, which gives March. |
| `MonthPicker.YearChangeSkipsFebruary` | src/components/dashboard/month-picker.tsx:38-44 | With no range on 29 Feb 2028, choosing 2027 gives 1–31 March 2027. |
| `MonthPicker.SetYear` | src/components/dashboard/month-picker.tsx:39 | A year change that keeps the month clamps the day to the month's length and gives a valid date. |
| `MonthPicker.HandleYearChangeIntended` | src/components/dashboard/month-picker.tsx:38-44 | The year change with the day clamped. It is the whole base month by `MonthPicker.YearChangeRange`. |
| `MonthPicker.YearChangeRange` | src/components/dashboard/month-picker.tsx:38-44 | With that change, choosing a year always gives the 1st through the last day of the base month in that year. |
| `Types.ParseIncome` | src/lib/types.ts:5-8 | An income is accepted iff its amount is > 0 and its date is not an Invalid Date. Issues name exactly the failing fields among `amount` and `date`. |
| `Types.ParseExpense` | src/lib/types.ts:10-15 | An expense is accepted iff amount > 0, the date is not an Invalid Date, and any given category is in the category list; notes are free. Issues name exactly the failing fields. |
| `Types.EmiIssues` | src/lib/types.ts:17-23 | The issues of an EMI form name exactly the fields that fail their checks, `startDate` included when it is an Invalid Date. |
| `Types.EmiIssuesTotalMonths` | src/lib/types.ts:21 | A term that is neither whole nor positive gets two issues on `totalMonths`, one per failed check; a term failing one check gets one. |
| `Types.ParseEmi` | src/lib/types.ts:17-23 | An EMI is accepted iff name and vehicle type are non-empty, the monthly amount is > 0, the term is a whole number > 0, and the start date is not an Invalid Date. Issues name exactly the failing fields. |
| `RecentTransactions.RowOf` | src/lib/types.ts:50-53 | A row carries the transaction's id, tag and amount. It has a category exactly for the home variant, and that category is the home expense's own. |
| `RecentTransactions.CollectionPath` | src/components/dashboard/recent-transactions.tsx:63-66 | The collection a delete goes to. It is specified by `RecentTransactions.DeleteRequest` and `RecentTransactions.DeleteHitsSource`. |
| `RecentTransactions.DeleteRequest` | src/components/dashboard/recent-transactions.tsx:62-76 | A delete is issued iff the store is available and the tag is income, fuel, home or emi. It goes to incomes, fuel_expenses or home_expenses (home and emi) with the row's id. |
| `RecentTransactions.DeleteHitsSource` | src/components/dashboard/recent-transactions.tsx:62-70 | Deleting a dashboard row removes the document of the collection it was read from. Nothing is deleted without a store. |
| `RecentTransactions.BadgeLabel` | src/components/dashboard/recent-transactions.tsx:78-84 | The badge text. `RecentTransactions.BadgeLabels` states its four distinct labels and the fallback. |
| `RecentTransactions.BadgeLabels` | src/components/dashboard/recent-transactions.tsx:78-84 | The four tags have four distinct labels. "Transaction" is shown exactly for any other tag. |
| `RecentTransactions.SignPrefix` | src/components/dashboard/recent-transactions.tsx:148 | The sign is "+" exactly for income and "-" otherwise. |
| `RecentTransactions.DetailsCell` | src/components/dashboard/recent-transactions.tsx:143-146 | The category is shown exactly for home, income and emi, and a dash exactly for fuel. |
| `RecentTransactions.EmiPaymentRow` | src/components/dashboard/recent-transactions.tsx:143-148 | An EMI-category home expense shows as Home, with "EMI" in its details and a minus sign. |
| `RecentTransactions.RowSigns` | src/components/dashboard/recent-transactions.tsx:144-148 | Over the union: plus iff income, dash iff fuel, and the badge is never EMI or Transaction. |

## Left out

- `formatCurrency` (locale formatting through `Intl.NumberFormat`) is not modelled.
- Store reads and writes are not modelled: collection queries, deletes, server actions and toasts. The collections are plain sequences, `None` while loading. A delete is the request it would issue.
- Authentication, routing, form rendering and the EMI list's `localeCompare` ordering are not modelled.
- Floating point is not modelled: amounts are exact reals. The percentage is a real, or NaN for a zero term.
- The wall clock becomes a parameter (`now`, `today`). Time zones and daylight-saving shifts are not modelled. `Instant` orders dates like `getTime` but is not milliseconds since the epoch.
- `Dashboard.Recent`: the merged list is sorted as a value, not in place.
- `Charts.ExpenseBreakdown`: the final `data.sort` is modelled as a sorted copy, not an in-place sort. Category names are assumed not to look like array indices, which JavaScript would enumerate first.
- `Charts.BreakdownFuelSlice`: requires that no home expense is in a category literally named `Fuel`. Such a category would have a slice of that name too.
- `Charts.Rank`: orders month keys chronologically. The `yyyy-MM` string sort agrees with that only for years 1 to 9999, because the year is padded to four digits: a five-digit year sorts before "9999", and years 0 and 1 both print as "0001".
- `Charts.MonthlySummaryTotals`: holds only when the records span at most six months, since older buckets are dropped.
- `Types.ParseIncome`: zod's type-level checks are not modelled. A missing field or a non-number amount cannot be expressed in the input record. Of `z.date()`, only the rejection of an Invalid Date is modelled.
- `Types.ParseExpense`: zod's type-level checks are not modelled. A missing field, a non-number amount or a non-string category cannot be expressed in the input record. Of `z.date()`, only the rejection of an Invalid Date is modelled.
- `Types.ParseEmi`: zod's type-level checks are not modelled. A missing field, a non-string name or a non-number amount or term cannot be expressed in the input record. Of `z.date()`, only the rejection of an Invalid Date is modelled.
- `RecentTransactions.RowOf`: the `Income` type has no category, so income rows carry none. A stored income document with an extra category field is not modelled.
- The range the month picker's handlers compute is their result. The `setDateRange` callback it is passed to is not modelled.
- `HOME_EXPENSE_CATEGORIES` (src/lib/constants.ts) is not part of this model. The category list is a parameter of `Types.ParseExpense`.
- The `MMM` month labels are modelled as fixed English abbreviations. The chart colours are modelled as the number of their CSS variable.

## Findings

| source | as written | input that shows it | evidently intended | confidence | as-written member | corrected member |
|---|---|---|---|---|---|---|
| src/components/dashboard/month-picker.tsx:38-44 | `setYear` keeps the day, so from 29 February into a common year the date rolls into March | no range set, today 29 Feb 2028, year 2027 chosen: the range is 1–31 March 2027 | the range of February 2027, the month the picker shows | medium, not executed | `MonthPicker.YearChangeSkipsFebruary` | `MonthPicker.YearChangeRange` |
