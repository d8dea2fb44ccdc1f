/**
  The two chart series of the dashboard. The monthly summary buckets every
  income and every expense by the `yyyy-MM` key of its month, orders the keys
  and keeps the last six; the expense breakdown has one slice per household
  category, one for fuel and one for EMI payments, largest first.
 */
module Charts {
  import opened Calendar
  import opened Types
  import opened Folds
  import opened Sorting
  import opened Dashboard

  // ---------------------------------------------------------------------------
  // Monthly summary

  /** One bar group of the monthly chart: the `MMM` label of the month and
      the income and expense totals of that month. */
  datatype Bucket = Bucket(month: string, income: real, expense: real)

  /** How many months the chart shows. */
  const ChartMonths: nat := 6

  function DocMonth(d: BaseDoc): MonthKey { MonthOf(d.date) }
  function HomeMonth(h: HomeExpense): MonthKey { MonthOf(h.date) }
  function BucketIncome(b: Bucket): real { b.income }
  function BucketExpense(b: Bucket): real { b.expense }

  /** Every date has a month between January (0) and December (11), as every
      JavaScript `Date` does. */
  predicate MonthsInRange(s: seq<BaseDoc>) {
    forall i :: 0 <= i < |s| ==> 0 <= s[i].date.month < 12
  }

  /** The home expenses followed by the fuel expenses, each seen through its
      date and amount. */
  function Expenses(home: seq<HomeExpense>, fuel: seq<FuelExpense>): seq<BaseDoc> {
    seq(|home|, i requires 0 <= i < |home| => home[i].Base()) + fuel
  }

  /** Where a month lies on the time line, negated: sorting in non-increasing
      order of `Rank` is sorting the `yyyy-MM` keys ascending. */
  function Rank(k: MonthKey): real {
    -(k.year * 12 + k.month) as real
  }

  lemma RankOrder(a: MonthKey, b: MonthKey)
    requires 0 <= a.month < 12 && 0 <= b.month < 12
    ensures Rank(a) > Rank(b) <==> KeyBefore(a, b)
    ensures Rank(a) == Rank(b) <==> a == b
  {
    MonthIndexOrder(Date(a.year, a.month, 1, 0), Date(b.year, b.month, 1, 0));
  }

  /** `Object.keys(data)`: the months of the records in the order the two
      loops first meet them. */
  function RecordMonths(incomes: seq<Income>, home: seq<HomeExpense>, fuel: seq<FuelExpense>): seq<MonthKey> {
    KeysInOrder(incomes + Expenses(home, fuel), DocMonth)
  }

  /** The record months sorted by their `yyyy-MM` keys, the last six of them. */
  function ChartKeys(incomes: seq<Income>, home: seq<HomeExpense>, fuel: seq<FuelExpense>): seq<MonthKey> {
    TakeLast(SortDesc(RecordMonths(incomes, home, fuel), Rank), ChartMonths)
  }

  /** The bucket of month `k`: its income is the sum of the incomes of `k`,
      its expense the sum of the home and fuel expenses of `k`. */
  function BucketOf(incomes: seq<Income>, home: seq<HomeExpense>, fuel: seq<FuelExpense>, k: MonthKey): Bucket
    requires 0 <= k.month < 12
  {
    Bucket(MonthLabel(k.month),
           SumWhere(incomes, DocMonth, DocAmount, k),
           SumWhere(Expenses(home, fuel), DocMonth, DocAmount, k))
  }

  /** Every chart month is one of the record months. */
  lemma ChartKeyIsRecordMonth(incomes: seq<Income>, home: seq<HomeExpense>, fuel: seq<FuelExpense>, i: int)
    requires 0 <= i < |ChartKeys(incomes, home, fuel)|
    ensures ChartKeys(incomes, home, fuel)[i] in RecordMonths(incomes, home, fuel)
  {
    SortedTakeLastMember(RecordMonths(incomes, home, fuel), Rank, ChartMonths, i);
  }

  /** Every chart month is the month of some record. */
  lemma ChartKeyFromRecords(incomes: seq<Income>, home: seq<HomeExpense>, fuel: seq<FuelExpense>, i: int)
    requires 0 <= i < |ChartKeys(incomes, home, fuel)|
    ensures var all := incomes + Expenses(home, fuel);
      exists j :: 0 <= j < |all| && DocMonth(all[j]) == ChartKeys(incomes, home, fuel)[i]
  {
    ChartKeyIsRecordMonth(incomes, home, fuel, i);
    KeysInOrderMembers(incomes + Expenses(home, fuel), DocMonth, ChartKeys(incomes, home, fuel)[i]);
  }

  lemma ChartKeysInRange(incomes: seq<Income>, home: seq<HomeExpense>, fuel: seq<FuelExpense>)
    requires MonthsInRange(incomes + Expenses(home, fuel))
    ensures var ks := ChartKeys(incomes, home, fuel); forall i :: 0 <= i < |ks| ==> 0 <= ks[i].month < 12
  {
    var ks := ChartKeys(incomes, home, fuel);
    forall i | 0 <= i < |ks| ensures 0 <= ks[i].month < 12 {
      ChartKeyFromRecords(incomes, home, fuel, i);
    }
  }

  /** The monthly chart series `monthlyData`. */
  function MonthlySummary(incomes: seq<Income>, home: seq<HomeExpense>, fuel: seq<FuelExpense>): (r: seq<Bucket>)
    requires MonthsInRange(incomes + Expenses(home, fuel))
  {
    var ks := ChartKeys(incomes, home, fuel);
    ChartKeysInRange(incomes, home, fuel);
    seq(|ks|, i requires 0 <= i < |ks| => BucketOf(incomes, home, fuel, ks[i]))
  }

  /** What the object `data` and the insertion order of its keys hold once
      `incomes` and then `expenses` have been added: one bucket per month met,
      holding the sums of that month's incomes and expenses. */
  ghost predicate Filled(data: map<MonthKey, Bucket>, order: seq<MonthKey>, incomes: seq<Income>, expenses: seq<BaseDoc>)
  {
    && order == KeysInOrder(incomes + expenses, DocMonth)
    && (forall k :: k in data <==> k in order)
    && (forall k :: k in data ==> 0 <= k.month < 12)
    && (forall k :: k in data ==>
          data[k] == Bucket(MonthLabel(k.month), SumWhere(incomes, DocMonth, DocAmount, k),
                            SumWhere(expenses, DocMonth, DocAmount, k)))
  }

  /** Adding one income to its month's bucket, creating the bucket with
      income and expense 0 when the month is new, keeps `Filled`. */
  lemma IncomeStep(data: map<MonthKey, Bucket>, order: seq<MonthKey>, incomes: seq<Income>, x: Income,
                   created: map<MonthKey, Bucket>, data': map<MonthKey, Bucket>, order': seq<MonthKey>, s: seq<Income>)
    requires Filled(data, order, incomes, [])
    requires s == incomes + [x]
    requires 0 <= x.date.month < 12
    requires var key := DocMonth(x);
      && created == (if key in data then data else data[key := Bucket(MonthLabel(key.month), 0.0, 0.0)])
      && order' == (if key in data then order else order + [key])
      && data' == created[key := Bucket(created[key].month, created[key].income + x.amount, created[key].expense)]
    ensures Filled(data', order', s, [])
  {
    var key := DocMonth(x);
    assert incomes + [] == incomes && s + [] == s;
    assert s[..|s| - 1] == incomes;
    assert KeysInOrder(s, DocMonth) == order';
    if key !in data {
      AbsentKey(incomes, DocMonth, DocAmount, key);
    }
    forall k | k in data' ensures data'[k] == Bucket(MonthLabel(k.month), SumWhere(s, DocMonth, DocAmount, k), SumWhere([], DocMonth, DocAmount, k)) {
      assert SumWhere(s, DocMonth, DocAmount, k) == SumWhere(incomes, DocMonth, DocAmount, k) + (if key == k then x.amount else 0.0);
    }
  }

  /** Adding one expense to its month's bucket, creating the bucket with
      income and expense 0 when the month is new, keeps `Filled`. */
  lemma ExpenseStep(data: map<MonthKey, Bucket>, order: seq<MonthKey>, incomes: seq<Income>, done: seq<BaseDoc>, x: BaseDoc,
                    created: map<MonthKey, Bucket>, data': map<MonthKey, Bucket>, order': seq<MonthKey>, s: seq<BaseDoc>)
    requires Filled(data, order, incomes, done)
    requires s == done + [x]
    requires 0 <= x.date.month < 12
    requires var key := DocMonth(x);
      && created == (if key in data then data else data[key := Bucket(MonthLabel(key.month), 0.0, 0.0)])
      && order' == (if key in data then order else order + [key])
      && data' == created[key := Bucket(created[key].month, created[key].income, created[key].expense + x.amount)]
    ensures Filled(data', order', incomes, s)
  {
    var key := DocMonth(x);
    assert s[..|s| - 1] == done;
    var all := incomes + s;
    assert all == (incomes + done) + [x];
    assert all[..|all| - 1] == incomes + done;
    assert KeysInOrder(all, DocMonth) == order';
    if key !in data {
      AbsentKeyBoth(incomes, done, DocMonth, DocAmount, key);
    }
    forall k | k in data' ensures data'[k] == Bucket(MonthLabel(k.month), SumWhere(incomes, DocMonth, DocAmount, k), SumWhere(s, DocMonth, DocAmount, k)) {
      assert SumWhere(s, DocMonth, DocAmount, k) == SumWhere(done, DocMonth, DocAmount, k) + (if key == k then x.amount else 0.0);
    }
  }

  /** The income loop of `monthlyData`: creates the bucket of each income's month when
      it is missing, with income and expense 0, and adds the income to it. */
  method AddIncomes(incomes: seq<Income>) returns (data: map<MonthKey, Bucket>, order: seq<MonthKey>)
    requires MonthsInRange(incomes)
    ensures Filled(data, order, incomes, [])
  {
    data, order := map[], [];
    var i := 0;
    while i < |incomes|
      invariant 0 <= i <= |incomes|
      invariant Filled(data, order, incomes[..i], [])
    {
      ghost var data0, order0 := data, order;
      var key := DocMonth(incomes[i]);
      if key !in data {
        data := data[key := Bucket(MonthLabel(key.month), 0.0, 0.0)];
        order := order + [key];
      }
      ghost var created := data;
      var b := data[key];
      data := data[key := Bucket(b.month, b.income + incomes[i].amount, b.expense)];
      PrefixSnoc(incomes, i);
      IncomeStep(data0, order0, incomes[..i], incomes[i], created, data, order, incomes[..i + 1]);
      i := i + 1;
    }
    assert incomes[..i] == incomes;
  }

  /** The expense loop of `monthlyData`, over the home and then the fuel
      expenses: creates the bucket of
      each expense's month when it is missing, with income and expense 0, and
      adds the expense to it. */
  method AddExpenses(data0: map<MonthKey, Bucket>, order0: seq<MonthKey>, incomes: seq<Income>, expenses: seq<BaseDoc>)
    returns (data: map<MonthKey, Bucket>, order: seq<MonthKey>)
    requires MonthsInRange(expenses)
    requires Filled(data0, order0, incomes, [])
    ensures Filled(data, order, incomes, expenses)
  {
    data, order := data0, order0;
    assert expenses[..0] == [];
    var j := 0;
    while j < |expenses|
      invariant 0 <= j <= |expenses|
      invariant Filled(data, order, incomes, expenses[..j])
    {
      ghost var dataBefore, orderBefore := data, order;
      var key := DocMonth(expenses[j]);
      if key !in data {
        data := data[key := Bucket(MonthLabel(key.month), 0.0, 0.0)];
        order := order + [key];
      }
      ghost var created := data;
      var b := data[key];
      data := data[key := Bucket(b.month, b.income, b.expense + expenses[j].amount)];
      PrefixSnoc(expenses, j);
      ExpenseStep(dataBefore, orderBefore, incomes, expenses[..j], expenses[j], created, data, order, expenses[..j + 1]);
      j := j + 1;
    }
    assert expenses[..j] == expenses;
  }

  /** Once every record has been added, the bucket of the `k`-th chart month
      is the `k`-th entry of the monthly summary. */
  lemma SummaryFromFilled(data: map<MonthKey, Bucket>, order: seq<MonthKey>,
                          incomes: seq<Income>, home: seq<HomeExpense>, fuel: seq<FuelExpense>, k: int)
    requires Filled(data, order, incomes, Expenses(home, fuel))
    requires MonthsInRange(incomes + Expenses(home, fuel))
    requires 0 <= k < |ChartKeys(incomes, home, fuel)|
    ensures var ks := ChartKeys(incomes, home, fuel);
      ks[k] in data && data[ks[k]] == MonthlySummary(incomes, home, fuel)[k]
  {
    var ks := ChartKeys(incomes, home, fuel);
    ChartKeyIsRecordMonth(incomes, home, fuel, k);
    assert MonthlySummary(incomes, home, fuel)[k] == BucketOf(incomes, home, fuel, ks[k]);
  }

  /** `monthlyData`: fills the month buckets in two passes, the incomes first
      and then the home and fuel expenses, and keeps the latest six months. */
  method MonthlyData(incomes: seq<Income>, home: seq<HomeExpense>, fuel: seq<FuelExpense>) returns (r: seq<Bucket>)
    requires MonthsInRange(incomes + Expenses(home, fuel))
    ensures r == MonthlySummary(incomes, home, fuel)
  {
    var expenses := Expenses(home, fuel);
    assert MonthsInRange(incomes) && MonthsInRange(expenses) by {
      var all := incomes + expenses;
      assert forall i :: 0 <= i < |incomes| ==> all[i] == incomes[i];
      assert forall i :: 0 <= i < |expenses| ==> all[|incomes| + i] == expenses[i];
    }
    // The object `data`: its values, and its keys in insertion order.
    var data, order := AddIncomes(incomes);
    data, order := AddExpenses(data, order, incomes, expenses);
    var sortedMonthKeys := TakeLast(SortDesc(order, Rank), ChartMonths);
    assert sortedMonthKeys == ChartKeys(incomes, home, fuel);
    forall k | 0 <= k < |sortedMonthKeys|
      ensures sortedMonthKeys[k] in data && data[sortedMonthKeys[k]] == MonthlySummary(incomes, home, fuel)[k]
    {
      SummaryFromFilled(data, order, incomes, home, fuel, k);
    }
    r := seq(|sortedMonthKeys|, k requires 0 <= k < |sortedMonthKeys| => data[sortedMonthKeys[k]]);
  }

  // ---------------------------------------------------------------------------
  // Properties of the monthly summary

  /** Every listed month of records whose months are in range is in range. */
  lemma RecordMonthInRange(all: seq<BaseDoc>, k: MonthKey)
    requires MonthsInRange(all)
    requires k in KeysInOrder(all, DocMonth)
    ensures 0 <= k.month < 12
  {
    KeysInOrderMembers(all, DocMonth, k);
  }

  /** The months, sorted, are in strictly ascending chronological order (the
      order of their `yyyy-MM` keys), each month once. */
  lemma SortedMonthsAscending(incomes: seq<Income>, home: seq<HomeExpense>, fuel: seq<FuelExpense>, i: int, j: int)
    requires MonthsInRange(incomes + Expenses(home, fuel))
    requires 0 <= i < j < |RecordMonths(incomes, home, fuel)|
    ensures var sorted := SortDesc(RecordMonths(incomes, home, fuel), Rank);
      KeyBefore(sorted[i], sorted[j])
  {
    var all := incomes + Expenses(home, fuel);
    var order := RecordMonths(incomes, home, fuel);
    var sorted := SortDesc(order, Rank);
    KeysInOrderDistinct(all, DocMonth);
    DistinctPermutation(order, sorted);
    assert sorted[i] in multiset(sorted) && sorted[j] in multiset(sorted);
    RecordMonthInRange(all, sorted[i]);
    RecordMonthInRange(all, sorted[j]);
    RankOrder(sorted[i], sorted[j]);
  }

  /** The chart has one bar group per month shown: as many months as the
      records span, but at most six. */
  lemma MonthlySummaryLength(incomes: seq<Income>, home: seq<HomeExpense>, fuel: seq<FuelExpense>)
    requires MonthsInRange(incomes + Expenses(home, fuel))
    ensures var n := |RecordMonths(incomes, home, fuel)|;
      |MonthlySummary(incomes, home, fuel)| == (if n < ChartMonths then n else ChartMonths)
  {
  }

  /** The months of the chart are in ascending chronological order. */
  lemma MonthlySummaryAscending(incomes: seq<Income>, home: seq<HomeExpense>, fuel: seq<FuelExpense>, i: int, j: int)
    requires MonthsInRange(incomes + Expenses(home, fuel))
    requires 0 <= i < j < |ChartKeys(incomes, home, fuel)|
    ensures KeyBefore(ChartKeys(incomes, home, fuel)[i], ChartKeys(incomes, home, fuel)[j])
  {
    var all, ks := incomes + Expenses(home, fuel), ChartKeys(incomes, home, fuel);
    KeysInOrderDistinct(all, DocMonth);
    SortedTakeLastPair(RecordMonths(incomes, home, fuel), Rank, ChartMonths, i, j);
    ChartKeyIsRecordMonth(incomes, home, fuel, i);
    ChartKeyIsRecordMonth(incomes, home, fuel, j);
    RecordMonthInRange(all, ks[i]);
    RecordMonthInRange(all, ks[j]);
    RankOrder(ks[i], ks[j]);
  }

  /** The chart shows the latest months: a month with records that the chart
      leaves out is earlier than every month it shows. */
  lemma MonthlySummaryLatest(incomes: seq<Income>, home: seq<HomeExpense>, fuel: seq<FuelExpense>, p: int, i: int)
    requires MonthsInRange(incomes + Expenses(home, fuel))
    requires 0 <= p < |incomes + Expenses(home, fuel)|
    requires DocMonth((incomes + Expenses(home, fuel))[p]) !in ChartKeys(incomes, home, fuel)
    requires 0 <= i < |ChartKeys(incomes, home, fuel)|
    ensures KeyBefore(DocMonth((incomes + Expenses(home, fuel))[p]), ChartKeys(incomes, home, fuel)[i])
  {
    var all := incomes + Expenses(home, fuel);
    var m := DocMonth(all[p]);
    var ks := ChartKeys(incomes, home, fuel);
    var sorted := SortDesc(RecordMonths(incomes, home, fuel), Rank);
    KeysInOrderMembers(all, DocMonth, m);
    assert m in multiset(sorted);
    var q :| 0 <= q < |sorted| && sorted[q] == m;
    var off := |sorted| - |ks|;
    assert q < off;
    assert ks[i] == sorted[off + i];
    SortedMonthsAscending(incomes, home, fuel, q, off + i);
  }

  /** The home and fuel expenses seen through their date and amount add up
      to the home total plus the fuel total. */
  lemma {:induction false} ExpensesSum(home: seq<HomeExpense>, fuel: seq<FuelExpense>)
    ensures Sum(Expenses(home, fuel), DocAmount) == Sum(home, HomeAmount) + Sum(fuel, DocAmount)
  {
    var bases := seq(|home|, i requires 0 <= i < |home| => home[i].Base());
    assert Expenses(home, fuel) == bases + fuel;
    SumAppend(bases, fuel, DocAmount);
    BasesSum(home);
  }

  lemma {:induction false} BasesSum(home: seq<HomeExpense>)
    ensures Sum(seq(|home|, i requires 0 <= i < |home| => home[i].Base()), DocAmount) == Sum(home, HomeAmount)
  {
    if home != [] {
      var init := home[..|home| - 1];
      var bases := seq(|home|, i requires 0 <= i < |home| => home[i].Base());
      assert bases[..|bases| - 1] == seq(|init|, i requires 0 <= i < |init| => init[i].Base());
      BasesSum(init);
    }
  }

  /** The buckets of the months `ks`, in that order. */
  function BucketsOf(incomes: seq<Income>, home: seq<HomeExpense>, fuel: seq<FuelExpense>, ks: seq<MonthKey>): seq<Bucket>
    requires forall i :: 0 <= i < |ks| ==> 0 <= ks[i].month < 12
  {
    seq(|ks|, i requires 0 <= i < |ks| => BucketOf(incomes, home, fuel, ks[i]))
  }

  /** Summing the buckets of some months sums the records of those months. */
  lemma {:induction false} BucketsSum(incomes: seq<Income>, home: seq<HomeExpense>, fuel: seq<FuelExpense>, ks: seq<MonthKey>)
    requires forall i :: 0 <= i < |ks| ==> 0 <= ks[i].month < 12
    ensures Sum(BucketsOf(incomes, home, fuel, ks), BucketIncome) == SumGroups(ks, incomes, DocMonth, DocAmount)
    ensures Sum(BucketsOf(incomes, home, fuel, ks), BucketExpense) == SumGroups(ks, Expenses(home, fuel), DocMonth, DocAmount)
  {
    if ks != [] {
      var init := ks[..|ks| - 1];
      var b := BucketsOf(incomes, home, fuel, ks);
      assert b[..|b| - 1] == BucketsOf(incomes, home, fuel, init);
      BucketsSum(incomes, home, fuel, init);
    }
  }

  /** The chart months are distinct. */
  lemma ChartKeysDistinct(incomes: seq<Income>, home: seq<HomeExpense>, fuel: seq<FuelExpense>)
    ensures Distinct(ChartKeys(incomes, home, fuel))
  {
    var order := RecordMonths(incomes, home, fuel);
    var sorted := SortDesc(order, Rank);
    var ks := ChartKeys(incomes, home, fuel);
    KeysInOrderDistinct(incomes + Expenses(home, fuel), DocMonth);
    DistinctPermutation(order, sorted);
    TakeLastDistinct(sorted, ChartMonths);
  }

  /** When the records span at most six months, every record's month is on
      the chart. */
  lemma ChartCoversRecords(incomes: seq<Income>, home: seq<HomeExpense>, fuel: seq<FuelExpense>, x: BaseDoc)
    requires |RecordMonths(incomes, home, fuel)| <= ChartMonths
    requires x in incomes + Expenses(home, fuel)
    ensures DocMonth(x) in ChartKeys(incomes, home, fuel)
  {
    var all := incomes + Expenses(home, fuel);
    var ks := ChartKeys(incomes, home, fuel);
    assert ks == SortDesc(RecordMonths(incomes, home, fuel), Rank);
    var i :| 0 <= i < |all| && all[i] == x;
    KeysInOrderMembers(all, DocMonth, DocMonth(x));
    assert DocMonth(x) in multiset(ks);
  }

  /** When the records span at most six months, the chart loses nothing: its
      income bars add up to all income and its expense bars to all home and
      fuel expenses, EMI payments included. */
  lemma MonthlySummaryTotals(incomes: seq<Income>, home: seq<HomeExpense>, fuel: seq<FuelExpense>)
    requires MonthsInRange(incomes + Expenses(home, fuel))
    requires |RecordMonths(incomes, home, fuel)| <= ChartMonths
    ensures Sum(MonthlySummary(incomes, home, fuel), BucketIncome) == Sum(incomes, DocAmount)
    ensures Sum(MonthlySummary(incomes, home, fuel), BucketExpense) == Sum(home, HomeAmount) + Sum(fuel, DocAmount)
  {
    var expenses := Expenses(home, fuel);
    var ks := ChartKeys(incomes, home, fuel);
    ChartKeysInRange(incomes, home, fuel);
    assert MonthlySummary(incomes, home, fuel) == BucketsOf(incomes, home, fuel, ks);
    BucketsSum(incomes, home, fuel, ks);
    ChartKeysDistinct(incomes, home, fuel);
    forall x | x in incomes ensures DocMonth(x) in ks {
      ChartCoversRecords(incomes, home, fuel, x);
    }
    forall x | x in expenses ensures DocMonth(x) in ks {
      ChartCoversRecords(incomes, home, fuel, x);
    }
    SumGroupsCover(ks, incomes, DocMonth, DocAmount);
    SumGroupsCover(ks, expenses, DocMonth, DocAmount);
    ExpensesSum(home, fuel);
  }

  // ---------------------------------------------------------------------------
  // Expense breakdown

  /** One slice of the expense pie: its name, its value, and the number `n`
      of the colour variable `--chart-n` it is filled with. */
  datatype Slice = Slice(name: string, value: real, fill: int)

  function SliceValue(s: Slice): real { s.value }
  function CategoryOf(h: HomeExpense): string { h.category }

  /** The sum of the household expenses of category `c`. */
  function CategoryTotal(households: seq<HomeExpense>, c: string): real {
    SumWhere(households, CategoryOf, HomeAmount, c)
  }

  /** The home expenses that are not EMI payments. */
  function Households(home: seq<HomeExpense>): seq<HomeExpense> {
    Filter(home, IsHouseholdExpense)
  }

  /** The keys of `homeByCategory`, in insertion order. */
  function Categories(home: seq<HomeExpense>): seq<string> {
    KeysInOrder(Households(home), CategoryOf)
  }

  /** The slices of the categories `cats`, the `i`-th one filled with colour
      `i % 5 + 1`, as the loop over `Object.entries(homeByCategory)` pushes
      them onto an empty list. */
  function CategorySlices(households: seq<HomeExpense>, cats: seq<string>): seq<Slice> {
    seq(|cats|, i requires 0 <= i < |cats| => Slice(cats[i], CategoryTotal(households, cats[i]), i % 5 + 1))
  }

  /** The slices before sorting: the household categories in order of first
      appearance, then fuel and then EMI payments when their totals are
      positive. */
  function UnsortedBreakdown(home: seq<HomeExpense>, fuel: seq<FuelExpense>): seq<Slice> {
    var households := Households(home);
    var totalFuel := Sum(fuel, DocAmount);
    var totalEmi := EmiTotal(home);
    CategorySlices(households, Categories(home))
      + (if totalFuel > 0.0 then [Slice("Fuel", totalFuel, 3)] else [])
      + (if totalEmi > 0.0 then [Slice("EMI", totalEmi, 5)] else [])
  }

  /** The series `expenseBreakdown`. */
  function Breakdown(home: seq<HomeExpense>, fuel: seq<FuelExpense>): seq<Slice> {
    SortDesc(UnsortedBreakdown(home, fuel), SliceValue)
  }

  /** What `homeByCategory` and the insertion order of its keys hold once the
      household expenses `done` have been added. */
  ghost predicate Grouped(totals: map<string, real>, order: seq<string>, done: seq<HomeExpense>) {
    && order == KeysInOrder(done, CategoryOf)
    && (forall c :: c in totals <==> c in order)
    && (forall c :: c in totals ==> totals[c] == CategoryTotal(done, c))
  }

  /** Adding one household expense to its category's running total keeps
      `Grouped`. */
  lemma GroupStep(totals: map<string, real>, order: seq<string>, done: seq<HomeExpense>, x: HomeExpense,
                  totals': map<string, real>, order': seq<string>, s: seq<HomeExpense>)
    requires Grouped(totals, order, done)
    requires s == done + [x]
    requires order' == (if x.category in totals then order else order + [x.category])
    requires totals' == totals[x.category := (if x.category in totals then totals[x.category] else 0.0) + x.amount]
    ensures Grouped(totals', order', s)
  {
    assert s[..|s| - 1] == done;
    assert KeysInOrder(s, CategoryOf) == order';
    if x.category !in totals {
      AbsentKey(done, CategoryOf, HomeAmount, x.category);
    }
  }

  /** The loop that fills `homeByCategory` from the non-EMI home expenses: adds
      each household expense to the running total of its category, which
      counts as 0 while the category has none. */
  method GroupByCategory(households: seq<HomeExpense>) returns (totals: map<string, real>, order: seq<string>)
    ensures Grouped(totals, order, households)
  {
    totals, order := map[], [];
    var i := 0;
    while i < |households|
      invariant 0 <= i <= |households|
      invariant Grouped(totals, order, households[..i])
    {
      ghost var totals0, order0 := totals, order;
      var c := households[i].category;
      if c !in totals {
        order := order + [c];
      }
      totals := totals[c := (if c in totals then totals[c] else 0.0) + households[i].amount];
      assert households[..i + 1] == households[..i] + [households[i]];
      GroupStep(totals0, order0, households[..i], households[i], totals, order, households[..i + 1]);
      i := i + 1;
    }
    assert households[..i] == households;
  }

  /** `expenseBreakdown`: groups the household expenses by category, pushes
      one slice per category, then a fuel slice and an EMI slice when their
      totals are positive, and sorts the slices largest first. */
  method ExpenseBreakdown(home: seq<HomeExpense>, fuel: seq<FuelExpense>) returns (data: seq<Slice>)
    ensures data == Breakdown(home, fuel)
  {
    var households := Households(home);
    var homeByCategory, categories := GroupByCategory(households);
    data := [];
    var j := 0;
    while j < |categories|
      invariant 0 <= j <= |categories|
      invariant data == CategorySlices(households, categories[..j])
    {
      var name := categories[j];
      assert name in homeByCategory;
      data := data + [Slice(name, homeByCategory[name], |data| % 5 + 1)];
      assert categories[..j + 1][..j] == categories[..j];
      j := j + 1;
    }
    assert categories[..j] == categories;
    var totalFuel := Sum(fuel, DocAmount);
    if totalFuel > 0.0 {
      data := data + [Slice("Fuel", totalFuel, 3)];
    }
    var totalEmi := EmiTotal(home);
    if totalEmi > 0.0 {
      data := data + [Slice("EMI", totalEmi, 5)];
    }
    assert data == UnsortedBreakdown(home, fuel);
    data := SortDesc(data, SliceValue);
  }

  // ---------------------------------------------------------------------------
  // Properties of the expense breakdown

  /** The household categories are the categories, other than `EMI`, of the
      home expenses. */
  lemma CategoriesOfHome(home: seq<HomeExpense>, c: string)
    ensures c in Categories(home) <==> c != EmiCategory && exists i :: 0 <= i < |home| && home[i].category == c
  {
    var hs := Households(home);
    KeysInOrderMembers(hs, CategoryOf, c);
    if c != EmiCategory && exists i :: 0 <= i < |home| && home[i].category == c {
      var i :| 0 <= i < |home| && home[i].category == c;
      assert home[i] in hs;
      var j :| 0 <= j < |hs| && hs[j] == home[i];
    }
    if c in Categories(home) {
      var j :| 0 <= j < |hs| && CategoryOf(hs[j]) == c;
      assert hs[j] in home && IsHouseholdExpense(hs[j]);
      var i :| 0 <= i < |home| && home[i] == hs[j];
    }
  }

  /** Leaving out the EMI payments does not change the total of any other
      category. */
  lemma {:induction false} HouseholdCategoryTotal(home: seq<HomeExpense>, c: string)
    requires c != EmiCategory
    ensures CategoryTotal(Households(home), c) == SumWhere(home, CategoryOf, HomeAmount, c)
  {
    if home != [] {
      var init, last := home[..|home| - 1], home[|home| - 1];
      HouseholdCategoryTotal(init, c);
      if IsHouseholdExpense(last) {
        assert Households(home) == Households(init) + [last];
        SumWhereAppend(Households(init), [last], CategoryOf, HomeAmount, c);
      } else {
        assert Households(home) == Households(init);
      }
    }
  }

  /** Where a slice of the unsorted list comes from. */
  lemma UnsortedSlice(home: seq<HomeExpense>, fuel: seq<FuelExpense>, s: Slice)
    requires s in UnsortedBreakdown(home, fuel)
    ensures || (s.name in Categories(home) && s.name != EmiCategory && s.value == CategoryTotal(Households(home), s.name))
            || (s == Slice("Fuel", Sum(fuel, DocAmount), 3) && Sum(fuel, DocAmount) > 0.0)
            || (s == Slice("EMI", EmiTotal(home), 5) && EmiTotal(home) > 0.0)
  {
    var cs := CategorySlices(Households(home), Categories(home));
    if s in cs {
      var i :| 0 <= i < |cs| && cs[i] == s;
      CategoriesOfHome(home, s.name);
    }
  }

  /** Every household category has its slice, whose value is the sum of the
      home expenses of that category. */
  lemma BreakdownHasCategory(home: seq<HomeExpense>, fuel: seq<FuelExpense>, i: int)
    requires 0 <= i < |home| && home[i].category != EmiCategory
    ensures var r, c := Breakdown(home, fuel), home[i].category;
      exists k :: 0 <= k < |r| && r[k].name == c && r[k].value == SumWhere(home, CategoryOf, HomeAmount, c)
  {
    var r, c := Breakdown(home, fuel), home[i].category;
    CategoriesOfHome(home, c);
    var cats := Categories(home);
    var cs := CategorySlices(Households(home), cats);
    var j :| 0 <= j < |cats| && cats[j] == c;
    var s := cs[j];
    assert s in UnsortedBreakdown(home, fuel);
    assert s in multiset(r);
    var k :| 0 <= k < |r| && r[k] == s;
    HouseholdCategoryTotal(home, c);
  }

  /** In the unsorted list, a household category not called `Fuel` names
      one slice only. */
  lemma UnsortedNameOnce(home: seq<HomeExpense>, fuel: seq<FuelExpense>, c: string, p: int, q: int)
    requires c in Categories(home) && c != "Fuel"
    requires 0 <= p < |UnsortedBreakdown(home, fuel)| && 0 <= q < |UnsortedBreakdown(home, fuel)|
    requires UnsortedBreakdown(home, fuel)[p].name == c && UnsortedBreakdown(home, fuel)[q].name == c
    ensures p == q
  {
    var cats := Categories(home);
    var u := UnsortedBreakdown(home, fuel);
    var cs := CategorySlices(Households(home), cats);
    CategoriesOfHome(home, c);
    assert u[..|cs|] == cs;
    assert p < |cs| && q < |cs| by {
      forall t | |cs| <= t < |u| ensures u[t].name in {"Fuel", "EMI"} {
      }
    }
    assert cats[p] == cs[p].name && cats[q] == cs[q].name;
    KeysInOrderDistinct(Households(home), CategoryOf);
  }

  /** Every slice of the breakdown is the slice of a household category,
      holding the sum of that category's home expenses, or the fuel slice,
      or the EMI slice. */
  lemma BreakdownSlice(home: seq<HomeExpense>, fuel: seq<FuelExpense>, k: int)
    requires 0 <= k < |Breakdown(home, fuel)|
    ensures var s := Breakdown(home, fuel)[k];
      || (s.name in Categories(home) && s.value == SumWhere(home, CategoryOf, HomeAmount, s.name))
      || (s == Slice("Fuel", Sum(fuel, DocAmount), 3) && Sum(fuel, DocAmount) > 0.0)
      || (s == Slice("EMI", EmiTotal(home), 5) && EmiTotal(home) > 0.0)
  {
    var r := Breakdown(home, fuel);
    assert r[k] in multiset(r);
    UnsortedSlice(home, fuel, r[k]);
    if r[k].name in Categories(home) {
      CategoriesOfHome(home, r[k].name);
      HouseholdCategoryTotal(home, r[k].name);
    }
  }

  /** A household category not called `Fuel` has exactly one slice: there is
      one (`BreakdownHasCategory`), and two slices with its name are the
      same slice. */
  lemma BreakdownCategoryOnce(home: seq<HomeExpense>, fuel: seq<FuelExpense>, c: string, k1: int, k2: int)
    requires c in Categories(home) && c != "Fuel"
    requires 0 <= k1 < |Breakdown(home, fuel)| && 0 <= k2 < |Breakdown(home, fuel)|
    requires Breakdown(home, fuel)[k1].name == c && Breakdown(home, fuel)[k2].name == c
    ensures k1 == k2
  {
    var r, u := Breakdown(home, fuel), UnsortedBreakdown(home, fuel);
    if k1 != k2 {
      var x := r[k1];
      assert r[k1] in multiset(u) && r[k2] in multiset(u);
      var p1 :| 0 <= p1 < |u| && u[p1] == r[k1];
      var p2 :| 0 <= p2 < |u| && u[p2] == r[k2];
      UnsortedNameOnce(home, fuel, c, p1, p2);
      forall i, j | 0 <= i < |u| && 0 <= j < |u| && u[i] == x && u[j] == x ensures i == j {
        UnsortedNameOnce(home, fuel, c, i, j);
      }
      UniqueCount(u, x);
      OnceInPermutation(r, u, k1, k2);
    }
  }

  /** There is an `EMI` slice exactly when the EMI payments add up to more
      than zero, and then its value is their total. */
  lemma BreakdownEmiSlice(home: seq<HomeExpense>, fuel: seq<FuelExpense>)
    ensures var r := Breakdown(home, fuel);
      (exists k :: 0 <= k < |r| && r[k].name == "EMI") <==> EmiTotal(home) > 0.0
    ensures var r := Breakdown(home, fuel);
      forall k :: 0 <= k < |r| && r[k].name == "EMI" ==> r[k].value == EmiTotal(home)
  {
    var r := Breakdown(home, fuel);
    forall k | 0 <= k < |r| && r[k].name == "EMI" ensures EmiTotal(home) > 0.0 && r[k].value == EmiTotal(home) {
      BreakdownSlice(home, fuel, k);
      CategoriesOfHome(home, "EMI");
    }
    if EmiTotal(home) > 0.0 {
      var s := Slice("EMI", EmiTotal(home), 5);
      assert s in UnsortedBreakdown(home, fuel);
      assert s in multiset(r);
      var k :| 0 <= k < |r| && r[k] == s;
    }
  }

  /** There is a `Fuel` slice exactly when the fuel expenses add up to more
      than zero, and then its value is their total (provided no household
      category is itself called `Fuel`). */
  lemma BreakdownFuelSlice(home: seq<HomeExpense>, fuel: seq<FuelExpense>)
    requires forall i :: 0 <= i < |home| ==> home[i].category != "Fuel"
    ensures var r := Breakdown(home, fuel);
      (exists k :: 0 <= k < |r| && r[k].name == "Fuel") <==> Sum(fuel, DocAmount) > 0.0
    ensures var r := Breakdown(home, fuel);
      forall k :: 0 <= k < |r| && r[k].name == "Fuel" ==> r[k].value == Sum(fuel, DocAmount)
  {
    var r := Breakdown(home, fuel);
    forall k | 0 <= k < |r| && r[k].name == "Fuel" ensures Sum(fuel, DocAmount) > 0.0 && r[k].value == Sum(fuel, DocAmount) {
      BreakdownSlice(home, fuel, k);
      CategoriesOfHome(home, "Fuel");
    }
    if Sum(fuel, DocAmount) > 0.0 {
      var s := Slice("Fuel", Sum(fuel, DocAmount), 3);
      assert s in UnsortedBreakdown(home, fuel);
      assert s in multiset(r);
      var k :| 0 <= k < |r| && r[k] == s;
    }
  }

  /** The slices are largest first. */
  lemma BreakdownSorted(home: seq<HomeExpense>, fuel: seq<FuelExpense>, i: int, j: int)
    requires 0 <= i < j < |Breakdown(home, fuel)|
    ensures Breakdown(home, fuel)[i].value >= Breakdown(home, fuel)[j].value
  {
    assert SortedDesc(Breakdown(home, fuel), SliceValue);
  }

  lemma {:induction false} CategorySlicesSum(households: seq<HomeExpense>, cats: seq<string>)
    ensures Sum(CategorySlices(households, cats), SliceValue) == SumGroups(cats, households, CategoryOf, HomeAmount)
  {
    if cats != [] {
      var init := cats[..|cats| - 1];
      var cs := CategorySlices(households, cats);
      assert cs[..|cs| - 1] == CategorySlices(households, init);
      CategorySlicesSum(households, init);
    }
  }

  /** The pie adds up to the household total plus the fuel and EMI totals
      that are positive: every household expense is in exactly one slice. */
  lemma BreakdownTotal(home: seq<HomeExpense>, fuel: seq<FuelExpense>)
    ensures var totalFuel, totalEmi := Sum(fuel, DocAmount), EmiTotal(home);
      Sum(Breakdown(home, fuel), SliceValue)
        == HouseholdTotal(home) + (if totalFuel > 0.0 then totalFuel else 0.0) + (if totalEmi > 0.0 then totalEmi else 0.0)
  {
    var hs, cats := Households(home), Categories(home);
    var totalFuel, totalEmi := Sum(fuel, DocAmount), EmiTotal(home);
    var cs := CategorySlices(hs, cats);
    var f := if totalFuel > 0.0 then [Slice("Fuel", totalFuel, 3)] else [];
    var e := if totalEmi > 0.0 then [Slice("EMI", totalEmi, 5)] else [];
    SortDescSum(UnsortedBreakdown(home, fuel), SliceValue, SliceValue);
    SumAppend(cs + f, e, SliceValue);
    SumAppend(cs, f, SliceValue);
    SumCons(Slice("Fuel", totalFuel, 3), [], SliceValue);
    SumCons(Slice("EMI", totalEmi, 5), [], SliceValue);
    CategorySlicesSum(hs, cats);
    KeysInOrderDistinct(hs, CategoryOf);
    forall x | x in hs ensures CategoryOf(x) in cats {
      var i :| 0 <= i < |hs| && hs[i] == x;
      KeysInOrderMembers(hs, CategoryOf, CategoryOf(x));
    }
    SumGroupsCover(cats, hs, CategoryOf, HomeAmount);
  }
}
