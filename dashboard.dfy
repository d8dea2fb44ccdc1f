/**
  The dashboard's aggregation: income and expense totals, the split of home
  expenses into EMI payments and household spending, the net balance, and
  the ten most recent transactions of the three recent-record streams merged
  newest first. Each collection is `None` while it is still loading.
 */
module Dashboard {
  import opened Calendar
  import opened Types
  import opened Folds
  import opened Sorting

  datatype Stats = Stats(
    totalIncome: real,
    totalFuelExpenses: real,
    totalHomeExpenses: real,
    totalEmiPaid: real,
    totalExpenses: real,
    netBalance: real,
    allTransactions: seq<Transaction>,
    mappedIncomes: seq<Income>,
    mappedHomeExpenses: seq<HomeExpense>,
    mappedFuelExpenses: seq<FuelExpense>)

  /** What the aggregation yields while any collection is missing. */
  const DefaultStats: Stats := Stats(0.0, 0.0, 0.0, 0.0, 0.0, 0.0, [], [], [], [])

  /** How many merged transactions the dashboard keeps. */
  const RecentLimit: nat := 10

  /** The category that marks a home expense as an EMI payment. */
  const EmiCategory: string := "EMI"

  function DocAmount(d: BaseDoc): real { d.amount }
  function HomeAmount(h: HomeExpense): real { h.amount }

  predicate IsEmiPayment(h: HomeExpense) { h.category == EmiCategory }
  predicate IsHouseholdExpense(h: HomeExpense) { h.category != EmiCategory }

  /** Sum of the home expenses that are not EMI payments. */
  function HouseholdTotal(home: seq<HomeExpense>): real {
    Sum(Filter(home, IsHouseholdExpense), HomeAmount)
  }

  /** Sum of the home expenses in category `EMI`. */
  function EmiTotal(home: seq<HomeExpense>): real {
    Sum(Filter(home, IsEmiPayment), HomeAmount)
  }

  /** The two parts of the split together are all home expenses: no expense
      is counted twice or dropped. */
  lemma EmiSplit(home: seq<HomeExpense>)
    ensures HouseholdTotal(home) + EmiTotal(home) == Sum(home, HomeAmount)
  {
    FilterPartition(home, HomeAmount, IsEmiPayment, IsHouseholdExpense);
  }

  /** The merged list before sorting: incomes, then home expenses (tagged
      `home` whatever their category), then fuel expenses. */
  function Tagged(incomes: seq<Income>, home: seq<HomeExpense>, fuel: seq<FuelExpense>): (r: seq<Transaction>)
    ensures |r| == |incomes| + |home| + |fuel|
    ensures forall i :: 0 <= i < |incomes| ==> r[i] == IncomeTx(incomes[i])
    ensures forall i :: 0 <= i < |home| ==> r[|incomes| + i] == HomeTx(home[i])
    ensures forall i :: 0 <= i < |fuel| ==> r[|incomes| + |home| + i] == FuelTx(fuel[i])
  {
    seq(|incomes|, i requires 0 <= i < |incomes| => IncomeTx(incomes[i]))
    + seq(|home|, i requires 0 <= i < |home| => HomeTx(home[i]))
    + seq(|fuel|, i requires 0 <= i < |fuel| => FuelTx(fuel[i]))
  }

  /** The sort key of the newest-first comparator: the date's time stamp. */
  function TxKey(tx: Transaction): real {
    Instant(tx.Date()) as real
  }

  /** The merged recent transactions, newest first, at most ten of them. */
  function Recent(incomes: seq<Income>, home: seq<HomeExpense>, fuel: seq<FuelExpense>): (r: seq<Transaction>)
    ensures |r| <= RecentLimit
    ensures |r| == if |incomes| + |home| + |fuel| < RecentLimit then |incomes| + |home| + |fuel| else RecentLimit
    ensures SortedDesc(r, TxKey)
    ensures multiset(r) <= multiset(Tagged(incomes, home, fuel))
    ensures |incomes| + |home| + |fuel| <= RecentLimit ==> multiset(r) == multiset(Tagged(incomes, home, fuel))
  {
    var sorted := SortDesc(Tagged(incomes, home, fuel), TxKey);
    var r := Take(sorted, RecentLimit);
    assert sorted == r + sorted[|r|..];
    assert multiset(sorted) == multiset(r) + multiset(sorted[|r|..]);
    r
  }

  /** The aggregation, on the full collections and on the three recent-record
      streams. */
  function Aggregate(
    incomes: Option<seq<Income>>,
    fuelExpenses: Option<seq<FuelExpense>>,
    homeExpenses: Option<seq<HomeExpense>>,
    emis: Option<seq<Emi>>,
    recentIncomes: Option<seq<Income>>,
    recentHomeExpenses: Option<seq<HomeExpense>>,
    recentFuelExpenses: Option<seq<FuelExpense>>): (r: Stats)
    ensures !AllPresent(incomes, fuelExpenses, homeExpenses, emis, recentIncomes, recentHomeExpenses, recentFuelExpenses)
      ==> r == DefaultStats
    ensures AllPresent(incomes, fuelExpenses, homeExpenses, emis, recentIncomes, recentHomeExpenses, recentFuelExpenses)
      ==> && r.totalIncome == Sum(incomes.value, DocAmount)
          && r.totalFuelExpenses == Sum(fuelExpenses.value, DocAmount)
          && r.totalHomeExpenses == HouseholdTotal(homeExpenses.value)
          && r.totalEmiPaid == EmiTotal(homeExpenses.value)
          && r.totalHomeExpenses + r.totalEmiPaid == Sum(homeExpenses.value, HomeAmount)
          && r.totalExpenses == r.totalHomeExpenses + r.totalFuelExpenses + r.totalEmiPaid
          && r.netBalance == r.totalIncome - r.totalExpenses
          && r.allTransactions == Recent(recentIncomes.value, recentHomeExpenses.value, recentFuelExpenses.value)
          && r.mappedIncomes == incomes.value
          && r.mappedHomeExpenses == homeExpenses.value
          && r.mappedFuelExpenses == fuelExpenses.value
  {
    if !AllPresent(incomes, fuelExpenses, homeExpenses, emis, recentIncomes, recentHomeExpenses, recentFuelExpenses) then
      DefaultStats
    else
      var totalIncome := Sum(incomes.value, DocAmount);
      var totalFuelExpenses := Sum(fuelExpenses.value, DocAmount);
      var totalHomeExpenses := HouseholdTotal(homeExpenses.value);
      var totalEmiPaid := EmiTotal(homeExpenses.value);
      EmiSplit(homeExpenses.value);
      var totalExpenses := totalHomeExpenses + totalFuelExpenses + totalEmiPaid;
      var netBalance := totalIncome - totalExpenses;
      Stats(totalIncome, totalFuelExpenses, totalHomeExpenses, totalEmiPaid, totalExpenses, netBalance,
            Recent(recentIncomes.value, recentHomeExpenses.value, recentFuelExpenses.value),
            incomes.value, homeExpenses.value, fuelExpenses.value)
  }

  predicate AllPresent(
    incomes: Option<seq<Income>>,
    fuelExpenses: Option<seq<FuelExpense>>,
    homeExpenses: Option<seq<HomeExpense>>,
    emis: Option<seq<Emi>>,
    recentIncomes: Option<seq<Income>>,
    recentHomeExpenses: Option<seq<HomeExpense>>,
    recentFuelExpenses: Option<seq<FuelExpense>>)
  {
    incomes.Some? && fuelExpenses.Some? && homeExpenses.Some? && emis.Some?
    && recentIncomes.Some? && recentHomeExpenses.Some? && recentFuelExpenses.Some?
  }

  /** The household total counts exactly the non-EMI home expenses and the
      EMI total exactly the EMI ones. */
  lemma {:induction false} SplitByCategory(home: seq<HomeExpense>, h: HomeExpense)
    ensures HouseholdTotal(home + [h]) == HouseholdTotal(home) + (if h.category != EmiCategory then h.amount else 0.0)
    ensures EmiTotal(home + [h]) == EmiTotal(home) + (if h.category == EmiCategory then h.amount else 0.0)
  {
    assert (home + [h])[..|home|] == home;
    if h.category == EmiCategory {
      assert Filter(home + [h], IsEmiPayment) == Filter(home, IsEmiPayment) + [h];
    } else {
      assert Filter(home + [h], IsHouseholdExpense) == Filter(home, IsHouseholdExpense) + [h];
    }
  }

  /** The loan list only decides whether the result is the default; any two
      loaded loan lists give the same result. */
  lemma LoansContributeNothing(
    incomes: Option<seq<Income>>,
    fuelExpenses: Option<seq<FuelExpense>>,
    homeExpenses: Option<seq<HomeExpense>>,
    emis1: seq<Emi>, emis2: seq<Emi>,
    recentIncomes: Option<seq<Income>>,
    recentHomeExpenses: Option<seq<HomeExpense>>,
    recentFuelExpenses: Option<seq<FuelExpense>>)
    ensures Aggregate(incomes, fuelExpenses, homeExpenses, Some(emis1), recentIncomes, recentHomeExpenses, recentFuelExpenses)
         == Aggregate(incomes, fuelExpenses, homeExpenses, Some(emis2), recentIncomes, recentHomeExpenses, recentFuelExpenses)
  {
  }

  /** Ties on the date keep the merged order: among the transactions with one
      and the same date, the recent list is a prefix of the merged order. */
  lemma RecentIsStable(incomes: seq<Income>, home: seq<HomeExpense>, fuel: seq<FuelExpense>, v: real)
    ensures var all := SortDesc(Tagged(incomes, home, fuel), TxKey);
      && Recent(incomes, home, fuel) == Take(all, RecentLimit)
      && WithKey(all, TxKey, v) == WithKey(Tagged(incomes, home, fuel), TxKey, v)
  {
    SortDescStable(Tagged(incomes, home, fuel), TxKey, v);
  }

  /** On valid dates the recent list is in non-increasing date order, and
      two transactions with the same key have the same date. */
  lemma RecentNewestFirst(incomes: seq<Income>, home: seq<HomeExpense>, fuel: seq<FuelExpense>, i: int, j: int)
    requires 0 <= i < j < |Recent(incomes, home, fuel)|
    ensures var r := Recent(incomes, home, fuel);
      ValidDate(r[i].Date()) && ValidDate(r[j].Date()) ==> !Before(r[i].Date(), r[j].Date())
  {
    var r := Recent(incomes, home, fuel);
    if ValidDate(r[i].Date()) && ValidDate(r[j].Date()) {
      assert TxKey(r[i]) >= TxKey(r[j]);
      InstantOrder(r[i].Date(), r[j].Date());
    }
  }

  /** The list keeps the newest transactions: a merged transaction that is
      left out of the list (it occurs more often in the merged list than in
      the list) is no newer than any transaction kept. */
  lemma RecentKeepsNewest(incomes: seq<Income>, home: seq<HomeExpense>, fuel: seq<FuelExpense>, x: Transaction, i: int)
    requires 0 <= i < |Recent(incomes, home, fuel)|
    ensures var r := Recent(incomes, home, fuel);
      multiset(r)[x] < multiset(Tagged(incomes, home, fuel))[x] ==>
        && TxKey(x) <= TxKey(r[i])
        && (ValidDate(x.Date()) && ValidDate(r[i].Date()) ==> !Before(r[i].Date(), x.Date()))
  {
    var r, all := Recent(incomes, home, fuel), Tagged(incomes, home, fuel);
    var sorted := SortDesc(all, TxKey);
    if multiset(r)[x] < multiset(all)[x] {
      var q := LeftOut(sorted, RecentLimit, x);
      assert sorted[i] == r[i];
      if ValidDate(x.Date()) && ValidDate(r[i].Date()) {
        InstantOrder(r[i].Date(), x.Date());
      }
    }
  }

  /** The totals of the scenario of one income of 5000, a groceries expense
      of 1000, an EMI payment of 2000 and fuel for 500. */
  lemma ExampleTotals(i: Income, f: FuelExpense, g: HomeExpense, e: HomeExpense)
    requires i.amount == 5000.0 && f.amount == 500.0
    requires g.amount == 1000.0 && g.category != EmiCategory
    requires e.amount == 2000.0 && e.category == EmiCategory
    ensures Sum([i], DocAmount) == 5000.0 && Sum([f], DocAmount) == 500.0
    ensures HouseholdTotal([g, e]) == 1000.0 && EmiTotal([g, e]) == 2000.0
  {
    SumCons(i, [], DocAmount);
    SumCons(f, [], DocAmount);
    ExampleSplit(g, e);
  }

  lemma ExampleSplit(g: HomeExpense, e: HomeExpense)
    requires g.category != EmiCategory && e.category == EmiCategory
    ensures HouseholdTotal([g, e]) == g.amount && EmiTotal([g, e]) == e.amount
  {
    assert Filter([], IsHouseholdExpense) == [] && Filter([], IsEmiPayment) == [];
    SplitByCategory([], g);
    assert [] + [g] == [g];
    SplitByCategory([g], e);
    assert [g] + [e] == [g, e];
  }

  /** The dashboard of that scenario, whatever the ids and dates: expenses of
      3500 and a balance of 1500. */
  lemma ExampleMonth(i: Income, f: FuelExpense, g: HomeExpense, e: HomeExpense)
    requires i.amount == 5000.0 && f.amount == 500.0
    requires g.amount == 1000.0 && g.category == "Groceries"
    requires e.amount == 2000.0 && e.category == "EMI"
    ensures var r := Aggregate(Some([i]), Some([f]), Some([g, e]), Some([]), Some([]), Some([]), Some([]));
      && r.totalIncome == 5000.0 && r.totalHomeExpenses == 1000.0 && r.totalEmiPaid == 2000.0
      && r.totalFuelExpenses == 500.0 && r.totalExpenses == 3500.0 && r.netBalance == 1500.0
  {
    assert g.category != EmiCategory by {
      assert g.category[0] != EmiCategory[0];
    }
    ExampleTotals(i, f, g, e);
    assert AllPresent(Some([i]), Some([f]), Some([g, e]), Some([]), Some([]), Some([]), Some([]));
  }
}
