/**
  The per-row logic of the recent-transactions table: which collection a
  deleted row is removed from, the label of its type badge, the sign in front
  of its amount and what its details cell shows. The table also tests for an
  `emi` type that the `Transaction` union does not have, so a row's type is
  kept here as the string it is compared as.
 */
module RecentTransactions {
  import opened Types

  /** What the table reads of a transaction: its id, its `type`, its amount
      and its `category` field, which only home expenses carry. */
  datatype Row = Row(id: string, tag: string, amount: real, category: Option<string>)

  /** The row of a transaction of the union. */
  function RowOf(t: Transaction): (r: Row)
    ensures r.id == t.Id() && r.tag == t.Tag() && r.amount == t.Amount()
    ensures r.category.Some? <==> t.HomeTx?
    ensures t.HomeTx? ==> r.category == Some(t.home.category)
  {
    match t
    case IncomeTx(i) => Row(i.id, "income", i.amount, None)
    case HomeTx(h) => Row(h.id, "home", h.amount, Some(h.category))
    case FuelTx(f) => Row(f.id, "fuel", f.amount, None)
  }

  /** The collection `handleDelete` picks for a type, or `""` when it picks
      none. */
  function CollectionPath(tag: string): string {
    if tag == "income" then "incomes"
    else if tag == "fuel" then "fuel_expenses"
    else if tag == "home" || tag == "emi" then "home_expenses"
    else ""
  }

  /** A document of the store: collection and id. */
  datatype DocRef = DocRef(collection: string, id: string)

  /** The delete `handleDelete` issues: on the chosen collection and the
      row's id, and only when a collection was chosen and the store is
      available. */
  function DeleteRequest(row: Row, storeAvailable: bool): (r: Option<DocRef>)
    ensures r.Some? <==> storeAvailable && row.tag in {"income", "fuel", "home", "emi"}
    ensures r.Some? ==> r.value.id == row.id
    ensures r.Some? && row.tag == "income" ==> r.value.collection == "incomes"
    ensures r.Some? && row.tag == "fuel" ==> r.value.collection == "fuel_expenses"
    ensures r.Some? && row.tag in {"home", "emi"} ==> r.value.collection == "home_expenses"
  {
    var path := CollectionPath(row.tag);
    if path != "" && storeAvailable then Some(DocRef(path, row.id)) else None
  }

  /** The collection a transaction of the union was read from. */
  function SourceCollection(t: Transaction): string {
    match t
    case IncomeTx(_) => "incomes"
    case HomeTx(_) => "home_expenses"
    case FuelTx(_) => "fuel_expenses"
  }

  /** Deleting a row of the dashboard's list removes the very document it was
      read from, EMI payments included. */
  lemma DeleteHitsSource(t: Transaction)
    ensures DeleteRequest(RowOf(t), true) == Some(DocRef(SourceCollection(t), t.Id()))
    ensures DeleteRequest(RowOf(t), false).None?
  {
  }

  /** `getTransactionTypeForBadge`. */
  function BadgeLabel(tag: string): string {
    if tag == "home" then "Home"
    else if tag == "fuel" then "Fuel"
    else if tag == "income" then "Income"
    else if tag == "emi" then "EMI"
    else "Transaction"
  }

  /** Each of the four types has its own label, and every other type the
      generic one. */
  lemma BadgeLabels(tag: string, other: string)
    ensures BadgeLabel(tag) == "Transaction" <==> tag !in {"home", "fuel", "income", "emi"}
    ensures tag in {"home", "fuel", "income", "emi"} && BadgeLabel(tag) == BadgeLabel(other) ==> tag == other
  {
  }

  /** The sign in front of the amount. */
  function SignPrefix(tag: string): (s: string)
    ensures s == "+" <==> tag == "income"
    ensures s == "+" || s == "-"
  {
    if tag == "income" then "+" else "-"
  }

  /** What the details cell shows: the category, a dash, or nothing. */
  datatype Details = CategoryText(category: Option<string>) | Dash | Blank

  function DetailsCell(row: Row): (d: Details)
    ensures d.CategoryText? <==> row.tag in {"home", "income", "emi"}
    ensures d.CategoryText? ==> d.category == row.category
    ensures d.Dash? <==> row.tag == "fuel"
  {
    if row.tag == "home" || row.tag == "income" || row.tag == "emi" then CategoryText(row.category)
    else if row.tag == "fuel" then Dash
    else Blank
  }

  /** Rows built from the union are never of type `emi`: an EMI payment shows
      as a home expense, with the `EMI` category in its details cell and a
      minus sign. */
  lemma EmiPaymentRow(h: HomeExpense)
    requires h.category == "EMI"
    ensures var r := RowOf(HomeTx(h));
      && BadgeLabel(r.tag) == "Home"
      && DetailsCell(r) == CategoryText(Some("EMI"))
      && SignPrefix(r.tag) == "-"
  {
  }

  /** Only incomes are shown with a plus sign, and only fuel expenses with a
      dash for details. */
  lemma RowSigns(t: Transaction)
    ensures SignPrefix(RowOf(t).tag) == "+" <==> t.IncomeTx?
    ensures DetailsCell(RowOf(t)) == Dash <==> t.FuelTx?
    ensures BadgeLabel(RowOf(t).tag) != "EMI" && BadgeLabel(RowOf(t).tag) != "Transaction"
  {
  }
}
