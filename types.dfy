/**
  The records the application stores (incomes, fuel and home expenses, EMI
  loans), the tagged `Transaction` view the dashboard builds from them, and
  the three form schemas as validators that either accept the input or report
  the failing fields with their messages.
 */
module Types {
  import opened Calendar

  datatype Option<T> = None | Some(value: T)

  /** Fields common to every stored amount. */
  datatype BaseDoc = BaseDoc(id: string, date: Date, amount: real)

  type Income = BaseDoc
  type FuelExpense = BaseDoc

  datatype HomeExpense = HomeExpense(id: string, date: Date, amount: real, category: string, notes: Option<string>)
  {
    /** The `BaseDoc` part of a home expense. */
    function Base(): BaseDoc {
      BaseDoc(id, date, amount)
    }
  }

  datatype Emi = Emi(id: string, name: string, vehicleType: string, monthlyAmount: real, totalMonths: int, startDate: Date)

  /** The union `Transaction`: an income, a home expense or a fuel expense,
      told apart by its tag. Only the home variant carries a category and notes. */
  datatype Transaction = IncomeTx(income: Income) | HomeTx(home: HomeExpense) | FuelTx(fuel: FuelExpense)
  {
    function Id(): string {
      match this
      case IncomeTx(i) => i.id
      case HomeTx(h) => h.id
      case FuelTx(f) => f.id
    }

    function Date(): Date {
      match this
      case IncomeTx(i) => i.date
      case HomeTx(h) => h.date
      case FuelTx(f) => f.date
    }

    function Amount(): real {
      match this
      case IncomeTx(i) => i.amount
      case HomeTx(h) => h.amount
      case FuelTx(f) => f.amount
    }

    /** The `type` discriminant. */
    function Tag(): (t: string)
      ensures t in {"income", "home", "fuel"}
      ensures t == "home" <==> this.HomeTx?
    {
      match this
      case IncomeTx(_) => "income"
      case HomeTx(_) => "home"
      case FuelTx(_) => "fuel"
    }
  }

  // ---------------------------------------------------------------------------
  // Form schemas. A parse either succeeds with the input or fails with one
  // issue per failed check, each naming its field and carrying its message.

  /** The form fields an issue's path can name. */
  datatype Field = AmountField | DateField | CategoryField | NotesField | NameField
    | VehicleTypeField | MonthlyAmountField | TotalMonthsField | StartDateField

  datatype Issue = Issue(path: Field, message: string)

  datatype Parsed<T> = Success(data: T) | Failure(issues: seq<Issue>)

  const AmountMessage: string := "Amount must be positive"
  const NameMessage: string := "EMI name is required"
  const VehicleMessage: string := "Vehicle type is required"
  const IntegerMessage: string := "Expected integer, received float"
  const MonthsMessage: string := "Must be a positive number of months"
  const EnumMessage: string := "Invalid enum value"
  const DateMessage: string := "Invalid date"

  /** The fields that the issues concern. */
  function Paths(issues: seq<Issue>): set<Field> {
    if issues == [] then {} else {issues[0].path} + Paths(issues[1..])
  }

  /** An issue for field `path` when `failed`, otherwise none. */
  function Check(failed: bool, path: Field, message: string): (r: seq<Issue>)
    ensures Paths(r) == if failed then {path} else {}
  {
    if failed then [Issue(path, message)] else []
  }

  lemma {:induction false} PathsAppend(a: seq<Issue>, b: seq<Issue>)
    ensures Paths(a + b) == Paths(a) + Paths(b)
  {
    if a == [] {
      assert a + b == b;
    } else {
      assert (a + b)[1..] == a[1..] + b;
      PathsAppend(a[1..], b);
    }
  }

  /** How many of the issues concern field `f`. */
  function PathCount(issues: seq<Issue>, f: Field): nat {
    if issues == [] then 0 else (if issues[0].path == f then 1 else 0) + PathCount(issues[1..], f)
  }

  lemma CheckCount(failed: bool, path: Field, message: string, f: Field)
    ensures PathCount(Check(failed, path, message), f) == if failed && path == f then 1 else 0
  {
    if failed {
      assert Check(failed, path, message)[1..] == [];
    }
  }

  lemma {:induction false} PathCountAppend(a: seq<Issue>, b: seq<Issue>, f: Field)
    ensures PathCount(a + b, f) == PathCount(a, f) + PathCount(b, f)
  {
    if a == [] {
      assert a + b == b;
    } else {
      assert (a + b)[1..] == a[1..] + b;
      PathCountAppend(a[1..], b, f);
    }
  }

  function Outcome<T>(x: T, issues: seq<Issue>): Parsed<T> {
    if issues == [] then Success(x) else Failure(issues)
  }

  /** A form's date field holds a JavaScript `Date`, which may be an Invalid
      Date (`new Date` of an unparsable string); `None` stands for that. */
  type FormDate = Option<Date>

  datatype IncomeInput = IncomeInput(amount: real, date: FormDate)

  /** `IncomeSchema.safeParse`: the amount must be positive and the date
      must not be an Invalid Date. */
  function ParseIncome(x: IncomeInput): (r: Parsed<IncomeInput>)
    ensures r.Success? <==> x.amount > 0.0 && x.date.Some?
    ensures r.Success? ==> r.data == x
    ensures r.Failure? ==> (AmountField in Paths(r.issues) <==> x.amount <= 0.0)
    ensures r.Failure? ==> (DateField in Paths(r.issues) <==> x.date.None?)
    ensures r.Failure? ==> Paths(r.issues) <= {AmountField, DateField}
  {
    var a := Check(x.amount <= 0.0, AmountField, AmountMessage);
    var d := Check(x.date.None?, DateField, DateMessage);
    PathsAppend(a, d);
    Outcome(x, a + d)
  }

  datatype ExpenseInput = ExpenseInput(amount: real, date: FormDate, category: Option<string>, notes: Option<string>)

  /** `ExpenseSchema.safeParse` against the home-expense category list
      `categories`: a positive amount, a date that is not an Invalid Date
      and, when a category is given, one of the list; the notes are free. */
  function ParseExpense(x: ExpenseInput, categories: seq<string>): (r: Parsed<ExpenseInput>)
    ensures r.Success? <==> x.amount > 0.0 && x.date.Some? && (x.category.Some? ==> x.category.value in categories)
    ensures r.Success? ==> r.data == x
    ensures r.Failure? ==> (AmountField in Paths(r.issues) <==> x.amount <= 0.0)
    ensures r.Failure? ==> (DateField in Paths(r.issues) <==> x.date.None?)
    ensures r.Failure? ==> (CategoryField in Paths(r.issues) <==> x.category.Some? && x.category.value !in categories)
    ensures r.Failure? ==> Paths(r.issues) <= {AmountField, DateField, CategoryField}
  {
    var badCategory := x.category.Some? && x.category.value !in categories;
    var a := Check(x.amount <= 0.0, AmountField, AmountMessage);
    var d := Check(x.date.None?, DateField, DateMessage);
    var c := Check(badCategory, CategoryField, EnumMessage);
    PathsAppend(a, d);
    PathsAppend(a + d, c);
    Outcome(x, a + d + c)
  }

  datatype EmiInput = EmiInput(name: string, vehicleType: string, monthlyAmount: real, totalMonths: real, startDate: FormDate)

  predicate IsInteger(r: real) {
    r.Floor as real == r
  }

  /** The fields of an EMI form that fail their checks. */
  function EmiFailures(x: EmiInput): set<Field> {
    (if |x.name| < 1 then {NameField} else {})
    + (if |x.vehicleType| < 1 then {VehicleTypeField} else {})
    + (if x.monthlyAmount <= 0.0 then {MonthlyAmountField} else {})
    + (if !IsInteger(x.totalMonths) || x.totalMonths <= 0.0 then {TotalMonthsField} else {})
    + (if x.startDate.None? then {StartDateField} else {})
  }

  /** The issues of an EMI form, in the order of the schema's fields. */
  function EmiIssues(x: EmiInput): (issues: seq<Issue>)
    ensures Paths(issues) == EmiFailures(x)
  {
    var n := Check(|x.name| < 1, NameField, NameMessage);
    var v := Check(|x.vehicleType| < 1, VehicleTypeField, VehicleMessage);
    var m := Check(x.monthlyAmount <= 0.0, MonthlyAmountField, AmountMessage);
    var t1 := Check(!IsInteger(x.totalMonths), TotalMonthsField, IntegerMessage);
    var t2 := Check(x.totalMonths <= 0.0, TotalMonthsField, MonthsMessage);
    var d := Check(x.startDate.None?, StartDateField, DateMessage);
    PathsAppend(n, v);
    PathsAppend(n + v, m);
    PathsAppend(n + v + m, t1);
    PathsAppend(n + v + m + t1, t2);
    PathsAppend(n + v + m + t1 + t2, d);
    n + v + m + t1 + t2 + d
  }

  /** A number of months that is neither whole nor positive gets two issues
      on `totalMonths`, one per failed check. */
  lemma EmiIssuesTotalMonths(x: EmiInput)
    ensures PathCount(EmiIssues(x), TotalMonthsField)
         == (if !IsInteger(x.totalMonths) then 1 else 0) + (if x.totalMonths <= 0.0 then 1 else 0)
  {
    var n := Check(|x.name| < 1, NameField, NameMessage);
    var v := Check(|x.vehicleType| < 1, VehicleTypeField, VehicleMessage);
    var m := Check(x.monthlyAmount <= 0.0, MonthlyAmountField, AmountMessage);
    var t1 := Check(!IsInteger(x.totalMonths), TotalMonthsField, IntegerMessage);
    var t2 := Check(x.totalMonths <= 0.0, TotalMonthsField, MonthsMessage);
    var d := Check(x.startDate.None?, StartDateField, DateMessage);
    assert EmiIssues(x) == n + v + m + t1 + t2 + d;
    CheckCount(|x.name| < 1, NameField, NameMessage, TotalMonthsField);
    CheckCount(|x.vehicleType| < 1, VehicleTypeField, VehicleMessage, TotalMonthsField);
    CheckCount(x.monthlyAmount <= 0.0, MonthlyAmountField, AmountMessage, TotalMonthsField);
    CheckCount(!IsInteger(x.totalMonths), TotalMonthsField, IntegerMessage, TotalMonthsField);
    CheckCount(x.totalMonths <= 0.0, TotalMonthsField, MonthsMessage, TotalMonthsField);
    CheckCount(x.startDate.None?, StartDateField, DateMessage, TotalMonthsField);
    PathCountAppend(n, v, TotalMonthsField);
    PathCountAppend(n + v, m, TotalMonthsField);
    PathCountAppend(n + v + m, t1, TotalMonthsField);
    PathCountAppend(n + v + m + t1, t2, TotalMonthsField);
    PathCountAppend(n + v + m + t1 + t2, d, TotalMonthsField);
  }

  /** `EmiSchema.safeParse`: non-empty name and vehicle type, a positive
      monthly amount, a whole, positive number of months and a start date
      that is not an Invalid Date. Both checks on
      the number of months are reported when both fail (`EmiIssuesTotalMonths`). */
  function ParseEmi(x: EmiInput): (r: Parsed<EmiInput>)
    ensures r.Success? <==>
      |x.name| >= 1 && |x.vehicleType| >= 1 && x.monthlyAmount > 0.0 && IsInteger(x.totalMonths) && x.totalMonths > 0.0
      && x.startDate.Some?
    ensures r.Success? ==> r.data == x
    ensures r.Failure? ==> Paths(r.issues) == EmiFailures(x)
  {
    var issues := EmiIssues(x);
    var ok := |x.name| >= 1 && |x.vehicleType| >= 1 && x.monthlyAmount > 0.0 && IsInteger(x.totalMonths) && x.totalMonths > 0.0
      && x.startDate.Some?;
    assert ok <==> EmiFailures(x) == {} by {
      if !ok {
        assert exists f :: f in EmiFailures(x);
      }
    }
    PathsEmpty(issues);
    Outcome(x, issues)
  }

  lemma PathsEmpty(issues: seq<Issue>)
    ensures Paths(issues) == {} <==> issues == []
  {
    if issues != [] {
      assert issues[0].path in Paths(issues);
    }
  }

  /** The stored loan built from an accepted EMI form. */
  function EmiOf(id: string, x: EmiInput): Emi
    requires x.startDate.Some?
  {
    Emi(id, x.name, x.vehicleType, x.monthlyAmount, x.totalMonths.Floor, x.startDate.value)
  }
}
