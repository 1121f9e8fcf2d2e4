/** The persistent records of the finance app: categories, transactions and
    savings goals, with the field domains their columns allow. Money is held
    in kopecks (hundredths of a rouble), the exact meaning of a decimal column
    with two fractional digits. */
module FinanceModels {
  import opened Wrappers
  import Seqs

  /** The two values of `TYPE_CHOICES`, shared by categories and transactions. */
  datatype Flow = Income | Expense {

    /** The two-letter code stored in the `type` column. */
    function Code(): string {
      match this
      case Income => "IN"
      case Expense => "EX"
    }
  }

  /** Reads a stored `type` code; only the two choices are accepted. */
  function ParseFlow(code: string): (f: Option<Flow>)
    ensures f.Some? <==> code == "IN" || code == "EX"
    ensures f.Some? ==> f.value.Code() == code
  {
    if code == "IN" then Some(Income)
    else if code == "EX" then Some(Expense)
    else None
  }

  /** Each flow's code reads back as that flow, and the codes differ. */
  lemma FlowCodeRoundTrip(f: Flow)
    ensures ParseFlow(f.Code()) == Some(f)
    ensures forall g: Flow :: g.Code() == f.Code() ==> g == f
  {
  }

  /** `DecimalField(max_digits=10, decimal_places=2)`: ten digits in all, two
      of them after the point, so at most 10^10 - 1 kopecks either way. */
  const KopeckLimit: int := 10_000_000_000

  predicate FitsDecimal(kopecks: int) {
    -KopeckLimit < kopecks < KopeckLimit
  }

  type Month = m: int | 1 <= m <= 12 witness 1
  type DayOfMonth = d: int | 1 <= d <= 31 witness 1

  /** A calendar day (`DateField`). */
  datatype Date = Date(year: int, month: Month, day: DayOfMonth)

  /** `a` falls strictly before `b` in calendar order. */
  predicate Before(a: Date, b: Date) {
    a.year < b.year || (a.year == b.year && (a.month < b.month || (a.month == b.month && a.day < b.day)))
  }

  /** An integer ordinal of a day, used as a sort key. Each month is given 32
      slots and each year 512, so the key is monotone in calendar order. */
  function DayKey(d: Date): int {
    d.year * 512 + d.month * 32 + d.day
  }

  /** The ordinal is faithful: equal keys are equal days, and keys compare as
      the calendar does. */
  lemma DayKeyFaithful(a: Date, b: Date)
    ensures DayKey(a) == DayKey(b) <==> a == b
    ensures DayKey(a) < DayKey(b) <==> Before(a, b)
  {
    var ra := a.month * 32 + a.day;
    var rb := b.month * 32 + b.day;
    assert 0 <= ra < 512 && 0 <= rb < 512;
    if a.year < b.year {
      assert a.year * 512 + 512 <= b.year * 512;
    } else if a.year > b.year {
      assert b.year * 512 + 512 <= a.year * 512;
    }
  }

  /** `Category`: a named bucket for one flow. */
  datatype Category = Category(id: nat, name: string, flow: Flow)

  /** `Transaction`. The category foreign key is non-null, so every row
      carries its category (here, the joined row itself). The row's own flow
      is a separate column, not tied to the category's flow, and no check
      constrains the sign of the amount. */
  datatype Transaction = Transaction(
    id: nat,
    user: nat,
    amount: int,
    flow: Flow,
    category: Category,
    date: Date,
    description: string)

  predicate ValidTransaction(t: Transaction) {
    FitsDecimal(t.amount)
  }

  /** `UserSavingGoal`. */
  datatype SavingGoal = SavingGoal(
    id: nat,
    user: nat,
    title: string,
    description: string,
    targetAmount: int,
    currentSaved: int,
    isActive: bool)

  predicate ValidGoal(g: SavingGoal) {
    FitsDecimal(g.targetAmount) && FitsDecimal(g.currentSaved)
  }

  /** Column defaults of a new goal. */
  const DefaultCurrentSaved: int := 0
  const DefaultIsActive: bool := true

  /** A goal row created with only the required columns given. */
  function NewGoal(id: nat, user: nat, title: string, targetAmount: int): (g: SavingGoal)
    requires FitsDecimal(targetAmount)
    ensures ValidGoal(g)
    ensures g.currentSaved == 0 && g.isActive
    ensures g.id == id && g.user == user && g.title == title && g.targetAmount == targetAmount
  {
    SavingGoal(id, user, title, "", targetAmount, DefaultCurrentSaved, DefaultIsActive)
  }

  /** Nothing in the schema ties a row's flow to its category's flow or
      forbids a negative amount. */
  lemma FlowNotTiedToCategory()
    ensures exists t :: ValidTransaction(t) && t.flow != t.category.flow && t.amount < 0
  {
    var t := Transaction(0, 0, -100, Income, Category(0, "", Expense), Date(2024, 1, 1), "");
    assert ValidTransaction(t) && t.flow != t.category.flow && t.amount < 0;
  }

  /** The rows of both tables, enough to state the foreign-key rule. */
  datatype Tables = Tables(categories: seq<Category>, transactions: seq<Transaction>)

  /** Every transaction's category exists. */
  ghost predicate CategoriesResolve(db: Tables) {
    forall i :: 0 <= i < |db.transactions| ==> db.transactions[i].category in db.categories
  }

  datatype DeleteResult = Deleted(tables: Tables) | ProtectedError

  /** Deleting a category (`on_delete=PROTECT`): refused while any transaction
      references it, otherwise the category rows with that id are removed. */
  function DeleteCategory(db: Tables, id: nat): (r: DeleteResult)
    ensures r.ProtectedError? <==> exists i :: 0 <= i < |db.transactions| && db.transactions[i].category.id == id
    ensures r.Deleted? ==> r.tables.transactions == db.transactions
    ensures r.Deleted? ==> forall c :: c in r.tables.categories <==> c in db.categories && c.id != id
  {
    if exists i :: 0 <= i < |db.transactions| && db.transactions[i].category.id == id then ProtectedError
    else Deleted(Tables(Seqs.Filter(db.categories, (c: Category) => c.id != id), db.transactions))
  }

  /** PROTECT keeps every transaction's category in place. */
  lemma DeleteKeepsCategoriesResolved(db: Tables, id: nat)
    requires CategoriesResolve(db)
    ensures DeleteCategory(db, id).Deleted? ==> CategoriesResolve(DeleteCategory(db, id).tables)
  {
    var r := DeleteCategory(db, id);
    if r.Deleted? {
      forall i | 0 <= i < |db.transactions|
        ensures db.transactions[i].category in r.tables.categories
      {
        assert db.transactions[i].category.id != id;
      }
    }
  }
}
