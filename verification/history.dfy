/** The transaction history page: the month and year pickers, the listing
    they request, the local removal after a delete, and the sign shown in
    front of an amount. */
module TransactionHistory {
  import opened Wrappers
  import opened FinanceModels
  import FinanceViews
  import Seqs

  datatype MonthOption = MonthOption(id: int, name: string)

  /** The month picker: ids 1 to 12 in calendar order with their Russian names. */
  const Months: seq<MonthOption> := [
    MonthOption(1, "Январь"), MonthOption(2, "Февраль"), MonthOption(3, "Март"),
    MonthOption(4, "Апрель"), MonthOption(5, "Май"), MonthOption(6, "Июнь"),
    MonthOption(7, "Июль"), MonthOption(8, "Август"), MonthOption(9, "Сентябрь"),
    MonthOption(10, "Октябрь"), MonthOption(11, "Ноябрь"), MonthOption(12, "Декабрь")]

  /** The month picker offers every calendar month exactly once, in order. */
  lemma MonthsInOrder()
    ensures |Months| == 12
    ensures forall i :: 0 <= i < |Months| ==> Months[i].id == i + 1
  {
  }

  /** The month preselected from the clock's zero-based month. */
  function DefaultMonth(clockMonth: int): (m: Month)
    requires 0 <= clockMonth <= 11
    ensures Months[m - 1].id == m
    ensures m - 1 == clockMonth
  {
    MonthsInOrder();
    clockMonth + 1
  }

  /** The year picker: the five years ending at the current one, newest first. */
  function YearOptions(current: int): (ys: seq<int>)
    ensures |ys| == 5 && ys[0] == current
    ensures forall i, j :: 0 <= i < j < |ys| ==> ys[i] > ys[j]
    ensures forall y :: y in ys <==> current - 4 <= y <= current
  {
    var ys := seq(5, i requires 0 <= i < 5 => current - i);
    forall y | current - 4 <= y <= current
      ensures y in ys
    {
      assert ys[current - y] == y;
    }
    ys
  }

  /** The listing shown for a pick: the server's transaction list for that
      month and year, both always sent. It holds exactly the stored rows of
      the user in that month and year, each as often as stored, newest first. */
  function Listing(rows: seq<Transaction>, user: nat, month: Month, year: int): (r: seq<Transaction>)
    ensures multiset(r) == multiset(Seqs.Filter(rows, FinanceViews.ListMatch(user, Some(month), Some(year))))
    ensures forall i :: 0 <= i < |r| ==> r[i] in rows
    ensures forall i :: 0 <= i < |r| ==> r[i].user == user && r[i].date.month == month && r[i].date.year == year
    ensures forall i :: 0 <= i < |rows| && rows[i].user == user && rows[i].date.month == month && rows[i].date.year == year ==>
              rows[i] in r
    ensures forall i, j :: 0 <= i < j < |r| ==> !Before(r[i].date, r[j].date)
  {
    FinanceViews.TransactionList(rows, user, Some(month), Some(year))
  }

  function NotId(id: nat): Transaction -> bool {
    (t: Transaction) => t.id != id
  }

  /** The page after `handleDelete`: the list shown, the alert raised if any,
      and the paths sent a DELETE. */
  datatype AfterDelete = AfterDelete(shown: seq<Transaction>, alert: Option<string>, deleted: seq<string>)

  const DeleteErrorMessage: string := "Ошибка при удалении"

  function DeletePath(id: nat): string {
    "transactions/" + NatText(id) + "/"
  }

  /** Decimal digits of a natural number. */
  function NatText(n: nat): string
    decreases n
  {
    var digit := ["0", "1", "2", "3", "4", "5", "6", "7", "8", "9"][n % 10];
    if n < 10 then digit else NatText(n / 10) + digit
  }

  /** `handleDelete`, with the user's answer to the confirmation and whether
      the request failed as parameters. */
  function HandleDelete(shown: seq<Transaction>, id: nat, confirmed: bool, failed: bool): (r: AfterDelete)
    ensures !confirmed ==> r == AfterDelete(shown, None, [])
    ensures confirmed ==> r.deleted == [DeletePath(id)]
    ensures confirmed && failed ==> r.shown == shown && r.alert == Some(DeleteErrorMessage)
    ensures confirmed && !failed ==> r.alert.None?
    ensures forall i :: 0 <= i < |r.shown| ==> r.shown[i] in shown
  {
    if !confirmed then AfterDelete(shown, None, [])
    else if failed then AfterDelete(shown, Some(DeleteErrorMessage), [DeletePath(id)])
    else AfterDelete(Seqs.Filter(shown, NotId(id)), None, [DeletePath(id)])
  }

  /** A confirmed, successful delete removes exactly the entries with that id:
      none of them remains and every other entry stays. */
  lemma DeleteRemovesExactly(shown: seq<Transaction>, id: nat)
    ensures var r := HandleDelete(shown, id, true, false).shown;
      && (forall i :: 0 <= i < |r| ==> r[i].id != id)
      && (forall i :: 0 <= i < |shown| && shown[i].id != id ==> shown[i] in r)
  {
  }

  /** The remaining entries keep their order: deleting from a list split in
      two deletes from each part in turn. */
  lemma DeleteKeepsOrder(a: seq<Transaction>, b: seq<Transaction>, id: nat)
    ensures HandleDelete(a + b, id, true, false).shown
      == HandleDelete(a, id, true, false).shown + HandleDelete(b, id, true, false).shown
  {
    Seqs.FilterAppend(a, b, NotId(id));
  }

  /** Deleting the same id again leaves the list as it is. */
  lemma {:induction false} DeleteIdempotent(shown: seq<Transaction>, id: nat)
    ensures var once := HandleDelete(shown, id, true, false).shown;
      HandleDelete(once, id, true, false).shown == once
  {
    if |shown| > 0 {
      var head := [shown[0]];
      assert shown == head + shown[1..];
      DeleteKeepsOrder(head, shown[1..], id);
      var h := HandleDelete(head, id, true, false).shown;
      var t := HandleDelete(shown[1..], id, true, false).shown;
      DeleteKeepsOrder(h, t, id);
      assert head[1..] == [];
      DeleteIdempotent(shown[1..], id);
    }
  }

  /** The sign put in front of a formatted amount, from the row's type code. */
  function SignPrefix(code: string): (sign: string)
    ensures sign == "+" <==> code == "IN"
    ensures sign == "+" || sign == "-"
  {
    if code == "IN" then "+" else "-"
  }

  /** `formatAmount`, with the locale's currency text as a parameter. */
  function FormatAmount(formatted: string, code: string): (shown: string)
    ensures |shown| == |formatted| + 1 && shown[1..] == formatted
    ensures shown[0] == '+' <==> code == "IN"
  {
    SignPrefix(code) + formatted
  }

  /** Incomes are shown with a plus, expenses with a minus. */
  lemma SignOfFlow(formatted: string, f: Flow)
    ensures FormatAmount(formatted, f.Code())[0] == (if f == Income then '+' else '-')
  {
  }
}
