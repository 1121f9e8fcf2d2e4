/** The server's read side: the per-user transaction list with its month and
    year filters, and the statistics endpoint, which reduces the requester's
    transactions in a date range to a summary, a per-day chart series and two
    per-category pie lists. Creation assigns rows to the requester. */
module FinanceViews {
  import opened Wrappers
  import opened FinanceModels
  import opened Seqs
  import Sorting

  // ---------------------------------------------------------------------
  // Row selectors. Each is a named function returning the predicate, so
  // that every use of a selector denotes the same predicate value.

  function OfUser(user: nat): Transaction -> bool {
    (t: Transaction) => t.user == user
  }

  function OfFlow(flow: Flow): Transaction -> bool {
    (t: Transaction) => t.flow == flow
  }

  function OnDayOfFlow(d: Date, flow: Flow): Transaction -> bool {
    (t: Transaction) => t.date == d && t.flow == flow
  }

  function Amount(t: Transaction): int {
    t.amount
  }

  function TxDayKey(t: Transaction): int {
    DayKey(t.date)
  }

  // ---------------------------------------------------------------------
  // TransactionViewSet.get_queryset

  /** The optional `month` and `year` query parameters, each ignored when absent. */
  predicate InPeriod(t: Transaction, month: Option<int>, year: Option<int>) {
    (month.None? || t.date.month == month.value) && (year.None? || t.date.year == year.value)
  }

  function ListMatch(user: nat, month: Option<int>, year: Option<int>): Transaction -> bool {
    (t: Transaction) => t.user == user && InPeriod(t, month, year)
  }

  /** The queryset chain: the requester's rows, narrowed by month and then by
      year when given. It selects the same rows as one combined filter. */
  function ListQuery(rows: seq<Transaction>, user: nat, month: Option<int>, year: Option<int>): (r: seq<Transaction>)
    ensures r == Filter(rows, ListMatch(user, month, year))
  {
    var mine := Filter(rows, OfUser(user));
    var byMonth := if month.Some? then Filter(mine, (t: Transaction) => t.date.month == month.value) else mine;
    var byYear := if year.Some? then Filter(byMonth, (t: Transaction) => t.date.year == year.value) else byMonth;
    var m1 := (t: Transaction) => t.user == user && (month.None? || t.date.month == month.value);
    assert byMonth == Filter(rows, m1) by {
      if month.Some? {
        FilterFilter(rows, OfUser(user), (t: Transaction) => t.date.month == month.value, m1);
      } else {
        FilterCongruent(rows, OfUser(user), m1);
      }
    }
    assert byYear == Filter(rows, ListMatch(user, month, year)) by {
      if year.Some? {
        FilterFilter(rows, m1, (t: Transaction) => t.date.year == year.value, ListMatch(user, month, year));
      } else {
        FilterCongruent(rows, m1, ListMatch(user, month, year));
      }
    }
    byYear
  }

  /** The transaction list (`order_by('-date')`): exactly the requester's
      rows in the requested period, each as often as stored, newest first. */
  function TransactionList(rows: seq<Transaction>, user: nat, month: Option<int>, year: Option<int>): (r: seq<Transaction>)
    ensures multiset(r) == multiset(Filter(rows, ListMatch(user, month, year)))
    ensures forall i :: 0 <= i < |r| ==> r[i] in rows && r[i].user == user && InPeriod(r[i], month, year)
    ensures forall i :: 0 <= i < |rows| && rows[i].user == user && InPeriod(rows[i], month, year) ==> rows[i] in r
    ensures forall i, j :: 0 <= i < j < |r| ==> !Before(r[i].date, r[j].date)
  {
    var q := ListQuery(rows, user, month, year);
    var r := Sorting.SortDesc(q, TxDayKey);
    ListedRows(rows, user, month, year, r);
    NewestFirst(r);
    r
  }

  /** A reordering of the matching rows holds exactly the matching rows. */
  lemma ListedRows(rows: seq<Transaction>, user: nat, month: Option<int>, year: Option<int>, r: seq<Transaction>)
    requires multiset(r) == multiset(Filter(rows, ListMatch(user, month, year)))
    ensures forall i :: 0 <= i < |r| ==> r[i] in rows && r[i].user == user && InPeriod(r[i], month, year)
    ensures forall i :: 0 <= i < |rows| && rows[i].user == user && InPeriod(rows[i], month, year) ==> rows[i] in r
  {
    var p := ListMatch(user, month, year);
    var q := Filter(rows, p);
    forall i | 0 <= i < |r|
      ensures r[i] in rows && p(r[i])
    {
      assert r[i] in multiset(q);
    }
    forall i | 0 <= i < |rows| && p(rows[i])
      ensures rows[i] in r
    {
      assert rows[i] in multiset(q);
    }
  }

  /** Non-increasing day keys mean no row is dated before a later one. */
  lemma NewestFirst(r: seq<Transaction>)
    requires Sorting.SortedDesc(r, TxDayKey)
    ensures forall i, j :: 0 <= i < j < |r| ==> !Before(r[i].date, r[j].date)
  {
    forall i, j | 0 <= i < j < |r|
      ensures !Before(r[i].date, r[j].date)
    {
      assert TxDayKey(r[i]) >= TxDayKey(r[j]);
      DayKeyFaithful(r[i].date, r[j].date);
    }
  }

  // ---------------------------------------------------------------------
  // TransactionStatsView.get: the row set

  /** The optional `start_date` / `end_date` bounds, both inclusive. */
  predicate InRange(t: Transaction, start: Option<Date>, end: Option<Date>) {
    (start.None? || !Before(t.date, start.value)) && (end.None? || !Before(end.value, t.date))
  }

  function StatsMatch(user: nat, start: Option<Date>, end: Option<Date>): Transaction -> bool {
    (t: Transaction) => t.user == user && InRange(t, start, end)
  }

  /** The rows the statistics are computed over. */
  function StatsScope(rows: seq<Transaction>, user: nat, start: Option<Date>, end: Option<Date>): (r: seq<Transaction>)
    ensures r == Filter(rows, StatsMatch(user, start, end))
  {
    var mine := Filter(rows, OfUser(user));
    var fromStart := if start.Some? then Filter(mine, (t: Transaction) => !Before(t.date, start.value)) else mine;
    var toEnd := if end.Some? then Filter(fromStart, (t: Transaction) => !Before(end.value, t.date)) else fromStart;
    assert toEnd == Filter(rows, StatsMatch(user, start, end)) by {
      var m1 := (t: Transaction) => t.user == user && (start.None? || !Before(t.date, start.value));
      if start.Some? {
        FilterFilter(rows, OfUser(user), (t: Transaction) => !Before(t.date, start.value), m1);
      } else {
        FilterCongruent(rows, OfUser(user), m1);
      }
      if end.Some? {
        FilterFilter(rows, m1, (t: Transaction) => !Before(end.value, t.date), StatsMatch(user, start, end));
      } else {
        FilterCongruent(rows, m1, StatsMatch(user, start, end));
      }
    }
    toEnd
  }

  // ---------------------------------------------------------------------
  // Summary

  /** `Coalesce(Sum('amount', filter=Q(type=...)), 0)`: zero over no rows,
      and never negative when no amount is. */
  function FlowTotal(ts: seq<Transaction>, flow: Flow): (total: int)
    ensures ts == [] ==> total == 0
    ensures (forall i :: 0 <= i < |ts| ==> ts[i].amount >= 0) ==> total >= 0
  {
    var rows := Filter(ts, OfFlow(flow));
    assert (forall i :: 0 <= i < |ts| ==> ts[i].amount >= 0) ==> SumOf(rows, Amount) >= 0 by {
      if forall i :: 0 <= i < |ts| ==> ts[i].amount >= 0 {
        assert forall k :: 0 <= k < |rows| ==> Amount(rows[k]) >= 0;
        SumNonNegative(rows, Amount);
      }
    }
    SumOf(rows, Amount)
  }

  datatype Summary = Summary(totalIncome: int, totalExpense: int, balance: int)

  /** The income, expense and balance totals. */
  function Summarize(ts: seq<Transaction>): (s: Summary)
    ensures s.balance == s.totalIncome - s.totalExpense
    ensures ts == [] ==> s == Summary(0, 0, 0)
    ensures (forall i :: 0 <= i < |ts| ==> ts[i].amount >= 0) ==> s.totalIncome >= 0 && s.totalExpense >= 0
  {
    var income := FlowTotal(ts, Income);
    var expense := FlowTotal(ts, Expense);
    Summary(income, expense, income - expense)
  }

  // ---------------------------------------------------------------------
  // chart_data: one point per day that has rows, ascending by day

  datatype ChartPoint = ChartPoint(day: Date, income: int, expense: int)

  function PointIncome(p: ChartPoint): int {
    p.income
  }

  function PointExpense(p: ChartPoint): int {
    p.expense
  }

  /** The sum of a flow's amounts on one day: the reference meaning of a chart point. */
  function DayTotal(ts: seq<Transaction>, d: Date, flow: Flow): int {
    SumOf(Filter(ts, OnDayOfFlow(d, flow)), Amount)
  }

  /** Each point's day is strictly earlier than the next point's. */
  ghost predicate Ascending(c: seq<ChartPoint>) {
    |c| <= 1 || (DayKey(c[0].day) < DayKey(c[1].day) && Ascending(c[1..]))
  }

  /** The days that have a point. */
  ghost function Days(c: seq<ChartPoint>): set<Date> {
    if |c| == 0 then {} else {c[0].day} + Days(c[1..])
  }

  /** The days that have a row. */
  ghost function RowDays(ts: seq<Transaction>): set<Date> {
    if |ts| == 0 then {} else {ts[0].date} + RowDays(ts[1..])
  }

  /** The income recorded for day `d` across the points of `c`. */
  function DayIncome(c: seq<ChartPoint>, d: Date): int {
    if |c| == 0 then 0 else (if c[0].day == d then c[0].income else 0) + DayIncome(c[1..], d)
  }

  /** The expense recorded for day `d` across the points of `c`. */
  function DayExpense(c: seq<ChartPoint>, d: Date): int {
    if |c| == 0 then 0 else (if c[0].day == d then c[0].expense else 0) + DayExpense(c[1..], d)
  }

  function IncomeOf(t: Transaction): int {
    if t.flow == Income then t.amount else 0
  }

  function ExpenseOf(t: Transaction): int {
    if t.flow == Expense then t.amount else 0
  }

  /** Accounts one row into an ascending series: merged into the point for
      its day, or inserted as a new point at its place. */
  function AddToChart(c: seq<ChartPoint>, t: Transaction): (r: seq<ChartPoint>)
    requires Ascending(c)
    ensures Ascending(r)
    ensures |r| > 0 && r[0].day == (if |c| == 0 || DayKey(t.date) <= DayKey(c[0].day) then t.date else c[0].day)
  {
    var point := ChartPoint(t.date, IncomeOf(t), ExpenseOf(t));
    if |c| == 0 then [point]
    else
      DayKeyFaithful(t.date, c[0].day);
      if DayKey(t.date) < DayKey(c[0].day) then [point] + c
      else if t.date == c[0].day then
        [ChartPoint(c[0].day, c[0].income + IncomeOf(t), c[0].expense + ExpenseOf(t))] + c[1..]
      else
        var r := [c[0]] + AddToChart(c[1..], t);
        assert r[1..] == AddToChart(c[1..], t);
        r
  }

  /** Adding a row adds its day to the days of the series. */
  lemma {:induction false} AddToChartDays(c: seq<ChartPoint>, t: Transaction)
    requires Ascending(c)
    ensures Days(AddToChart(c, t)) == Days(c) + {t.date}
  {
    var r := AddToChart(c, t);
    if |c| > 0 {
      DayKeyFaithful(t.date, c[0].day);
      if DayKey(t.date) < DayKey(c[0].day) {
        assert r[1..] == c;
      } else if t.date == c[0].day {
        assert r[1..] == c[1..];
      } else {
        assert r[1..] == AddToChart(c[1..], t);
        AddToChartDays(c[1..], t);
      }
    }
  }

  /** Adding a row adds its income and expense to its own day only, and to
      the series' totals. */
  lemma {:induction false} AddToChartValues(c: seq<ChartPoint>, t: Transaction, d: Date)
    requires Ascending(c)
    ensures DayIncome(AddToChart(c, t), d) == DayIncome(c, d) + (if d == t.date then IncomeOf(t) else 0)
    ensures DayExpense(AddToChart(c, t), d) == DayExpense(c, d) + (if d == t.date then ExpenseOf(t) else 0)
    ensures SumOf(AddToChart(c, t), PointIncome) == SumOf(c, PointIncome) + IncomeOf(t)
    ensures SumOf(AddToChart(c, t), PointExpense) == SumOf(c, PointExpense) + ExpenseOf(t)
  {
    var r := AddToChart(c, t);
    if |c| > 0 {
      DayKeyFaithful(t.date, c[0].day);
      if DayKey(t.date) < DayKey(c[0].day) {
        assert r[1..] == c;
      } else if t.date == c[0].day {
        assert r[1..] == c[1..];
      } else {
        assert r[1..] == AddToChart(c[1..], t);
        AddToChartValues(c[1..], t, d);
      }
    }
  }

  /** The chart series of a row set (`.values('day').annotate(...).order_by('day')`). */
  function Chart(ts: seq<Transaction>): (c: seq<ChartPoint>)
    ensures Ascending(c)
  {
    if |ts| == 0 then [] else AddToChart(Chart(ts[1..]), ts[0])
  }

  /** The series has a point for exactly the days that have rows. */
  lemma {:induction false} ChartDays(ts: seq<Transaction>)
    ensures Days(Chart(ts)) == RowDays(ts)
  {
    if |ts| > 0 {
      ChartDays(ts[1..]);
      AddToChartDays(Chart(ts[1..]), ts[0]);
    }
  }

  /** Each day's values are that day's per-flow sums. */
  lemma {:induction false} ChartDayValues(ts: seq<Transaction>, d: Date)
    ensures DayIncome(Chart(ts), d) == DayTotal(ts, d, Income)
    ensures DayExpense(Chart(ts), d) == DayTotal(ts, d, Expense)
  {
    if |ts| > 0 {
      var t := ts[0];
      ChartDayValues(ts[1..], d);
      AddToChartValues(Chart(ts[1..]), t, d);
      SumFilterStep(ts, OnDayOfFlow(d, Income), Amount);
      SumFilterStep(ts, OnDayOfFlow(d, Expense), Amount);
      assert DayTotal(ts, d, Income) == (if d == t.date then IncomeOf(t) else 0) + DayTotal(ts[1..], d, Income);
      assert DayTotal(ts, d, Expense) == (if d == t.date then ExpenseOf(t) else 0) + DayTotal(ts[1..], d, Expense);
    }
  }

  /** The series adds up to the flow totals. */
  lemma {:induction false} ChartSums(ts: seq<Transaction>)
    ensures SumOf(Chart(ts), PointIncome) == FlowTotal(ts, Income)
    ensures SumOf(Chart(ts), PointExpense) == FlowTotal(ts, Expense)
  {
    if |ts| > 0 {
      var t := ts[0];
      ChartSums(ts[1..]);
      AddToChartValues(Chart(ts[1..]), t, t.date);
      SumFilterStep(ts, OfFlow(Income), Amount);
      SumFilterStep(ts, OfFlow(Expense), Amount);
      assert FlowTotal(ts, Income) == IncomeOf(t) + FlowTotal(ts[1..], Income);
      assert FlowTotal(ts, Expense) == ExpenseOf(t) + FlowTotal(ts[1..], Expense);
    }
  }

  /** Adjacent ascent is ascent between any two points. */
  lemma {:induction false} AscendingEverywhere(c: seq<ChartPoint>, i: int, j: int)
    requires Ascending(c)
    requires 0 <= i < j < |c|
    ensures DayKey(c[i].day) < DayKey(c[j].day)
    decreases j
  {
    if i > 0 {
      AscendingEverywhere(c[1..], i - 1, j - 1);
    } else if j > 1 {
      AscendingEverywhere(c[1..], 0, j - 1);
    }
  }

  /** A point of an ascending series holds all of its day's values. */
  lemma {:induction false} PointHoldsDay(c: seq<ChartPoint>, i: int)
    requires Ascending(c)
    requires 0 <= i < |c|
    ensures DayIncome(c, c[i].day) == c[i].income
    ensures DayExpense(c, c[i].day) == c[i].expense
  {
    if i == 0 {
      forall j | 0 <= j < |c[1..]|
        ensures c[1..][j].day != c[0].day
      {
        AscendingEverywhere(c, 0, j + 1);
      }
      DayAbsent(c[1..], c[0].day);
    } else {
      AscendingEverywhere(c, 0, i);
      PointHoldsDay(c[1..], i - 1);
    }
  }

  /** A day without a point has nothing recorded. */
  lemma {:induction false} DayAbsent(c: seq<ChartPoint>, d: Date)
    requires forall j :: 0 <= j < |c| ==> c[j].day != d
    ensures DayIncome(c, d) == 0 && DayExpense(c, d) == 0
  {
    if |c| > 0 {
      DayAbsent(c[1..], d);
    }
  }

  /** Membership in `Days` is having a point at some index. */
  lemma {:induction false} DaysMembers(c: seq<ChartPoint>, d: Date)
    ensures d in Days(c) <==> exists i :: 0 <= i < |c| && c[i].day == d
  {
    if |c| > 0 {
      DaysMembers(c[1..], d);
      if exists i :: 0 <= i < |c[1..]| && c[1..][i].day == d {
        var i :| 0 <= i < |c[1..]| && c[1..][i].day == d;
        assert c[i + 1].day == d;
      }
      if exists i :: 0 <= i < |c| && c[i].day == d {
        var i :| 0 <= i < |c| && c[i].day == d;
        if i > 0 {
          assert c[1..][i - 1].day == d;
        }
      }
    }
  }

  /** Membership in `RowDays` is having a row at some index. */
  lemma {:induction false} RowDaysMembers(ts: seq<Transaction>, d: Date)
    ensures d in RowDays(ts) <==> exists k :: 0 <= k < |ts| && ts[k].date == d
  {
    if |ts| > 0 {
      RowDaysMembers(ts[1..], d);
      if exists k :: 0 <= k < |ts[1..]| && ts[1..][k].date == d {
        var k :| 0 <= k < |ts[1..]| && ts[1..][k].date == d;
        assert ts[k + 1].date == d;
      }
      if exists k :: 0 <= k < |ts| && ts[k].date == d {
        var k :| 0 <= k < |ts| && ts[k].date == d;
        if k > 0 {
          assert ts[1..][k - 1].date == d;
        }
      }
    }
  }

  /** The points' days are in strictly ascending calendar order. */
  lemma {:induction false} ChartOrdered(c: seq<ChartPoint>)
    requires Ascending(c)
    ensures forall i, j :: 0 <= i < j < |c| ==> Before(c[i].day, c[j].day)
  {
    forall i, j | 0 <= i < j < |c|
      ensures Before(c[i].day, c[j].day)
    {
      AscendingEverywhere(c, i, j);
      DayKeyFaithful(c[i].day, c[j].day);
    }
  }

  /** Every point holds its day's income and expense sums. */
  lemma {:induction false} ChartPointsHoldDaySums(ts: seq<Transaction>, c: seq<ChartPoint>)
    requires c == Chart(ts)
    ensures forall i :: 0 <= i < |c| ==>
      c[i].income == DayTotal(ts, c[i].day, Income) && c[i].expense == DayTotal(ts, c[i].day, Expense)
  {
    forall i | 0 <= i < |c|
      ensures c[i].income == DayTotal(ts, c[i].day, Income)
      ensures c[i].expense == DayTotal(ts, c[i].day, Expense)
    {
      PointHoldsDay(c, i);
      ChartDayValues(ts, c[i].day);
    }
  }

  /** A day has a point iff some row falls on it. */
  lemma {:induction false} ChartCoversRowDays(ts: seq<Transaction>, c: seq<ChartPoint>)
    requires c == Chart(ts)
    ensures forall i :: 0 <= i < |c| ==> exists k :: 0 <= k < |ts| && ts[k].date == c[i].day
    ensures forall k :: 0 <= k < |ts| ==> exists i :: 0 <= i < |c| && c[i].day == ts[k].date
  {
    ChartDays(ts);
    forall i | 0 <= i < |c|
      ensures exists k :: 0 <= k < |ts| && ts[k].date == c[i].day
    {
      DaysMembers(c, c[i].day);
      RowDaysMembers(ts, c[i].day);
    }
    forall k | 0 <= k < |ts|
      ensures exists i :: 0 <= i < |c| && c[i].day == ts[k].date
    {
      DaysMembers(c, ts[k].date);
      RowDaysMembers(ts, ts[k].date);
    }
  }

  // ---------------------------------------------------------------------
  // income_pie_data / expense_pie_data

  datatype PieSlice = PieSlice(name: string, value: int)

  function SliceName(s: PieSlice): string {
    s.name
  }

  function SliceValue(s: PieSlice): int {
    s.value
  }

  /** The label shown for an empty category name (`name or 'Без категории'`). */
  const Uncategorised: string := "Без категории"

  /** The label shown for a category name: Python's `or` replaces only the
      empty string. */
  function DisplayName(name: string): (shown: string)
    ensures shown != ""
    ensures name != "" ==> shown == name
    ensures name == "" ==> shown == Uncategorised
  {
    if name == "" then Uncategorised else name
  }

  /** The names that have a slice. */
  ghost function Names(gs: seq<PieSlice>): set<string> {
    if |gs| == 0 then {} else {gs[0].name} + Names(gs[1..])
  }

  /** The category names that have a row. */
  ghost function RowNames(ts: seq<Transaction>): set<string> {
    if |ts| == 0 then {} else {ts[0].category.name} + RowNames(ts[1..])
  }

  /** No name has two slices. */
  ghost predicate NamesDistinct(gs: seq<PieSlice>) {
    |gs| == 0 || (gs[0].name !in Names(gs[1..]) && NamesDistinct(gs[1..]))
  }

  /** The value recorded for `name` across the slices of `gs`. */
  function NameValue(gs: seq<PieSlice>, name: string): int {
    if |gs| == 0 then 0 else (if gs[0].name == name then gs[0].value else 0) + NameValue(gs[1..], name)
  }

  /** Adds an amount to the group of its category name, opening the group if needed. */
  function AddToGroups(gs: seq<PieSlice>, name: string, amount: int): (r: seq<PieSlice>)
    requires NamesDistinct(gs)
    ensures NamesDistinct(r)
    ensures Names(r) == Names(gs) + {name}
  {
    if |gs| == 0 then [PieSlice(name, amount)]
    else if gs[0].name == name then
      var r := [PieSlice(name, gs[0].value + amount)] + gs[1..];
      assert r[1..] == gs[1..];
      r
    else
      var r := [gs[0]] + AddToGroups(gs[1..], name, amount);
      assert r[1..] == AddToGroups(gs[1..], name, amount);
      r
  }

  /** Adding an amount raises its own name's value and the total only. */
  lemma {:induction false} AddToGroupsValues(gs: seq<PieSlice>, name: string, amount: int, n: string)
    requires NamesDistinct(gs)
    ensures NameValue(AddToGroups(gs, name, amount), n) == NameValue(gs, n) + (if n == name then amount else 0)
    ensures SumOf(AddToGroups(gs, name, amount), SliceValue) == SumOf(gs, SliceValue) + amount
  {
    var r := AddToGroups(gs, name, amount);
    if |gs| > 0 {
      if gs[0].name == name {
        assert r[1..] == gs[1..];
      } else {
        assert r[1..] == AddToGroups(gs[1..], name, amount);
        AddToGroupsValues(gs[1..], name, amount, n);
      }
    }
  }

  /** `.values('category__name').annotate(value=Sum('amount'))`: one group per
      category name. */
  function Groups(ts: seq<Transaction>): (gs: seq<PieSlice>)
    ensures NamesDistinct(gs)
  {
    if |ts| == 0 then [] else AddToGroups(Groups(ts[1..]), ts[0].category.name, ts[0].amount)
  }

  function OfName(name: string): Transaction -> bool {
    (t: Transaction) => t.category.name == name
  }

  /** The sum of the amounts filed under one category name. */
  function NameTotal(ts: seq<Transaction>, name: string): int {
    SumOf(Filter(ts, OfName(name)), Amount)
  }

  /** The groups are named by exactly the rows' category names. */
  lemma {:induction false} GroupsNames(ts: seq<Transaction>)
    ensures Names(Groups(ts)) == RowNames(ts)
  {
    if |ts| > 0 {
      GroupsNames(ts[1..]);
    }
  }

  /** Each name's group value is that name's total, and the groups add up to
      the rows' total. */
  lemma {:induction false} GroupsValues(ts: seq<Transaction>, n: string)
    ensures NameValue(Groups(ts), n) == NameTotal(ts, n)
    ensures SumOf(Groups(ts), SliceValue) == SumOf(ts, Amount)
  {
    if |ts| > 0 {
      GroupsValues(ts[1..], n);
      AddToGroupsValues(Groups(ts[1..]), ts[0].category.name, ts[0].amount, n);
      SumFilterStep(ts, OfName(n), Amount);
    }
  }

  /** The recursive distinctness is distinctness at every pair of indices. */
  lemma {:induction false} NamesDistinctPairwise(gs: seq<PieSlice>)
    requires NamesDistinct(gs)
    ensures Sorting.DistinctBy(gs, SliceName)
  {
    if |gs| > 0 {
      NamesDistinctPairwise(gs[1..]);
      forall j | 1 <= j < |gs|
        ensures gs[j].name != gs[0].name
      {
        NamesMembers(gs[1..], gs[j].name);
        assert gs[1..][j - 1] == gs[j];
      }
      forall i, j | 0 <= i < j < |gs|
        ensures SliceName(gs[i]) != SliceName(gs[j])
      {
        if i > 0 {
          assert gs[1..][i - 1] == gs[i] && gs[1..][j - 1] == gs[j];
        }
      }
    }
  }

  /** Membership in `Names` is having a slice at some index. */
  lemma {:induction false} NamesMembers(gs: seq<PieSlice>, n: string)
    ensures n in Names(gs) <==> exists i :: 0 <= i < |gs| && gs[i].name == n
  {
    if |gs| > 0 {
      NamesMembers(gs[1..], n);
      if exists i :: 0 <= i < |gs[1..]| && gs[1..][i].name == n {
        var i :| 0 <= i < |gs[1..]| && gs[1..][i].name == n;
        assert gs[i + 1].name == n;
      }
      if exists i :: 0 <= i < |gs| && gs[i].name == n {
        var i :| 0 <= i < |gs| && gs[i].name == n;
        if i > 0 {
          assert gs[1..][i - 1].name == n;
        }
      }
    }
  }

  /** Membership in `RowNames` is having a row at some index. */
  lemma {:induction false} RowNamesMembers(ts: seq<Transaction>, n: string)
    ensures n in RowNames(ts) <==> exists k :: 0 <= k < |ts| && ts[k].category.name == n
  {
    if |ts| > 0 {
      RowNamesMembers(ts[1..], n);
      if exists k :: 0 <= k < |ts[1..]| && ts[1..][k].category.name == n {
        var k :| 0 <= k < |ts[1..]| && ts[1..][k].category.name == n;
        assert ts[k + 1].category.name == n;
      }
      if exists k :: 0 <= k < |ts| && ts[k].category.name == n {
        var k :| 0 <= k < |ts| && ts[k].category.name == n;
        if k > 0 {
          assert ts[1..][k - 1].category.name == n;
        }
      }
    }
  }

  /** A slice of a name-distinct list holds its name's whole value. */
  lemma {:induction false} SliceHoldsName(gs: seq<PieSlice>, i: int)
    requires NamesDistinct(gs)
    requires 0 <= i < |gs|
    ensures NameValue(gs, gs[i].name) == gs[i].value
  {
    if i == 0 {
      NameAbsent(gs[1..], gs[0].name);
    } else {
      NamesMembers(gs[1..], gs[i].name);
      assert gs[1..][i - 1] == gs[i];
      SliceHoldsName(gs[1..], i - 1);
    }
  }

  /** A name without a slice has nothing recorded. */
  lemma {:induction false} NameAbsent(gs: seq<PieSlice>, name: string)
    requires name !in Names(gs)
    ensures NameValue(gs, name) == 0
  {
    if |gs| > 0 {
      NameAbsent(gs[1..], name);
    }
  }

  /** A flow's groups, largest value first (`order_by('-value')`); the order
      among equal values is left to the database, here the grouping order. */
  function PieGroups(ts: seq<Transaction>, flow: Flow): (gs: seq<PieSlice>)
    ensures Sorting.SortedDesc(gs, SliceValue)
    ensures Sorting.DistinctBy(gs, SliceName)
    ensures multiset(gs) == multiset(Groups(Filter(ts, OfFlow(flow))))
  {
    var groups := Groups(Filter(ts, OfFlow(flow)));
    NamesDistinctPairwise(groups);
    Sorting.SortKeepsDistinct(groups, SliceValue, SliceName);
    Sorting.SortDesc(groups, SliceValue)
  }

  /** The pie list as sent: each group's name relabelled for display. */
  function PieData(ts: seq<Transaction>, flow: Flow): (r: seq<PieSlice>)
    ensures |r| == |PieGroups(ts, flow)|
    ensures forall i :: 0 <= i < |r| ==>
      r[i].name == DisplayName(PieGroups(ts, flow)[i].name) && r[i].value == PieGroups(ts, flow)[i].value
  {
    var gs := PieGroups(ts, flow);
    seq(|gs|, i requires 0 <= i < |gs| => PieSlice(DisplayName(gs[i].name), gs[i].value))
  }

  function NamedOfFlow(name: string, flow: Flow): Transaction -> bool {
    (t: Transaction) => t.category.name == name && t.flow == flow
  }

  /** The sum of the amounts of one flow filed under one category name. */
  function FlowNameTotal(ts: seq<Transaction>, flow: Flow, name: string): int {
    SumOf(Filter(ts, NamedOfFlow(name, flow)), Amount)
  }

  /** One slice of a flow's pie holds the total of that flow's rows filed
      under its category name, and that name occurs among them. */
  lemma {:induction false} PieSliceValue(ts: seq<Transaction>, flow: Flow, gs: seq<PieSlice>, i: int)
    requires gs == PieGroups(ts, flow)
    requires 0 <= i < |gs|
    ensures gs[i].value == FlowNameTotal(ts, flow, gs[i].name)
    ensures exists k :: 0 <= k < |ts| && ts[k].flow == flow && ts[k].category.name == gs[i].name
  {
    var ft := Filter(ts, OfFlow(flow));
    var groups := Groups(ft);
    var n := gs[i].name;
    assert gs[i] in multiset(groups);
    var j :| 0 <= j < |groups| && groups[j] == gs[i];
    assert gs[i].value == FlowNameTotal(ts, flow, n) by {
      SliceHoldsName(groups, j);
      GroupsValues(ft, n);
      FilterFilter(ts, OfFlow(flow), OfName(n), NamedOfFlow(n, flow));
    }
    GroupsNames(ft);
    NamesMembers(groups, n);
    RowNamesMembers(ft, n);
    var k :| 0 <= k < |ft| && ft[k].category.name == n;
    assert ft[k] in ts;
  }

  /** Each slice of a flow's pie holds the total of that flow's rows filed
      under its category name, and that name occurs among them. */
  lemma {:induction false} PieSliceValues(ts: seq<Transaction>, flow: Flow, gs: seq<PieSlice>)
    requires gs == PieGroups(ts, flow)
    ensures forall i :: 0 <= i < |gs| ==> gs[i].value == FlowNameTotal(ts, flow, gs[i].name)
    ensures forall i :: 0 <= i < |gs| ==>
      exists k :: 0 <= k < |ts| && ts[k].flow == flow && ts[k].category.name == gs[i].name
  {
    forall i | 0 <= i < |gs|
      ensures gs[i].value == FlowNameTotal(ts, flow, gs[i].name)
      ensures exists k :: 0 <= k < |ts| && ts[k].flow == flow && ts[k].category.name == gs[i].name
    {
      PieSliceValue(ts, flow, gs, i);
    }
  }

  /** Every category name of the flow's rows has a slice. */
  lemma {:induction false} PieCoversNames(ts: seq<Transaction>, flow: Flow, gs: seq<PieSlice>)
    requires gs == PieGroups(ts, flow)
    ensures forall k :: 0 <= k < |ts| && ts[k].flow == flow ==>
      exists i :: 0 <= i < |gs| && gs[i].name == ts[k].category.name
  {
    var ft := Filter(ts, OfFlow(flow));
    var groups := Groups(ft);
    GroupsNames(ft);
    forall k | 0 <= k < |ts| && ts[k].flow == flow
      ensures exists i :: 0 <= i < |gs| && gs[i].name == ts[k].category.name
    {
      var n := ts[k].category.name;
      assert ts[k] in ft;
      var m :| 0 <= m < |ft| && ft[m] == ts[k];
      RowNamesMembers(ft, n);
      NamesMembers(groups, n);
      var j :| 0 <= j < |groups| && groups[j].name == n;
      assert groups[j] in multiset(gs);
    }
  }

  /** The values of a flow's pie add up to that flow's total. */
  lemma {:induction false} PieSum(ts: seq<Transaction>, flow: Flow)
    ensures SumOf(PieData(ts, flow), SliceValue) == FlowTotal(ts, flow)
  {
    var ft := Filter(ts, OfFlow(flow));
    var groups := Groups(ft);
    var gs := PieGroups(ts, flow);
    SumPointwise(PieData(ts, flow), SliceValue, gs, SliceValue);
    Sorting.SortKeepsSum(groups, SliceValue, SliceValue);
    if |ft| > 0 {
      GroupsValues(ft, ft[0].category.name);
    }
  }

  // ---------------------------------------------------------------------
  // The statistics response

  datatype StatsResponse = StatsResponse(
    summary: Summary,
    chartData: seq<ChartPoint>,
    incomePieData: seq<PieSlice>,
    expensePieData: seq<PieSlice>)

  /** `TransactionStatsView.get`: every part is computed from the same rows. */
  function Stats(rows: seq<Transaction>, user: nat, start: Option<Date>, end: Option<Date>): (r: StatsResponse)
    ensures r.summary.balance == r.summary.totalIncome - r.summary.totalExpense
    ensures Sorting.SortedDesc(r.incomePieData, SliceValue) && Sorting.SortedDesc(r.expensePieData, SliceValue)
    ensures forall i, j :: 0 <= i < j < |r.chartData| ==> Before(r.chartData[i].day, r.chartData[j].day)
  {
    var scope := StatsScope(rows, user, start, end);
    var chart := Chart(scope);
    ChartOrdered(chart);
    var income := PieData(scope, Income);
    var expense := PieData(scope, Expense);
    assert Sorting.SortedDesc(income, SliceValue) && Sorting.SortedDesc(expense, SliceValue) by {
      assert Sorting.SortedDesc(PieGroups(scope, Income), SliceValue);
      assert Sorting.SortedDesc(PieGroups(scope, Expense), SliceValue);
    }
    StatsResponse(Summarize(scope), chart, income, expense)
  }

  /** The parts of one response agree: the chart's incomes and expenses and
      each pie's values add up to the summary's totals. */
  lemma {:induction false} StatsConsistent(rows: seq<Transaction>, user: nat, start: Option<Date>, end: Option<Date>)
    ensures SumOf(Stats(rows, user, start, end).chartData, PointIncome) == Stats(rows, user, start, end).summary.totalIncome
    ensures SumOf(Stats(rows, user, start, end).chartData, PointExpense) == Stats(rows, user, start, end).summary.totalExpense
    ensures SumOf(Stats(rows, user, start, end).incomePieData, SliceValue) == Stats(rows, user, start, end).summary.totalIncome
    ensures SumOf(Stats(rows, user, start, end).expensePieData, SliceValue) == Stats(rows, user, start, end).summary.totalExpense
  {
    var scope := StatsScope(rows, user, start, end);
    ChartSums(scope);
    PieSum(scope, Income);
    PieSum(scope, Expense);
    assert Summarize(scope).totalIncome == FlowTotal(scope, Income);
  }

  /** Every row behind the statistics belongs to the requester and lies in the
      inclusive date range. */
  lemma {:induction false} StatsScopeBounds(rows: seq<Transaction>, user: nat, start: Option<Date>, end: Option<Date>)
    ensures forall i :: 0 <= i < |StatsScope(rows, user, start, end)| ==>
      StatsScope(rows, user, start, end)[i].user == user && InRange(StatsScope(rows, user, start, end)[i], start, end)
    ensures forall i :: 0 <= i < |rows| && rows[i].user == user && InRange(rows[i], start, end) ==>
      rows[i] in StatsScope(rows, user, start, end)
  {
  }

  // ---------------------------------------------------------------------
  // Row ownership on create and list

  /** `perform_create`: the saved row belongs to the requester, whatever the
      request body said. */
  function CreateTransaction(rows: seq<Transaction>, submitted: Transaction, user: nat): (r: seq<Transaction>)
    ensures |r| == |rows| + 1 && r[..|rows|] == rows
    ensures r[|rows|].user == user
    ensures r[|rows|] == submitted.(user := user)
  {
    rows + [submitted.(user := user)]
  }

  /** A created row shows up in its creator's list and in no one else's. */
  lemma {:induction false} CreatedRowIsListedForCreator(rows: seq<Transaction>, submitted: Transaction, user: nat, other: nat)
    requires other != user
    ensures submitted.(user := user) in TransactionList(CreateTransaction(rows, submitted, user), user, None, None)
    ensures TransactionList(CreateTransaction(rows, submitted, user), other, None, None)
      == TransactionList(rows, other, None, None)
  {
    var g := submitted.(user := user);
    var r := CreateTransaction(rows, submitted, user);
    assert r[|rows|] == g && g.user == user && InPeriod(g, None, None);
    assert ListQuery(r, other, None, None) == ListQuery(rows, other, None, None) by {
      assert r == rows + [g];
      FilterAppend(rows, [g], ListMatch(other, None, None));
      assert Filter([g], ListMatch(other, None, None)) == [];
    }
  }

  function GoalOfUser(user: nat): SavingGoal -> bool {
    (g: SavingGoal) => g.user == user
  }

  /** `UserSavingGoalViewSet.get_queryset`: the requester's goals. The queryset
      has no ordering, so the database may return them in any order; the
      model returns them in stored (insertion) order, one of those orders. */
  function GoalList(goals: seq<SavingGoal>, user: nat): (r: seq<SavingGoal>)
    ensures forall i :: 0 <= i < |r| ==> r[i] in goals && r[i].user == user
    ensures forall i :: 0 <= i < |goals| && goals[i].user == user ==> goals[i] in r
  {
    Filter(goals, GoalOfUser(user))
  }

  /** `perform_create` for goals: the saved goal belongs to the requester. */
  function CreateGoal(goals: seq<SavingGoal>, submitted: SavingGoal, user: nat): (r: seq<SavingGoal>)
    ensures |r| == |goals| + 1 && r[..|goals|] == goals
    ensures r[|goals|] == submitted.(user := user)
  {
    goals + [submitted.(user := user)]
  }

  /** A created goal joins its creator's goal list and leaves other lists
      alone; that it comes last holds for the insertion order the model picks. */
  lemma {:induction false} CreatedGoalIsListedForCreator(goals: seq<SavingGoal>, submitted: SavingGoal, user: nat, other: nat)
    requires other != user
    ensures GoalList(CreateGoal(goals, submitted, user), user) == GoalList(goals, user) + [submitted.(user := user)]
    ensures GoalList(CreateGoal(goals, submitted, user), other) == GoalList(goals, other)
  {
    var g := submitted.(user := user);
    assert CreateGoal(goals, submitted, user) == goals + [g];
    FilterAppend(goals, [g], GoalOfUser(user));
    FilterAppend(goals, [g], GoalOfUser(other));
    assert Filter([g], GoalOfUser(user)) == [g];
    assert Filter([g], GoalOfUser(other)) == [];
  }
}
