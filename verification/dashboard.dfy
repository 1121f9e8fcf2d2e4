/** The dashboard: how it fills its state from the three list endpoints, which
    pie it shows, the savings-goal panel (completion badge and progress bar),
    and the requests behind the "create goal" and "add contribution" buttons. */
module Dashboard {
  import opened Wrappers
  import opened FinanceModels
  import opened FinanceViews
  import opened JsMath
  import Seqs

  /** The statistics answer as received: each part may be missing. */
  datatype StatsPayload = StatsPayload(
    summary: Option<Summary>,
    chartData: Option<seq<ChartPoint>>,
    incomePieData: Option<seq<PieSlice>>,
    expensePieData: Option<seq<PieSlice>>)

  /** The complete answer of the statistics view, with every part present. */
  function Received(r: StatsResponse): StatsPayload {
    StatsPayload(Some(r.summary), Some(r.chartData), Some(r.incomePieData), Some(r.expensePieData))
  }

  /** The dashboard state filled by `fetchDashboardData`. */
  datatype DashboardData = DashboardData(
    balance: int,
    income: int,
    expense: int,
    recent: seq<Transaction>,
    chartData: seq<ChartPoint>,
    incomePieData: seq<PieSlice>,
    expensePieData: seq<PieSlice>,
    goals: seq<SavingGoal>)

  const RecentCount: nat := 5

  /** `slice(0, 5)`: the first five entries, or all of them when fewer. */
  function Recent<T>(ts: seq<T>): (r: seq<T>)
    ensures |r| == if |ts| < RecentCount then |ts| else RecentCount
    ensures forall i :: 0 <= i < |r| ==> r[i] == ts[i]
  {
    if |ts| < RecentCount then ts else ts[..RecentCount]
  }

  /** Later entries never reach the recent list once five are there, and
      taking the recent entries twice changes nothing. */
  lemma RecentIgnoresTail<T>(a: seq<T>, b: seq<T>)
    requires |a| >= RecentCount
    ensures Recent(a + b) == Recent(a)
    ensures Recent(Recent(a + b)) == Recent(a + b)
  {
    assert (a + b)[..RecentCount] == a[..RecentCount];
  }

  /** Filling the state: a missing summary counts as all zeros and a missing
      list as empty; an empty list that is present stays empty. */
  function Load(stats: StatsPayload, transactions: seq<Transaction>, goals: seq<SavingGoal>): (d: DashboardData)
    ensures stats.summary.None? ==> d.balance == 0 && d.income == 0 && d.expense == 0
    ensures stats.summary.Some? ==>
      d.balance == stats.summary.value.balance
      && d.income == stats.summary.value.totalIncome
      && d.expense == stats.summary.value.totalExpense
    ensures d.chartData == stats.chartData.GetOr([])
    ensures d.incomePieData == stats.incomePieData.GetOr([])
    ensures d.expensePieData == stats.expensePieData.GetOr([])
    ensures d.recent == Recent(transactions) && d.goals == goals
  {
    var summary := stats.summary.GetOr(Summary(0, 0, 0));
    DashboardData(summary.balance, summary.totalIncome, summary.totalExpense, Recent(transactions),
                  stats.chartData.GetOr([]), stats.incomePieData.GetOr([]), stats.expensePieData.GetOr([]), goals)
  }

  /** `fetchDashboardData` as a whole: the answers fill the state, and when
      any of the three requests fails the catch block keeps the previous
      state (it only resets the loading flag, which is not modelled). */
  function Fetch(prev: DashboardData, stats: StatsPayload, transactions: seq<Transaction>, goals: seq<SavingGoal>,
                 failed: bool): (d: DashboardData)
    ensures failed ==> d == prev
    ensures !failed ==> d == Load(stats, transactions, goals)
    ensures !failed ==> d.recent == Recent(transactions) && d.goals == goals
  {
    if failed then prev else Load(stats, transactions, goals)
  }

  /** Filled from the server's own answers (statistics without date bounds and
      the full transaction list), the dashboard's balance is income minus
      expense, each pie adds up to its total, and the recent entries are the
      user's, newest first. */
  lemma {:induction false} LoadFromServer(rows: seq<Transaction>, user: nat, goals: seq<SavingGoal>)
    ensures var d := Load(Received(Stats(rows, user, None, None)), TransactionList(rows, user, None, None), goals);
      && d.balance == d.income - d.expense
      && Seqs.SumOf(d.incomePieData, SliceValue) == d.income
      && Seqs.SumOf(d.expensePieData, SliceValue) == d.expense
      && (forall i :: 0 <= i < |d.recent| ==> d.recent[i].user == user)
      && (forall i, j :: 0 <= i < j < |d.recent| ==> !Before(d.recent[i].date, d.recent[j].date))
  {
    var r := Stats(rows, user, None, None);
    var listed := TransactionList(rows, user, None, None);
    var d := Load(Received(r), listed, goals);
    StatsConsistent(rows, user, None, None);
    var recent := d.recent;
    assert recent == Recent(listed);
    forall i | 0 <= i < |recent|
      ensures recent[i].user == user
    {
      assert recent[i] == listed[i];
    }
    forall i, j | 0 <= i < j < |recent|
      ensures !Before(recent[i].date, recent[j].date)
    {
      assert recent[i] == listed[i] && recent[j] == listed[j];
    }
  }

  /** The pie on screen: the expense list for the "EX" switch position, the
      income list for anything else. */
  function ActivePie(d: DashboardData, pieType: string): (p: seq<PieSlice>)
    ensures pieType == "EX" ==> p == d.expensePieData
    ensures pieType != "EX" ==> p == d.incomePieData
  {
    if pieType == "EX" then d.expensePieData else d.incomePieData
  }

  /** Showing the server's pies, the active pie adds up to the total of the
      flow whose code the switch holds. */
  lemma ActivePieTotal(rows: seq<Transaction>, user: nat, transactions: seq<Transaction>, goals: seq<SavingGoal>, f: Flow)
    ensures var d := Load(Received(Stats(rows, user, None, None)), transactions, goals);
      Seqs.SumOf(ActivePie(d, f.Code()), SliceValue) == (if f == Expense then d.expense else d.income)
  {
    StatsConsistent(rows, user, None, None);
  }

  /** The progress shown for a goal: `Math.min(Math.round(saved / target *
      100), 100)`. */
  function GoalProgress(saved: int, target: int): (p: Rounded)
    ensures p != PosInfinity
    ensures p.Finite? ==> p.v <= 100
    ensures target > 0 ==> p.Finite?
  {
    MinWith(RoundQuotient(100 * saved, target), 100)
  }

  /** With a positive target and nothing negative saved, the progress is a
      percentage; it is 100 exactly when the saved amount reaches the target,
      or falls short of it by no more than half a percent (200 * saved >=
      199 * target), so in particular once the target is reached. */
  lemma ProgressInRange(saved: int, target: int)
    requires target > 0 && saved >= 0
    ensures GoalProgress(saved, target).Finite?
    ensures 0 <= GoalProgress(saved, target).v <= 100
    ensures GoalProgress(saved, target).v == 100 <==> 200 * saved >= 199 * target
    ensures saved >= target ==> GoalProgress(saved, target).v == 100
  {
    var q := RoundQuotient(100 * saved, target).v;
    if q < 0 {
      MulMonotone(2 * target, q + 1, 0);
      assert false;
    }
    if q >= 100 {
      MulMonotone(2 * target, 100, q);
      assert 200 * saved >= 199 * target;
    } else if 200 * saved >= 199 * target {
      MulMonotone(2 * target, q + 1, 100);
      assert false;
    }
    if saved >= target {
      MulMonotone(200, target, saved);
    }
  }

  /** The progress reaches 100 before the goal counts as completed: with 995
      of 1000 saved the bar is full and the badge still says "in progress". */
  lemma FullBarBeforeCompletion()
    ensures GoalProgress(995, 1000) == Finite(100)
    ensures !Completed(SavingGoal(0, 0, "", "", 1000, 995, true))
  {
  }

  /** A zero target shows a full bar when anything is saved and NaN when
      nothing is. */
  lemma ProgressOfZeroTarget(saved: int)
    ensures saved > 0 ==> GoalProgress(saved, 0) == Finite(100)
    ensures saved == 0 ==> GoalProgress(saved, 0) == NaN
  {
  }

  /** The completion test behind the badge: a goal that counts as completed
      with a positive target always shows a full bar. */
  function Completed(g: SavingGoal): (done: bool)
    ensures done && g.targetAmount > 0 ==> GoalProgress(g.currentSaved, g.targetAmount) == Finite(100)
  {
    assert g.currentSaved >= g.targetAmount > 0 ==> GoalProgress(g.currentSaved, g.targetAmount) == Finite(100) by {
      if g.currentSaved >= g.targetAmount > 0 {
        ProgressInRange(g.currentSaved, g.targetAmount);
      }
    }
    g.currentSaved >= g.targetAmount
  }

  /** The first active goal, the one the progress bar describes. */
  function FirstActive(goals: seq<SavingGoal>): (r: Option<SavingGoal>)
    ensures r.Some? ==> r.value in goals && r.value.isActive
    ensures r.Some? ==> exists k :: 0 <= k < |goals| && goals[k] == r.value && forall m :: 0 <= m < k ==> !goals[m].isActive
    ensures r.None? <==> forall k :: 0 <= k < |goals| ==> !goals[k].isActive
  {
    if |goals| == 0 then None
    else if goals[0].isActive then Some(goals[0])
    else
      var rest := FirstActive(goals[1..]);
      assert rest.Some? ==> exists k :: 0 <= k < |goals| && goals[k] == rest.value && forall m :: 0 <= m < k ==> !goals[m].isActive by {
        if rest.Some? {
          var k :| 0 <= k < |goals[1..]| && goals[1..][k] == rest.value && forall m :: 0 <= m < k ==> !goals[1..][m].isActive;
          assert goals[k + 1] == rest.value;
          assert forall m :: 0 <= m < k + 1 ==> !goals[m].isActive by {
            forall m | 0 <= m < k + 1
              ensures !goals[m].isActive
            {
              if m > 0 {
                assert goals[m] == goals[1..][m - 1];
              }
            }
          }
        }
      }
      assert rest.None? ==> forall k :: 0 <= k < |goals| ==> !goals[k].isActive by {
        if rest.None? {
          forall k | 0 <= k < |goals|
            ensures !goals[k].isActive
          {
            if k > 0 {
              assert goals[k] == goals[1..][k - 1];
            }
          }
        }
      }
      rest
  }

  /** The goal panel: the badge (completed or not) when there are goals, and
      the progress bar of the first active goal. */
  datatype GoalPanel = GoalPanel(badgeCompleted: Option<bool>, bar: Option<(SavingGoal, Rounded)>)

  function Panel(goals: seq<SavingGoal>): (p: GoalPanel)
    ensures p.badgeCompleted.Some? <==> |goals| > 0
    ensures |goals| > 0 ==> p.badgeCompleted.value == Completed(goals[0])
    ensures p.bar.Some? <==> FirstActive(goals).Some?
    ensures p.bar.Some? ==> p.bar.value == (FirstActive(goals).value, GoalProgress(FirstActive(goals).value.currentSaved, FirstActive(goals).value.targetAmount))
  {
    var badge := if |goals| > 0 then Some(Completed(goals[0])) else None;
    match FirstActive(goals)
    case None => GoalPanel(badge, None)
    case Some(g) => GoalPanel(badge, Some((g, GoalProgress(g.currentSaved, g.targetAmount))))
  }

  /** The badge looks at the first goal, active or not, while the bar shows
      the first active one: an inactive completed goal ahead of an active one
      shows "completed" over a bar at 0 %. */
  lemma BadgeAndBarDisagree()
    ensures var goals := [SavingGoal(1, 7, "a", "", 100, 100, false), SavingGoal(2, 7, "b", "", 100, 0, true)];
      Panel(goals) == GoalPanel(Some(true), Some((goals[1], Finite(0))))
  {
    var goals := [SavingGoal(1, 7, "a", "", 100, 100, false), SavingGoal(2, 7, "b", "", 100, 0, true)];
    assert FirstActive(goals[1..]) == Some(goals[1]);
  }

  /** When the first goal is active, the badge and the bar describe the same
      goal, and a completed goal with a positive target shows a full bar. */
  lemma BadgeAndBarAgree(goals: seq<SavingGoal>)
    requires |goals| > 0 && goals[0].isActive
    requires goals[0].targetAmount > 0 && goals[0].currentSaved >= 0
    ensures Panel(goals).bar.Some? && Panel(goals).bar.value.0 == goals[0]
    ensures Completed(goals[0]) ==> Panel(goals).bar.value.1 == Finite(100)
  {
    ProgressInRange(goals[0].currentSaved, goals[0].targetAmount);
  }

  /** The body of `POST saving-goals/`. */
  datatype GoalBody = GoalBody(title: string, targetAmount: int, currentSaved: int, isActive: bool)

  /** `handleCreateGoal`: nothing is sent without a title or a positive
      target; otherwise a new goal with nothing saved and active. */
  function CreateGoalRequest(title: string, target: int): (r: Option<GoalBody>)
    ensures r.Some? <==> title != "" && target > 0
    ensures r.Some? ==> r.value.title == title && r.value.targetAmount == target
    ensures r.Some? ==> r.value.currentSaved == DefaultCurrentSaved && r.value.isActive == DefaultIsActive
  {
    if title == "" || target <= 0 then None else Some(GoalBody(title, target, 0, true))
  }

  const CreateGoalErrorMessage: string := "Не удалось создать цель"

  /** What `handleCreateGoal` does: the POST it sends, if any, the alert
      raised when that POST fails, and whether the modal is closed, its inputs
      reset and the dashboard fetched again. */
  datatype GoalCreation = GoalCreation(post: Option<GoalBody>, alert: Option<string>, reloaded: bool)

  /** `handleCreateGoal`, with whether the POST failed as a parameter. */
  function HandleCreateGoal(title: string, target: int, failed: bool): (r: GoalCreation)
    ensures r.post == CreateGoalRequest(title, target)
    ensures r.alert.Some? <==> r.post.Some? && failed
    ensures r.alert.Some? ==> r.alert.value == CreateGoalErrorMessage
    ensures r.reloaded <==> r.post.Some? && !failed
  {
    match CreateGoalRequest(title, target)
    case None => GoalCreation(None, None, false)
    case Some(body) =>
      if failed then GoalCreation(Some(body), Some(CreateGoalErrorMessage), false)
      else GoalCreation(Some(body), None, true)
  }

  /** A goal created from the dashboard starts at 0 % and is the one its
      progress bar describes when no other goal is active. */
  lemma CreatedGoalStartsEmpty(title: string, target: int, id: nat, user: nat)
    requires title != "" && 0 < target < KopeckLimit
    ensures var b := CreateGoalRequest(title, target).value;
      var g := SavingGoal(id, user, b.title, "", b.targetAmount, b.currentSaved, b.isActive);
      && !Completed(g)
      && Panel([g]) == GoalPanel(Some(false), Some((g, Finite(0))))
  {
    var b := CreateGoalRequest(title, target).value;
    var g := SavingGoal(id, user, b.title, "", b.targetAmount, b.currentSaved, b.isActive);
    ProgressInRange(0, target);
    var q := RoundQuotient(0, target).v;
    if q > 0 {
      MulMonotone(2 * target, 1, q);
      assert false;
    }
  }

  /** The first goal with the given id (`goals.find`). */
  function FindGoal(goals: seq<SavingGoal>, id: nat): (r: Option<SavingGoal>)
    ensures r.Some? ==> r.value in goals && r.value.id == id
    ensures r.Some? ==> exists k :: 0 <= k < |goals| && goals[k] == r.value && forall m :: 0 <= m < k ==> goals[m].id != id
    ensures r.None? <==> forall k :: 0 <= k < |goals| ==> goals[k].id != id
  {
    if |goals| == 0 then None
    else if goals[0].id == id then Some(goals[0])
    else
      var rest := FindGoal(goals[1..], id);
      assert rest.Some? ==> exists k :: 0 <= k < |goals| && goals[k] == rest.value && forall m :: 0 <= m < k ==> goals[m].id != id by {
        if rest.Some? {
          var k :| 0 <= k < |goals[1..]| && goals[1..][k] == rest.value && forall m :: 0 <= m < k ==> goals[1..][m].id != id;
          assert goals[k + 1] == rest.value;
          assert forall m :: 0 <= m < k + 1 ==> goals[m].id != id by {
            forall m | 0 <= m < k + 1
              ensures goals[m].id != id
            {
              if m > 0 {
                assert goals[m] == goals[1..][m - 1];
              }
            }
          }
        }
      }
      assert rest.None? ==> forall k :: 0 <= k < |goals| ==> goals[k].id != id by {
        if rest.None? {
          forall k | 0 <= k < |goals|
            ensures goals[k].id != id
          {
            if k > 0 {
              assert goals[k] == goals[1..][k - 1];
            }
          }
        }
      }
      rest
  }

  const ContributionErrorMessage: string := "Не удалось добавить взнос"

  /** The PATCH `handleAddContribution` sends: the goal's id and its new
      saved amount. */
  datatype PatchBody = PatchBody(goalId: nat, currentSaved: int)

  /** What `handleAddContribution` does: the PATCH it sends, if any, the alert
      raised, and whether the modal is closed and the dashboard fetched
      again. */
  datatype Contribution = Contribution(patch: Option<PatchBody>, alert: Option<string>, reloaded: bool)

  /** `handleAddContribution`, with whether the PATCH failed as a parameter.
      A non-positive amount does nothing. Otherwise the alert is raised when
      no loaded goal has the id (reading a field of `undefined` throws into
      the catch block, before anything is sent) or when the PATCH fails. */
  function AddContribution(goals: seq<SavingGoal>, goalId: nat, amount: int, failed: bool): (c: Contribution)
    ensures amount <= 0 ==> c == Contribution(None, None, false)
    ensures c.patch.Some? <==> amount > 0 && FindGoal(goals, goalId).Some?
    ensures c.alert.Some? <==> amount > 0 && (FindGoal(goals, goalId).None? || failed)
    ensures c.alert.Some? ==> c.alert.value == ContributionErrorMessage
    ensures c.reloaded <==> c.patch.Some? && !failed
    ensures c.patch.Some? ==>
      c.patch.value.goalId == goalId && c.patch.value.currentSaved == FindGoal(goals, goalId).value.currentSaved + amount
  {
    if amount <= 0 then Contribution(None, None, false)
    else match FindGoal(goals, goalId)
      case None => Contribution(None, Some(ContributionErrorMessage), false)
      case Some(g) =>
        var patch := Some(PatchBody(goalId, g.currentSaved + amount));
        if failed then Contribution(patch, Some(ContributionErrorMessage), false)
        else Contribution(patch, None, true)
  }

  /** A contribution that is sent raises the saved amount of the first loaded
      goal with that id, and no goal before it has that id. */
  lemma ContributionIncreases(goals: seq<SavingGoal>, goalId: nat, amount: int, failed: bool)
    requires AddContribution(goals, goalId, amount, failed).patch.Some?
    ensures exists k :: 0 <= k < |goals| && goals[k].id == goalId &&
                         AddContribution(goals, goalId, amount, failed).patch.value.currentSaved > goals[k].currentSaved &&
                         forall m :: 0 <= m < k ==> goals[m].id != goalId
  {
    var g := FindGoal(goals, goalId).value;
    var k :| 0 <= k < |goals| && goals[k] == g && forall m :: 0 <= m < k ==> goals[m].id != goalId;
  }
}
