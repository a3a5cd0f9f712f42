/**
 * The finance views over a mutable record store: get-or-create of the
 * goal row, the two ownership-guarded deletes, and the `expenses` and
 * `index` views, each proved to compute the report of FinanceReport.
 */
module FinanceViews {

  import opened Wrappers
  import opened Seqs
  import opened Dates
  import opened Models
  import opened FinanceReport

  /** The two responses of a delete view: 404, or the redirect to the dashboard. */
  datatype Response = NotFound | RedirectToExpenses

  function ExpenseId(e: Expense): nat { e.id }

  function IncomeId(i: Income): nat { i.id }

  function RecurringId(r: RecurringExpense): nat { r.id }

  function ExpenseIdIs(id: nat): Expense -> bool
  {
    (e: Expense) => e.id == id
  }

  function RecurringIdIs(id: nat): RecurringExpense -> bool
  {
    (r: RecurringExpense) => r.id == id
  }

  /** Deleting one of requester's expense rows leaves every other owner's dashboard as it was. */
  lemma DeleteExpenseKeepsOtherReports(ledger: Ledger, id: nat, requester: UserId, other: UserId, now: Timestamp)
    requires ValidDate(now.date)
    requires other != requester
    requires forall e :: e in ledger.expenses && e.id == id ==> e.owner == requester
    ensures FinancialReport(ledger.(expenses := RemoveKey(ledger.expenses, ExpenseId, id)), other, now)
         == FinancialReport(ledger, other, now)
  {
    var after := ledger.(expenses := RemoveKey(ledger.expenses, ExpenseId, id));
    FilterFilter(ledger.expenses, KeyIsNot(ExpenseId, id), ExpenseOwnedBy(other), ExpenseOwnedBy(other));
    assert OwnRows(after, other) == OwnRows(ledger, other);
    ReportSeesOnlyOwnRows(after, other, now);
    ReportSeesOnlyOwnRows(ledger, other, now);
  }

  /** Deleting one of requester's recurring bills leaves every other owner's dashboard as it was. */
  lemma DeleteRecurringKeepsOtherReports(ledger: Ledger, id: nat, requester: UserId, other: UserId, now: Timestamp)
    requires ValidDate(now.date)
    requires other != requester
    requires forall r :: r in ledger.recurring && r.id == id ==> r.owner == requester
    ensures FinancialReport(ledger.(recurring := RemoveKey(ledger.recurring, RecurringId, id)), other, now)
         == FinancialReport(ledger, other, now)
  {
    var after := ledger.(recurring := RemoveKey(ledger.recurring, RecurringId, id));
    FilterFilter(ledger.recurring, KeyIsNot(RecurringId, id), RecurringOwnedBy(other), RecurringOwnedBy(other));
    assert OwnRows(after, other) == OwnRows(ledger, other);
    ReportSeesOnlyOwnRows(after, other, now);
    ReportSeesOnlyOwnRows(ledger, other, now);
  }

  /** The daily-limit check: "Good" unless a positive limit is exceeded. */
  method CheckDailyLimit(limit: int, spentToday: int) returns (status: LimitStatus)
    ensures status == DailyLimitStatus(limit, spentToday)
    ensures status == Exceeded <==> limit > 0 && spentToday > limit
  {
    status := Good;
    if limit > 0 && spentToday > limit {
      status := Exceeded;
    }
  }

  /** The suggestion list as the view builds it, by successive appends. */
  method BuildSuggestions(balance: int, income: int, status: LimitStatus, salary: int, recurringTotal: int)
    returns (suggestions: seq<Suggestion>)
    ensures suggestions == Suggestions(balance, income, status, salary, recurringTotal)
  {
    suggestions := [];
    if balance < 0 {
      suggestions := suggestions + [Overspent];
    } else if 10 * balance < income && income > 0 {
      suggestions := suggestions + [LowSavings];
    } else if 10 * balance > 3 * income {
      suggestions := suggestions + [HealthySavings];
    }
    if status == Exceeded {
      suggestions := suggestions + [DailyBudgetExceeded];
    }
    if salary > 0 && 2 * recurringTotal > salary {
      suggestions := suggestions + [RecurringBillsHigh];
    }
    if suggestions == [] {
      suggestions := suggestions + [KeepLogging];
    }
  }

  /** The chart loop: one owner-and-day total appended per day, in the order of days. */
  method BuildChartData(expenses: seq<Expense>, user: UserId, days: seq<Date>) returns (chartData: seq<int>)
    ensures chartData == ChartData(expenses, user, days)
  {
    chartData := [];
    for i := 0 to |days|
      invariant chartData == ChartData(expenses, user, days[..i])
    {
      var dayExpenses := Total(Filter(expenses, ExpenseOwnedOnDay(user, days[i])));
      assert days[..i + 1][..i] == days[..i];
      chartData := chartData + [dayExpenses];
    }
    assert days[..|days|] == days;
  }

  /** The four tables of the finance app, updated in place by the views. */
  class FinanceStore {
    var expenses: seq<Expense>
    var incomes: seq<Income>
    var recurring: seq<RecurringExpense>
    var goals: map<UserId, FinancialGoal>

    /** Primary keys are unique, the goal table is keyed by its owner, and every row is in its columns' domains. */
    predicate Valid()
      reads this
    {
      && DistinctBy(expenses, ExpenseId)
      && DistinctBy(incomes, IncomeId)
      && DistinctBy(recurring, RecurringId)
      && (forall u :: u in goals ==> goals[u].owner == u && ValidGoal(goals[u]))
      && (forall e :: e in expenses ==> ValidExpense(e))
      && (forall i :: i in incomes ==> ValidIncome(i))
      && (forall r :: r in recurring ==> ValidRecurring(r))
    }

    function Snapshot(): Ledger
      reads this
    {
      Ledger(expenses, incomes, recurring, goals)
    }

    /** An empty database. */
    constructor ()
      ensures Valid()
      ensures Snapshot() == Ledger([], [], [], map[])
    {
      expenses, incomes, recurring, goals := [], [], [], map[];
    }

    /** `FinancialGoal.objects.get_or_create(owner=user)`: the stored row, or a new row with every amount 0. */
    method GetOrCreateGoal(user: UserId) returns (goal: FinancialGoal, created: bool)
      requires Valid()
      modifies this`goals
      ensures Valid()
      ensures goal == GoalFor(old(goals), user) && goal.owner == user
      ensures created <==> user !in old(goals)
      ensures goals == old(goals)[user := goal]
    {
      if user in goals {
        goal, created := goals[user], false;
      } else {
        goal, created := NewGoal(user), true;
        NewGoalValid(user);
        goals := goals[user := goal];
      }
    }

    /**
     * `delete_expense`: 404 when no expense has that id; otherwise the row
     * is deleted only when the requester owns it, and nothing else changes.
     */
    method DeleteExpense(requester: UserId, id: nat) returns (response: Response)
      requires Valid()
      modifies this`expenses
      ensures Valid()
      ensures response == NotFound <==> forall e :: e in old(expenses) ==> e.id != id
      ensures expenses == if exists e :: e in old(expenses) && e.id == id && e.owner == requester
                          then RemoveKey(old(expenses), ExpenseId, id) else old(expenses)
      ensures forall e :: e in old(expenses) && e.id != id ==> e in expenses
      ensures forall e :: e in old(expenses) && e.id == id && e.owner != requester ==> e in expenses
      ensures (exists e :: e in old(expenses) && e.id == id && e.owner == requester)
              ==> |expenses| == |old(expenses)| - 1 && forall e :: e in expenses ==> e.id != id
    {
      var found := Find(expenses, ExpenseIdIs(id));
      if found.None? {
        return NotFound;
      }
      var expense := found.value;
      forall e | e in expenses && e.id == id ensures e == expense {
        DistinctByUnique(expenses, ExpenseId, e, expense);
      }
      if expense.owner == requester {
        RemoveKeyLength(expenses, ExpenseId, id);
        DistinctByFilter(expenses, KeyIsNot(ExpenseId, id), ExpenseId);
        expenses := RemoveKey(expenses, ExpenseId, id);
      }
      response := RedirectToExpenses;
    }

    /** `delete_recurring_expense`: the same guard on the recurring bills. */
    method DeleteRecurringExpense(requester: UserId, id: nat) returns (response: Response)
      requires Valid()
      modifies this`recurring
      ensures Valid()
      ensures response == NotFound <==> forall r :: r in old(recurring) ==> r.id != id
      ensures recurring == if exists r :: r in old(recurring) && r.id == id && r.owner == requester
                           then RemoveKey(old(recurring), RecurringId, id) else old(recurring)
      ensures forall r :: r in old(recurring) && r.id != id ==> r in recurring
      ensures forall r :: r in old(recurring) && r.id == id && r.owner != requester ==> r in recurring
      ensures (exists r :: r in old(recurring) && r.id == id && r.owner == requester)
              ==> |recurring| == |old(recurring)| - 1 && forall r :: r in recurring ==> r.id != id
    {
      var found := Find(recurring, RecurringIdIs(id));
      if found.None? {
        return NotFound;
      }
      var bill := found.value;
      forall r | r in recurring && r.id == id ensures r == bill {
        DistinctByUnique(recurring, RecurringId, r, bill);
      }
      if bill.owner == requester {
        RemoveKeyLength(recurring, RecurringId, id);
        DistinctByFilter(recurring, KeyIsNot(RecurringId, id), RecurringId);
        recurring := RemoveKey(recurring, RecurringId, id);
      }
      response := RedirectToExpenses;
    }

    /** The `expenses` view: the dashboard of `user` at `now`, after the goal's get-or-create. */
    method Expenses(user: UserId, now: Timestamp) returns (r: Report)
      requires Valid() && ValidDate(now.date)
      modifies this`goals
      ensures Valid()
      ensures goals == old(goals)[user := GoalFor(old(goals), user)]
      ensures r == FinancialReport(old(Snapshot()), user, now)
    {
      ghost var before := Snapshot();
      var goal, created := GetOrCreateGoal(user);
      r := Dashboard(Ledger(expenses, incomes, recurring, goals), goal, user, now);
      assert GoalFor(goals, user) == GoalFor(before.goals, user);
      ReportGoalOnly(Ledger(expenses, incomes, recurring, goals), before, user, now);
    }

    /** The finance part of `index`: nothing for an anonymous visitor. */
    method Index(user: Option<UserId>, now: Timestamp) returns (summary: Option<IndexSummary>)
      requires Valid()
      modifies this`goals
      ensures Valid()
      ensures user.None? ==> summary.None? && goals == old(goals)
      ensures user.Some? ==> goals == old(goals)[user.value := GoalFor(old(goals), user.value)]
      ensures user.Some? ==> summary == Some(IndexSummaryOf(old(Snapshot()), user.value, now))
    {
      if user.None? {
        return None;
      }
      var owner := user.value;
      ghost var before := Snapshot();
      var goal, created := GetOrCreateGoal(owner);
      var monthlyIncome := SumBy(Filter(incomes, IncomeInMonth(owner, now)), IncomeAmount);
      var totalIncome := goal.monthlySalary + monthlyIncome;
      var rows := Filter(expenses, ExpenseInMonth(owner, now));
      var totalExpenses := Total(rows);
      var balance := totalIncome - totalExpenses;
      var hasExpensesToday := Filter(rows, ExpenseOnDay(now.date)) != [];
      var notifications: seq<string> := [];
      if !hasExpensesToday {
        notifications := notifications + [LogTodayReminder];
      }
      summary := Some(IndexSummary(totalIncome, totalExpenses, balance, notifications));
      assert before.expenses == expenses && before.incomes == incomes;
      assert goal == GoalFor(before.goals, owner);
      assert notifications == if hasExpensesToday then [] else [LogTodayReminder];
    }
  }

  /** The dashboard depends on the goal table only through the user's goal. */
  lemma ReportGoalOnly(a: Ledger, b: Ledger, user: UserId, now: Timestamp)
    requires ValidDate(now.date)
    requires a.expenses == b.expenses && a.incomes == b.incomes && a.recurring == b.recurring
    requires GoalFor(a.goals, user) == GoalFor(b.goals, user)
    ensures FinancialReport(a, user, now) == FinancialReport(b, user, now)
  {
    assert MonthIncomeSum(a, user, now) == MonthIncomeSum(b, user, now);
    assert MonthExpenseRows(a, user, now) == MonthExpenseRows(b, user, now);
    assert RecurringRows(a, user) == RecurringRows(b, user);
  }

  /**
   * The computation of the `expenses` view once the goal row is known:
   * the queries and the chart loop, then the figures and suggestions.
   */
  method Dashboard(ledger: Ledger, goal: FinancialGoal, user: UserId, now: Timestamp) returns (r: Report)
    requires ValidDate(now.date)
    requires goal == GoalFor(ledger.goals, user)
    ensures r == FinancialReport(ledger, user, now)
  {
    var incomeRows := Filter(ledger.incomes, IncomeInMonth(user, now));
    var actualIncomeSum := SumBy(incomeRows, IncomeAmount);
    var rows := Filter(ledger.expenses, ExpenseInMonth(user, now));
    var bills := Filter(ledger.recurring, RecurringOwnedBy(user));
    var days := ChartDays(now.date);
    var chartData := BuildChartData(ledger.expenses, user, days);
    r := BuildReport(goal, actualIncomeSum, rows, bills, days, chartData, now.date);
    assert actualIncomeSum == MonthIncomeSum(ledger, user, now);
    assert rows == MonthExpenseRows(ledger, user, now) && bills == RecurringRows(ledger, user);
  }

  /** The figures of the `expenses` view computed from its query results. */
  method BuildReport(goal: FinancialGoal, incomeSum: int, rows: seq<Expense>,
                     bills: seq<RecurringExpense>, days: seq<Date>, chartData: seq<int>, today: Date)
    returns (r: Report)
    ensures r == AssembleReport(goal, incomeSum, rows, bills, days, chartData, today)
  {
    var projectedIncome := goal.monthlySalary + goal.dailyIncomeEstimate * 30;
    var totalIncome := goal.monthlySalary + incomeSum;
    var totalExpenses := Total(rows);
    var balance := totalIncome - totalExpenses;
    var todayExpenses := Total(Filter(rows, ExpenseOnDay(today)));
    var status := CheckDailyLimit(goal.dailySpendingLimit, todayExpenses);
    var recurringTotal := SumBy(bills, RecurringAmount);
    var suggestions := BuildSuggestions(balance, totalIncome, status, goal.monthlySalary, recurringTotal);
    r := Report(
      SortBy(rows, NewestFirst), goal, totalIncome, totalExpenses, balance, todayExpenses, status,
      projectedIncome, SortBy(bills, EarliestDueFirst), suggestions, days, chartData,
      PieLabels(Breakdown(rows)), PieData(Breakdown(rows)));
  }

  /** On a valid store the dashboard lists come out in the promised orders. */
  lemma ValidStoreListings(ledger: Ledger, user: UserId, now: Timestamp)
    requires ValidDate(now.date)
    requires forall e :: e in ledger.expenses ==> ValidExpense(e)
    requires forall b :: b in ledger.recurring ==> ValidRecurring(b)
    ensures var r := FinancialReport(ledger, user, now);
      && (forall i, j :: 0 <= i < j < |r.expenses| ==> !EarlierThan(r.expenses[i].added, r.expenses[j].added))
      && (forall i, j :: 0 <= i < j < |r.recurringExpenses| ==>
            !Before(r.recurringExpenses[j].nextDueDate, r.recurringExpenses[i].nextDueDate))
  {
    ReportListings(ledger, user, now);
  }
}
