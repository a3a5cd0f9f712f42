/**
 * The financial report of the expenses dashboard and the summary on the
 * home page, as pure functions of the rows a request can see. Each query
 * is a Filter with a named row predicate, each `aggregate(Sum(...)) or 0`
 * a SumBy, each `order_by` a SortBy.
 */
module FinanceReport {

  import opened Wrappers
  import opened Seqs
  import opened Dates
  import opened Models

  /** The four tables; the goal table is keyed by its one-to-one owner. */
  datatype Ledger = Ledger(
    expenses: seq<Expense>, incomes: seq<Income>,
    recurring: seq<RecurringExpense>, goals: map<UserId, FinancialGoal>)

  /** The goal that get-or-create yields: the stored row, or a new default row. */
  function GoalFor(goals: map<UserId, FinancialGoal>, user: UserId): FinancialGoal
  {
    if user in goals then goals[user] else NewGoal(user)
  }

  function ExpenseAmount(e: Expense): int { e.amount }

  function IncomeAmount(i: Income): int { i.amount }

  function RecurringAmount(r: RecurringExpense): int { r.amount }

  // ---- Row predicates of the queries ----

  predicate SameMonth(t: Timestamp, now: Timestamp)
  {
    t.date.year == now.date.year && t.date.month == now.date.month
  }

  function ExpenseOwnedBy(user: UserId): Expense -> bool
  {
    (e: Expense) => e.owner == user
  }

  function IncomeOwnedBy(user: UserId): Income -> bool
  {
    (i: Income) => i.owner == user
  }

  function RecurringOwnedBy(user: UserId): RecurringExpense -> bool
  {
    (r: RecurringExpense) => r.owner == user
  }

  /** `owner=user, date_added__year=now.year, date_added__month=now.month` on Expense. */
  function ExpenseInMonth(user: UserId, now: Timestamp): Expense -> bool
  {
    (e: Expense) => e.owner == user && SameMonth(e.added, now)
  }

  /** The same filter on Income. */
  function IncomeInMonth(user: UserId, now: Timestamp): Income -> bool
  {
    (i: Income) => i.owner == user && SameMonth(i.added, now)
  }

  /** `date_added__date=day`. */
  function ExpenseOnDay(day: Date): Expense -> bool
  {
    (e: Expense) => e.added.date == day
  }

  /** `owner=user, date_added__date=day`. */
  function ExpenseOwnedOnDay(user: UserId, day: Date): Expense -> bool
  {
    (e: Expense) => e.owner == user && e.added.date == day
  }

  function ExpenseInCategory(c: Category): Expense -> bool
  {
    (e: Expense) => e.category == c
  }

  /** The amount sum of a set of expense rows, 0 when there are none. */
  function Total(es: seq<Expense>): int
  {
    SumBy(es, ExpenseAmount)
  }

  /** `order_by('-date_added')`. */
  function NewestFirst(e: Expense): int { -Instant(e.added) }

  /** `order_by('next_due_date')`. */
  function EarliestDueFirst(r: RecurringExpense): int { DayNumber(r.nextDueDate) }

  // ---- Daily limit ----

  datatype LimitStatus = Good | Exceeded

  /** A limit of 0 (or below) disables the check. */
  function DailyLimitStatus(limit: int, spentToday: int): (s: LimitStatus)
    ensures s == Exceeded <==> limit > 0 && spentToday > limit
    ensures limit <= 0 ==> s == Good
  {
    if limit > 0 && spentToday > limit then Exceeded else Good
  }

  // ---- Suggestions ----

  datatype Severity = Danger | Warning | Success | Info
  {
    function Value(): string
    {
      match this
      case Danger => "danger"
      case Warning => "warning"
      case Success => "success"
      case Info => "info"
    }
  }

  /** The six advisories, each with its severity, icon and text. */
  datatype Suggestion = Overspent | LowSavings | HealthySavings | DailyBudgetExceeded | RecurringBillsHigh | KeepLogging
  {
    function Severity(): Severity
    {
      match this
      case Overspent => Danger
      case LowSavings => Warning
      case HealthySavings => Success
      case DailyBudgetExceeded => Danger
      case RecurringBillsHigh => Warning
      case KeepLogging => Info
    }

    function Icon(): string
    {
      match this
      case Overspent => "fa-exclamation-triangle"
      case LowSavings => "fa-lightbulb"
      case HealthySavings => "fa-chart-line"
      case DailyBudgetExceeded => "fa-hand-holding-usd"
      case RecurringBillsHigh => "fa-file-invoice-dollar"
      case KeepLogging => "fa-robot"
    }

    function Text(): string
    {
      match this
      case Overspent => "Tahadhari: Umetumia zaidi ya mapato yako mwezi huu! Angalia matumizi yako ya anasa."
      case LowSavings => "Ushauri: Akiba yako ni ndogo. Jaribu kuweka akiba angalau 10% ya mapato yako."
      case HealthySavings => "Vizuri sana! Unaweka akiba nzuri. Fikiria kuwekeza kiasi hiki."
      case DailyBudgetExceeded => "Umezidi bajeti yako ya siku. Punguza matumizi yasiyo ya lazima leo."
      case RecurringBillsHigh => "Matumizi ya kudumu (kodi, vifurushi) yanachukua zaidi ya 50% ya mshahara wako."
      case KeepLogging => "Mfumo unaendelea kujifunza kutokana na matumizi yako. Endelea kurekodi!"
    }

    /** The stage of the rule list that produces this advisory. */
    function Stage(): nat
    {
      match this
      case Overspent => 0
      case LowSavings => 0
      case HealthySavings => 0
      case DailyBudgetExceeded => 1
      case RecurringBillsHigh => 2
      case KeepLogging => 3
    }
  }

  /** One of the three mutually exclusive verdicts on the month's savings. */
  predicate IsSavingsVerdict(s: Suggestion)
  {
    s.Overspent? || s.LowSavings? || s.HealthySavings?
  }

  /**
   * The if/elif chain on the balance. Amounts are in cents, so
   * `balance < income * 0.1` is `10 * balance < income` and
   * `balance > income * 0.3` is `10 * balance > 3 * income`.
   */
  function SavingsVerdict(balance: int, income: int): Option<Suggestion>
  {
    if balance < 0 then Some(Overspent)
    else if 10 * balance < income && income > 0 then Some(LowSavings)
    else if 10 * balance > 3 * income then Some(HealthySavings)
    else None
  }

  predicate LowSavingsRule(balance: int, income: int)
  {
    0 <= balance && income > 0 && 10 * balance < income
  }

  predicate HealthySavingsRule(balance: int, income: int)
  {
    0 <= balance && !LowSavingsRule(balance, income) && 10 * balance > 3 * income
  }

  /** `salary > 0 and recurring_total > salary * 0.5`, in cents. */
  predicate RecurringRule(salary: int, recurringTotal: int)
  {
    salary > 0 && 2 * recurringTotal > salary
  }

  /**
   * The advisory list: the savings verdict, then the daily-budget danger,
   * then the recurring-bills warning, and the generic message only when
   * nothing else fired.
   */
  function Suggestions(balance: int, income: int, status: LimitStatus, salary: int, recurringTotal: int)
    : seq<Suggestion>
  {
    var chosen := SavingsVerdict(balance, income);
    var fired :=
      (if chosen.Some? then [chosen.value] else [])
      + (if status == Exceeded then [DailyBudgetExceeded] else [])
      + (if salary > 0 && 2 * recurringTotal > salary then [RecurringBillsHigh] else []);
    if fired == [] then [KeepLogging] else fired
  }

  /**
   * The rules of the advisory list: never empty, in rule order, at most one
   * savings verdict, each advisory present exactly when its rule holds, and
   * the generic message alone exactly when no rule fired.
   */
  lemma SuggestionRules(balance: int, income: int, status: LimitStatus, salary: int, recurringTotal: int)
    ensures var s := Suggestions(balance, income, status, salary, recurringTotal);
      && |s| >= 1
      && (forall i, j :: 0 <= i < j < |s| ==> s[i].Stage() < s[j].Stage())
      && (forall i, j :: 0 <= i < j < |s| ==> !(IsSavingsVerdict(s[i]) && IsSavingsVerdict(s[j])))
      && (Overspent in s <==> balance < 0)
      && (LowSavings in s <==> LowSavingsRule(balance, income))
      && (HealthySavings in s <==> HealthySavingsRule(balance, income))
      && (DailyBudgetExceeded in s <==> status == Exceeded)
      && (RecurringBillsHigh in s <==> RecurringRule(salary, recurringTotal))
      && (KeepLogging in s <==> s == [KeepLogging])
      && (s == [KeepLogging] <==>
            && 0 <= balance && !LowSavingsRule(balance, income) && !HealthySavingsRule(balance, income)
            && status == Good && !RecurringRule(salary, recurringTotal))
  {
    var chosen := SavingsVerdict(balance, income);
    SavingsVerdictRules(balance, income);
    var s := Suggestions(balance, income, status, salary, recurringTotal);
    var daily := status == Exceeded;
    var bills := RecurringRule(salary, recurringTotal);
    if chosen.Some? {
      var v := chosen.value;
      if daily && bills {
        assert s == [v, DailyBudgetExceeded, RecurringBillsHigh];
      } else if daily {
        assert s == [v, DailyBudgetExceeded];
      } else if bills {
        assert s == [v, RecurringBillsHigh];
      } else {
        assert s == [v];
      }
    } else {
      if daily && bills {
        assert s == [DailyBudgetExceeded, RecurringBillsHigh];
      } else if daily {
        assert s == [DailyBudgetExceeded];
      } else if bills {
        assert s == [RecurringBillsHigh];
      } else {
        assert s == [KeepLogging];
      }
    }
  }

  /** The if/elif chain yields one savings verdict, each exactly under its rule, or none. */
  lemma SavingsVerdictRules(balance: int, income: int)
    ensures var v := SavingsVerdict(balance, income);
      && (v.Some? ==> IsSavingsVerdict(v.value) && v.value.Stage() == 0)
      && (v == Some(Overspent) <==> balance < 0)
      && (v == Some(LowSavings) <==> LowSavingsRule(balance, income))
      && (v == Some(HealthySavings) <==> HealthySavingsRule(balance, income))
      && (v.None? <==> 0 <= balance && !LowSavingsRule(balance, income) && !HealthySavingsRule(balance, income))
  {
  }

  // ---- Category breakdown ----

  datatype CategoryTotal = CategoryTotal(category: Category, total: int)

  function GroupCategory(g: CategoryTotal): Category { g.category }

  function GroupTotal(g: CategoryTotal): int { g.total }

  /** `order_by('-total')`. */
  function LargestFirst(g: CategoryTotal): int { -g.total }

  predicate HasCategory(es: seq<Expense>, c: Category)
  {
    exists e :: e in es && e.category == c
  }

  function CategorySum(es: seq<Expense>, c: Category): int
  {
    Total(Filter(es, ExpenseInCategory(c)))
  }

  /** `values('category').annotate(total=Sum('amount'))`: one group per category present. */
  function Groups(es: seq<Expense>, cats: seq<Category>): (r: seq<CategoryTotal>)
    ensures forall g :: g in r <==> g.category in cats && HasCategory(es, g.category) && g.total == CategorySum(es, g.category)
  {
    if cats == [] then []
    else
      (if HasCategory(es, cats[0]) then [CategoryTotal(cats[0], CategorySum(es, cats[0]))] else [])
      + Groups(es, cats[1..])
  }

  function Breakdown(es: seq<Expense>): seq<CategoryTotal>
  {
    SortBy(Groups(es, Categories), LargestFirst)
  }

  /** `[item['category'] for item in expenses_by_category]`: one label per group, in order. */
  function PieLabels(b: seq<CategoryTotal>): (r: seq<string>)
    ensures |r| == |b| && forall i :: 0 <= i < |b| ==> ParseCategory(r[i]) == Some(b[i].category)
  {
    if b == [] then []
    else
      CategoryRoundTrip(b[0].category);
      [b[0].category.Value()] + PieLabels(b[1..])
  }

  /** `[float(item['total']) for item in expenses_by_category]`: one number per group, adding up to the groups' total. */
  function PieData(b: seq<CategoryTotal>): (r: seq<int>)
    ensures |r| == |b| && forall i :: 0 <= i < |b| ==> r[i] == b[i].total
    ensures Sum(r) == SumBy(b, GroupTotal)
  {
    if b == [] then [] else [b[0].total] + PieData(b[1..])
  }

  // ---- Seven-day chart ----

  /** `[today - timedelta(days=i) for i in range(6, -1, -1)]`. */
  function ChartDays(today: Date): seq<Date>
    requires ValidDate(today)
  {
    seq(7, k requires 0 <= k < 7 => DaysBefore(today, 6 - k))
  }

  /** Per day, the owner's expense total for that calendar day, in any month. */
  function ChartData(expenses: seq<Expense>, user: UserId, days: seq<Date>): seq<int>
  {
    seq(|days|, k requires 0 <= k < |days| => Total(Filter(expenses, ExpenseOwnedOnDay(user, days[k]))))
  }

  // ---- The report ----

  datatype Report = Report(
    expenses: seq<Expense>,
    goal: FinancialGoal,
    totalIncome: int,
    totalExpenses: int,
    balance: int,
    todayExpenses: int,
    dailyLimitStatus: LimitStatus,
    projectedIncome: int,
    recurringExpenses: seq<RecurringExpense>,
    suggestions: seq<Suggestion>,
    chartDays: seq<Date>,
    chartData: seq<int>,
    pieLabels: seq<string>,
    pieData: seq<int>)

  function MonthIncomeSum(ledger: Ledger, user: UserId, now: Timestamp): int
  {
    SumBy(Filter(ledger.incomes, IncomeInMonth(user, now)), IncomeAmount)
  }

  function MonthExpenseRows(ledger: Ledger, user: UserId, now: Timestamp): seq<Expense>
  {
    Filter(ledger.expenses, ExpenseInMonth(user, now))
  }

  function RecurringRows(ledger: Ledger, user: UserId): seq<RecurringExpense>
  {
    Filter(ledger.recurring, RecurringOwnedBy(user))
  }

  /**
   * The dashboard built from the results of its queries: the goal, the
   * month's income sum, the month's expense rows, the recurring rows and
   * the chart series.
   */
  function AssembleReport(goal: FinancialGoal, incomeSum: int, rows: seq<Expense>,
                          bills: seq<RecurringExpense>, days: seq<Date>, chart: seq<int>, today: Date): Report
  {
    var totalIncome := goal.monthlySalary + incomeSum;
    var totalExpenses := Total(rows);
    var balance := totalIncome - totalExpenses;
    var spentToday := Total(Filter(rows, ExpenseOnDay(today)));
    var status := DailyLimitStatus(goal.dailySpendingLimit, spentToday);
    Report(
      SortBy(rows, NewestFirst), goal, totalIncome, totalExpenses, balance, spentToday, status,
      goal.monthlySalary + goal.dailyIncomeEstimate * 30,
      SortBy(bills, EarliestDueFirst),
      Suggestions(balance, totalIncome, status, goal.monthlySalary, SumBy(bills, RecurringAmount)),
      days, chart, PieLabels(Breakdown(rows)), PieData(Breakdown(rows)))
  }

  /** What the expenses dashboard shows `user` at instant `now`. */
  function FinancialReport(ledger: Ledger, user: UserId, now: Timestamp): Report
    requires ValidDate(now.date)
  {
    var days := ChartDays(now.date);
    AssembleReport(
      GoalFor(ledger.goals, user), MonthIncomeSum(ledger, user, now), MonthExpenseRows(ledger, user, now),
      RecurringRows(ledger, user), days, ChartData(ledger.expenses, user, days), now.date)
  }

  // ---- The home page summary ----

  const LogTodayReminder: string := "Leo bado hujaweka matumizi yako. Kumbuka kurekodi!"

  datatype IndexSummary = IndexSummary(totalIncome: int, totalExpenses: int, balance: int, notifications: seq<string>)

  /** The finance part of the home page for a signed-in user. */
  function IndexSummaryOf(ledger: Ledger, user: UserId, now: Timestamp): IndexSummary
  {
    var goal := GoalFor(ledger.goals, user);
    var totalIncome := goal.monthlySalary + MonthIncomeSum(ledger, user, now);
    var rows := MonthExpenseRows(ledger, user, now);
    var totalExpenses := Total(rows);
    var hasExpensesToday := Filter(rows, ExpenseOnDay(now.date)) != [];
    IndexSummary(totalIncome, totalExpenses, totalIncome - totalExpenses,
      if hasExpensesToday then [] else [LogTodayReminder])
  }

  // ---- Properties of the report ----

  /** The rows of one owner: every table filtered by owner, and that owner's goal only. */
  function OwnRows(ledger: Ledger, user: UserId): Ledger
  {
    Ledger(
      Filter(ledger.expenses, ExpenseOwnedBy(user)),
      Filter(ledger.incomes, IncomeOwnedBy(user)),
      Filter(ledger.recurring, RecurringOwnedBy(user)),
      map u | u in ledger.goals && u == user :: ledger.goals[u])
  }

  /** Other owners' rows never contribute: the report on the owner's rows alone is the same report. */
  lemma ReportSeesOnlyOwnRows(ledger: Ledger, user: UserId, now: Timestamp)
    requires ValidDate(now.date)
    ensures FinancialReport(OwnRows(ledger, user), user, now) == FinancialReport(ledger, user, now)
  {
    var own := OwnRows(ledger, user);
    assert GoalFor(own.goals, user) == GoalFor(ledger.goals, user);
    FilterFilter(ledger.incomes, IncomeOwnedBy(user), IncomeInMonth(user, now), IncomeInMonth(user, now));
    assert MonthIncomeSum(own, user, now) == MonthIncomeSum(ledger, user, now);
    FilterFilter(ledger.expenses, ExpenseOwnedBy(user), ExpenseInMonth(user, now), ExpenseInMonth(user, now));
    assert MonthExpenseRows(own, user, now) == MonthExpenseRows(ledger, user, now);
    FilterFilter(ledger.recurring, RecurringOwnedBy(user), RecurringOwnedBy(user), RecurringOwnedBy(user));
    assert RecurringRows(own, user) == RecurringRows(ledger, user);
    OwnChartData(ledger.expenses, user, ChartDays(now.date));
  }

  lemma OwnChartData(expenses: seq<Expense>, user: UserId, days: seq<Date>)
    ensures ChartData(Filter(expenses, ExpenseOwnedBy(user)), user, days) == ChartData(expenses, user, days)
  {
    forall k | 0 <= k < |days|
      ensures Filter(Filter(expenses, ExpenseOwnedBy(user)), ExpenseOwnedOnDay(user, days[k]))
           == Filter(expenses, ExpenseOwnedOnDay(user, days[k]))
    {
      FilterFilter(expenses, ExpenseOwnedBy(user), ExpenseOwnedOnDay(user, days[k]), ExpenseOwnedOnDay(user, days[k]));
    }
  }

  /** With no rows of the owner in the month, income is the salary, expenses 0, and the balance the salary. */
  lemma NoRowsThisMonth(ledger: Ledger, user: UserId, now: Timestamp)
    requires ValidDate(now.date)
    requires forall i :: i in ledger.incomes ==> !IncomeInMonth(user, now)(i)
    requires forall e :: e in ledger.expenses ==> !ExpenseInMonth(user, now)(e)
    ensures var r := FinancialReport(ledger, user, now);
      && r.totalIncome == r.goal.monthlySalary
      && r.totalExpenses == 0 && r.todayExpenses == 0
      && r.balance == r.goal.monthlySalary
      && r.expenses == [] && r.pieLabels == [] && r.pieData == []
  {
    FilterNone(ledger.incomes, IncomeInMonth(user, now));
    FilterNone(ledger.expenses, ExpenseInMonth(user, now));
    var rows: seq<Expense> := [];
    assert Filter(rows, ExpenseOnDay(now.date)) == [];
    assert Groups(rows, Categories) == [] by {
      FilterNone(Groups(rows, Categories), (g: CategoryTotal) => true);
    }
  }

  /** `today_expenses` is the owner's expense total dated today, whatever the month filter. */
  lemma TodayIsOwnersDayTotal(ledger: Ledger, user: UserId, now: Timestamp)
    ensures Filter(MonthExpenseRows(ledger, user, now), ExpenseOnDay(now.date))
         == Filter(ledger.expenses, ExpenseOwnedOnDay(user, now.date))
  {
    FilterFilter(ledger.expenses, ExpenseInMonth(user, now), ExpenseOnDay(now.date), ExpenseOwnedOnDay(user, now.date));
  }

  /** The status is "Exceeded" exactly when a positive limit is below what the owner spent today. */
  lemma DailyStatusRule(ledger: Ledger, user: UserId, now: Timestamp)
    requires ValidDate(now.date)
    ensures var r := FinancialReport(ledger, user, now);
      var spent := Total(Filter(ledger.expenses, ExpenseOwnedOnDay(user, now.date)));
      && r.todayExpenses == spent
      && (r.dailyLimitStatus == Exceeded <==> r.goal.dailySpendingLimit > 0 && spent > r.goal.dailySpendingLimit)
  {
    TodayIsOwnersDayTotal(ledger, user, now);
  }

  /** The seven chart days: consecutive calendar days, oldest first, ending today. */
  lemma ChartDaysConsecutive(today: Date)
    requires ValidDate(today)
    ensures var days := ChartDays(today);
      && |days| == 7 && days[6] == today
      && (forall k :: 0 <= k < 7 ==> ValidDate(days[k]))
      && (forall k :: 0 <= k < 6 ==> NextDay(days[k]) == days[k + 1])
      && (forall i, j :: 0 <= i < j < 7 ==> Before(days[i], days[j]))
  {
    var days := ChartDays(today);
    forall k | 0 <= k < 6 ensures NextDay(days[k]) == days[k + 1] {
      assert days[k] == PrevDay(DaysBefore(today, 5 - k));
      NextOfPrev(DaysBefore(today, 5 - k));
    }
    forall i, j | 0 <= i < j < 7 ensures Before(days[i], days[j]) {
      DaysBeforeOrder(today, 6 - i, 6 - j);
    }
  }

  /**
   * The chart covers the seven consecutive days ending today, oldest first,
   * one total per day of all the owner's rows; today's point equals today's expenses.
   */
  lemma ChartSeries(ledger: Ledger, user: UserId, now: Timestamp)
    requires ValidDate(now.date)
    ensures var r := FinancialReport(ledger, user, now);
      && r.chartDays == ChartDays(now.date)
      && |r.chartData| == 7
      && (forall k :: 0 <= k < 7 ==>
            r.chartData[k] == Total(Filter(ledger.expenses, ExpenseOwnedOnDay(user, r.chartDays[k]))))
      && r.chartData[6] == r.todayExpenses
  {
    ChartDaysConsecutive(now.date);
    TodayIsOwnersDayTotal(ledger, user, now);
  }

  predicate NoRepeats(cats: seq<Category>)
  {
    forall i, j :: 0 <= i < j < |cats| ==> cats[i] != cats[j]
  }

  /** The sum over cats of each category's total. */
  function CategorySums(es: seq<Expense>, cats: seq<Category>): int
  {
    if cats == [] then 0 else CategorySum(es, cats[0]) + CategorySums(es, cats[1..])
  }

  lemma AbsentCategorySum(es: seq<Expense>, c: Category)
    requires !HasCategory(es, c)
    ensures CategorySum(es, c) == 0
  {
    FilterNone(es, ExpenseInCategory(c));
  }

  lemma {:induction false} GroupsSum(es: seq<Expense>, cats: seq<Category>)
    ensures SumBy(Groups(es, cats), GroupTotal) == CategorySums(es, cats)
  {
    if cats != [] {
      GroupsSum(es, cats[1..]);
      var head := if HasCategory(es, cats[0]) then [CategoryTotal(cats[0], CategorySum(es, cats[0]))] else [];
      SumByAppend(head, Groups(es, cats[1..]), GroupTotal);
      if !HasCategory(es, cats[0]) {
        AbsentCategorySum(es, cats[0]);
      }
    }
  }

  /** A category total splits off the first row. */
  lemma CategorySumCons(es: seq<Expense>, c: Category)
    requires es != []
    ensures CategorySum(es, c) == (if es[0].category == c then es[0].amount else 0) + CategorySum(es[1..], c)
  {
    var p := ExpenseInCategory(c);
    var head := if p(es[0]) then [es[0]] else [];
    SumByAppend(head, Filter(es[1..], p), ExpenseAmount);
  }

  lemma {:induction false} CategorySumsCons(es: seq<Expense>, cats: seq<Category>)
    requires es != [] && NoRepeats(cats)
    ensures CategorySums(es, cats)
         == CategorySums(es[1..], cats) + (if es[0].category in cats then es[0].amount else 0)
  {
    if cats != [] {
      CategorySumCons(es, cats[0]);
      assert NoRepeats(cats[1..]);
      CategorySumsCons(es, cats[1..]);
      if es[0].category == cats[0] {
        assert es[0].category !in cats[1..];
      }
    }
  }

  /** Each row falls in exactly one of the six categories, so the category totals add up to the total. */
  lemma {:induction false} CategorySumsTotal(es: seq<Expense>)
    ensures CategorySums(es, Categories) == Total(es)
  {
    if es != [] {
      CategoriesComplete(es[0].category);
      CategorySumsCons(es, Categories);
      CategorySumsTotal(es[1..]);
      assert Total(es) == es[0].amount + Total(es[1..]);
    } else {
      NoRowsNoSums(es, Categories);
    }
  }

  lemma {:induction false} NoRowsNoSums(es: seq<Expense>, cats: seq<Category>)
    requires es == []
    ensures CategorySums(es, cats) == 0
  {
    if cats != [] {
      NoRowsNoSums(es, cats[1..]);
    }
  }

  lemma {:induction false} GroupsDistinct(es: seq<Expense>, cats: seq<Category>)
    requires NoRepeats(cats)
    ensures DistinctBy(Groups(es, cats), GroupCategory)
  {
    if cats != [] {
      assert NoRepeats(cats[1..]);
      GroupsDistinct(es, cats[1..]);
      var rest := Groups(es, cats[1..]);
      if HasCategory(es, cats[0]) {
        var g := [CategoryTotal(cats[0], CategorySum(es, cats[0]))] + rest;
        assert g[1..] == rest;
        forall x | x in rest ensures GroupCategory(x) != GroupCategory(g[0]) {
          assert x.category in cats[1..];
        }
      } else {
        assert Groups(es, cats) == rest;
      }
    }
  }

  /**
   * The pie chart: one group per category the rows use, each with that
   * category's total, labels distinct, totals non-increasing, summing to
   * the rows' total.
   */
  lemma BreakdownProperties(es: seq<Expense>)
    ensures var b := Breakdown(es);
      && (forall g :: g in b <==> HasCategory(es, g.category) && g.total == CategorySum(es, g.category))
      && (forall i, j :: 0 <= i < j < |b| ==> b[i].category != b[j].category)
      && (forall i, j :: 0 <= i < j < |b| ==> b[i].total >= b[j].total)
      && SumBy(b, GroupTotal) == Total(es)
  {
    var g := Groups(es, Categories);
    var b := Breakdown(es);
    forall x ensures x in b <==> HasCategory(es, x.category) && x.total == CategorySum(es, x.category) {
      assert x in b <==> x in multiset(b);
      CategoriesComplete(x.category);
    }
    CategoriesComplete(Chakula);
    GroupsDistinct(es, Categories);
    DistinctBySort(g, LargestFirst, GroupCategory);
    forall i, j | 0 <= i < j < |b| ensures b[i].category != b[j].category {
      DistinctByAt(b, GroupCategory, i, j);
    }
    SumBySort(g, LargestFirst, GroupTotal);
    GroupsSum(es, Categories);
    CategorySumsTotal(es);
  }

  /**
   * The listed expenses are exactly the owner's rows of the month, newest
   * first, and add up to the month's total; the recurring bills are exactly
   * the owner's, by ascending due date; the pie adds up to the month's total.
   */
  lemma ReportListings(ledger: Ledger, user: UserId, now: Timestamp)
    requires ValidDate(now.date)
    requires forall e :: e in ledger.expenses ==> ValidTimestamp(e.added)
    requires forall b :: b in ledger.recurring ==> ValidDate(b.nextDueDate)
    ensures var r := FinancialReport(ledger, user, now);
      && multiset(r.expenses) == multiset(MonthExpenseRows(ledger, user, now))
      && (forall i, j :: 0 <= i < j < |r.expenses| ==> !EarlierThan(r.expenses[i].added, r.expenses[j].added))
      && Total(r.expenses) == r.totalExpenses
      && multiset(r.recurringExpenses) == multiset(RecurringRows(ledger, user))
      && (forall i, j :: 0 <= i < j < |r.recurringExpenses| ==>
            !Before(r.recurringExpenses[j].nextDueDate, r.recurringExpenses[i].nextDueDate))
  {
    var r := FinancialReport(ledger, user, now);
    var rows := MonthExpenseRows(ledger, user, now);
    forall i, j | 0 <= i < j < |r.expenses|
      ensures !EarlierThan(r.expenses[i].added, r.expenses[j].added)
    {
      assert r.expenses[i] in multiset(rows) && r.expenses[j] in multiset(rows);
      InstantOrder(r.expenses[j].added, r.expenses[i].added);
      InstantOrder(r.expenses[i].added, r.expenses[j].added);
    }
    SumBySort(rows, NewestFirst, ExpenseAmount);
    var bills := RecurringRows(ledger, user);
    forall i, j | 0 <= i < j < |r.recurringExpenses|
      ensures !Before(r.recurringExpenses[j].nextDueDate, r.recurringExpenses[i].nextDueDate)
    {
      assert r.recurringExpenses[i] in multiset(bills) && r.recurringExpenses[j] in multiset(bills);
      DayNumberOrder(r.recurringExpenses[j].nextDueDate, r.recurringExpenses[i].nextDueDate);
    }
  }

  /**
   * The pie chart: one label per category the month's rows use, no label
   * twice; each number is its label's category total; the numbers do not
   * increase and add up to the month's expense total.
   */
  lemma PieChartOf(es: seq<Expense>)
    ensures var labels := PieLabels(Breakdown(es)); var data := PieData(Breakdown(es));
      && |labels| == |data|
      && (forall c: Category :: c.Value() in labels <==> HasCategory(es, c))
      && (forall i, j :: 0 <= i < j < |labels| ==> labels[i] != labels[j])
      && (forall i, c: Category :: 0 <= i < |labels| && labels[i] == c.Value() ==> data[i] == CategorySum(es, c))
      && (forall i, j :: 0 <= i < j < |data| ==> data[i] >= data[j])
      && Sum(data) == Total(es)
  {
    var b := Breakdown(es);
    var labels := PieLabels(b);
    BreakdownProperties(es);
    forall i, c: Category | 0 <= i < |labels| && labels[i] == c.Value()
      ensures b[i].category == c
    {
      CategoryRoundTrip(c);
    }
    forall c: Category ensures c.Value() in labels <==> HasCategory(es, c) {
      if HasCategory(es, c) {
        var g := CategoryTotal(c, CategorySum(es, c));
        var i :| 0 <= i < |b| && b[i] == g;
        CategoryRoundTrip(c);
        assert labels[i] == c.Value();
      }
      if c.Value() in labels {
        var i :| 0 <= i < |labels| && labels[i] == c.Value();
        assert b[i] in b;
      }
    }
    forall i, j | 0 <= i < j < |labels| ensures labels[i] != labels[j] {
      CategoryRoundTrip(b[i].category);
    }
    forall i, c: Category | 0 <= i < |labels| && labels[i] == c.Value()
      ensures PieData(b)[i] == CategorySum(es, c)
    {
      assert b[i] in b;
    }
  }

  /** The dashboard's pie: the properties of `PieChartOf`, on the month's rows and the report's expense total. */
  lemma PieChart(ledger: Ledger, user: UserId, now: Timestamp)
    requires ValidDate(now.date)
    ensures var r := FinancialReport(ledger, user, now); var rows := MonthExpenseRows(ledger, user, now);
      && |r.pieLabels| == |r.pieData|
      && (forall c: Category :: c.Value() in r.pieLabels <==> HasCategory(rows, c))
      && (forall i, j :: 0 <= i < j < |r.pieLabels| ==> r.pieLabels[i] != r.pieLabels[j])
      && (forall i, c: Category :: 0 <= i < |r.pieLabels| && r.pieLabels[i] == c.Value() ==> r.pieData[i] == CategorySum(rows, c))
      && (forall i, j :: 0 <= i < j < |r.pieData| ==> r.pieData[i] >= r.pieData[j])
      && Sum(r.pieData) == r.totalExpenses
  {
    PieChartOf(MonthExpenseRows(ledger, user, now));
  }

  /**
   * The home page repeats the dashboard's income, expenses and balance, and
   * reminds the owner to log exactly when they have no expense dated today.
   */
  lemma IndexAgreesWithReport(ledger: Ledger, user: UserId, now: Timestamp)
    requires ValidDate(now.date)
    ensures var r := FinancialReport(ledger, user, now);
      var s := IndexSummaryOf(ledger, user, now);
      && s.totalIncome == r.totalIncome && s.totalExpenses == r.totalExpenses && s.balance == r.balance
      && (s.notifications == [] || s.notifications == [LogTodayReminder])
      && (s.notifications == [LogTodayReminder] <==>
            forall e :: e in ledger.expenses && e.owner == user ==> e.added.date != now.date)
  {
    TodayIsOwnersDayTotal(ledger, user, now);
    var today := Filter(ledger.expenses, ExpenseOwnedOnDay(user, now.date));
    if today != [] {
      assert today[0] in today;
    }
  }

  /** A sample dashboard: salary 500000, one expense of 50000 today, no other income and no limit. */
  lemma ExampleHealthySavings()
    ensures var today := Date(2024, 5, 15);
      var r := FinancialReport(
        Ledger([Expense(1, 7, "Chakula", 50000, Chakula, Timestamp(today, 36000))], [], [],
               map[7 := FinancialGoal(7, 500000, 0, 0, 0)]),
        7, Timestamp(today, 43200));
      && r.totalIncome == 500000 && r.totalExpenses == 50000 && r.balance == 450000
      && r.dailyLimitStatus == Good && r.suggestions == [HealthySavings]
  {
    var today := Date(2024, 5, 15);
    var now := Timestamp(today, 43200);
    var e := Expense(1, 7, "Chakula", 50000, Chakula, Timestamp(today, 36000));
    var goal := FinancialGoal(7, 500000, 0, 0, 0);
    var ledger := Ledger([e], [], [], map[7 := goal]);
    assert [e][1..] == [];
    assert GoalFor(ledger.goals, 7) == goal;
    assert MonthIncomeSum(ledger, 7, now) == 0;
    assert MonthExpenseRows(ledger, 7, now) == [e];
    assert RecurringRows(ledger, 7) == [];
    assert Total([e]) == e.amount + Total([]);
    assert Filter([e], ExpenseOnDay(today)) == [e];
    assert Suggestions(450000, 500000, Good, 500000, 0) == [HealthySavings];
  }

  /** A sample dashboard: no salary and one expense of 1000 gives the overspending danger only. */
  lemma ExampleOverspent()
    ensures var today := Date(2024, 5, 15);
      var r := FinancialReport(
        Ledger([Expense(1, 7, "Nauli", 1000, Usafiri, Timestamp(today, 36000))], [], [], map[]),
        7, Timestamp(today, 43200));
      && r.totalIncome == 0 && r.balance == -1000 && r.suggestions == [Overspent]
  {
    var today := Date(2024, 5, 15);
    var now := Timestamp(today, 43200);
    var e := Expense(1, 7, "Nauli", 1000, Usafiri, Timestamp(today, 36000));
    var ledger := Ledger([e], [], [], map[]);
    assert [e][1..] == [];
    assert GoalFor(ledger.goals, 7) == NewGoal(7);
    assert MonthIncomeSum(ledger, 7, now) == 0;
    assert MonthExpenseRows(ledger, 7, now) == [e];
    assert RecurringRows(ledger, 7) == [];
    assert Total([e]) == e.amount + Total([]);
    assert Suggestions(-1000, 0, Good, 0, 0) == [Overspent];
  }

  /** The chart is not limited to the month: on 2 March, a 29 February expense is charted but not in the month's total. */
  lemma ExampleChartCrossesMonth()
    ensures var r := FinancialReport(
        Ledger([Expense(1, 7, "Dawa", 2500, Dharura, Timestamp(Date(2024, 2, 29), 600))], [], [], map[]),
        7, Timestamp(Date(2024, 3, 2), 43200));
      && r.chartDays[4] == Date(2024, 2, 29) && r.chartData[4] == 2500 && r.totalExpenses == 0
  {
    var now := Timestamp(Date(2024, 3, 2), 43200);
    var e := Expense(1, 7, "Dawa", 2500, Dharura, Timestamp(Date(2024, 2, 29), 600));
    var ledger := Ledger([e], [], [], map[]);
    assert [e][1..] == [];
    var feb29 := Date(2024, 2, 29);
    assert PrevDay(Date(2024, 3, 2)) == Date(2024, 3, 1);
    assert PrevDay(Date(2024, 3, 1)) == feb29;
    assert DaysBefore(Date(2024, 3, 2), 2) == feb29;
    var days := ChartDays(now.date);
    assert days[4] == feb29;
    var chart := ChartData(ledger.expenses, 7, days);
    assert Filter([e], ExpenseOwnedOnDay(7, feb29)) == [e];
    assert Total([e]) == e.amount + Total([]);
    assert chart[4] == 2500;
    assert MonthExpenseRows(ledger, 7, now) == [];
    assert FinancialReport(ledger, 7, now).chartData == chart;
  }
}
