/**
 * The record types of the finance tracker and the diary entry string:
 * closed enumerations for the choice fields, their defaults, and the
 * domain of a `DecimalField(max_digits=10, decimal_places=2)` in cents.
 */
module Models {

  import opened Wrappers
  import opened Dates
  import Digits

  type UserId = nat

  /** The six spending categories; the stored value and the label coincide. */
  datatype Category = Chakula | Usafiri | Mawasiliano | Burudani | Dharura | Mengineyo
  {
    function Value(): string
    {
      match this
      case Chakula => "Chakula"
      case Usafiri => "Usafiri"
      case Mawasiliano => "Mawasiliano"
      case Burudani => "Burudani"
      case Dharura => "Dharura"
      case Mengineyo => "Mengineyo"
    }
  }

  /** The choices in the order the model declares them. */
  const Categories: seq<Category> := [Chakula, Usafiri, Mawasiliano, Burudani, Dharura, Mengineyo]

  const DefaultCategory: Category := Mengineyo

  /** Form validation of a category field: only a declared value is accepted. */
  function ParseCategory(s: string): (r: Option<Category>)
    ensures r.Some? ==> r.value.Value() == s
    ensures r.None? ==> forall c: Category :: c.Value() != s
  {
    if s == "Chakula" then Some(Chakula)
    else if s == "Usafiri" then Some(Usafiri)
    else if s == "Mawasiliano" then Some(Mawasiliano)
    else if s == "Burudani" then Some(Burudani)
    else if s == "Dharura" then Some(Dharura)
    else if s == "Mengineyo" then Some(Mengineyo)
    else None
  }

  /** Every category is stored by its own value, fits the column, and reads back as itself. */
  lemma CategoryRoundTrip(c: Category)
    ensures ParseCategory(c.Value()) == Some(c)
    ensures |c.Value()| <= 20
  {
  }

  /** The choice list names every category exactly once. */
  lemma CategoriesComplete(c: Category)
    ensures c in Categories
    ensures forall i, j :: 0 <= i < j < |Categories| ==> Categories[i] != Categories[j]
  {
  }

  /** The four billing frequencies: a stored value and a display label. */
  datatype Frequency = Daily | Weekly | Monthly | Yearly
  {
    function Value(): string
    {
      match this
      case Daily => "Daily"
      case Weekly => "Weekly"
      case Monthly => "Monthly"
      case Yearly => "Yearly"
    }

    function Label(): string
    {
      match this
      case Daily => "Kila Siku"
      case Weekly => "Kila Wiki"
      case Monthly => "Kila Mwezi"
      case Yearly => "Kila Mwaka"
    }
  }

  const DefaultFrequency: Frequency := Monthly

  /** The defaults are declared choices: Mengineyo for the category, Monthly ("Kila Mwezi") for the frequency. */
  lemma DefaultsAreChoices()
    ensures ParseCategory(DefaultCategory.Value()) == Some(Mengineyo) && DefaultCategory in Categories
    ensures ParseFrequency(DefaultFrequency.Value()) == Some(Monthly) && DefaultFrequency.Label() == "Kila Mwezi"
  {
  }

  function ParseFrequency(s: string): (r: Option<Frequency>)
    ensures r.Some? ==> r.value.Value() == s
    ensures r.None? ==> forall f: Frequency :: f.Value() != s
  {
    if s == "Daily" then Some(Daily)
    else if s == "Weekly" then Some(Weekly)
    else if s == "Monthly" then Some(Monthly)
    else if s == "Yearly" then Some(Yearly)
    else None
  }

  lemma FrequencyRoundTrip(f: Frequency)
    ensures ParseFrequency(f.Value()) == Some(f)
    ensures |f.Value()| <= 20
  {
  }

  /**
   * Amounts are integer cents. Ten digits of which two are decimal places
   * bound the magnitude below 10^8 units, that is below 10^10 cents.
   */
  const AmountLimit: nat := 10_000_000_000

  predicate ValidAmount(cents: int)
  {
    -(AmountLimit as int) < cents < AmountLimit as int
  }

  /** An amount is in the column's domain exactly when its cent magnitude has at most ten digits. */
  lemma AmountDigits(cents: int)
    ensures ValidAmount(cents) <==> |Digits.NatToString(if cents < 0 then -cents else cents)| <= 10
  {
    assert Digits.Pow10(10) == AmountLimit;
    Digits.DigitCount(if cents < 0 then -cents else cents, 10);
  }

  datatype Expense = Expense(
    id: nat, owner: UserId, title: string, amount: int, category: Category, added: Timestamp)

  datatype Income = Income(id: nat, owner: UserId, source: string, amount: int, added: Timestamp)

  /** The per-user budget settings; the owner is the one-to-one key. */
  datatype FinancialGoal = FinancialGoal(
    owner: UserId, monthlySalary: int, dailyIncomeEstimate: int,
    savingsGoal: int, dailySpendingLimit: int)

  datatype RecurringExpense = RecurringExpense(
    id: nat, owner: UserId, title: string, amount: int,
    category: Category, frequency: Frequency, nextDueDate: Date)

  /** The goal row a get-or-create inserts: every amount at its default of 0. */
  function NewGoal(owner: UserId): (g: FinancialGoal)
    ensures g.owner == owner
    ensures g.monthlySalary == 0 && g.dailyIncomeEstimate == 0
    ensures g.savingsGoal == 0 && g.dailySpendingLimit == 0
  {
    FinancialGoal(owner, 0, 0, 0, 0)
  }

  predicate ValidExpense(e: Expense)
  {
    |e.title| <= 100 && ValidAmount(e.amount) && ValidTimestamp(e.added)
  }

  predicate ValidIncome(i: Income)
  {
    |i.source| <= 100 && ValidAmount(i.amount) && ValidTimestamp(i.added)
  }

  predicate ValidGoal(g: FinancialGoal)
  {
    ValidAmount(g.monthlySalary) && ValidAmount(g.dailyIncomeEstimate)
    && ValidAmount(g.savingsGoal) && ValidAmount(g.dailySpendingLimit)
  }

  predicate ValidRecurring(r: RecurringExpense)
  {
    |r.title| <= 100 && ValidAmount(r.amount) && ValidDate(r.nextDueDate)
  }

  /** The default goal lies in the column domain. */
  lemma NewGoalValid(owner: UserId)
    ensures ValidGoal(NewGoal(owner))
  {
  }

  /** A diary entry's string: the first 50 characters of its text, then "...". */
  function EntryStr(text: string): (r: string)
    ensures 3 <= |r| <= 53
    ensures r[|r| - 3..] == "..."
    ensures |text| <= 50 ==> r == text + "..."
    ensures |text| > 50 ==> |r| == 53 && r[..50] == text[..50]
  {
    (if |text| <= 50 then text else text[..50]) + "..."
  }
}
