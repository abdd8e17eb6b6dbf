/** The records the application passes around: transactions, their filters
  * and the aggregates shown on the dashboard. Amounts are integers (cents);
  * dates are the stored `YYYY-MM-DD` strings. */
module Entities {
  import opened Wrappers

  const INCOME: string := "income"
  const EXPENSE: string := "expense"

  /** A stored transaction. `kind` is the record's `type` field: `income`,
    * `expense`, or whatever a document happens to hold. */
  datatype Transaction = Transaction(
    id: string,
    description: string,
    amount: int,
    kind: string,
    category: string,
    date: string,
    createdAt: string,
    updatedAt: string,
    receiptUrl: Option<string>,
    tags: seq<string>,
    notes: Option<string>)

  /** The list filters. An absent text field behaves as the empty string,
    * which every filter treats as "no constraint". */
  datatype TransactionFilters = TransactionFilters(
    startDate: Option<string>,
    endDate: Option<string>,
    category: string,
    search: string,
    kind: string,
    minAmount: Option<int>,
    maxAmount: Option<int>)

  /** The filters a new list screen starts from. */
  const DEFAULT_FILTERS: TransactionFilters :=
    TransactionFilters(None, None, "", "", "all", None, None)

  /** The fields of the transaction form. */
  datatype TransactionFormData = TransactionFormData(
    description: string,
    amount: int,
    kind: string,
    category: string,
    date: string,
    receiptUrl: Option<string>,
    tags: seq<string>,
    notes: Option<string>)

  /** Partial updates: only present fields are written. */
  datatype TransactionPatch = TransactionPatch(
    description: Option<string>,
    amount: Option<int>,
    kind: Option<string>,
    category: Option<string>,
    date: Option<string>)

  datatype CategorySummary = CategorySummary(category: string, amount: int, percentage: real, kind: string)

  datatype RecentTransaction = RecentTransaction(
    id: string, description: string, amount: int, kind: string, category: string, date: string)

  datatype MonthlyTrend = MonthlyTrend(month: string, income: int, expense: int, balance: int)

  datatype ExpenseDistributionData = ExpenseDistributionData(category: string, amount: int, color: string)

  datatype InvestmentEvolutionData = InvestmentEvolutionData(
    month: string, total: int, fixedIncome: int, variableIncome: int)

  datatype CategoryBreakdownData = CategoryBreakdownData(category: string, amount: int, color: string)

  datatype CashFlowData = CashFlowData(income: int, expense: int)

  datatype DashboardData = DashboardData(
    totalBalance: int,
    monthlyIncome: int,
    monthlyExpense: int,
    savingsRate: real,
    topCategories: seq<CategorySummary>,
    recentTransactions: seq<RecentTransaction>,
    monthlyTrend: seq<MonthlyTrend>,
    expenseDistribution: seq<ExpenseDistributionData>,
    investmentEvolution: seq<InvestmentEvolutionData>,
    categoryBreakdown: seq<CategoryBreakdownData>,
    cashFlow: CashFlowData)

  /** One point of a chart: a line-chart value with its period label, or a pie
    * slice with its colour and caption. */
  datatype ChartPoint =
    | LinePoint(value: int, period: string)
    | PieSlice(value: int, color: string, text: string)

  datatype ChartData = ChartData(id: string, chartKind: string, title: string, data: seq<ChartPoint>)

  /** The signed-in user's profile. */
  datatype User = User(id: string, name: string, email: string)

  /** The login form. */
  datatype LoginCredentials = LoginCredentials(email: string, password: string)

  /** The registration form. */
  datatype RegisterData = RegisterData(name: string, email: string, password: string, confirmPassword: string)

  /** `Partial<User>` for a profile update: only present fields are written. */
  datatype ProfilePatch = ProfilePatch(name: Option<string>, email: Option<string>)

  /** The dashboard period selector. */
  datatype Period = Week | Month | Year

  /** A period parameter declared `= 'month'`: an omitted argument is the
    * month. */
  function OrMonth(p: Option<Period>): (r: Period)
    ensures p.Some? ==> r == p.value
    ensures p.None? ==> r == Month
  {
    if p.Some? then p.value else Month
  }

  function PeriodName(p: Period): string
  {
    match p
    case Week => "week"
    case Month => "month"
    case Year => "year"
  }

  /** `{...items}` projections used by the dashboard. */
  function ToRecent(t: Transaction): (r: RecentTransaction)
    ensures r.id == t.id && r.amount == t.amount && r.date == t.date && r.kind == t.kind
  {
    RecentTransaction(t.id, t.description, t.amount, t.kind, t.category, t.date)
  }
}
