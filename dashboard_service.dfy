/** The REST-backed dashboard (src/services/dashboardService/index.ts): the
  * records the backend answers are cut to a trailing period and turned into
  * totals, the top category/type groups, the latest records and a monthly
  * trend of all records. The backend's answer is a parameter. */
module DashboardService {
  import opened Wrappers
  import opened Entities
  import opened Grouping
  import Sorting
  import Text
  import Numbers
  import Dates
  import O = DashboardObservable

  // ---------------------------------------------------------------------
  // filterTransactionsByPeriod

  /** `filterDate` at the instant `now`: seven days, one month or one year
    * earlier at the same time of day. `setMonth` and `setFullYear` keep the
    * day of the month and let it overflow into the next month. */
  function Cutoff(period: Period, now: Dates.Instant): (c: Dates.Instant)
    requires Dates.ValidInstant(now)
    ensures Dates.ValidInstant(c) && c.ms == now.ms
    ensures Dates.Before(c.date, now.date)
  {
    var d := now.date;
    match period
    case Week => Dates.Instant(Dates.MinusDays(d, 7), now.ms)
    case Month => Dates.Instant(Dates.MakeDay(d.year, d.month - 2, d.day), now.ms)
    case Year => Dates.YearEarlier(now)
  }

  /** `new Date(transaction.date) >= filterDate`, the record's date read as
    * midnight of its day; an unreadable date compares false. */
  predicate Kept(cutoff: Dates.Instant, t: Transaction)
  {
    match Dates.Parse(t.date)
    case Some(d) => Dates.InstantLe(cutoff, Dates.StartOf(d))
    case None => false
  }

  function KeptFrom(cutoff: Dates.Instant): Transaction -> bool
  {
    (t: Transaction) => Kept(cutoff, t)
  }

  /** `filterTransactionsByPeriod` */
  function FilterByPeriod(ts: seq<Transaction>, period: Period, now: Dates.Instant): seq<Transaction>
    requires Dates.ValidInstant(now)
  {
    Filter(ts, KeptFrom(Cutoff(period, now)))
  }

  /** The filter keeps, in their order, exactly the records dated after the
    * cutoff day, and those of the cutoff day itself only at midnight. Every
    * record dated today or later is kept. */
  lemma {:induction false} FilterByPeriodSpec(ts: seq<Transaction>, period: Period, now: Dates.Instant)
    requires Dates.ValidInstant(now)
    ensures IsSubsequence(FilterByPeriod(ts, period, now), ts)
    ensures forall t :: t in FilterByPeriod(ts, period, now) <==>
      t in ts && Dates.Parse(t.date).Some? &&
      (Dates.Before(Cutoff(period, now).date, Dates.Parse(t.date).value) ||
       (Dates.Parse(t.date).value == Cutoff(period, now).date && now.ms == 0))
    ensures forall t :: t in ts && Dates.Parse(t.date).Some? && Dates.NotAfter(now.date, Dates.Parse(t.date).value) ==>
      t in FilterByPeriod(ts, period, now)
  {
    var c := Cutoff(period, now);
    FilterIsSubsequence(ts, KeptFrom(c));
    forall t | t in ts && Dates.Parse(t.date).Some? && Dates.NotAfter(now.date, Dates.Parse(t.date).value)
      ensures Kept(c, t)
    {
      var d := Dates.Parse(t.date).value;
      if Dates.Before(now.date, d) {
        assert Dates.Before(c.date, d);
      }
    }
  }

  /** The month cutoff is the same day of the previous month, or, when that
    * month is shorter, the day that many days past its end. */
  lemma {:induction false} MonthCutoff(now: Dates.Instant)
    requires Dates.ValidInstant(now)
    ensures var d := now.date;
      var (py, pm) := if d.month == 1 then (d.year - 1, 12) else (d.year, d.month - 1);
      Cutoff(Month, now).date ==
        if d.day <= Dates.DaysInMonth(py, pm) then Dates.Day(py, pm, d.day)
        else Dates.Day(d.year, d.month, d.day - Dates.DaysInMonth(py, pm))
  {
  }

  // ---------------------------------------------------------------------
  // The totals

  /** One step of `calculateTotalBalance`: income adds, every other record
    * subtracts. */
  function SignedAmount(t: Transaction): int
  {
    if O.IsIncome(t) then t.amount else -t.amount
  }

  /** `calculateTotalBalance` */
  function TotalBalance(ts: seq<Transaction>): int
  {
    Sum(ts, SignedAmount)
  }

  /** `calculateIncome` */
  function Income(ts: seq<Transaction>): int
  {
    Sum(Filter(ts, O.IsIncome), O.Amount)
  }

  /** `calculateExpense` */
  function Expense(ts: seq<Transaction>): int
  {
    Sum(Filter(ts, O.IsExpense), O.Amount)
  }

  /** A record whose type is neither income nor expense. */
  predicate IsOther(t: Transaction)
  {
    !O.IsIncome(t) && !O.IsExpense(t)
  }

  /** The balance is the income less the expenses less the records of any
    * other type. */
  lemma {:induction false} BalanceParts(ts: seq<Transaction>)
    ensures TotalBalance(ts) == Income(ts) - Expense(ts) - Sum(Filter(ts, IsOther), O.Amount)
  {
    if ts != [] {
      var init, last := ts[..|ts| - 1], ts[|ts| - 1];
      BalanceParts(init);
      SumAppend(Filter(init, O.IsIncome), if O.IsIncome(last) then [last] else [], O.Amount);
      SumAppend(Filter(init, O.IsExpense), if O.IsExpense(last) then [last] else [], O.Amount);
      SumAppend(Filter(init, IsOther), if IsOther(last) then [last] else [], O.Amount);
      assert Sum([last], O.Amount) == last.amount by { assert [last][..0] == []; }
    }
  }

  /** When every record is income or expense, the balance is the income
    * less the expenses. */
  lemma {:induction false} BalanceIsIncomeLessExpense(ts: seq<Transaction>)
    requires forall t :: t in ts ==> O.IsIncome(t) || O.IsExpense(t)
    ensures TotalBalance(ts) == Income(ts) - Expense(ts)
  {
    BalanceParts(ts);
    FilterNone(ts, IsOther);
  }

  // ---------------------------------------------------------------------
  // getTopCategories

  /** `${transaction.category}_${transaction.type}` */
  function GroupKey(t: Transaction): string
  {
    t.category + "_" + t.kind
  }

  /** `const [category, type] = key.split('_')`, with the summed amount and
    * a zero percentage. */
  function SummaryOf(e: (string, int)): CategorySummary
  {
    var parts := Text.Split(e.0, '_');
    CategorySummary(parts[0], e.1, 0.0, if |parts| > 1 then parts[1] else "")
  }

  function SummaryAmount(s: CategorySummary): int { s.amount }

  /** `(a, b) => b.amount - a.amount` */
  function ByAmountDesc(): (CategorySummary, CategorySummary) -> bool
  {
    Sorting.ByIntDesc(SummaryAmount)
  }

  /** The summaries of all groups, greatest amount first. */
  function RankedSummaries(ts: seq<Transaction>): (r: seq<CategorySummary>)
    ensures multiset(r) == multiset(Map(Totals(ts, GroupKey, O.Amount), SummaryOf))
    ensures Sorting.SortedBy(r, ByAmountDesc())
  {
    Sorting.ByIntDescOrder(SummaryAmount);
    Sorting.SortBy(Map(Totals(ts, GroupKey, O.Amount), SummaryOf), ByAmountDesc())
  }

  /** `.slice(0, 5)` of the ranked summaries. */
  function TopCategories(ts: seq<Transaction>): seq<CategorySummary>
  {
    Sorting.Take(RankedSummaries(ts), 5)
  }

  /** `getTopCategories`: the `categoryMap` loop, then the map, the sort and
    * the slice. */
  method GetTopCategories(ts: seq<Transaction>) returns (r: seq<CategorySummary>)
    ensures r == TopCategories(ts)
  {
    var entries := SumByKey(ts, GroupKey, O.Amount);
    var summaries := Map(entries, SummaryOf);
    Sorting.ByIntDescOrder(SummaryAmount);
    r := Sorting.Take(Sorting.SortBy(summaries, ByAmountDesc()), 5);
  }

  /** The category shown for a record's group is its category cut at the
    * first `_`; when the category has no `_`, the type shown is the
    * record's type cut at its first `_`. */
  lemma {:induction false} GroupShown(t: Transaction, amount: int)
    ensures SummaryOf((GroupKey(t), amount)).category == Text.Split(t.category, '_')[0]
    ensures Text.Count(t.category, '_') == 0 ==>
      SummaryOf((GroupKey(t), amount)).category == t.category &&
      SummaryOf((GroupKey(t), amount)).kind == Text.Split(t.kind, '_')[0]
    ensures SummaryOf((GroupKey(t), amount)).amount == amount
  {
    assert GroupKey(t) == t.category + ['_'] + t.kind;
    Text.SplitFirstPiece(t.category, '_', t.kind);
    if Text.Count(t.category, '_') == 0 {
      Text.SplitNoSeparator(t.category, '_');
      Text.SplitAtFirst(t.category, '_', t.kind);
    }
  }

  /** A category containing `_` loses its tail and reports the text after
    * the `_` as its type. */
  lemma {:induction false} UnderscoreCategory(c1: string, c2: string, kind: string, amount: int)
    requires Text.Count(c1, '_') == 0 && Text.Count(c2, '_') == 0
    ensures SummaryOf((c1 + "_" + c2 + "_" + kind, amount)).category == c1
    ensures SummaryOf((c1 + "_" + c2 + "_" + kind, amount)).kind == c2
  {
    assert c1 + "_" + c2 + "_" + kind == c1 + ['_'] + (c2 + ['_'] + kind);
    Text.SplitAtFirst(c1, '_', c2 + ['_'] + kind);
    Text.SplitAtFirst(c2, '_', kind);
  }

  /** At most five groups, greatest amount first, each with a zero
    * percentage. */
  lemma {:induction false} TopCategoriesShape(ts: seq<Transaction>)
    ensures |TopCategories(ts)| <= 5
    ensures Sorting.SortedBy(TopCategories(ts), ByAmountDesc())
    ensures forall e :: e in TopCategories(ts) ==> e.percentage == 0.0
  {
    Sorting.TakeSorted(RankedSummaries(ts), 5, ByAmountDesc());
    TopZeroPercent(ts);
  }

  lemma {:induction false} TopZeroPercent(ts: seq<Transaction>)
    ensures forall e :: e in TopCategories(ts) ==> e.percentage == 0.0
  {
    var ranked := RankedSummaries(ts);
    var top := TopCategories(ts);
    forall e | e in top ensures e.percentage == 0.0 {
      assert e in multiset(ranked);
      var m := Map(Totals(ts, GroupKey, O.Amount), SummaryOf);
      assert e in multiset(m);
    }
  }

  /** The record a summary of the group totals comes from. */
  lemma {:induction false} SummarySource(ts: seq<Transaction>, e: CategorySummary) returns (t: Transaction)
    requires e in multiset(Map(Totals(ts, GroupKey, O.Amount), SummaryOf))
    ensures t in ts && e == SummaryOf((GroupKey(t), Sum(Filter(ts, KeyIs(GroupKey, GroupKey(t))), O.Amount)))
  {
    var totals := Totals(ts, GroupKey, O.Amount);
    var m := Map(totals, SummaryOf);
    TotalsSpec(ts, GroupKey, O.Amount);
    var i :| 0 <= i < |m| && m[i] == e;
    var entry := totals[i];
    assert Map(totals, FirstOf)[i] == entry.0;
    assert entry.0 in Dedup(Map(ts, GroupKey));
    var j :| 0 <= j < |ts| && Map(ts, GroupKey)[j] == entry.0;
    t := ts[j];
    assert entry in totals;
  }

  /** Every group shown comes from a record: it shows the record's category
    * cut at the first `_`, and the sum of the amounts of the records with
    * the same category and type. */
  lemma {:induction false} TopCategoriesSums(ts: seq<Transaction>)
    ensures forall e :: e in TopCategories(ts) ==> exists t :: (t in ts &&
      e.category == Text.Split(t.category, '_')[0] &&
      e.amount == Sum(Filter(ts, KeyIs(GroupKey, GroupKey(t))), O.Amount) &&
      (Text.Count(t.category, '_') == 0 ==> e.category == t.category && e.kind == Text.Split(t.kind, '_')[0]))
  {
    var ranked := RankedSummaries(ts);
    forall e | e in TopCategories(ts)
      ensures exists t :: (t in ts &&
        e.category == Text.Split(t.category, '_')[0] &&
        e.amount == Sum(Filter(ts, KeyIs(GroupKey, GroupKey(t))), O.Amount) &&
        (Text.Count(t.category, '_') == 0 ==> e.category == t.category && e.kind == Text.Split(t.kind, '_')[0]))
    {
      assert e in multiset(ranked);
      var t := SummarySource(ts, e);
      GroupShown(t, e.amount);
    }
  }

  /** The category and type of a record shown as they were when neither
    * contains `_`. */
  predicate Plain(t: Transaction)
  {
    Text.Count(t.category, '_') == 0 && Text.Count(t.kind, '_') == 0
  }

  function GroupOf(s: CategorySummary): (string, string) { (s.category, s.kind) }

  lemma {:induction false} PlainShown(t: Transaction, amount: int)
    requires Plain(t)
    ensures GroupOf(SummaryOf((GroupKey(t), amount))) == (t.category, t.kind)
  {
    assert GroupKey(t) == t.category + ['_'] + t.kind;
    Text.SplitAtFirst(t.category, '_', t.kind);
    Text.SplitNoSeparator(t.kind, '_');
  }

  /** When no category or type contains `_`, each category/type pair is
    * shown at most once. */
  lemma {:induction false} TopCategoriesDistinct(ts: seq<Transaction>)
    requires forall t :: t in ts ==> Plain(t)
    ensures Sorting.KeysDistinct(TopCategories(ts), GroupOf)
  {
    var m := Map(Totals(ts, GroupKey, O.Amount), SummaryOf);
    SummariesDistinct(ts);
    Sorting.ByIntDescOrder(SummaryAmount);
    Sorting.SortByKeysDistinct(m, ByAmountDesc(), GroupOf);
  }

  /** Before the sort, the summaries of plain records have distinct
    * category/type pairs. */
  lemma {:induction false} SummariesDistinct(ts: seq<Transaction>)
    requires forall t :: t in ts ==> Plain(t)
    ensures Sorting.KeysDistinct(Map(Totals(ts, GroupKey, O.Amount), SummaryOf), GroupOf)
  {
    var totals := Totals(ts, GroupKey, O.Amount);
    var m := Map(totals, SummaryOf);
    TotalsSpec(ts, GroupKey, O.Amount);
    var keys := Map(totals, FirstOf);
    forall i | 0 <= i < |m|
      ensures exists t :: t in ts && totals[i].0 == GroupKey(t) && GroupOf(m[i]) == (t.category, t.kind)
    {
      assert keys[i] in Dedup(Map(ts, GroupKey));
      var j :| 0 <= j < |ts| && Map(ts, GroupKey)[j] == keys[i];
      PlainShown(ts[j], totals[i].1);
    }
    forall i, j | 0 <= i < j < |m| ensures GroupOf(m[i]) != GroupOf(m[j]) {
      assert keys[i] != keys[j];
      var ti :| ti in ts && totals[i].0 == GroupKey(ti) && GroupOf(m[i]) == (ti.category, ti.kind);
      var tj :| tj in ts && totals[j].0 == GroupKey(tj) && GroupOf(m[j]) == (tj.category, tj.kind);
    }
  }

  /** A group left out has no greater amount than any group shown. */
  lemma {:induction false} TopCategoriesAreTop(ts: seq<Transaction>)
    ensures forall e, x :: e in RankedSummaries(ts) && e !in TopCategories(ts) && x in TopCategories(ts) ==>
      e.amount <= x.amount
  {
    var ranked := RankedSummaries(ts);
    var top := TopCategories(ts);
    Sorting.TakeKeepsFirst(ranked, 5, ByAmountDesc());
    forall e, x | e in ranked && e !in top && x in top ensures e.amount <= x.amount {
      ByAmountDescMeans(e, x);
    }
  }

  lemma {:induction false} ByAmountDescMeans(a: CategorySummary, b: CategorySummary)
    ensures ByAmountDesc()(a, b) == (a.amount > b.amount)
  {
    assert Sorting.ByIntDesc(SummaryAmount)(a, b) == (SummaryAmount(a) > SummaryAmount(b));
  }

  // ---------------------------------------------------------------------
  // getRecentTransactions

  /** The projection of a record, `description: t.description || t.category`. */
  function Described(t: Transaction): RecentTransaction
  {
    RecentTransaction(t.id, if t.description != "" then t.description else t.category,
                      t.amount, t.kind, t.category, t.date)
  }

  /** `getRecentTransactions`: newest first, the first five. */
  function Recent(ts: seq<Transaction>): seq<RecentTransaction>
  {
    Map(Sorting.Take(O.Newest(ts), 5), Described)
  }

  /** At most five entries, newest first. */
  lemma {:induction false} RecentShape(ts: seq<Transaction>)
    ensures |Recent(ts)| == if |ts| < 5 then |ts| else 5
    ensures forall i, j :: 0 <= i < j < |Recent(ts)| ==> !Text.Lt(Recent(ts)[i].date, Recent(ts)[j].date)
  {
    var kept := Sorting.Take(O.Newest(ts), 5);
    var r := Recent(ts);
    forall i, j | 0 <= i < j < |r| ensures !Text.Lt(r[i].date, r[j].date) {
      assert r[i].date == kept[i].date && r[j].date == kept[j].date;
      O.ByDateDescMeans(kept[j], kept[i]);
    }
  }

  /** The recent list describes records drawn from the list, newest first,
    * each no more often than the list holds it. */
  lemma {:induction false} RecentDrawn(ts: seq<Transaction>)
    ensures exists kept ::
      multiset(kept) <= multiset(ts) && Sorting.SortedBy(kept, O.ByDateDesc()) && Recent(ts) == Map(kept, Described)
  {
    var sorted := O.Newest(ts);
    var kept := Sorting.Take(sorted, 5);
    Sorting.PrefixMultiset(sorted, kept);
    Sorting.PrefixSorted(sorted, kept, O.ByDateDesc());
  }

  /** Every entry is a record of the list with its own fields, its
    * description replaced by its category when empty. */
  lemma {:induction false} RecentFrom(ts: seq<Transaction>)
    ensures forall r :: r in Recent(ts) ==> exists t :: (t in ts &&
      r.id == t.id && r.amount == t.amount && r.kind == t.kind && r.category == t.category && r.date == t.date &&
      r.description == (if t.description != "" then t.description else t.category))
  {
    var sorted := O.Newest(ts);
    var kept := Sorting.Take(sorted, 5);
    var r := Recent(ts);
    forall x | x in r ensures exists t :: t in ts && x == Described(t) {
      var i :| 0 <= i < |r| && r[i] == x;
      assert kept[i] in multiset(sorted);
    }
  }

  /** No record left out is newer than an entry kept. */
  lemma {:induction false} RecentNewest(ts: seq<Transaction>)
    ensures forall t, r :: t in ts && Described(t) !in Recent(ts) && r in Recent(ts) ==> !Text.Lt(r.date, t.date)
  {
    var sorted := O.Newest(ts);
    var kept := Sorting.Take(sorted, 5);
    var r := Recent(ts);
    Sorting.TakeKeepsFirst(sorted, 5, O.ByDateDesc());
    forall t, x | t in ts && Described(t) !in r && x in r ensures !Text.Lt(x.date, t.date) {
      assert t in multiset(sorted);
      var i :| 0 <= i < |r| && r[i] == x;
      assert kept[i] in kept && x.date == kept[i].date;
      assert t !in kept;
      O.ByDateDescMeans(t, kept[i]);
    }
  }

  // ---------------------------------------------------------------------
  // getMonthlyTrend

  /** `${date.getFullYear()}-${String(date.getMonth() + 1).padStart(2, '0')}`
    * of `new Date(transaction.date)`; both parts of an invalid date are
    * `NaN`. */
  function MonthKey(t: Transaction): string
  {
    match Dates.Parse(t.date)
    case Some(d) => Numbers.IntToString(d.year) + "-" + Dates.Digits(d.month, 2)
    case None => "NaN-NaN"
  }

  /** The trend entries sorted with `a.month.localeCompare(b.month)`. */
  function Trend(ts: seq<Transaction>): (r: seq<MonthlyTrend>)
    ensures multiset(r) == multiset(Map(GroupBy(ts, MonthKey), O.TrendOf))
    ensures Sorting.SortedBy(r, O.ByMonth())
  {
    Sorting.ByTextAscOrder(O.MonthOf);
    Sorting.SortBy(Map(GroupBy(ts, MonthKey), O.TrendOf), O.ByMonth())
  }

  /** A `monthlyData` entry built from its key and its running sums is the
    * trend of that month's records. */
  lemma {:induction false} TrendAgrees()
    ensures ViewAgrees(O.StartTrend, O.StepTrend, O.EntryOf, O.TrendOf)
  {
    forall b: Bucket<string, Transaction> | |b.items| > 0
      ensures O.EntryOf(b.key, FoldEntry(b.items, O.StartTrend, O.StepTrend)) == O.TrendOf(b)
    {
      O.FoldTrend(b.items);
    }
  }

  /** `getMonthlyTrend`: the `monthlyData` loop, then the map and the
    * sort. */
  method GetMonthlyTrend(ts: seq<Transaction>) returns (r: seq<MonthlyTrend>)
    ensures r == Trend(ts)
  {
    TrendAgrees();
    var entries := EntriesOf(ts, MonthKey, O.StartTrend, O.StepTrend, O.EntryOf, O.TrendOf);
    Sorting.ByTextAscOrder(O.MonthOf);
    r := Sorting.SortBy(entries, O.ByMonth());
  }

  /** The months are unique and strictly ascending, and every record's month
    * is among them. */
  lemma {:induction false} TrendKeys(ts: seq<Transaction>)
    ensures forall i, j :: 0 <= i < j < |Trend(ts)| ==> Text.Lt(Trend(ts)[i].month, Trend(ts)[j].month)
    ensures forall t :: t in ts ==> exists m :: m in Trend(ts) && m.month == MonthKey(t)
  {
    var u := Map(GroupBy(ts, MonthKey), O.TrendOf);
    var r := Trend(ts);
    GroupViewKeys(ts, MonthKey, O.TrendOf, O.MonthOf);
    Sorting.ByTextAscOrder(O.MonthOf);
    Sorting.SortByKeysDistinct(u, O.ByMonth(), O.MonthOf);
    forall i, j | 0 <= i < j < |r| ensures Text.Lt(r[i].month, r[j].month) {
      Text.LtTotal(r[i].month, r[j].month);
    }
    forall t | t in ts ensures exists m :: m in r && m.month == MonthKey(t) {
      var e :| e in u && O.MonthOf(e) == MonthKey(t);
      assert e in multiset(r);
    }
  }

  /** Each month carries the sum of its income, the sum of its other records
    * and their difference. */
  lemma {:induction false} TrendSums(ts: seq<Transaction>)
    ensures forall m :: m in Trend(ts) ==>
      m.balance == m.income - m.expense &&
      m.income == Sum(Filter(ts, KeyIs(MonthKey, m.month)), O.IncomeAmount) &&
      m.expense == Sum(Filter(ts, KeyIs(MonthKey, m.month)), O.ExpenseAmount)
  {
    var r := Trend(ts);
    forall m | m in r
      ensures m.balance == m.income - m.expense
      ensures m.income == Sum(Filter(ts, KeyIs(MonthKey, m.month)), O.IncomeAmount)
      ensures m.expense == Sum(Filter(ts, KeyIs(MonthKey, m.month)), O.ExpenseAmount)
    {
      var k := GroupEntryOf(ts, MonthKey, O.TrendOf, r, m);
    }
  }

  // ---------------------------------------------------------------------
  // getDashboardData and getChartData

  /** `getMockDashboardData()`, answered when the backend fails. */
  const MOCK_DASHBOARD: DashboardData :=
    DashboardData(5000, 8000, 3000, 62.5, [], [], [], [], [], [], CashFlowData(0, 0))

  /** `monthlyIncome > 0 ? ((monthlyIncome - monthlyExpense) / monthlyIncome) * 100 : 0` */
  function SavingsRate(income: int, expense: int): real
  {
    O.SavingsRate(income, income - expense)
  }

  /** The rate is 0 without income, at most 100 while expenses are not
    * negative, and positive exactly when income exceeds the expenses. */
  lemma {:induction false} SavingsRateBounds(income: int, expense: int)
    ensures income <= 0 ==> SavingsRate(income, expense) == 0.0
    ensures income > 0 && expense >= 0 ==> SavingsRate(income, expense) <= 100.0
    ensures income > 0 ==> (SavingsRate(income, expense) > 0.0 <==> income > expense)
  {
    O.SavingsRateBounds(income, expense);
  }

  /** The `try` block of `getDashboardData` once the records have been
    * fetched. */
  method Summarize(transactions: seq<Transaction>, period: Period, now: Dates.Instant) returns (r: DashboardData)
    requires Dates.ValidInstant(now)
    ensures var w := FilterByPeriod(transactions, period, now);
      r.totalBalance == TotalBalance(w) && r.monthlyIncome == Income(w) && r.monthlyExpense == Expense(w)
    ensures r.savingsRate == SavingsRate(r.monthlyIncome, r.monthlyExpense)
    ensures var w := FilterByPeriod(transactions, period, now);
      r.topCategories == TopCategories(w) && r.recentTransactions == Recent(w) &&
      r.monthlyTrend == Trend(transactions)
    ensures r.expenseDistribution == [] && r.investmentEvolution == [] && r.categoryBreakdown == [] &&
      r.cashFlow == CashFlowData(0, 0)
  {
    var filtered := FilterByPeriod(transactions, period, now);
    var totalBalance := TotalBalance(filtered);
    var monthlyIncome := Income(filtered);
    var monthlyExpense := Expense(filtered);
    var savingsRate := SavingsRate(monthlyIncome, monthlyExpense);
    var topCategories := GetTopCategories(filtered);
    var recent := Recent(filtered);
    var monthlyTrend := GetMonthlyTrend(transactions);
    r := DashboardData(totalBalance, monthlyIncome, monthlyExpense, savingsRate, topCategories, recent,
                       monthlyTrend, [], [], [], CashFlowData(0, 0));
  }

  /** `getDashboardData(period)`; `fetched` is what
    * `transactionService.getTransactions()` answers and `now` the clock.
    * A failed fetch answers the mock data. */
  method GetDashboardData(fetched: Result<seq<Transaction>>, period: Option<Period>, now: Dates.Instant)
    returns (r: DashboardData)
    requires Dates.ValidInstant(now)
    ensures fetched.Err? ==> r == MOCK_DASHBOARD
    ensures fetched.Ok? ==> var w := FilterByPeriod(fetched.value, OrMonth(period), now);
      r.totalBalance == TotalBalance(w) && r.monthlyIncome == Income(w) && r.monthlyExpense == Expense(w) &&
      r.topCategories == TopCategories(w) && r.recentTransactions == Recent(w) &&
      r.monthlyTrend == Trend(fetched.value)
    ensures fetched.Ok? ==> r.savingsRate == SavingsRate(r.monthlyIncome, r.monthlyExpense)
    ensures fetched.Ok? ==>
      r.expenseDistribution == [] && r.investmentEvolution == [] &&
      r.categoryBreakdown == [] && r.cashFlow == CashFlowData(0, 0)
  {
    if fetched.Err? {
      r := MOCK_DASHBOARD;
    } else {
      r := Summarize(fetched.value, OrMonth(period), now);
    }
  }

  const LINE_TITLE: string := "Receitas vs Despesas"
  const PIE_TITLE: string := "Categorias de Despesas"

  /** `getMockChartData()`: one empty line chart. */
  const MOCK_CHARTS: seq<ChartData> := [ChartData("1", "line", LINE_TITLE, [])]

  /** `getChartData(period)`: the chart generators are stubs answering `[]`,
    * so the filtered records never reach the result. */
  function GetChartData(fetched: Result<seq<Transaction>>, period: Option<Period>, now: Dates.Instant): (r: seq<ChartData>)
    requires Dates.ValidInstant(now)
    ensures fetched.Err? ==> r == MOCK_CHARTS
    ensures fetched.Ok? ==> |r| == 2 && r[0].chartKind == "line" && r[1].chartKind == "pie"
    ensures forall c :: c in r ==> c.data == []
  {
    if fetched.Err? then MOCK_CHARTS
    else [ChartData("1", "line", LINE_TITLE, []), ChartData("2", "pie", PIE_TITLE, [])]
  }

  /** Whatever the backend answers, the period and the clock, a successful
    * fetch gives the same two empty charts. */
  lemma {:induction false} ChartsIgnoreRecords(a: seq<Transaction>, b: seq<Transaction>, p: Option<Period>, q: Option<Period>,
                                               now: Dates.Instant, later: Dates.Instant)
    requires Dates.ValidInstant(now) && Dates.ValidInstant(later)
    ensures GetChartData(Ok(a), p, now) == GetChartData(Ok(b), q, later)
  {
  }
}
