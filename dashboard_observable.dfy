/** The live dashboard (src/infrastructure/reactive/DashboardObservable.ts):
  * every emission of the transaction list is cut to the selected period and
  * turned into totals, top categories, the latest records, a monthly trend
  * and the distribution of expenses. */
module DashboardObservable {
  import opened Wrappers
  import Text
  import Numbers
  import Dates
  import opened Entities
  import Sorting
  import opened Grouping
  import Streams

  predicate IsIncome(t: Transaction) { t.kind == INCOME }

  /** The totals and the category map count `type === 'expense'` only. */
  predicate IsExpense(t: Transaction) { t.kind == EXPENSE }

  function Amount(t: Transaction): int { t.amount }

  function Category(t: Transaction): string { t.category }

  function Date(t: Transaction): string { t.date }

  /** `selectedMonth.split('-').map(Number)`: the year and the month, `None`
    * standing for `NaN` (a missing part is `undefined`, hence `NaN`). */
  function YearMonth(selectedMonth: string): (Option<int>, Option<int>)
  {
    var parts := Text.Split(selectedMonth, '-');
    (Numbers.NumberOf(parts[0]), if |parts| > 1 then Numbers.NumberOf(parts[1]) else None)
  }

  /** The bounds `[startDate, endDate]` of `filterByPeriod` at the instant
    * `now`; `None` when a bound is an invalid date. */
  function Window(period: Period, selectedMonth: string, now: Dates.Instant): Option<(Dates.Instant, Dates.Instant)>
    requires Dates.ValidInstant(now)
  {
    match period
    case Week =>
      // `startDate.setDate(now.getDate() - 7)` keeps the time of day.
      Some((Dates.Instant(Dates.MinusDays(now.date, 7), now.ms), now))
    case Month =>
      var (y, m) := YearMonth(selectedMonth);
      if y.None? || m.None? then None
      else
        var year := Dates.ConstructorYear(y.value);
        Some((Dates.StartOf(Dates.MakeDay(year, m.value - 1, 1)),
              Dates.LastSecondOf(Dates.MakeDay(year, m.value, 0))))
    case Year =>
      var y := Numbers.ParseInt(Text.Split(selectedMonth, '-')[0]);
      if y.None? then None
      else
        var year := Dates.ConstructorYear(y.value);
        Some((Dates.StartOf(Dates.MakeDay(year, 0, 1)), Dates.LastSecondOf(Dates.MakeDay(year, 11, 31))))
  }

  /** `transactionDate >= startDate && transactionDate <= endDate`, where
    * `new Date(t.date)` is midnight of the stored day; an unreadable date
    * compares false. */
  predicate InWindow(w: Option<(Dates.Instant, Dates.Instant)>, t: Transaction)
  {
    w.Some? &&
    match Dates.Parse(t.date)
    case Some(d) => Dates.InstantLe(w.value.0, Dates.StartOf(d)) && Dates.InstantLe(Dates.StartOf(d), w.value.1)
    case None => false
  }

  function FilterByPeriod(ts: seq<Transaction>, period: Period, selectedMonth: string, now: Dates.Instant): seq<Transaction>
    requires Dates.ValidInstant(now)
  {
    Filter(ts, (t: Transaction) => InWindow(Window(period, selectedMonth, now), t))
  }

  /** The week window runs from the same time of day seven days earlier up to
    * now: a record of the seventh day back counts only at midnight. */
  lemma {:induction false} WeekWindow(selectedMonth: string, now: Dates.Instant, t: Transaction)
    requires Dates.ValidInstant(now)
    ensures InWindow(Window(Week, selectedMonth, now), t) <==>
      Dates.Parse(t.date).Some? &&
      var d, first := Dates.Parse(t.date).value, Dates.MinusDays(now.date, 7);
      (Dates.Before(first, d) || (d == first && now.ms == 0)) && Dates.NotAfter(d, now.date)
  {
  }

  /** A window from midnight of day `a` to 23:59:59 of day `b` holds the
    * records dated `a` to `b`. */
  lemma {:induction false} InDayWindow(a: Dates.Day, b: Dates.Day, t: Transaction)
    ensures InWindow(Some((Dates.StartOf(a), Dates.LastSecondOf(b))), t) <==>
      Dates.Parse(t.date).Some? && Dates.NotAfter(a, Dates.Parse(t.date).value) && Dates.NotAfter(Dates.Parse(t.date).value, b)
  {
    if Dates.Parse(t.date).Some? {
      Dates.DayWindow(a, b, Dates.Parse(t.date).value);
    }
  }

  lemma {:induction false} MonthBounds(selectedMonth: string, now: Dates.Instant, y: int, m: int)
    requires Dates.ValidInstant(now)
    requires YearMonth(selectedMonth) == (Some(y), Some(m)) && 1 <= m <= 12 && !(0 <= y <= 99)
    ensures Window(Month, selectedMonth, now) ==
      Some((Dates.StartOf(Dates.Day(y, m, 1)), Dates.LastSecondOf(Dates.Day(y, m, Dates.DaysInMonth(y, m)))))
  {
    Dates.MakeDayInRange(y, m, 1);
    Dates.MakeDayLast(y, m);
  }

  /** For a month `YYYY-MM` of a year past 99 the window is the whole month,
    * both ends included: a record is inside exactly when its day lies in
    * that month. */
  lemma {:induction false} MonthWindow(selectedMonth: string, now: Dates.Instant, t: Transaction, y: int, m: int)
    requires Dates.ValidInstant(now)
    requires YearMonth(selectedMonth) == (Some(y), Some(m)) && 1 <= m <= 12 && !(0 <= y <= 99)
    ensures InWindow(Window(Month, selectedMonth, now), t) <==>
      Dates.Parse(t.date).Some? && Dates.Parse(t.date).value.year == y && Dates.Parse(t.date).value.month == m
  {
    MonthBounds(selectedMonth, now, y, m);
    InDayWindow(Dates.Day(y, m, 1), Dates.Day(y, m, Dates.DaysInMonth(y, m)), t);
  }

  lemma {:induction false} YearBounds(selectedMonth: string, now: Dates.Instant, y: int)
    requires Dates.ValidInstant(now)
    requires Numbers.ParseInt(Text.Split(selectedMonth, '-')[0]) == Some(y) && !(0 <= y <= 99)
    ensures Window(Year, selectedMonth, now) ==
      Some((Dates.StartOf(Dates.Day(y, 1, 1)), Dates.LastSecondOf(Dates.Day(y, 12, 31))))
  {
    assert Dates.ConstructorYear(y) == y;
    Dates.MakeDayInRange(y, 1, 1);
    Dates.DecemberDays(y);
    Dates.MakeDayInRange(y, 12, 31);
    assert Dates.MakeDay(y, 0, 1) == Dates.Day(y, 1, 1);
    assert Dates.MakeDay(y, 11, 31) == Dates.Day(y, 12, 31);
  }

  /** The year window runs from 1 January 00:00 to 31 December 23:59:59:
    * a record is inside exactly when its day lies in that year. */
  lemma {:induction false} YearWindow(selectedMonth: string, now: Dates.Instant, t: Transaction, y: int)
    requires Dates.ValidInstant(now)
    requires Numbers.ParseInt(Text.Split(selectedMonth, '-')[0]) == Some(y) && !(0 <= y <= 99)
    ensures InWindow(Window(Year, selectedMonth, now), t) <==>
      Dates.Parse(t.date).Some? && Dates.Parse(t.date).value.year == y
  {
    YearBounds(selectedMonth, now, y);
    InDayWindow(Dates.Day(y, 1, 1), Dates.Day(y, 12, 31), t);
  }

  /** `totalIncome > 0 ? (totalBalance / totalIncome) * 100 : 0` */
  function SavingsRate(income: int, balance: int): real
  {
    if income > 0 then (balance as real / income as real) * 100.0 else 0.0
  }

  /** The rate is 0 without income and never above 100 while expenses are
    * not negative; it is positive exactly when income exceeds expense. */
  lemma {:induction false} SavingsRateBounds(income: int, expense: int)
    ensures income <= 0 ==> SavingsRate(income, income - expense) == 0.0
    ensures income > 0 && expense >= 0 ==> SavingsRate(income, income - expense) <= 100.0
    ensures income > 0 ==> (SavingsRate(income, income - expense) > 0.0 <==> income > expense)
  {
    if income > 0 {
      var r := (income - expense) as real / income as real;
      assert r * income as real == (income - expense) as real;
      if expense >= 0 {
        assert r <= 1.0;
      }
    }
  }

  /** `total > 0 ? (amount / total) * 100 : 0` */
  function Percent(amount: int, total: int): real
  {
    if total > 0 then (amount as real / total as real) * 100.0 else 0.0
  }

  /** A category with its amount and its share of a total. */
  datatype CategoryShare = CategoryShare(category: string, amount: int, percentage: real)

  function Second(e: (string, int)): int { e.1 }

  function Shares(entries: seq<(string, int)>, total: int): (r: seq<CategoryShare>)
    ensures |r| == |entries|
    ensures forall i :: 0 <= i < |r| ==>
      r[i].category == entries[i].0 && r[i].amount == entries[i].1 && r[i].percentage == Percent(entries[i].1, total)
  {
    Map(entries, (e: (string, int)) => CategoryShare(e.0, e.1, Percent(e.1, total)))
  }

  /** The entries of `categoryMap`: each expense category once, in order of
    * first occurrence, with the sum of its amounts. */
  function ExpenseTotals(ts: seq<Transaction>): seq<(string, int)>
  {
    Totals(Filter(ts, IsExpense), Category, Amount)
  }

  function ByAmountDesc(): ((string, int), (string, int)) -> bool
  {
    Sorting.ByIntDesc(Second)
  }

  lemma {:induction false} ByAmountDescMeans(a: (string, int), b: (string, int))
    ensures ByAmountDesc()(a, b) == (a.1 > b.1)
  {
    assert Sorting.ByIntDesc(Second)(a, b) == (Second(a) > Second(b));
  }

  /** The category totals sorted by amount, greatest first. */
  function RankedCategories(ts: seq<Transaction>): (r: seq<(string, int)>)
    ensures multiset(r) == multiset(ExpenseTotals(ts))
    ensures Sorting.SortedBy(r, ByAmountDesc())
  {
    Sorting.ByIntDescOrder(Second);
    Sorting.SortBy(ExpenseTotals(ts), ByAmountDesc())
  }

  /** `.sort((a, b) => b.amount - a.amount).slice(0, 5)` */
  function TopCategories(ts: seq<Transaction>): seq<(string, int)>
  {
    Sorting.Take(RankedCategories(ts), 5)
  }

  /** Each expense category occurs once among the totals. */
  lemma {:induction false} ExpenseTotalsDistinct(ts: seq<Transaction>)
    ensures Sorting.KeysDistinct(ExpenseTotals(ts), FirstOf)
  {
    var expenses := Filter(ts, IsExpense);
    var totals := ExpenseTotals(ts);
    var g := GroupBy(expenses, Category);
    GroupByDistinct(expenses, Category);
    forall i, j | 0 <= i < j < |totals| ensures FirstOf(totals[i]) != FirstOf(totals[j]) {
      assert FirstOf(totals[i]) == g[i].key && FirstOf(totals[j]) == g[j].key;
    }
  }

  /** Every total is that of an expense category, the sum of its
    * expenses. */
  lemma {:induction false} ExpenseTotalsSums(ts: seq<Transaction>)
    ensures forall e :: e in ExpenseTotals(ts) ==>
      e.0 in Map(Filter(ts, IsExpense), Category) &&
      e.1 == Sum(Filter(Filter(ts, IsExpense), KeyIs(Category, e.0)), Amount)
  {
    var expenses := Filter(ts, IsExpense);
    var totals := ExpenseTotals(ts);
    TotalsSpec(expenses, Category, Amount);
    forall e | e in totals ensures e.0 in Map(expenses, Category) {
      var i :| 0 <= i < |totals| && totals[i] == e;
      assert Map(totals, FirstOf)[i] == e.0;
      assert e.0 in Dedup(Map(expenses, Category));
    }
  }

  /** At most five categories, each once, greatest amount first. */
  lemma {:induction false} TopCategoriesShape(ts: seq<Transaction>)
    ensures |TopCategories(ts)| <= 5
    ensures Sorting.SortedBy(TopCategories(ts), ByAmountDesc())
    ensures Sorting.KeysDistinct(TopCategories(ts), FirstOf)
  {
    ExpenseTotalsDistinct(ts);
    Sorting.ByIntDescOrder(Second);
    Sorting.SortByKeysDistinct(ExpenseTotals(ts), ByAmountDesc(), FirstOf);
  }

  /** Every top category is an expense category with the sum of its
    * expenses. */
  lemma {:induction false} TopCategoriesSums(ts: seq<Transaction>)
    ensures forall e :: e in TopCategories(ts) ==>
      e.0 in Map(Filter(ts, IsExpense), Category) &&
      e.1 == Sum(Filter(Filter(ts, IsExpense), KeyIs(Category, e.0)), Amount)
  {
    ExpenseTotalsSums(ts);
    var ranked := RankedCategories(ts);
    forall e | e in TopCategories(ts) ensures e in ExpenseTotals(ts) {
      assert e in multiset(ranked);
    }
  }

  /** A category left out has no greater amount than any category kept. */
  lemma {:induction false} TopCategoriesAreTop(ts: seq<Transaction>)
    ensures forall e, x :: e in ExpenseTotals(ts) && e !in TopCategories(ts) && x in TopCategories(ts) ==> e.1 <= x.1
  {
    var ranked := RankedCategories(ts);
    var top := TopCategories(ts);
    Sorting.TakeKeepsFirst(ranked, 5, ByAmountDesc());
    forall e, x | e in ExpenseTotals(ts) && e !in top && x in top ensures e.1 <= x.1 {
      assert e in multiset(ranked);
      ByAmountDescMeans(e, x);
    }
  }

  /** The stored date, newest first: `new Date(b.date) - new Date(a.date)`
    * ordered as the `YYYY-MM-DD` texts. */
  function ByDateDesc(): (Transaction, Transaction) -> bool
  {
    Sorting.ByTextDesc(Date)
  }

  lemma {:induction false} ByDateDescMeans(a: Transaction, b: Transaction)
    ensures ByDateDesc()(a, b) == Text.Lt(b.date, a.date)
  {
    assert Sorting.ByTextDesc(Date)(a, b) == Text.Lt(Date(b), Date(a));
  }

  /** `filteredTransactions.sort(...)`, which reorders the window in place
    * for everything computed after it. */
  function Newest(ts: seq<Transaction>): (r: seq<Transaction>)
    ensures multiset(r) == multiset(ts)
    ensures Sorting.SortedBy(r, ByDateDesc())
  {
    Sorting.ByTextDescOrder(Date);
    Sorting.SortBy(ts, ByDateDesc())
  }

  /** `.slice(0, 10).map(...)` of the sorted window. */
  function Recent(ts: seq<Transaction>): seq<RecentTransaction>
  {
    Map(Sorting.Take(Newest(ts), 10), ToRecent)
  }

  /** At most ten records, newest first. */
  lemma {:induction false} RecentShape(ts: seq<Transaction>)
    ensures |Recent(ts)| == if |ts| < 10 then |ts| else 10
    ensures forall i, j :: 0 <= i < j < |Recent(ts)| ==> !Text.Lt(Recent(ts)[i].date, Recent(ts)[j].date)
  {
    var kept := Sorting.Take(Newest(ts), 10);
    var r := Recent(ts);
    forall i, j | 0 <= i < j < |r| ensures !Text.Lt(r[i].date, r[j].date) {
      assert r[i].date == kept[i].date && r[j].date == kept[j].date;
      ByDateDescMeans(kept[j], kept[i]);
    }
  }

  /** Every recent entry is the projection of a record of the window. */
  lemma {:induction false} RecentFrom(ts: seq<Transaction>)
    ensures forall r :: r in Recent(ts) ==> exists t :: t in ts && r == ToRecent(t)
  {
    var sorted := Newest(ts);
    var kept := Sorting.Take(sorted, 10);
    var r := Recent(ts);
    forall x | x in r ensures exists t :: t in ts && x == ToRecent(t) {
      var i :| 0 <= i < |r| && r[i] == x;
      assert kept[i] in multiset(sorted);
    }
  }

  /** The recent list projects records drawn from the window, newest
    * first, each no more often than the window holds it. */
  lemma {:induction false} RecentDrawn(ts: seq<Transaction>)
    ensures exists kept ::
      multiset(kept) <= multiset(ts) && Sorting.SortedBy(kept, ByDateDesc()) && Recent(ts) == Map(kept, ToRecent)
  {
    var sorted := Newest(ts);
    var kept := Sorting.Take(sorted, 10);
    Sorting.PrefixMultiset(sorted, kept);
    Sorting.PrefixSorted(sorted, kept, ByDateDesc());
  }

  /** No record left out is newer than a record kept. */
  lemma {:induction false} RecentNewest(ts: seq<Transaction>)
    ensures forall t, r :: t in ts && ToRecent(t) !in Recent(ts) && r in Recent(ts) ==> !Text.Lt(r.date, t.date)
  {
    var sorted := Newest(ts);
    var kept := Sorting.Take(sorted, 10);
    var r := Recent(ts);
    Sorting.TakeKeepsFirst(sorted, 10, ByDateDesc());
    forall t, x | t in ts && ToRecent(t) !in r && x in r ensures !Text.Lt(x.date, t.date) {
      assert t in multiset(sorted);
      var i :| 0 <= i < |r| && r[i] == x;
      assert kept[i] in kept && x.date == kept[i].date;
      assert t !in kept;
      ByDateDescMeans(t, kept[i]);
    }
  }

  /** `t.date.slice(0, 7)`: the `YYYY-MM` of a stored date. */
  function MonthKey(t: Transaction): string
  {
    Sorting.Take(t.date, 7)
  }

  /** The trend counts every record that is not income as expense. */
  function IncomeAmount(t: Transaction): int { if IsIncome(t) then t.amount else 0 }

  function ExpenseAmount(t: Transaction): int { if IsIncome(t) then 0 else t.amount }

  function TrendOf(b: Bucket<string, Transaction>): MonthlyTrend
  {
    var income := Sum(b.items, IncomeAmount);
    var expense := Sum(b.items, ExpenseAmount);
    MonthlyTrend(b.key, income, expense, income - expense)
  }

  function MonthOf(m: MonthlyTrend): string { m.month }

  function ByMonth(): (MonthlyTrend, MonthlyTrend) -> bool
  {
    Sorting.ByTextAsc(MonthOf)
  }

  /** `calculateMonthlyTrend`: one entry per month, sorted by month. */
  function Trend(ts: seq<Transaction>): (r: seq<MonthlyTrend>)
    ensures multiset(r) == multiset(Map(GroupBy(ts, MonthKey), TrendOf))
    ensures Sorting.SortedBy(r, ByMonth())
  {
    Sorting.ByTextAscOrder(MonthOf);
    Sorting.SortBy(Map(GroupBy(ts, MonthKey), TrendOf), ByMonth())
  }

  lemma {:induction false} TrendUnsortedDistinct(ts: seq<Transaction>)
    ensures Sorting.KeysDistinct(Map(GroupBy(ts, MonthKey), TrendOf), MonthOf)
  {
    var g := GroupBy(ts, MonthKey);
    var u := Map(g, TrendOf);
    GroupByDistinct(ts, MonthKey);
    forall i, j | 0 <= i < j < |u| ensures MonthOf(u[i]) != MonthOf(u[j]) {
      assert u[i].month == g[i].key && u[j].month == g[j].key;
    }
  }

  /** The months of the trend are unique and strictly ascending. */
  lemma {:induction false} TrendAscending(ts: seq<Transaction>)
    ensures forall i, j :: 0 <= i < j < |Trend(ts)| ==> Text.Lt(Trend(ts)[i].month, Trend(ts)[j].month)
  {
    var r := Trend(ts);
    TrendUnsortedDistinct(ts);
    Sorting.ByTextAscOrder(MonthOf);
    Sorting.SortByKeysDistinct(Map(GroupBy(ts, MonthKey), TrendOf), ByMonth(), MonthOf);
    forall i, j | 0 <= i < j < |r| ensures Text.Lt(r[i].month, r[j].month) {
      Text.LtTotal(r[i].month, r[j].month);
    }
  }

  /** Each month carries the sum of its income, the sum of its other records
    * and their difference. */
  lemma {:induction false} TrendSums(ts: seq<Transaction>)
    ensures forall m :: m in Trend(ts) ==>
      m.balance == m.income - m.expense &&
      m.income == Sum(Filter(ts, KeyIs(MonthKey, m.month)), IncomeAmount) &&
      m.expense == Sum(Filter(ts, KeyIs(MonthKey, m.month)), ExpenseAmount)
  {
    var g := GroupBy(ts, MonthKey);
    var u := Map(g, TrendOf);
    GroupByItems(ts, MonthKey);
    forall m | m in Trend(ts)
      ensures m.balance == m.income - m.expense
      ensures m.income == Sum(Filter(ts, KeyIs(MonthKey, m.month)), IncomeAmount)
      ensures m.expense == Sum(Filter(ts, KeyIs(MonthKey, m.month)), ExpenseAmount)
    {
      assert m in multiset(u);
      var i :| 0 <= i < |u| && u[i] == m;
      assert g[i].items == Filter(ts, KeyIs(MonthKey, g[i].key));
    }
  }

  /** The month of every record is in the trend. */
  lemma {:induction false} TrendCovers(ts: seq<Transaction>)
    ensures forall t :: t in ts ==> exists m :: m in Trend(ts) && m.month == MonthKey(t)
  {
    var g := GroupBy(ts, MonthKey);
    var u := Map(g, TrendOf);
    GroupByCovers(ts, MonthKey);
    forall t | t in ts ensures exists m :: m in Trend(ts) && m.month == MonthKey(t) {
      var i := FindKey(g, MonthKey(t)).value;
      assert u[i].month == MonthKey(t);
      assert u[i] in multiset(Trend(ts));
    }
  }

  /** `trendMap.get(month) || { income: 0, expense: 0 }` updated by one
    * record. */
  function StartTrend(t: Transaction): (int, int) { (IncomeAmount(t), ExpenseAmount(t)) }

  function StepTrend(a: (int, int), t: Transaction): (int, int) { (a.0 + IncomeAmount(t), a.1 + ExpenseAmount(t)) }

  lemma {:induction false} FoldTrend(items: seq<Transaction>)
    requires |items| > 0
    ensures FoldEntry(items, StartTrend, StepTrend) == (Sum(items, IncomeAmount), Sum(items, ExpenseAmount))
    decreases |items|
  {
    if |items| > 1 {
      FoldTrend(items[..|items| - 1]);
    } else {
      assert items[..0] == [];
    }
  }

  /** One entry of `Array.from(trendMap.entries()).map(...)`. */
  function EntryOf(month: string, a: (int, int)): MonthlyTrend
  {
    MonthlyTrend(month, a.0, a.1, a.0 - a.1)
  }

  lemma {:induction false} TrendEntry(g: seq<Bucket<string, Transaction>>, i: nat, months: seq<string>, acc: map<string, (int, int)>)
    requires i < |g| == |months| && months[i] == g[i].key
    requires FoldedAll(g, acc, StartTrend, StepTrend)
    ensures months[i] in acc && EntryOf(months[i], acc[months[i]]) == TrendOf(g[i])
  {
    FoldTrend(g[i].items);
  }

  /** The `trendMap` loop read back as its entries. */
  method TrendEntries(ts: seq<Transaction>) returns (entries: seq<MonthlyTrend>)
    ensures entries == Map(GroupBy(ts, MonthKey), TrendOf)
  {
    var months, acc := Accumulate(ts, MonthKey, StartTrend, StepTrend);
    ghost var g := GroupBy(ts, MonthKey);
    ghost var all := Map(g, TrendOf);
    entries := [];
    var i := 0;
    while i < |months|
      invariant 0 <= i <= |months| == |g| == |all|
      invariant entries == all[..i]
    {
      TrendEntry(g, i, months, acc);
      var next := EntryOf(months[i], acc[months[i]]);
      assert next == all[i];
      PrefixSnoc(all, i);
      entries := entries + [next];
      i := i + 1;
    }
    assert entries == all;
  }

  /** `calculateMonthlyTrend`: the entries sorted by month. */
  method CalculateMonthlyTrend(ts: seq<Transaction>) returns (r: seq<MonthlyTrend>)
    ensures r == Trend(ts)
  {
    var entries := TrendEntries(ts);
    Sorting.ByTextAscOrder(MonthOf);
    r := Sorting.SortBy(entries, ByMonth());
  }

  /** `calculateExpenseDistribution`: the expense categories with their
    * share of the sum of all category totals. */
  function Distribution(ts: seq<Transaction>): seq<CategoryShare>
  {
    var totals := ExpenseTotals(ts);
    Shares(totals, Sum(totals, Second))
  }

  /** Each expense category occurs once in the distribution. */
  lemma {:induction false} DistributionDistinct(ts: seq<Transaction>)
    ensures forall i, j :: 0 <= i < j < |Distribution(ts)| ==> Distribution(ts)[i].category != Distribution(ts)[j].category
  {
    var totals := ExpenseTotals(ts);
    var d := Distribution(ts);
    ExpenseTotalsDistinct(ts);
    forall i, j | 0 <= i < j < |d| ensures d[i].category != d[j].category {
      assert d[i].category == FirstOf(totals[i]) && d[j].category == FirstOf(totals[j]);
    }
  }

  /** Each category carries the sum of its expenses. */
  lemma {:induction false} DistributionSums(ts: seq<Transaction>)
    ensures forall c :: c in Distribution(ts) ==>
      c.amount == Sum(Filter(Filter(ts, IsExpense), KeyIs(Category, c.category)), Amount)
  {
    var totals := ExpenseTotals(ts);
    var d := Distribution(ts);
    ExpenseTotalsSums(ts);
    forall c | c in d ensures c.amount == Sum(Filter(Filter(ts, IsExpense), KeyIs(Category, c.category)), Amount) {
      var i :| 0 <= i < |d| && d[i] == c;
      assert totals[i] in totals;
    }
  }

  /** With no positive total every percentage is 0. */
  lemma {:induction false} DistributionZero(ts: seq<Transaction>)
    ensures Sum(ExpenseTotals(ts), Second) <= 0 ==> forall c :: c in Distribution(ts) ==> c.percentage == 0.0
  {
    var d := Distribution(ts);
    forall c | c in d ensures Sum(ExpenseTotals(ts), Second) <= 0 ==> c.percentage == 0.0 {
      var i :| 0 <= i < |d| && d[i] == c;
    }
  }

  /** The record `getDashboardData$` emits. Its category lists carry a
    * percentage where the declared interface has a type or a colour. */
  datatype LiveDashboard = LiveDashboard(
    totalBalance: int,
    monthlyIncome: int,
    monthlyExpense: int,
    savingsRate: real,
    topCategories: seq<CategoryShare>,
    recentTransactions: seq<RecentTransaction>,
    monthlyTrend: seq<MonthlyTrend>,
    expenseDistribution: seq<CategoryShare>,
    investmentEvolution: seq<InvestmentEvolutionData>,
    categoryBreakdown: seq<CategoryShare>,
    cashFlow: CashFlowData)

  /** `new Date().toISOString().slice(0, 7)` */
  function CurrentMonth(now: Dates.Instant): string
    requires Dates.ValidInstant(now)
  {
    Sorting.Take(Dates.Format(now.date), 7)
  }

  /** The body of the `map` step for one emission `transactions`, with the
    * defaults `'month'` and the current month. */
  method Aggregate(transactions: seq<Transaction>, period: Option<Period>, selectedMonth: Option<string>, now: Dates.Instant)
    returns (d: LiveDashboard)
    requires Dates.ValidInstant(now)
    ensures var w := FilterByPeriod(transactions, if period.Some? then period.value else Month,
                                    if selectedMonth.Some? then selectedMonth.value else CurrentMonth(now), now);
      d.monthlyIncome == Sum(Filter(w, IsIncome), Amount) &&
      d.monthlyExpense == Sum(Filter(w, IsExpense), Amount) &&
      d.totalBalance == d.monthlyIncome - d.monthlyExpense &&
      d.savingsRate == SavingsRate(d.monthlyIncome, d.totalBalance) &&
      d.topCategories == Shares(TopCategories(w), d.monthlyExpense) &&
      d.categoryBreakdown == d.topCategories &&
      d.recentTransactions == Recent(w) &&
      d.monthlyTrend == Trend(Newest(w)) &&
      d.expenseDistribution == Distribution(Newest(w)) &&
      d.investmentEvolution == [] &&
      d.cashFlow == CashFlowData(d.monthlyIncome, d.monthlyExpense)
  {
    var p := if period.Some? then period.value else Month;
    var month := if selectedMonth.Some? then selectedMonth.value else CurrentMonth(now);
    var filtered := FilterByPeriod(transactions, p, month, now);
    var totalIncome := Sum(Filter(filtered, IsIncome), Amount);
    var totalExpense := Sum(Filter(filtered, IsExpense), Amount);
    var totalBalance := totalIncome - totalExpense;
    var categoryMap := SumByKey(Filter(filtered, IsExpense), Category, Amount);
    Sorting.ByIntDescOrder(Second);
    var topCategories := Sorting.Take(Sorting.SortBy(categoryMap, ByAmountDesc()), 5);
    filtered := Newest(filtered);
    var recent := Map(Sorting.Take(filtered, 10), ToRecent);
    var trend := CalculateMonthlyTrend(filtered);
    var byCategory := SumByKey(Filter(filtered, IsExpense), Category, Amount);
    var shares := Shares(topCategories, totalExpense);
    d := LiveDashboard(
      totalBalance, totalIncome, totalExpense, SavingsRate(totalIncome, totalBalance),
      shares, recent, trend, Shares(byCategory, Sum(byCategory, Second)), [], shares,
      CashFlowData(totalIncome, totalExpense));
  }

  /** The `distinctUntilChanged` comparator: the same balance, income and
    * expense. */
  function SameTotals(prev: LiveDashboard, curr: LiveDashboard): bool
  {
    prev.totalBalance == curr.totalBalance && prev.monthlyIncome == curr.monthlyIncome &&
    prev.monthlyExpense == curr.monthlyExpense
  }

  /** The emitted dashboards: consecutive ones differ in balance, income or
    * expense, and each was computed. */
  function DistinctDashboards(emissions: seq<LiveDashboard>): (r: seq<LiveDashboard>)
    ensures forall i :: 0 <= i < |r| - 1 ==>
      (r[i].totalBalance, r[i].monthlyIncome, r[i].monthlyExpense) != (r[i + 1].totalBalance, r[i + 1].monthlyIncome, r[i + 1].monthlyExpense)
    ensures forall x :: x in r ==> x in emissions
    ensures |emissions| > 0 ==> |r| > 0 && r[0] == emissions[0]
  {
    Streams.DistinctUntilChanged(emissions, SameTotals)
  }

  /** A new dashboard is emitted exactly when it is the first or its
    * balance, income or expense differs from the last dashboard emitted. */
  lemma {:induction false} DistinctDashboardsStep(emissions: seq<LiveDashboard>, x: LiveDashboard)
    ensures var r := DistinctDashboards(emissions);
      DistinctDashboards(emissions + [x]) ==
        if r != [] && (r[|r| - 1].totalBalance, r[|r| - 1].monthlyIncome, r[|r| - 1].monthlyExpense) ==
                      (x.totalBalance, x.monthlyIncome, x.monthlyExpense)
        then r else r + [x]
  {
    Streams.DistinctStep(emissions, SameTotals, x);
  }
}
