/** The Firestore dashboard service (src/services/firebaseDashboardService/index.ts):
  * the date ranges it asks the transaction service for, the year's category
  * totals, the line and investment charts grouped by period label, the
  * helpers that shape chart data, and the metrics. The clock's date and the
  * locale's month abbreviation of a stored date are inputs. */
module FirebaseDashboardService {
  import opened Wrappers
  import opened Entities
  import opened Grouping
  import Sorting
  import Text
  import Dates
  import Numbers
  import DashboardObservable
  import F = FirebaseTransactionService

  /** `getPeriodLabels` */
  function PeriodLabels(p: Period): (r: seq<string>)
    ensures |r| == match p case Week => 7 case Month => 4 case Year => 12
    ensures forall i, j :: 0 <= i < j < |r| ==> r[i] != r[j]
  {
    match p
    case Week => ["Seg", "Ter", "Qua", "Qui", "Sex", "Sáb", "Dom"]
    case Month => ["Sem 1", "Sem 2", "Sem 3", "Sem 4"]
    case Year => ["Jan", "Fev", "Mar", "Abr", "Mai", "Jun", "Jul", "Ago", "Set", "Out", "Nov", "Dez"]
  }

  /** The `{ startDate, endDate }` pair, as `toISOString().split('T')[0]`
    * writes each bound. */
  datatype DateRange = DateRange(startDate: string, endDate: string)

  function Span(a: Dates.Day, b: Dates.Day): DateRange
    requires Dates.Valid(a) && Dates.Valid(b)
  {
    DateRange(Dates.Format(a), Dates.Format(b))
  }

  /** `getDateRange` on the clock's date `today`. */
  function GetDateRange(period: Period, today: Dates.Day): DateRange
    requires Dates.Valid(today)
  {
    var y := Dates.ConstructorYear(today.year);
    match period
    case Week => Span(Dates.MinusDays(today, 7), today)
    case Month => Span(Dates.MakeDay(y, today.month - 1, 1), Dates.MakeDay(y, today.month, 0))
    case Year => Span(Dates.MakeDay(y, 0, 1), Dates.MakeDay(y, 11, 31))
  }

  /** The week ends today and starts seven days earlier; the month and the
    * year run from their first to their last calendar day. */
  lemma {:induction false} DateRangeSpec(period: Period, today: Dates.Day)
    requires Dates.Valid(today) && !(0 <= today.year <= 99)
    ensures period == Week ==>
      exists d :: Dates.Valid(d) && Dates.Before(d, today) && GetDateRange(period, today) == Span(d, today)
    ensures period == Month ==>
      GetDateRange(period, today) == Span(Dates.Day(today.year, today.month, 1),
                                          Dates.Day(today.year, today.month, Dates.DaysInMonth(today.year, today.month)))
    ensures period == Year ==>
      GetDateRange(period, today) == Span(Dates.Day(today.year, 1, 1), Dates.Day(today.year, 12, 31))
  {
    var y := today.year;
    if period == Week {
      var d := Dates.MinusDays(today, 7);
      assert Dates.Valid(d) && Dates.Before(d, today) && GetDateRange(period, today) == Span(d, today);
    }
    Dates.MakeDayInRange(y, today.month, 1);
    Dates.MakeDayLast(y, today.month);
    Dates.MakeDayInRange(y, 1, 1);
    Dates.DecemberDays(y);
    Dates.MakeDayInRange(y, 12, 31);
  }

  const INVALID_TIME: string := "Invalid time value"

  /** `getDateRangeForMonth`: `'YYYY-MM'.split('-').map(Number)`, then the
    * first day of that month and day 0 of the next one. A part that is not
    * a number makes `toISOString` throw. */
  function GetDateRangeForMonth(monthString: string): (r: Result<DateRange>)
    ensures var (y, m) := DashboardObservable.YearMonth(monthString);
      r.Err? <==> y.None? || m.None?
  {
    var (y, m) := DashboardObservable.YearMonth(monthString);
    if y.None? || m.None? then Err(INVALID_TIME) else Ok(MonthSpan(y.value, m.value))
  }

  /** `new Date(year, month - 1, 1)` to `new Date(year, month, 0)`. */
  function MonthSpan(y: int, m: int): DateRange
  {
    var year := Dates.ConstructorYear(y);
    Span(Dates.MakeDay(year, m - 1, 1), Dates.MakeDay(year, m, 0))
  }

  /** A month from 1 to 12 yields its first and last calendar day. */
  lemma {:induction false} MonthRangeSpec(monthString: string, y: int, m: int)
    requires DashboardObservable.YearMonth(monthString) == (Some(y), Some(m))
    requires 1 <= m <= 12 && !(0 <= y <= 99)
    ensures GetDateRangeForMonth(monthString) == Ok(Span(Dates.Day(y, m, 1), Dates.Day(y, m, Dates.DaysInMonth(y, m))))
  {
    assert GetDateRangeForMonth(monthString) == Ok(MonthSpan(y, m));
    Dates.MakeDayInRange(y, m, 1);
    Dates.MakeDayLast(y, m);
  }

  /** Month 13 rolls over into January of the next year, as the `Date`
    * constructor normalises it. */
  lemma {:induction false} MonthRangeOverflow(monthString: string, y: int)
    requires DashboardObservable.YearMonth(monthString) == (Some(y), Some(13))
    requires !(0 <= y <= 99)
    ensures GetDateRangeForMonth(monthString) == Ok(Span(Dates.Day(y + 1, 1, 1), Dates.Day(y + 1, 1, 31)))
  {
    assert GetDateRangeForMonth(monthString) == Ok(MonthSpan(y, 13));
    MonthSpanOverflow(y);
  }

  lemma {:induction false} MonthSpanOverflow(y: int)
    requires !(0 <= y <= 99)
    ensures MonthSpan(y, 13) == Span(Dates.Day(y + 1, 1, 1), Dates.Day(y + 1, 1, 31))
  {
    assert Dates.NormalMonth(y, 12) == (y + 1, 1);
    assert Dates.DaysInMonth(y + 1, 1) == 31;
  }

  /** The range `getDashboardData` and `getChartData` ask for: the selected
    * month when one is given with the month period, else `getDateRange`. */
  function DashboardRange(period: Period, selectedMonth: Option<string>, today: Dates.Day): (r: Result<DateRange>)
    requires Dates.Valid(today)
    ensures period != Month || !Truthy(selectedMonth) ==> r == Ok(GetDateRange(period, today))
    ensures period == Month && Truthy(selectedMonth) ==> r == GetDateRangeForMonth(selectedMonth.value)
  {
    if Truthy(selectedMonth) && period == Month then GetDateRangeForMonth(selectedMonth.value)
    else Ok(GetDateRange(period, today))
  }

  /** `getMetrics`. */
  datatype Metrics = Metrics(
    totalTransactions: nat,
    averageTransaction: real,
    largestIncome: int,
    largestExpense: int,
    savingsRate: real,
    totalBalance: int)

  /** `count > 0 ? total / count : 0` */
  function Average(total: int, count: nat): (r: real)
    ensures count == 0 ==> r == 0.0
    ensures count > 0 ==> r * count as real == total as real
  {
    if count > 0 then total as real / count as real else 0.0
  }

  /** `transactionCount > 0 ? (totalIncome + totalExpense) / transactionCount : 0` */
  function AverageTransaction(s: F.TransactionStats): real
  {
    Average(s.totalIncome + s.totalExpense, s.transactionCount)
  }

  /** `getMetrics` over the user's documents: the statistics of the
    * `getDateRange` window, averaged over every document. */
  method GetMetrics(docs: seq<F.O.RawDoc>, period: Period, today: Dates.Day) returns (r: Metrics)
    requires Dates.Valid(today)
    ensures var range := GetDateRange(period, today);
      var income := Sum(docs, F.IncomeIn(Some(range.startDate), Some(range.endDate)));
      var expense := Sum(docs, F.ExpenseIn(Some(range.startDate), Some(range.endDate)));
      r.totalTransactions == |docs| && r.totalBalance == income - expense &&
      r.averageTransaction == Average(income + expense, |docs|) &&
      r.savingsRate == DashboardObservable.SavingsRate(income, income - expense) &&
      r.largestIncome == 0 && r.largestExpense == 0
  {
    var range := GetDateRange(period, today);
    var stats := F.GetTransactionStats(docs, Some(range.startDate), Some(range.endDate));
    r := Metrics(stats.transactionCount, AverageTransaction(stats), 0, 0, stats.savingsRate, stats.totalBalance);
  }

  const DISTRIBUTION_COLORS: seq<string> :=
    ["#F44336", "#E57373", "#EF5350", "#E53935", "#D32F2F", "#C62828", "#B71C1C", "#FF5722", "#FF7043"]

  const PIE_COLORS: seq<string> := ["#FF6B6B", "#4ECDC4", "#45B7D1", "#96CEB4", "#FFEAA7", "#DDA0DD", "#98D8C8"]

  function Abs(x: int): nat { if x < 0 then -x else x }

  predicate IsNegative(c: F.TopCategory) { c.amount < 0 }

  function DistributionEntry(i: nat, c: F.TopCategory): ExpenseDistributionData
  {
    ExpenseDistributionData(c.category, Abs(c.amount), DISTRIBUTION_COLORS[i % |DISTRIBUTION_COLORS|])
  }

  /** `generateExpenseDistributionData`: the negative entries, in order, with
    * their absolute amount and the palette cycled by position. */
  function ExpenseDistribution(top: seq<F.TopCategory>): (r: seq<ExpenseDistributionData>)
    ensures var negative := Filter(top, IsNegative);
      |r| == |negative| &&
      forall i :: 0 <= i < |r| ==>
        r[i].category == negative[i].category && r[i].amount > 0 && r[i].amount == -negative[i].amount &&
        r[i].color == DISTRIBUTION_COLORS[i % 9]
  {
    var negative := Filter(top, IsNegative);
    assert forall i :: 0 <= i < |negative| ==> negative[i].amount < 0 by {
      forall i | 0 <= i < |negative| ensures negative[i].amount < 0 { assert negative[i] in negative; }
    }
    MapIndexed(negative, DistributionEntry)
  }

  function BreakdownEntry(i: nat, c: F.TopCategory): CategoryBreakdownData
  {
    CategoryBreakdownData(c.category, Abs(c.amount), DISTRIBUTION_COLORS[i % |DISTRIBUTION_COLORS|])
  }

  /** `generateCategoryBreakdownData`: every entry, in order, with its
    * absolute amount. */
  function CategoryBreakdown(top: seq<F.TopCategory>): (r: seq<CategoryBreakdownData>)
    ensures |r| == |top|
    ensures forall i :: 0 <= i < |r| ==>
      r[i].category == top[i].category && r[i].amount >= 0 &&
      (r[i].amount == top[i].amount || r[i].amount == -top[i].amount) &&
      r[i].color == DISTRIBUTION_COLORS[i % 9]
  {
    MapIndexed(top, BreakdownEntry)
  }

  /** `generateCashFlowData` */
  function CashFlow(s: F.TransactionStats): (r: CashFlowData)
    ensures r.income == s.totalIncome && r.expense == s.totalExpense
  {
    CashFlowData(s.totalIncome, s.totalExpense)
  }

  function PieEntry(i: nat, e: (string, int)): ChartPoint
  {
    PieSlice(e.1, PIE_COLORS[i % |PIE_COLORS|], e.0)
  }

  /** `entries` lists the entries of `m`, each key once (the order is
    * the model's first-seen order; see README). */
  ghost predicate ListsEntries(entries: seq<(string, int)>, m: map<string, int>)
  {
    (forall i, j :: 0 <= i < j < |entries| ==> entries[i].0 != entries[j].0) &&
    (forall i :: 0 <= i < |entries| ==> entries[i].0 in m && m[entries[i].0] == entries[i].1) &&
    (forall k :: k in m ==> exists i :: 0 <= i < |entries| && entries[i].0 == k)
  }

  /** `generatePieChartData` over the entries of `categoryStats`. */
  function PieChart(entries: seq<(string, int)>): (r: seq<ChartPoint>)
    ensures |r| == |entries|
    ensures forall i :: 0 <= i < |r| ==>
      r[i].PieSlice? && r[i].text == entries[i].0 && r[i].value == entries[i].1 && r[i].color == PIE_COLORS[i % 7]
  {
    MapIndexed(entries, PieEntry)
  }

  /** The pie has one slice per category of the statistics, carrying that
    * category's total. */
  lemma {:induction false} PieCoversStats(entries: seq<(string, int)>, m: map<string, int>)
    requires ListsEntries(entries, m)
    ensures forall c :: c in m <==> exists i :: 0 <= i < |PieChart(entries)| && PieChart(entries)[i].text == c
    ensures forall i :: 0 <= i < |PieChart(entries)| ==> PieChart(entries)[i].value == m[PieChart(entries)[i].text]
  {
    var pie := PieChart(entries);
    forall c | c in m ensures exists i :: 0 <= i < |pie| && pie[i].text == c {
      var i :| 0 <= i < |entries| && entries[i].0 == c;
      assert pie[i].text == c;
    }
  }

  const FIXED_INCOME: seq<string> :=
    ["Salário", "Renda Fixa", "Poupança", "CDB", "Tesouro Direto", "LCI", "LCA", "Debêntures", "Fundos de Renda Fixa"]

  /** `names.some(name => text.includes(name.toLowerCase()))` */
  predicate MentionsAny(text: string, names: seq<string>)
    decreases |names|
  {
    names != [] && (Text.Contains(text, Text.ToLower(names[0])) || MentionsAny(text, names[1..]))
  }

  /** A text mentions some name of a list exactly when it contains one of
    * them, lower-cased. */
  lemma {:induction false} MentionsAnyIff(text: string, names: seq<string>)
    ensures MentionsAny(text, names) <==> exists i :: 0 <= i < |names| && Text.Contains(text, Text.ToLower(names[i]))
    decreases |names|
  {
    if names != [] {
      MentionsAnyIff(text, names[1..]);
      assert forall i :: 1 <= i < |names| ==> names[i] == names[1..][i - 1];
    }
  }

  /** `isFixedIncome`: the lower-cased category contains one of the names,
    * lower-cased. */
  predicate IsFixedIncome(category: string)
  {
    MentionsAny(Text.ToLower(category), FIXED_INCOME)
  }

  /** The test ignores case, and any category that has one of the names
    * inside it, in any case, is fixed income. */
  lemma {:induction false} FixedIncomeSpec(pre: string, k: nat, post: string, category: string)
    requires k < |FIXED_INCOME|
    ensures IsFixedIncome(pre + FIXED_INCOME[k] + post)
    ensures IsFixedIncome(Text.ToLower(category)) == IsFixedIncome(category)
  {
    var name := FIXED_INCOME[k];
    Text.ToLowerAppend(pre + name, post);
    Text.ToLowerAppend(pre, name);
    Text.ContainsInfix(Text.ToLower(pre), Text.ToLower(name), Text.ToLower(post));
    MentionsAnyIff(Text.ToLower(pre + name + post), FIXED_INCOME);
    Text.ToLowerIdempotent(category);
  }

  /** The `monthOrder` of both comparators. */
  const MONTH_ORDER: seq<string> := ["jan", "fev", "mar", "abr", "mai", "jun", "jul", "ago", "set", "out", "nov", "dez"]

  /** `s.indexOf(x)` */
  function IndexIn(s: seq<string>, x: string): (r: int)
    ensures -1 <= r < |s|
    ensures r >= 0 ==> s[r] == x && forall k :: 0 <= k < r ==> s[k] != x
    ensures r == -1 ==> x !in s
  {
    if s == [] then -1
    else if s[0] == x then 0
    else
      var k := IndexIn(s[1..], x);
      if k == -1 then -1 else k + 1
  }

  /** `s.replace(c, '')` with a one-character pattern: the first occurrence
    * goes. */
  function RemoveFirst(s: string, c: char): (r: string)
    ensures c !in s ==> r == s
  {
    if s == [] then []
    else if s[0] == c then s[1..]
    else [s[0]] + RemoveFirst(s[1..], c)
  }

  lemma {:induction false} RemoveFirstLast(s: string, c: char)
    requires c !in s
    ensures RemoveFirst(s + [c], c) == s
  {
    if s != [] {
      assert (s + [c])[1..] == s[1..] + [c];
      RemoveFirstLast(s[1..], c);
    }
  }

  /** The position the line-chart comparator finds for a label:
    * `monthOrder.indexOf(label.toLowerCase())`. */
  function LabelIndex(tag: string): int
  {
    IndexIn(MONTH_ORDER, Text.ToLower(tag))
  }

  /** The investment comparator's, which first drops a `.`:
    * `monthOrder.indexOf(label.toLowerCase().replace('.', ''))`. */
  function StrippedIndex(tag: string): int
  {
    IndexIn(MONTH_ORDER, RemoveFirst(Text.ToLower(tag), '.'))
  }

  /** The comparators: known months by their position, known before
    * unknown, unknown labels by `localeCompare`, modelled as code-unit
    * order. */
  function ByMonthOrder<T>(index: string -> int, labelOf: T -> string): (T, T) -> bool
  {
    (a: T, b: T) =>
      var ia := index(labelOf(a));
      var ib := index(labelOf(b));
      if ia != -1 && ib != -1 then ia < ib
      else if ia != -1 then true
      else if ib != -1 then false
      else Text.Lt(labelOf(a), labelOf(b))
  }

  lemma {:induction false} ByMonthOrderIsOrder<T(!new)>(index: string -> int, labelOf: T -> string)
    ensures Sorting.StrictWeakOrder(ByMonthOrder(index, labelOf))
  {
    var less := ByMonthOrder(index, labelOf);
    forall a ensures !less(a, a) { Text.LtIrreflexive(labelOf(a)); }
    forall a, b, c | less(a, b) && less(b, c) ensures less(a, c) {
      if index(labelOf(a)) == -1 && index(labelOf(b)) == -1 && index(labelOf(c)) == -1 {
        Text.LtTransitive(labelOf(a), labelOf(b), labelOf(c));
      }
    }
    forall a, b, c | less(a, c) ensures less(a, b) || less(b, c) {
      if index(labelOf(a)) == -1 && index(labelOf(b)) == -1 && index(labelOf(c)) == -1 {
        Sorting.TextIncomparable(labelOf(a), labelOf(b), labelOf(c));
      }
    }
  }

  /** In a list sorted by either comparator the known months come first, in
    * calendar order, and the unknown labels follow in ascending order. */
  lemma {:induction false} MonthOrderShape<T>(s: seq<T>, index: string -> int, labelOf: T -> string)
    requires Sorting.SortedBy(s, ByMonthOrder(index, labelOf))
    ensures forall i, j :: 0 <= i < j < |s| && index(labelOf(s[j])) != -1 ==>
      index(labelOf(s[i])) != -1 && index(labelOf(s[i])) <= index(labelOf(s[j]))
    ensures forall i, j :: 0 <= i < j < |s| && index(labelOf(s[i])) == -1 ==>
      index(labelOf(s[j])) == -1 && !Text.Lt(labelOf(s[j]), labelOf(s[i]))
  {
    forall i, j | 0 <= i < j < |s| ensures !ByMonthOrder(index, labelOf)(s[j], s[i]) {}
  }

  lemma {:induction false} KnownByPosition<T>(index: string -> int, labelOf: T -> string, a: T, b: T)
    requires 0 <= index(labelOf(a)) < index(labelOf(b))
    ensures ByMonthOrder(index, labelOf)(a, b)
  {
  }

  lemma {:induction false} UnknownByText<T>(index: string -> int, labelOf: T -> string, a: T, b: T)
    requires index(labelOf(a)) == -1 && index(labelOf(b)) == -1 && Text.Lt(labelOf(a), labelOf(b))
    ensures ByMonthOrder(index, labelOf)(a, b)
  {
  }

  lemma {:induction false} MonthsLowerCase(k: nat)
    requires k < 12
    ensures Text.ToLower(MONTH_ORDER[k] + ".") == MONTH_ORDER[k] + "."
    ensures '.' !in MONTH_ORDER[k]
  {
    var m := MONTH_ORDER[k];
    assert |m| == 3;
    assert Text.Lower(m[0]) == m[0] && Text.Lower(m[1]) == m[1] && Text.Lower(m[2]) == m[2];
  }

  lemma {:induction false} MonthsDistinct()
    ensures forall i, j :: 0 <= i < j < 12 ==> MONTH_ORDER[i] != MONTH_ORDER[j]
  {
  }

  lemma {:induction false} MonthPosition(k: nat)
    requires k < 12
    ensures IndexIn(MONTH_ORDER, MONTH_ORDER[k]) == k
  {
    MonthsDistinct();
    assert MONTH_ORDER[k] in MONTH_ORDER;
  }

  lemma {:induction false} DottedUnknown(k: nat)
    requires k < 12
    ensures LabelIndex(MONTH_ORDER[k] + ".") == -1
  {
    MonthsLowerCase(k);
    var dotted := MONTH_ORDER[k] + ".";
    assert dotted[|dotted| - 1] == '.';
    forall j | 0 <= j < 12 ensures MONTH_ORDER[j] != dotted {
      MonthsLowerCase(j);
    }
  }

  lemma {:induction false} DottedKnown(k: nat)
    requires k < 12
    ensures StrippedIndex(MONTH_ORDER[k] + ".") == k
  {
    MonthsLowerCase(k);
    RemoveFirstLast(MONTH_ORDER[k], '.');
    MonthPosition(k);
  }

  /** As written, the line-chart comparator knows no abbreviation that ends
    * in a dot, the form `toLocaleDateString('pt-BR', { month: 'short' })`
    * gives: such labels all fall back to alphabetical order, which puts
    * `fev.` before `jan.`. */
  lemma {:induction false} DottedMonthsUnknown(k: nat)
    requires k < 12
    ensures LabelIndex(MONTH_ORDER[k] + ".") == -1
    ensures ByMonthOrder(LabelIndex, Sorting.Self)("fev.", "jan.")
  {
    DottedUnknown(k);
    DottedUnknown(0);
    DottedUnknown(1);
    assert MONTH_ORDER[0] + "." == "jan." && MONTH_ORDER[1] + "." == "fev.";
    assert Text.Lt("fev.", "jan.");
    UnknownByText(LabelIndex, Sorting.Self, "fev.", "jan.");
  }

  /** With the dot removed, every dotted abbreviation is found at its
    * calendar position, so the months sort January first. */
  lemma {:induction false} DottedMonthsKnown(j: nat, k: nat)
    requires j < k < 12
    ensures StrippedIndex(MONTH_ORDER[k] + ".") == k
    ensures ByMonthOrder(StrippedIndex, Sorting.Self)(MONTH_ORDER[j] + ".", MONTH_ORDER[k] + ".")
  {
    DottedKnown(j);
    DottedKnown(k);
    KnownByPosition(StrippedIndex, Sorting.Self, MONTH_ORDER[j] + ".", MONTH_ORDER[k] + ".");
  }

  /** The filters the dashboard passes to `getTransactions` for a range:
    * both bounds, every type. */
  function RangeFilters(range: DateRange): TransactionFilters
  {
    TransactionFilters(Some(range.startDate), Some(range.endDate), "", "", "all", None, None)
  }

  /** The records of a range. */
  function InRangeRecords(all: seq<Transaction>, range: DateRange): seq<Transaction>
  {
    F.Selected(all, Some(RangeFilters(range)))
  }

  /** The page size `getTransactions` takes when none is given. */
  const DEFAULT_PAGE_SIZE: int := 20

  /** As written, the year aggregation, the line chart and the investment
    * chart call `getTransactions` without a page size, and receive the 20
    * newest records of the range. */
  function DefaultPage(all: seq<Transaction>, range: DateRange): seq<Transaction>
  {
    F.GetTransactions(all, Some(RangeFilters(range)), DEFAULT_PAGE_SIZE, None).transactions
  }

  /** With more than 20 records in the range, the default page leaves some
    * of them out. */
  lemma {:induction false} DefaultPageDropsRecords(all: seq<Transaction>, range: DateRange)
    requires |InRangeRecords(all, range)| > DEFAULT_PAGE_SIZE
    ensures |DefaultPage(all, range)| < |InRangeRecords(all, range)|
    ensures F.GetTransactions(all, Some(RangeFilters(range)), DEFAULT_PAGE_SIZE, None).hasMore
  {
  }

  /** The records the charts are meant to see: a page as large as the
    * collection, which is every record of the range, newest first. */
  function RangeRecords(all: seq<Transaction>, range: DateRange): (r: seq<Transaction>)
    ensures multiset(r) == multiset(InRangeRecords(all, range))
    ensures Sorting.SortedBy(r, F.O.ByDateDesc())
  {
    var selected := InRangeRecords(all, range);
    Sorting.ByTextDescOrder((t: Transaction) => t.date);
    var sorted := Sorting.SortBy(selected, F.O.ByDateDesc());
    assert Sorting.SliceTo(sorted, |all|) == sorted;
    F.GetTransactions(all, Some(RangeFilters(range)), |all|, None).transactions
  }

  lemma {:induction false} RangeRecordsMembers(all: seq<Transaction>, range: DateRange)
    ensures forall t :: t in RangeRecords(all, range) <==> t in all && F.Passes(RangeFilters(range), t)
  {
    var r := RangeRecords(all, range);
    forall t ensures t in r <==> t in InRangeRecords(all, range) {
      assert t in r <==> t in multiset(r);
    }
  }

  /** With at most 20 records in the range, the default page already holds
    * every one of them: the two record sets differ only past that size. */
  lemma {:induction false} SmallRangeComplete(all: seq<Transaction>, range: DateRange)
    requires |InRangeRecords(all, range)| <= DEFAULT_PAGE_SIZE
    ensures DefaultPage(all, range) == RangeRecords(all, range)
  {
    Sorting.ByTextDescOrder((t: Transaction) => t.date);
    var sorted := Sorting.SortBy(InRangeRecords(all, range), F.O.ByDateDesc());
    assert Sorting.SliceTo(sorted, DEFAULT_PAGE_SIZE) == sorted;
    assert Sorting.SliceTo(sorted, |all|) == sorted;
  }

  function Amount(t: Transaction): int { t.amount }

  /** `Math.ceil(new Date(date).getDate() / 7)` on the stored day; an
    * unparsable date gives `NaN`. */
  function WeekLabel(date: string): string
  {
    match Dates.Parse(date)
    case Some(d) => "Sem " + Numbers.NatToString((d.day + 6) / 7)
    case None => "Sem NaN"
  }

  /** The `periodKey` of a record; `monthLabel` is
    * `toLocaleDateString('pt-BR', { month: 'short' })` of a stored date. */
  function PeriodKey(period: Period, monthLabel: string -> string): Transaction -> string
  {
    (t: Transaction) => if period == Week then WeekLabel(t.date) else monthLabel(t.date)
  }

  /** What a record adds to `income` and to `expense`: any type other than
    * income counts as expense, by its absolute value. */
  function IncomePart(t: Transaction): int { if t.kind == INCOME then t.amount else 0 }

  function ExpensePart(t: Transaction): int { if t.kind == INCOME then 0 else Abs(t.amount) }

  /** One entry of `periodData`. */
  datatype PeriodFlow = PeriodFlow(period: string, income: int, expense: int, balance: int)

  function FlowOf(b: Bucket<string, Transaction>): PeriodFlow
  {
    var income := Sum(b.items, IncomePart);
    var expense := Sum(b.items, ExpensePart);
    PeriodFlow(b.key, income, expense, income - expense)
  }

  function StartFlow(t: Transaction): (int, int) { (IncomePart(t), ExpensePart(t)) }

  function StepFlow(a: (int, int), t: Transaction): (int, int) { (a.0 + IncomePart(t), a.1 + ExpensePart(t)) }

  function MakeFlow(k: string, a: (int, int)): PeriodFlow { PeriodFlow(k, a.0, a.1, a.0 - a.1) }

  lemma {:induction false} FoldFlow(items: seq<Transaction>)
    requires |items| > 0
    ensures FoldEntry(items, StartFlow, StepFlow) == (Sum(items, IncomePart), Sum(items, ExpensePart))
  {
    if |items| > 1 {
      FoldFlow(items[..|items| - 1]);
    } else {
      assert items[..0] == [];
    }
  }

  lemma {:induction false} FlowAgrees()
    ensures ViewAgrees(StartFlow, StepFlow, MakeFlow, FlowOf)
  {
    forall b: Bucket<string, Transaction> | |b.items| > 0
      ensures MakeFlow(b.key, FoldEntry(b.items, StartFlow, StepFlow)) == FlowOf(b)
    {
      FoldFlow(b.items);
    }
  }

  function PeriodOf(f: PeriodFlow): string { f.period }

  function PointOf(f: PeriodFlow): ChartPoint { LinePoint(f.balance, f.period) }

  /** The comparator of the line chart, which looks the label up with its
    * dot kept. */
  function ByPeriod(): (PeriodFlow, PeriodFlow) -> bool
  {
    ByMonthOrder(LabelIndex, PeriodOf)
  }

  lemma {:induction false} ByPeriodOrder()
    ensures Sorting.StrictWeakOrder(ByPeriod())
  {
    ByMonthOrderIsOrder(LabelIndex, PeriodOf);
  }

  /** The flows before they become points, sorted by the line chart's
    * comparator. */
  function SortedFlows(records: seq<Transaction>, key: Transaction -> string): (r: seq<PeriodFlow>)
    ensures multiset(r) == multiset(Map(GroupBy(records, key), FlowOf))
    ensures Sorting.SortedBy(r, ByPeriod())
  {
    ByMonthOrderIsOrder(LabelIndex, PeriodOf);
    Sorting.SortBy(Map(GroupBy(records, key), FlowOf), ByPeriod())
  }

  /** `generateLineChartData` over the records it receives. */
  function LineChart(records: seq<Transaction>, period: Period, monthLabel: string -> string): seq<ChartPoint>
  {
    Map(SortedFlows(records, PeriodKey(period, monthLabel)), PointOf)
  }

  /** The month period draws the whole year. */
  function LineRange(period: Period, today: Dates.Day): DateRange
    requires Dates.Valid(today)
  {
    if period == Month then GetDateRange(Year, today) else GetDateRange(period, today)
  }

  /** `generateLineChartData(userId, period)` over the user's records. */
  method GenerateLineChart(all: seq<Transaction>, period: Period, today: Dates.Day, monthLabel: string -> string)
    returns (r: seq<ChartPoint>)
    requires Dates.Valid(today)
    ensures r == LineChart(DefaultPage(all, LineRange(period, today)), period, monthLabel)
  {
    var records := DefaultPage(all, LineRange(period, today));
    FlowAgrees();
    var flows := EntriesOf(records, PeriodKey(period, monthLabel), StartFlow, StepFlow, MakeFlow, FlowOf);
    ByMonthOrderIsOrder(LabelIndex, PeriodOf);
    r := Map(Sorting.SortBy(flows, ByPeriod()), PointOf);
  }

  /** A point carries the income of the records of its period label minus
    * their expense, the period having at least one record. */
  ghost predicate PointSums(records: seq<Transaction>, key: Transaction -> string, p: ChartPoint)
  {
    p.LinePoint? &&
    var mine := Filter(records, KeyIs(key, p.period));
    |mine| > 0 && p.value == Sum(mine, IncomePart) - Sum(mine, ExpensePart)
  }

  /** Each point is a period label of the records, with the income of that
    * period's records minus their expense. */
  lemma {:induction false} LineChartValues(records: seq<Transaction>, period: Period, monthLabel: string -> string)
    ensures forall p :: p in LineChart(records, period, monthLabel) ==> PointSums(records, PeriodKey(period, monthLabel), p)
  {
    var key := PeriodKey(period, monthLabel);
    var sorted := SortedFlows(records, key);
    var r := LineChart(records, period, monthLabel);
    forall p | p in r ensures PointSums(records, key, p) {
      var i :| 0 <= i < |r| && r[i] == p;
      var k := GroupEntryOf(records, key, FlowOf, sorted, sorted[i]);
    }
  }

  /** A flow of the grouped records is among the sorted flows. */
  lemma {:induction false} FlowSorted(records: seq<Transaction>, key: Transaction -> string, e: PeriodFlow)
    requires e in Map(GroupBy(records, key), FlowOf)
    ensures e in SortedFlows(records, key)
  {
    assert e in multiset(Map(GroupBy(records, key), FlowOf));
    assert e in multiset(SortedFlows(records, key));
  }

  /** Every record's key has a point. */
  lemma {:induction false} PointsCover(records: seq<Transaction>, key: Transaction -> string)
    ensures forall t :: t in records ==> exists p :: p in Map(SortedFlows(records, key), PointOf) && p.period == key(t)
  {
    var flows := Map(GroupBy(records, key), FlowOf);
    var sorted := SortedFlows(records, key);
    var r := Map(sorted, PointOf);
    GroupViewKeys(records, key, FlowOf, PeriodOf);
    forall t | t in records ensures exists p :: p in r && p.period == key(t) {
      var e :| e in flows && PeriodOf(e) == key(t);
      FlowSorted(records, key, e);
      MapHas(sorted, PointOf, e);
      assert PointOf(e).period == key(t);
    }
  }

  /** Every record's period label has a point. */
  lemma {:induction false} LineChartCovers(records: seq<Transaction>, period: Period, monthLabel: string -> string)
    ensures forall t :: t in records ==>
      exists p :: p in LineChart(records, period, monthLabel) && p.period == PeriodKey(period, monthLabel)(t)
  {
    PointsCover(records, PeriodKey(period, monthLabel));
  }

  /** No period label has two points. */
  lemma {:induction false} LineChartDistinct(records: seq<Transaction>, period: Period, monthLabel: string -> string)
    ensures var r := LineChart(records, period, monthLabel);
      forall i, j :: 0 <= i < j < |r| ==> r[i].period != r[j].period
  {
    var key := PeriodKey(period, monthLabel);
    var flows := Map(GroupBy(records, key), FlowOf);
    var r := LineChart(records, period, monthLabel);
    GroupViewKeys(records, key, FlowOf, PeriodOf);
    assert Sorting.KeysDistinct(flows, PeriodOf);
    ByPeriodOrder();
    Sorting.SortByKeysDistinct(flows, ByPeriod(), PeriodOf);
    var sorted := SortedFlows(records, key);
    forall i, j | 0 <= i < j < |r| ensures r[i].period != r[j].period {
      assert r[i].period == PeriodOf(sorted[i]) && r[j].period == PeriodOf(sorted[j]);
    }
  }

  /** The points follow the line chart's comparator: labels found in the
    * month list as they are come first, in calendar order, and every other
    * label follows in ascending text order. */
  lemma {:induction false} LineChartOrder(records: seq<Transaction>, period: Period, monthLabel: string -> string)
    ensures var r := LineChart(records, period, monthLabel);
      forall i, j :: 0 <= i < j < |r| && LabelIndex(r[j].period) != -1 ==>
        LabelIndex(r[i].period) != -1 && LabelIndex(r[i].period) <= LabelIndex(r[j].period)
    ensures var r := LineChart(records, period, monthLabel);
      forall i, j :: 0 <= i < j < |r| && LabelIndex(r[i].period) == -1 ==>
        LabelIndex(r[j].period) == -1 && !Text.Lt(r[j].period, r[i].period)
  {
    var sorted := SortedFlows(records, PeriodKey(period, monthLabel));
    MonthOrderShape(sorted, LabelIndex, PeriodOf);
    var r := LineChart(records, period, monthLabel);
    assert forall i :: 0 <= i < |r| ==> r[i].period == PeriodOf(sorted[i]);
  }

  predicate IsIncomeRecord(t: Transaction) { t.kind == INCOME }

  predicate FixedRecord(t: Transaction) { IsFixedIncome(t.category) }

  function FixedAmount(t: Transaction): int { if FixedRecord(t) then t.amount else 0 }

  function VariableAmount(t: Transaction): int { if FixedRecord(t) then 0 else t.amount }

  /** Splitting income by the fixed-income test loses nothing, and the fixed
    * part is the total of the fixed-income records. */
  lemma {:induction false} FixedVariableSplit(items: seq<Transaction>)
    ensures Sum(items, FixedAmount) + Sum(items, VariableAmount) == Sum(items, Amount)
    ensures Sum(items, FixedAmount) == Sum(Filter(items, FixedRecord), Amount)
  {
    if items != [] {
      var init, last := items[..|items| - 1], items[|items| - 1];
      FixedVariableSplit(init);
      SumAppend(Filter(init, FixedRecord), if FixedRecord(last) then [last] else [], Amount);
      assert Sum([last], Amount) == last.amount by { assert [last][..0] == []; }
    }
  }

  function InvestmentOf(b: Bucket<string, Transaction>): InvestmentEvolutionData
  {
    InvestmentEvolutionData(b.key, Sum(b.items, Amount), Sum(b.items, FixedAmount), Sum(b.items, VariableAmount))
  }

  /** The running totals of one month: income, fixed and variable. */
  function StartInvestment(): Transaction -> (int, int, int)
  {
    Start3(Amount, FixedAmount, VariableAmount)
  }

  function StepInvestment(): ((int, int, int), Transaction) -> (int, int, int)
  {
    Step3(Amount, FixedAmount, VariableAmount)
  }

  function MakeInvestment(k: string, a: (int, int, int)): InvestmentEvolutionData
  {
    InvestmentEvolutionData(k, a.0, a.1, a.2)
  }

  lemma {:induction false} FoldInvestment(items: seq<Transaction>)
    requires |items| > 0
    ensures FoldEntry(items, StartInvestment(), StepInvestment()) ==
      (Sum(items, Amount), Sum(items, FixedAmount), Sum(items, VariableAmount))
  {
    FoldTotals3(items, Amount, FixedAmount, VariableAmount);
  }

  lemma {:induction false} InvestmentAgrees()
    ensures ViewAgrees(StartInvestment(), StepInvestment(), MakeInvestment, InvestmentOf)
  {
    forall b: Bucket<string, Transaction> | |b.items| > 0
      ensures MakeInvestment(b.key, FoldEntry(b.items, StartInvestment(), StepInvestment())) == InvestmentOf(b)
    {
      FoldInvestment(b.items);
    }
  }

  function MonthOf(e: InvestmentEvolutionData): string { e.month }

  function ByMonth(): (InvestmentEvolutionData, InvestmentEvolutionData) -> bool
  {
    ByMonthOrder(StrippedIndex, MonthOf)
  }

  lemma {:induction false} ByMonthIsOrder()
    ensures Sorting.StrictWeakOrder(ByMonth())
  {
    ByMonthOrderIsOrder(StrippedIndex, MonthOf);
  }

  function MonthKey(monthLabel: string -> string): Transaction -> string
  {
    (t: Transaction) => monthLabel(t.date)
  }

  /** The months of the income records, sorted by the month comparator. */
  function SortedMonths(income: seq<Transaction>, key: Transaction -> string): (r: seq<InvestmentEvolutionData>)
    ensures multiset(r) == multiset(Map(GroupBy(income, key), InvestmentOf))
    ensures Sorting.SortedBy(r, ByMonth())
  {
    ByMonthIsOrder();
    Sorting.SortBy(Map(GroupBy(income, key), InvestmentOf), ByMonth())
  }

  /** `generateInvestmentEvolutionData` over the records it receives: the
    * income records grouped by month label. */
  function InvestmentEvolution(records: seq<Transaction>, monthLabel: string -> string): seq<InvestmentEvolutionData>
  {
    var income := Filter(records, IsIncomeRecord);
    if |income| == 0 then [] else SortedMonths(income, MonthKey(monthLabel))
  }

  /** `generateInvestmentEvolutionData` over the user's records of the year. */
  method GenerateInvestmentEvolution(all: seq<Transaction>, today: Dates.Day, monthLabel: string -> string)
    returns (r: seq<InvestmentEvolutionData>)
    requires Dates.Valid(today)
    ensures r == InvestmentEvolution(DefaultPage(all, GetDateRange(Year, today)), monthLabel)
  {
    var records := DefaultPage(all, GetDateRange(Year, today));
    var income := Filter(records, IsIncomeRecord);
    if |income| == 0 {
      return [];
    }
    InvestmentAgrees();
    var months := EntriesOf(income, MonthKey(monthLabel), StartInvestment(), StepInvestment(), MakeInvestment, InvestmentOf);
    ByMonthIsOrder();
    r := Sorting.SortBy(months, ByMonth());
  }

  /** An entry carries the total of the income records of its month label,
    * that month having at least one, split into fixed and variable income. */
  ghost predicate MonthSums(records: seq<Transaction>, monthLabel: string -> string, e: InvestmentEvolutionData)
  {
    var mine := Filter(Filter(records, IsIncomeRecord), KeyIs(MonthKey(monthLabel), e.month));
    |mine| > 0 && e.total == Sum(mine, Amount) && e.total == e.fixedIncome + e.variableIncome &&
    e.fixedIncome == Sum(Filter(mine, FixedRecord), Amount)
  }

  lemma {:induction false} InvestmentValues(records: seq<Transaction>, monthLabel: string -> string)
    ensures forall e :: e in InvestmentEvolution(records, monthLabel) ==> MonthSums(records, monthLabel, e)
  {
    var income := Filter(records, IsIncomeRecord);
    if |income| > 0 {
      var key := MonthKey(monthLabel);
      var r := SortedMonths(income, key);
      forall e | e in r ensures MonthSums(records, monthLabel, e) {
        var k := GroupEntryOf(income, key, InvestmentOf, r, e);
        FixedVariableSplit(Filter(income, KeyIs(key, k)));
      }
    }
  }

  /** No month appears twice. */
  lemma {:induction false} InvestmentDistinct(records: seq<Transaction>, monthLabel: string -> string)
    ensures Sorting.KeysDistinct(InvestmentEvolution(records, monthLabel), MonthOf)
  {
    var income := Filter(records, IsIncomeRecord);
    if |income| > 0 {
      var key := MonthKey(monthLabel);
      GroupViewKeys(income, key, InvestmentOf, MonthOf);
      ByMonthIsOrder();
      Sorting.SortByKeysDistinct(Map(GroupBy(income, key), InvestmentOf), ByMonth(), MonthOf);
      assert SortedMonths(income, key) == Sorting.SortBy(Map(GroupBy(income, key), InvestmentOf), ByMonth());
    }
  }

  /** The chart is empty exactly when no record is income. */
  lemma {:induction false} InvestmentEmpty(records: seq<Transaction>, monthLabel: string -> string)
    ensures InvestmentEvolution(records, monthLabel) == [] <==> forall t :: t in records ==> t.kind != INCOME
  {
    var income := Filter(records, IsIncomeRecord);
    if |income| > 0 {
      var key := MonthKey(monthLabel);
      var t := income[0];
      assert t in records && t.kind == INCOME;
      GroupViewKeys(income, key, InvestmentOf, MonthOf);
      var e :| e in Map(GroupBy(income, key), InvestmentOf) && MonthOf(e) == key(t);
      assert e in multiset(SortedMonths(income, key));
    } else {
      assert forall t :: t in records && t.kind == INCOME ==> t in income;
    }
  }

  function CategoryKey(t: Transaction): string { t.category }

  /** One entry of `categoryTotals`: the category's total and the type of
    * its first record. */
  function YearTopOf(b: Bucket<string, Transaction>): F.TopCategory
  {
    F.TopCategory(b.key, Sum(b.items, Amount), if b.items == [] then EXPENSE else b.items[0].kind)
  }

  function StartYearTop(t: Transaction): (int, string) { (t.amount, t.kind) }

  function StepYearTop(a: (int, string), t: Transaction): (int, string) { (a.0 + t.amount, a.1) }

  function MakeYearTop(k: string, a: (int, string)): F.TopCategory { F.TopCategory(k, a.0, a.1) }

  lemma {:induction false} FoldYearTop(items: seq<Transaction>)
    requires |items| > 0
    ensures FoldEntry(items, StartYearTop, StepYearTop) == (Sum(items, Amount), items[0].kind)
  {
    if |items| > 1 {
      FoldYearTop(items[..|items| - 1]);
    } else {
      assert items[..0] == [];
    }
  }

  lemma {:induction false} YearTopAgrees()
    ensures ViewAgrees(StartYearTop, StepYearTop, MakeYearTop, YearTopOf)
  {
    forall b: Bucket<string, Transaction> | |b.items| > 0
      ensures MakeYearTop(b.key, FoldEntry(b.items, StartYearTop, StepYearTop)) == YearTopOf(b)
    {
      FoldYearTop(b.items);
    }
  }

  /** Every category of the records, greatest absolute total first. */
  function RankedYear(records: seq<Transaction>): (r: seq<F.TopCategory>)
    ensures multiset(r) == multiset(Map(GroupBy(records, CategoryKey), YearTopOf))
    ensures Sorting.SortedBy(r, F.ByAbsAmountDesc())
  {
    Sorting.ByIntDescOrder(F.AbsAmount);
    Sorting.SortBy(Map(GroupBy(records, CategoryKey), YearTopOf), F.ByAbsAmountDesc())
  }

  /** Lines 44-60: the ranking cut to five. */
  function YearTopCategories(records: seq<Transaction>): seq<F.TopCategory>
  {
    Sorting.SliceTo(RankedYear(records), 5)
  }

  /** Lines 44-60 over the user's records of the year. */
  method AggregateYear(all: seq<Transaction>, today: Dates.Day) returns (r: seq<F.TopCategory>)
    requires Dates.Valid(today)
    ensures r == YearTopCategories(DefaultPage(all, GetDateRange(Year, today)))
  {
    var records := DefaultPage(all, GetDateRange(Year, today));
    YearTopAgrees();
    var totals := EntriesOf(records, CategoryKey, StartYearTop, StepYearTop, MakeYearTop, YearTopOf);
    Sorting.ByIntDescOrder(F.AbsAmount);
    r := Sorting.SliceTo(Sorting.SortBy(totals, F.ByAbsAmountDesc()), 5);
  }

  /** At most five categories, each once, greatest absolute total first. */
  lemma {:induction false} YearTopShape(records: seq<Transaction>)
    ensures |YearTopCategories(records)| <= 5
    ensures Sorting.SortedBy(YearTopCategories(records), F.ByAbsAmountDesc())
    ensures Sorting.KeysDistinct(YearTopCategories(records), F.CategoryOf)
  {
    var totals := Map(GroupBy(records, CategoryKey), YearTopOf);
    var ranked := RankedYear(records);
    var r := YearTopCategories(records);
    Sorting.PrefixSorted(ranked, r, F.ByAbsAmountDesc());
    GroupViewKeys(records, CategoryKey, YearTopOf, F.CategoryOf);
    Sorting.ByIntDescOrder(F.AbsAmount);
    Sorting.SortByKeysDistinct(totals, F.ByAbsAmountDesc(), F.CategoryOf);
    assert ranked == Sorting.SortBy(totals, F.ByAbsAmountDesc());
    assert forall i :: 0 <= i < |r| ==> r[i] == ranked[i];
  }

  /** Each entry holds the total of its category's records and the type of
    * the first of them. */
  lemma {:induction false} YearTopSums(records: seq<Transaction>)
    ensures forall e :: e in YearTopCategories(records) ==>
      var mine := Filter(records, KeyIs(CategoryKey, e.category));
      |mine| > 0 && e.amount == Sum(mine, Amount) && e.kind == mine[0].kind
  {
    var ranked := RankedYear(records);
    forall e | e in YearTopCategories(records)
      ensures var mine := Filter(records, KeyIs(CategoryKey, e.category));
        |mine| > 0 && e.amount == Sum(mine, Amount) && e.kind == mine[0].kind
    {
      assert e in ranked;
      var k := GroupEntryOf(records, CategoryKey, YearTopOf, ranked, e);
    }
  }

  /** A category left out has no greater absolute total than one kept. */
  lemma {:induction false} YearTopAreTop(records: seq<Transaction>)
    ensures forall e, x :: e in RankedYear(records) && e !in YearTopCategories(records) && x in YearTopCategories(records) ==>
      F.AbsAmount(e) <= F.AbsAmount(x)
  {
    Sorting.TakeKeepsFirst(RankedYear(records), 5, F.ByAbsAmountDesc());
  }

  /** The investment months follow the month comparator. */
  lemma {:induction false} InvestmentOrder(records: seq<Transaction>, monthLabel: string -> string)
    ensures var r := InvestmentEvolution(records, monthLabel);
      forall i, j :: 0 <= i < j < |r| && StrippedIndex(r[j].month) != -1 ==>
        StrippedIndex(r[i].month) != -1 && StrippedIndex(r[i].month) <= StrippedIndex(r[j].month)
  {
    var income := Filter(records, IsIncomeRecord);
    if |income| > 0 {
      MonthOrderShape(SortedMonths(income, MonthKey(monthLabel)), StrippedIndex, MonthOf);
    }
  }

  /** `Object.entries(stats.categoryStats)`: each category of the window
    * once, taken in the order the statistics loop first met it (which is
    * not the plain-object order for integer-like names). */
  function StatsEntries(docs: seq<F.O.RawDoc>, start: Option<string>, end: Option<string>): seq<(string, int)>
  {
    var m := F.CategoryStats(docs, start, end);
    Map(Dedup(Map(Filter(docs, F.InWindow(start, end)), F.DocCategory)), (c: string) => (c, if c in m then m[c] else 0))
  }

  /** A category named in the window has statistics. */
  lemma {:induction false} WindowNameHasStats(docs: seq<F.O.RawDoc>, start: Option<string>, end: Option<string>, c: string)
    requires c in Map(Filter(docs, F.InWindow(start, end)), F.DocCategory)
    ensures c in F.CategoryStats(docs, start, end)
  {
    var window := Filter(docs, F.InWindow(start, end));
    var names := Map(window, F.DocCategory);
    var j :| 0 <= j < |names| && names[j] == c;
    assert window[j] in window;
    F.CategoryStatsKeys(docs, start, end);
  }

  /** A category with statistics is named in the window. */
  lemma {:induction false} StatsNamedInWindow(docs: seq<F.O.RawDoc>, start: Option<string>, end: Option<string>, k: string)
    requires k in F.CategoryStats(docs, start, end)
    ensures k in Dedup(Map(Filter(docs, F.InWindow(start, end)), F.DocCategory))
  {
    var window := Filter(docs, F.InWindow(start, end));
    var names := Map(window, F.DocCategory);
    F.CategoryStatsKeys(docs, start, end);
    var d :| d in docs && F.InRange(start, end, d) && F.DocCategory(d) == k;
    assert d in window;
    var j :| 0 <= j < |window| && window[j] == d;
    assert names[j] == k;
  }

  /** Each entry holds the statistics of its category. */
  lemma {:induction false} StatsEntriesValues(docs: seq<F.O.RawDoc>, start: Option<string>, end: Option<string>)
    ensures var entries, m := StatsEntries(docs, start, end), F.CategoryStats(docs, start, end);
      forall i :: 0 <= i < |entries| ==> entries[i].0 in m && m[entries[i].0] == entries[i].1
  {
    var m := F.CategoryStats(docs, start, end);
    var order := Dedup(Map(Filter(docs, F.InWindow(start, end)), F.DocCategory));
    var entries := StatsEntries(docs, start, end);
    forall i | 0 <= i < |entries| ensures entries[i].0 in m && m[entries[i].0] == entries[i].1 {
      assert entries[i].0 == order[i] && order[i] in order;
      WindowNameHasStats(docs, start, end, order[i]);
    }
  }

  /** Each category with statistics has an entry. */
  lemma {:induction false} StatsEntriesCover(docs: seq<F.O.RawDoc>, start: Option<string>, end: Option<string>)
    ensures var entries, m := StatsEntries(docs, start, end), F.CategoryStats(docs, start, end);
      forall k :: k in m ==> exists i :: 0 <= i < |entries| && entries[i].0 == k
  {
    var m := F.CategoryStats(docs, start, end);
    var order := Dedup(Map(Filter(docs, F.InWindow(start, end)), F.DocCategory));
    var entries := StatsEntries(docs, start, end);
    forall k | k in m ensures exists i :: 0 <= i < |entries| && entries[i].0 == k {
      StatsNamedInWindow(docs, start, end, k);
      var i :| 0 <= i < |order| && order[i] == k;
      assert entries[i].0 == k;
    }
  }

  lemma {:induction false} StatsEntriesList(docs: seq<F.O.RawDoc>, start: Option<string>, end: Option<string>)
    ensures ListsEntries(StatsEntries(docs, start, end), F.CategoryStats(docs, start, end))
  {
    var order := Dedup(Map(Filter(docs, F.InWindow(start, end)), F.DocCategory));
    var entries := StatsEntries(docs, start, end);
    assert forall i :: 0 <= i < |entries| ==> entries[i].0 == order[i];
    StatsEntriesValues(docs, start, end);
    StatsEntriesCover(docs, start, end);
  }

  /** One month of `getTrends`. */
  datatype Trend = Trend(month: nat, income: int, expense: int, balance: int)

  /** `` `${year}-${MM}-${day}` `` */
  function TrendBound(year: int, month: nat, day: string): string
  {
    Numbers.IntToString(year) + "-" + Dates.Digits(month, 2) + "-" + day
  }

  /** The statistics of days `01` to `31` of one month, compared as text. */
  function TrendOf(docs: seq<F.O.RawDoc>, year: int, month: nat): Trend
  {
    var start, end := Some(TrendBound(year, month, "01")), Some(TrendBound(year, month, "31"));
    var income := Sum(docs, F.IncomeIn(start, end));
    var expense := Sum(docs, F.ExpenseIn(start, end));
    Trend(month, income, expense, income - expense)
  }

  /** `getTrends`: the statistics of each month of the year, January first. */
  method GetTrends(docs: seq<F.O.RawDoc>, year: int) returns (r: seq<Trend>)
    ensures |r| == 12
    ensures forall i :: 0 <= i < 12 ==> r[i] == TrendOf(docs, year, i + 1)
  {
    r := [];
    var month := 1;
    while month <= 12
      invariant 1 <= month <= 13 && |r| == month - 1
      invariant forall i :: 0 <= i < |r| ==> r[i] == TrendOf(docs, year, i + 1)
    {
      var start, end := Some(TrendBound(year, month, "01")), Some(TrendBound(year, month, "31"));
      var stats := F.GetTransactionStats(docs, start, end);
      r := r + [Trend(month, stats.totalIncome, stats.totalExpense, stats.totalBalance)];
      month := month + 1;
    }
  }

  /** Each month's balance is its income minus its expense, and its month
    * number is its position plus one. */
  lemma {:induction false} TrendShape(docs: seq<F.O.RawDoc>, year: int, month: nat)
    ensures TrendOf(docs, year, month).month == month
    ensures TrendOf(docs, year, month).balance == TrendOf(docs, year, month).income - TrendOf(docs, year, month).expense
  {
  }

  const DASHBOARD_ERROR: string := "Erro ao buscar dados do dashboard"
  const CHARTS_ERROR: string := "Erro ao buscar dados dos gráficos"

  /** What `getDashboardData` answers; `monthlyTrend` holds the line-chart
    * points. */
  datatype ServiceDashboard = ServiceDashboard(
    totalBalance: int,
    monthlyIncome: int,
    monthlyExpense: int,
    savingsRate: real,
    recentTransactions: seq<RecentTransaction>,
    topCategories: seq<CategorySummary>,
    monthlyTrend: seq<ChartPoint>,
    expenseDistribution: seq<ExpenseDistributionData>,
    investmentEvolution: seq<InvestmentEvolutionData>,
    categoryBreakdown: seq<CategoryBreakdownData>,
    cashFlow: CashFlowData)

  function Recent(t: Transaction): RecentTransaction
  {
    RecentTransaction(t.id, t.description, t.amount, t.kind, t.category, t.date)
  }

  /** The percentage is left at 0. */
  function Summary(c: F.TopCategory): CategorySummary
  {
    CategorySummary(c.category, c.amount, 0.0, c.kind)
  }

  /** The categories the dashboard shows: the year's five largest for the
    * year period, else the range's. */
  function ShownCategories(all: seq<Transaction>, docs: seq<F.O.RawDoc>, period: Period, range: DateRange, today: Dates.Day)
    : seq<F.TopCategory>
    requires Dates.Valid(today)
  {
    if period == Year then YearTopCategories(DefaultPage(all, GetDateRange(Year, today)))
    else F.TopCategories(docs, 5, Some(range.startDate), Some(range.endDate))
  }

  /** `getDashboardData`: `all` and `docs` are the user's documents, read as
    * records and as stored. */
  method GetDashboardData(all: seq<Transaction>, docs: seq<F.O.RawDoc>, period: Period, selectedMonth: Option<string>,
                          today: Dates.Day, monthLabel: string -> string) returns (r: Result<ServiceDashboard>)
    requires Dates.Valid(today)
    ensures DashboardRange(period, selectedMonth, today).Err? ==> r == Err(DASHBOARD_ERROR)
    ensures DashboardRange(period, selectedMonth, today).Ok? ==> r.Ok?
    ensures r.Ok? ==>
      var range := DashboardRange(period, selectedMonth, today).value;
      var income := Sum(docs, F.IncomeIn(Some(range.startDate), Some(range.endDate)));
      var expense := Sum(docs, F.ExpenseIn(Some(range.startDate), Some(range.endDate)));
      r.value.totalBalance == income - expense && r.value.monthlyIncome == income && r.value.monthlyExpense == expense &&
      r.value.savingsRate == DashboardObservable.SavingsRate(r.value.monthlyIncome, r.value.totalBalance) &&
      r.value.cashFlow == CashFlowData(income, expense)
    ensures r.Ok? ==>
      var range := DashboardRange(period, selectedMonth, today).value;
      r.value.recentTransactions == Map(F.GetRecentTransactions(all, 5, Some(range.startDate), Some(range.endDate)), Recent)
    ensures r.Ok? ==>
      var shown := ShownCategories(all, docs, period, DashboardRange(period, selectedMonth, today).value, today);
      r.value.topCategories == Map(shown, Summary) &&
      r.value.expenseDistribution == ExpenseDistribution(shown) &&
      r.value.categoryBreakdown == CategoryBreakdown(shown)
    ensures r.Ok? ==>
      var year := DefaultPage(all, GetDateRange(Year, today));
      r.value.monthlyTrend == LineChart(year, Year, monthLabel) &&
      r.value.investmentEvolution == InvestmentEvolution(year, monthLabel)
  {
    var rangeOrError := DashboardRange(period, selectedMonth, today);
    if rangeOrError.Err? {
      return Err(DASHBOARD_ERROR);
    }
    var range := rangeOrError.value;
    var start, end := Some(range.startDate), Some(range.endDate);
    var stats := F.GetTransactionStats(docs, start, end);
    var recent := F.GetRecentTransactions(all, 5, start, end);
    var shown := F.GetTopCategories(docs, 5, start, end);
    if period == Year {
      shown := AggregateYear(all, today);
    }
    assert shown == ShownCategories(all, docs, period, range, today);
    var investment := GenerateInvestmentEvolution(all, today, monthLabel);
    var lineChart := GenerateLineChart(all, Year, today, monthLabel);
    assert lineChart == LineChart(DefaultPage(all, GetDateRange(Year, today)), Year, monthLabel);
    r := Ok(ServiceDashboard(
      stats.totalBalance, stats.totalIncome, stats.totalExpense, stats.savingsRate,
      Map(recent, Recent), Map(shown, Summary), lineChart,
      ExpenseDistribution(shown), investment, CategoryBreakdown(shown), CashFlow(stats)));
  }

  /** `getChartData`: the line chart of the period and the pie of the
    * range's category totals. */
  method GetChartData(all: seq<Transaction>, docs: seq<F.O.RawDoc>, period: Period, selectedMonth: Option<string>,
                      today: Dates.Day, monthLabel: string -> string) returns (r: Result<seq<ChartData>>)
    requires Dates.Valid(today)
    ensures DashboardRange(period, selectedMonth, today).Err? ==> r == Err(CHARTS_ERROR)
    ensures DashboardRange(period, selectedMonth, today).Ok? ==> r.Ok?
    ensures r.Ok? ==>
      var range := DashboardRange(period, selectedMonth, today).value;
      r.value == [
        ChartData("1", "line", "Saldo Líquido Mensal", LineChart(DefaultPage(all, LineRange(period, today)), period, monthLabel)),
        ChartData("2", "pie", "Categorias de Despesas", PieChart(StatsEntries(docs, Some(range.startDate), Some(range.endDate))))]
  {
    var rangeOrError := DashboardRange(period, selectedMonth, today);
    if rangeOrError.Err? {
      return Err(CHARTS_ERROR);
    }
    var range := rangeOrError.value;
    var start, end := Some(range.startDate), Some(range.endDate);
    var stats := F.GetTransactionStats(docs, start, end);
    var lineChart := GenerateLineChart(all, period, today, monthLabel);
    var m := stats.categoryStats;
    var keys := Dedup(Map(Filter(docs, F.InWindow(start, end)), F.DocCategory));
    var pie := PieChart(Map(keys, (c: string) => (c, if c in m then m[c] else 0)));
    r := Ok([ChartData("1", "line", "Saldo Líquido Mensal", lineChart), ChartData("2", "pie", "Categorias de Despesas", pie)]);
  }
}
