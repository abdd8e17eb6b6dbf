/** What the Firestore transaction service does with the documents a query
  * returns (src/services/firebaseTransactionService/index.ts): the client-side
  * filter and page of `getTransactions`, the category list, the statistics
  * loop, the recent records and the top categories. The query itself is an
  * input: the user's documents in the order Firestore delivers them. */
module FirebaseTransactionService {
  import opened Wrappers
  import opened Entities
  import opened Grouping
  import Sorting
  import Text
  import O = TransactionObservable
  import DashboardObservable

  const OTHERS: string := "Outros"

  /** The callback of `allTransactions.filter`: a falsy field imposes
    * nothing; the dates compare as strings, both bounds inclusive; an amount
    * bound applies whenever it is not null. */
  predicate Passes(f: TransactionFilters, t: Transaction)
  {
    !(f.kind != "" && f.kind != "all" && t.kind != f.kind)
    && !(f.category != "" && t.category != f.category)
    && !(Truthy(f.startDate) && Text.Lt(t.date, f.startDate.value))
    && !(Truthy(f.endDate) && Text.Lt(f.endDate.value, t.date))
    && !(f.search != "" && !O.SearchHit(f.search, t))
    && !(f.minAmount.Some? && t.amount < f.minAmount.value)
    && !(f.maxAmount.Some? && t.amount > f.maxAmount.value)
  }

  function Passing(f: TransactionFilters): Transaction -> bool
  {
    (t: Transaction) => Passes(f, t)
  }

  /** The records that survive the filters; all of them without filters. */
  function Selected(all: seq<Transaction>, filters: Option<TransactionFilters>): (r: seq<Transaction>)
    ensures IsSubsequence(r, all)
    ensures forall t :: t in r <==> t in all && (filters.Some? ==> Passes(filters.value, t))
  {
    if filters.None? then
      assert IsSubsequence(all, all) by { SelfSubsequence(all); }
      all
    else
      FilterIsSubsequence(all, Passing(filters.value));
      Filter(all, Passing(filters.value))
  }

  lemma {:induction false} SelfSubsequence<T>(s: seq<T>)
    ensures IsSubsequence(s, s)
  {
    if s != [] {
      SelfSubsequence(s[..|s| - 1]);
    }
  }

  datatype Cursor = Cursor(docId: string)

  datatype PageResult = PageResult(transactions: seq<Transaction>, lastDoc: Option<Cursor>, hasMore: bool)

  /** The selected records, newest date first, cut to one page that always
    * starts at the first record. */
  function GetTransactions(all: seq<Transaction>, filters: Option<TransactionFilters>, pageSize: int, lastDoc: Option<Cursor>): (r: PageResult)
    ensures pageSize >= 0 ==> |r.transactions| == if pageSize < |Selected(all, filters)| then pageSize else |Selected(all, filters)|
    ensures pageSize < 0 ==> |r.transactions| == if |Selected(all, filters)| + pageSize > 0 then |Selected(all, filters)| + pageSize else 0
    ensures multiset(r.transactions) <= multiset(Selected(all, filters))
    ensures Sorting.SortedBy(r.transactions, O.ByDateDesc())
    ensures r.hasMore <==> |Selected(all, filters)| > pageSize
    ensures r.lastDoc.None?
    ensures forall t :: t in r.transactions ==> t in all && (filters.Some? ==> Passes(filters.value, t))
  {
    Sorting.ByTextDescOrder((t: Transaction) => t.date);
    var sorted := Sorting.SortBy(Selected(all, filters), O.ByDateDesc());
    var page := Sorting.SliceTo(sorted, pageSize);
    Sorting.PrefixSorted(sorted, page, O.ByDateDesc());
    Sorting.PrefixMultiset(sorted, page);
    forall t | t in page ensures t in Selected(all, filters) {
      assert t in multiset(sorted);
    }
    PageResult(page, None, |sorted| > pageSize)
  }

  /** The cursor is ignored: every call returns the first page. */
  lemma {:induction false} CursorIgnored(all: seq<Transaction>, filters: Option<TransactionFilters>, pageSize: int, c: Cursor)
    ensures GetTransactions(all, filters, pageSize, Some(c)) == GetTransactions(all, filters, pageSize, None)
  {
  }

  /** A page holds the newest selected records: one left out is never newer
    * than one kept. */
  lemma {:induction false} PageIsNewest(all: seq<Transaction>, filters: Option<TransactionFilters>, pageSize: nat)
    ensures var page := GetTransactions(all, filters, pageSize, None).transactions;
      forall e, x :: e in Selected(all, filters) && e !in page && x in page ==> !Text.Lt(x.date, e.date)
  {
    Sorting.ByTextDescOrder((t: Transaction) => t.date);
    var sorted := Sorting.SortBy(Selected(all, filters), O.ByDateDesc());
    Sorting.TakeKeepsFirst(sorted, pageSize, O.ByDateDesc());
    forall e | e in Selected(all, filters) ensures e in sorted {
      assert e in multiset(sorted);
    }
  }

  /** Both date bounds include their own day, and an amount bound of 0 is
    * applied. */
  lemma {:induction false} BoundsInclusive(f: TransactionFilters, t: Transaction)
    requires f.kind == "" && f.category == "" && f.search == "" && f.maxAmount.None?
    requires f.startDate == Some(t.date) && f.endDate == Some(t.date)
    ensures Passes(f, t) <==> (f.minAmount.None? || t.amount >= f.minAmount.value)
  {
    Text.LtIrreflexive(t.date);
  }

  /** `doc.data().category` when truthy. */
  predicate HasCategory(d: O.RawDoc) { Truthy(d.category) }

  function CategoryText(d: O.RawDoc): string { OrElse(d.category, "") }

  /** The category names, each once, in order of first occurrence. */
  function NamedCategories(docs: seq<O.RawDoc>): seq<string>
  {
    Dedup(Map(Filter(docs, HasCategory), CategoryText))
  }

  lemma {:induction false} NamedCategoriesSnoc(docs: seq<O.RawDoc>, i: nat)
    requires i < |docs|
    ensures NamedCategories(docs[..i + 1]) ==
      var seen := NamedCategories(docs[..i]);
      if HasCategory(docs[i]) && CategoryText(docs[i]) !in seen then seen + [CategoryText(docs[i])] else seen
  {
    var s := docs[..i + 1];
    assert s[..i] == docs[..i];
    var named := Filter(s, HasCategory);
    var before := Filter(docs[..i], HasCategory);
    if HasCategory(docs[i]) {
      assert named == before + [docs[i]];
      var m := Map(named, CategoryText);
      assert m[..|m| - 1] == Map(before, CategoryText);
      assert m[|m| - 1] == CategoryText(docs[i]);
    } else {
      assert named == before;
    }
  }

  /** Adds one document's category to the names collected from the ones
    * before it. */
  function AddCategory(seen: seq<string>, d: O.RawDoc): seq<string>
  {
    if HasCategory(d) && CategoryText(d) !in seen then seen + [CategoryText(d)] else seen
  }

  lemma {:induction false} CategoriesStep(docs: seq<O.RawDoc>, i: nat, seen: seq<string>)
    requires i < |docs| && seen == NamedCategories(docs[..i])
    ensures AddCategory(seen, docs[i]) == NamedCategories(docs[..i + 1])
  {
    NamedCategoriesSnoc(docs, i);
  }

  /** `getCategories`: the names collected in a `Set`, then sorted. */
  method GetCategories(docs: seq<O.RawDoc>) returns (r: seq<string>)
    ensures r == Sorting.SortTexts(NamedCategories(docs))
  {
    var categories: seq<string> := [];
    var i := 0;
    while i < |docs|
      invariant 0 <= i <= |docs|
      invariant categories == NamedCategories(docs[..i])
    {
      CategoriesStep(docs, i, categories);
      categories := AddCategory(categories, docs[i]);
      i := i + 1;
    }
    assert docs[..i] == docs;
    r := Sorting.SortTexts(categories);
  }

  /** The collected names are exactly the truthy categories. */
  lemma {:induction false} NamedCategoriesMembers(docs: seq<O.RawDoc>)
    ensures forall c :: c in NamedCategories(docs) <==> exists d :: d in docs && Truthy(d.category) && d.category.value == c
  {
    var named := NamedCategories(docs);
    var present := Filter(docs, HasCategory);
    var names := Map(present, CategoryText);
    forall c ensures c in named <==> exists d :: d in docs && Truthy(d.category) && d.category.value == c {
      if c in names {
        var k :| 0 <= k < |names| && names[k] == c;
        assert present[k] in present;
      }
      if exists d :: d in docs && Truthy(d.category) && d.category.value == c {
        var d :| d in docs && Truthy(d.category) && d.category.value == c;
        assert d in present;
        var k :| 0 <= k < |present| && present[k] == d;
        assert names[k] == c;
      }
    }
  }

  /** The sorted list holds each non-empty category once, in strictly
    * ascending order. */
  lemma {:induction false} CategoriesSorted(docs: seq<O.RawDoc>)
    ensures var r := Sorting.SortTexts(NamedCategories(docs));
      (forall i, j :: 0 <= i < j < |r| ==> Text.Lt(r[i], r[j]))
      && (forall c :: c in r <==> exists d :: d in docs && Truthy(d.category) && d.category.value == c)
  {
    Sorting.SortTextsStrict(NamedCategories(docs));
    NamedCategoriesMembers(docs);
  }

  /** `data.amount || 0` */
  function DocAmount(d: O.RawDoc): int { if d.amount.Some? then d.amount.value else 0 }

  /** `data.category || 'Outros'` */
  function DocCategory(d: O.RawDoc): string { OrElse(d.category, OTHERS) }

  predicate IsIncomeDoc(d: O.RawDoc) { d.kind == Some(INCOME) }

  /** The two early returns of the statistics and top-category loops: a
    * truthy bound that the stored date is beyond, compared as strings. A
    * document without a date is never skipped. */
  predicate InRange(start: Option<string>, end: Option<string>, d: O.RawDoc)
  {
    !(Truthy(start) && d.date.Some? && Text.Lt(d.date.value, start.value))
    && !(Truthy(end) && d.date.Some? && Text.Lt(end.value, d.date.value))
  }

  function InWindow(start: Option<string>, end: Option<string>): O.RawDoc -> bool
  {
    (d: O.RawDoc) => InRange(start, end, d)
  }

  function IncomeInWindow(start: Option<string>, end: Option<string>): O.RawDoc -> bool
  {
    (d: O.RawDoc) => InRange(start, end, d) && IsIncomeDoc(d)
  }

  function ExpenseInWindow(start: Option<string>, end: Option<string>): O.RawDoc -> bool
  {
    (d: O.RawDoc) => InRange(start, end, d) && !IsIncomeDoc(d)
  }

  /** What one document adds to `totalIncome`, to `totalExpense`. */
  function IncomeIn(start: Option<string>, end: Option<string>): O.RawDoc -> int
  {
    When(IncomeInWindow(start, end), DocAmount)
  }

  function ExpenseIn(start: Option<string>, end: Option<string>): O.RawDoc -> int
  {
    When(ExpenseInWindow(start, end), DocAmount)
  }

  /** `categoryStats` after the documents of `docs`:
    * `categoryStats[category] = (categoryStats[category] || 0) + amount`
    * for each one in the window. */
  function CategoryStats(docs: seq<O.RawDoc>, start: Option<string>, end: Option<string>): map<string, int>
  {
    if docs == [] then map[]
    else
      var m := CategoryStats(docs[..|docs| - 1], start, end);
      var d := docs[|docs| - 1];
      if !InRange(start, end, d) then m
      else m[DocCategory(d) := (if DocCategory(d) in m then m[DocCategory(d)] else 0) + DocAmount(d)]
  }

  function CategoryIs(c: string): O.RawDoc -> bool
  {
    (d: O.RawDoc) => DocCategory(d) == c
  }

  function CategoryInWindow(start: Option<string>, end: Option<string>, c: string): O.RawDoc -> bool
  {
    (d: O.RawDoc) => InRange(start, end, d) && DocCategory(d) == c
  }

  /** `categoryStats` has an entry for exactly the categories of the
    * documents in the window. */
  lemma {:induction false} CategoryStatsKeys(docs: seq<O.RawDoc>, start: Option<string>, end: Option<string>)
    ensures forall c :: c in CategoryStats(docs, start, end) <==> exists d :: d in docs && InRange(start, end, d) && DocCategory(d) == c
  {
    if docs != [] {
      var init, last := docs[..|docs| - 1], docs[|docs| - 1];
      CategoryStatsKeys(init, start, end);
      assert docs == init + [last];
      forall c ensures c in CategoryStats(docs, start, end) <==> exists d :: d in docs && InRange(start, end, d) && DocCategory(d) == c {
        if exists d :: d in docs && InRange(start, end, d) && DocCategory(d) == c {
          var d :| d in docs && InRange(start, end, d) && DocCategory(d) == c;
          if d != last { assert d in init; }
        }
      }
    }
  }

  lemma {:induction false} CategoryStatsValues(docs: seq<O.RawDoc>, start: Option<string>, end: Option<string>)
    ensures forall c :: c in CategoryStats(docs, start, end) ==>
      CategoryStats(docs, start, end)[c] == Sum(docs, When(CategoryInWindow(start, end, c), DocAmount))
  {
    if docs != [] {
      var init := docs[..|docs| - 1];
      CategoryStatsValues(init, start, end);
      CategoryStatsKeys(init, start, end);
      forall c | c !in CategoryStats(init, start, end)
        ensures Sum(init, When(CategoryInWindow(start, end, c), DocAmount)) == 0
      {
        SumWhen(init, CategoryInWindow(start, end, c), DocAmount);
        FilterNone(init, CategoryInWindow(start, end, c));
      }
    }
  }

  /** Each entry of `categoryStats` is the sum of the amounts of the
    * window's documents of that category. */
  lemma {:induction false} CategoryStatsSpec(docs: seq<O.RawDoc>, start: Option<string>, end: Option<string>)
    ensures forall c :: c in CategoryStats(docs, start, end) <==> exists d :: d in docs && InRange(start, end, d) && DocCategory(d) == c
    ensures forall c :: c in CategoryStats(docs, start, end) ==>
      CategoryStats(docs, start, end)[c] == Sum(Filter(Filter(docs, InWindow(start, end)), CategoryIs(c)), DocAmount)
  {
    CategoryStatsKeys(docs, start, end);
    CategoryStatsValues(docs, start, end);
    forall c | c in CategoryStats(docs, start, end)
      ensures Sum(docs, When(CategoryInWindow(start, end, c), DocAmount))
           == Sum(Filter(Filter(docs, InWindow(start, end)), CategoryIs(c)), DocAmount)
    {
      SumWhen(docs, CategoryInWindow(start, end, c), DocAmount);
      FilterFilter(docs, InWindow(start, end), CategoryIs(c), CategoryInWindow(start, end, c));
    }
  }

  datatype TransactionStats = TransactionStats(
    totalIncome: int,
    totalExpense: int,
    totalBalance: int,
    savingsRate: real,
    categoryStats: map<string, int>,
    transactionCount: nat)

  /** `getTransactionStats` over the user's documents. */
  /** One turn of the statistics loop: the totals and the map after the
    * `i`-th document. */
  lemma {:induction false} StatsStep(docs: seq<O.RawDoc>, i: nat, start: Option<string>, end: Option<string>)
    requires i < |docs|
    ensures var d, m := docs[i], CategoryStats(docs[..i], start, end);
      Sum(docs[..i + 1], IncomeIn(start, end)) ==
        Sum(docs[..i], IncomeIn(start, end)) + (if InRange(start, end, d) && IsIncomeDoc(d) then DocAmount(d) else 0) &&
      Sum(docs[..i + 1], ExpenseIn(start, end)) ==
        Sum(docs[..i], ExpenseIn(start, end)) + (if InRange(start, end, d) && !IsIncomeDoc(d) then DocAmount(d) else 0) &&
      CategoryStats(docs[..i + 1], start, end) ==
        if !InRange(start, end, d) then m
        else m[DocCategory(d) := (if DocCategory(d) in m then m[DocCategory(d)] else 0) + DocAmount(d)]
  {
    assert docs[..i + 1][..i] == docs[..i];
  }

  method GetTransactionStats(docs: seq<O.RawDoc>, startDate: Option<string>, endDate: Option<string>)
    returns (r: TransactionStats)
    ensures r.totalIncome == Sum(docs, IncomeIn(startDate, endDate))
    ensures r.totalExpense == Sum(docs, ExpenseIn(startDate, endDate))
    ensures r.totalBalance == r.totalIncome - r.totalExpense
    ensures r.savingsRate == DashboardObservable.SavingsRate(r.totalIncome, r.totalBalance)
    ensures r.categoryStats == CategoryStats(docs, startDate, endDate)
    ensures r.transactionCount == |docs|
  {
    var totalIncome, totalExpense := 0, 0;
    var categoryStats: map<string, int> := map[];
    var i := 0;
    while i < |docs|
      invariant 0 <= i <= |docs|
      invariant totalIncome == Sum(docs[..i], IncomeIn(startDate, endDate))
      invariant totalExpense == Sum(docs[..i], ExpenseIn(startDate, endDate))
      invariant categoryStats == CategoryStats(docs[..i], startDate, endDate)
    {
      var d := docs[i];
      StatsStep(docs, i, startDate, endDate);
      var amount := DocAmount(d);
      if InRange(startDate, endDate, d) {
        if IsIncomeDoc(d) {
          totalIncome := totalIncome + amount;
        } else {
          totalExpense := totalExpense + amount;
        }
        var category := DocCategory(d);
        categoryStats := categoryStats[category := (if category in categoryStats then categoryStats[category] else 0) + amount];
      }
      i := i + 1;
    }
    assert docs[..i] == docs;
    var totalBalance := totalIncome - totalExpense;
    r := TransactionStats(totalIncome, totalExpense, totalBalance,
                          DashboardObservable.SavingsRate(totalIncome, totalBalance), categoryStats, |docs|);
  }

  /** The income is the sum over the window's income documents, every other
    * document of the window counts as expense, and the two together are
    * the window's whole amount. */
  lemma {:induction false} StatsSplit(docs: seq<O.RawDoc>, start: Option<string>, end: Option<string>)
    ensures Sum(docs, IncomeIn(start, end)) == Sum(Filter(Filter(docs, InWindow(start, end)), IsIncomeDoc), DocAmount)
    ensures Sum(docs, ExpenseIn(start, end)) == Sum(Filter(Filter(docs, InWindow(start, end)), Not(IsIncomeDoc)), DocAmount)
    ensures Sum(docs, IncomeIn(start, end)) + Sum(docs, ExpenseIn(start, end)) == Sum(Filter(docs, InWindow(start, end)), DocAmount)
  {
    SumWhen(docs, IncomeInWindow(start, end), DocAmount);
    SumWhen(docs, ExpenseInWindow(start, end), DocAmount);
    FilterFilter(docs, InWindow(start, end), IsIncomeDoc, IncomeInWindow(start, end));
    FilterFilter(docs, InWindow(start, end), Not(IsIncomeDoc), ExpenseInWindow(start, end));
    SumSplit(Filter(docs, InWindow(start, end)), IsIncomeDoc, DocAmount);
  }

  /** Documents outside the window count for `transactionCount` only. */
  lemma {:induction false} CountIgnoresWindow(docs: seq<O.RawDoc>, start: Option<string>, end: Option<string>)
    requires forall d :: d in docs ==> !InRange(start, end, d)
    ensures Sum(docs, IncomeIn(start, end)) == 0 && Sum(docs, ExpenseIn(start, end)) == 0
    ensures CategoryStats(docs, start, end) == map[]
  {
    StatsSplit(docs, start, end);
    FilterNone(docs, InWindow(start, end));
    CategoryStatsSpec(docs, start, end);
  }

  /** `transactionDate >= startDate && transactionDate <= endDate` */
  function Between(start: string, end: string): Transaction -> bool
  {
    (t: Transaction) => !Text.Lt(t.date, start) && !Text.Lt(end, t.date)
  }

  /** The records `getRecentTransactions` ranks: filtered by date only when
    * both bounds are truthy. */
  function RecentPool(all: seq<Transaction>, startDate: Option<string>, endDate: Option<string>): (r: seq<Transaction>)
    ensures forall t :: t in r <==> t in all && (Truthy(startDate) && Truthy(endDate) ==> Between(startDate.value, endDate.value)(t))
  {
    if Truthy(startDate) && Truthy(endDate) then Filter(all, Between(startDate.value, endDate.value)) else all
  }

  /** `getRecentTransactions`: the pool sorted newest first, then
    * `slice(0, limitCount)`. */
  function GetRecentTransactions(all: seq<Transaction>, limitCount: int, startDate: Option<string>, endDate: Option<string>)
    : (r: seq<Transaction>)
    ensures limitCount >= 0 ==> |r| == if limitCount < |RecentPool(all, startDate, endDate)| then limitCount else |RecentPool(all, startDate, endDate)|
    ensures limitCount < 0 ==> |r| == if |RecentPool(all, startDate, endDate)| + limitCount > 0 then |RecentPool(all, startDate, endDate)| + limitCount else 0
    ensures multiset(r) <= multiset(RecentPool(all, startDate, endDate))
    ensures Sorting.SortedBy(r, O.ByDateDesc())
    ensures forall t :: t in r ==> t in RecentPool(all, startDate, endDate)
  {
    Sorting.ByTextDescOrder((t: Transaction) => t.date);
    var sorted := Sorting.SortBy(RecentPool(all, startDate, endDate), O.ByDateDesc());
    var r := Sorting.SliceTo(sorted, limitCount);
    Sorting.PrefixSorted(sorted, r, O.ByDateDesc());
    Sorting.PrefixMultiset(sorted, r);
    forall t | t in r ensures t in RecentPool(all, startDate, endDate) {
      assert t in multiset(sorted);
    }
    r
  }

  /** No record of the pool left out is newer than one returned. */
  lemma {:induction false} RecentAreNewest(all: seq<Transaction>, limitCount: nat, startDate: Option<string>, endDate: Option<string>)
    ensures var r := GetRecentTransactions(all, limitCount, startDate, endDate);
      forall e, x :: e in RecentPool(all, startDate, endDate) && e !in r && x in r ==> !Text.Lt(x.date, e.date)
  {
    Sorting.ByTextDescOrder((t: Transaction) => t.date);
    var pool := RecentPool(all, startDate, endDate);
    var sorted := Sorting.SortBy(pool, O.ByDateDesc());
    Sorting.TakeKeepsFirst(sorted, limitCount, O.ByDateDesc());
    forall e | e in pool ensures e in sorted {
      assert e in multiset(sorted);
    }
  }

  /** A single bound filters nothing: every record competes. */
  lemma {:induction false} OneBoundIgnored(all: seq<Transaction>, limitCount: int, start: string)
    ensures GetRecentTransactions(all, limitCount, Some(start), None) == GetRecentTransactions(all, limitCount, None, None)
    ensures GetRecentTransactions(all, limitCount, None, Some(start)) == GetRecentTransactions(all, limitCount, None, None)
  {
  }

  /** One entry of `getTopCategories`. */
  datatype TopCategory = TopCategory(category: string, amount: int, kind: string)

  /** `data.type || 'expense'` */
  function DocType(d: O.RawDoc): string { OrElse(d.kind, EXPENSE) }

  /** The entry of a category: the sum of its amounts and the type of its
    * first document. */
  function TopOf(b: Bucket<string, O.RawDoc>): TopCategory
  {
    TopCategory(b.key, Sum(b.items, DocAmount), if b.items == [] then EXPENSE else DocType(b.items[0]))
  }

  /** `Object.entries(categoryStats).map(...)` over the window. */
  function CategoryEntries(docs: seq<O.RawDoc>, start: Option<string>, end: Option<string>): seq<TopCategory>
  {
    Map(GroupBy(Filter(docs, InWindow(start, end)), DocCategory), TopOf)
  }

  function AbsAmount(e: TopCategory): int { if e.amount < 0 then -e.amount else e.amount }

  /** `(a, b) => Math.abs(b.amount) - Math.abs(a.amount)` */
  function ByAbsAmountDesc(): (TopCategory, TopCategory) -> bool
  {
    Sorting.ByIntDesc(AbsAmount)
  }

  function RankedEntries(docs: seq<O.RawDoc>, start: Option<string>, end: Option<string>): (r: seq<TopCategory>)
    ensures multiset(r) == multiset(CategoryEntries(docs, start, end))
    ensures Sorting.SortedBy(r, ByAbsAmountDesc())
  {
    Sorting.ByIntDescOrder(AbsAmount);
    Sorting.SortBy(CategoryEntries(docs, start, end), ByAbsAmountDesc())
  }

  /** The result of `getTopCategories`. */
  function TopCategories(docs: seq<O.RawDoc>, limitCount: int, start: Option<string>, end: Option<string>): seq<TopCategory>
  {
    Sorting.SliceTo(RankedEntries(docs, start, end), limitCount)
  }

  function StartTop(d: O.RawDoc): (int, string) { (DocAmount(d), DocType(d)) }

  function StepTop(a: (int, string), d: O.RawDoc): (int, string) { (a.0 + DocAmount(d), a.1) }

  lemma {:induction false} FoldTop(items: seq<O.RawDoc>)
    requires |items| > 0
    ensures FoldEntry(items, StartTop, StepTop) == (Sum(items, DocAmount), DocType(items[0]))
  {
    if |items| > 1 {
      FoldTop(items[..|items| - 1]);
    } else {
      assert items[..0] == [];
    }
  }

  /** One turn of the read-back loop: the entry built from the folded
    * values of the `i`-th key extends the list by the `i`-th group's entry. */
  lemma {:induction false} TopEntry(g: seq<Bucket<string, O.RawDoc>>, i: nat, keys: seq<string>, acc: map<string, (int, string)>,
                                    entries: seq<TopCategory>)
    requires i < |g| && keys == Keys(g)
    requires FoldedAll(g, acc, StartTop, StepTop)
    requires entries == Map(g, TopOf)[..i]
    ensures keys[i] in acc
    ensures entries + [TopCategory(keys[i], acc[keys[i]].0, acc[keys[i]].1)] == Map(g, TopOf)[..i + 1]
  {
    FoldTop(g[i].items);
    PrefixSnoc(Map(g, TopOf), i);
  }

  /** `Object.entries(categoryStats).map(...)`: the folded values read
    * back in insertion order. */
  method ReadBackTop(ghost g: seq<Bucket<string, O.RawDoc>>, keys: seq<string>, acc: map<string, (int, string)>)
    returns (entries: seq<TopCategory>)
    requires keys == Keys(g)
    requires FoldedAll(g, acc, StartTop, StepTop)
    ensures entries == Map(g, TopOf)
  {
    entries := [];
    var i := 0;
    while i < |keys|
      invariant 0 <= i <= |keys| == |g|
      invariant entries == Map(g, TopOf)[..i]
    {
      TopEntry(g, i, keys, acc, entries);
      entries := entries + [TopCategory(keys[i], acc[keys[i]].0, acc[keys[i]].1)];
      i := i + 1;
    }
    assert Map(g, TopOf)[..i] == Map(g, TopOf);
  }

  /** The `forEach` that fills `categoryStats`, read back as its entries. */
  method TopEntries(docs: seq<O.RawDoc>, start: Option<string>, end: Option<string>) returns (entries: seq<TopCategory>)
    ensures entries == CategoryEntries(docs, start, end)
  {
    var window := Filter(docs, InWindow(start, end));
    var keys, acc := Accumulate(window, DocCategory, StartTop, StepTop);
    entries := ReadBackTop(GroupBy(window, DocCategory), keys, acc);
  }

  /** `getTopCategories` over the user's documents. */
  method GetTopCategories(docs: seq<O.RawDoc>, limitCount: int, startDate: Option<string>, endDate: Option<string>)
    returns (r: seq<TopCategory>)
    ensures r == TopCategories(docs, limitCount, startDate, endDate)
  {
    var entries := TopEntries(docs, startDate, endDate);
    Sorting.ByIntDescOrder(AbsAmount);
    r := Sorting.SliceTo(Sorting.SortBy(entries, ByAbsAmountDesc()), limitCount);
  }

  /** At most `limitCount` entries, each category once, greatest absolute
    * amount first. */
  lemma {:induction false} TopCategoriesShape(docs: seq<O.RawDoc>, limitCount: int, start: Option<string>, end: Option<string>)
    ensures limitCount >= 0 ==> |TopCategories(docs, limitCount, start, end)| <= limitCount
    ensures Sorting.SortedBy(TopCategories(docs, limitCount, start, end), ByAbsAmountDesc())
    ensures forall i, j :: 0 <= i < j < |TopCategories(docs, limitCount, start, end)| ==>
      TopCategories(docs, limitCount, start, end)[i].category != TopCategories(docs, limitCount, start, end)[j].category
  {
    var window := Filter(docs, InWindow(start, end));
    var entries := CategoryEntries(docs, start, end);
    var g := GroupBy(window, DocCategory);
    GroupByDistinct(window, DocCategory);
    assert Sorting.KeysDistinct(entries, CategoryOf) by {
      forall i, j | 0 <= i < j < |entries| ensures CategoryOf(entries[i]) != CategoryOf(entries[j]) {
        assert CategoryOf(entries[i]) == g[i].key && CategoryOf(entries[j]) == g[j].key;
      }
    }
    Sorting.ByIntDescOrder(AbsAmount);
    Sorting.SortByKeysDistinct(entries, ByAbsAmountDesc(), CategoryOf);
    var ranked := RankedEntries(docs, start, end);
    var top := TopCategories(docs, limitCount, start, end);
    Sorting.PrefixSorted(ranked, top, ByAbsAmountDesc());
    forall i, j | 0 <= i < j < |top| ensures top[i].category != top[j].category {
      assert top[i] == ranked[i] && top[j] == ranked[j];
      assert CategoryOf(ranked[i]) != CategoryOf(ranked[j]);
    }
  }

  function CategoryOf(e: TopCategory): string { e.category }

  /** Every entry is a category of the window with the sum of its amounts
    * and the type of its first document there. */
  lemma {:induction false} TopCategoriesSums(docs: seq<O.RawDoc>, limitCount: int, start: Option<string>, end: Option<string>)
    ensures forall e :: e in TopCategories(docs, limitCount, start, end) ==>
      var mine := Filter(Filter(docs, InWindow(start, end)), CategoryIs(e.category));
      |mine| > 0 && e.amount == Sum(mine, DocAmount) && e.kind == DocType(mine[0])
  {
    var window := Filter(docs, InWindow(start, end));
    var g := GroupBy(window, DocCategory);
    GroupByItems(window, DocCategory);
    GroupBySpec(window, DocCategory);
    var entries := CategoryEntries(docs, start, end);
    var ranked := RankedEntries(docs, start, end);
    forall e | e in TopCategories(docs, limitCount, start, end)
      ensures var mine := Filter(window, CategoryIs(e.category));
        |mine| > 0 && e.amount == Sum(mine, DocAmount) && e.kind == DocType(mine[0])
    {
      assert e in multiset(ranked);
      assert e in entries;
      var i :| 0 <= i < |entries| && entries[i] == e;
      assert g[i].items == Filter(window, KeyIs(DocCategory, g[i].key));
      FilterExt(window, KeyIs(DocCategory, g[i].key), CategoryIs(e.category));
    }
  }

  /** A category left out has no greater absolute amount than one kept. */
  lemma {:induction false} TopCategoriesAreTop(docs: seq<O.RawDoc>, limitCount: nat, start: Option<string>, end: Option<string>)
    ensures var top := TopCategories(docs, limitCount, start, end);
      forall e, x :: e in CategoryEntries(docs, start, end) && e !in top && x in top ==> AbsAmount(e) <= AbsAmount(x)
  {
    var ranked := RankedEntries(docs, start, end);
    Sorting.TakeKeepsFirst(ranked, limitCount, ByAbsAmountDesc());
    forall e | e in CategoryEntries(docs, start, end) ensures e in ranked {
      assert e in multiset(ranked);
    }
  }
}
