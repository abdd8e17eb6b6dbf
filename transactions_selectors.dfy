/** The memoised selectors over the transactions state
  * (src/store/selectors/transactionsSelectors.ts): the filtered list, the
  * totals, and the lists of one type or one category. The individual
  * filters are those of the live query (module TransactionObservable). */
module TransactionsSelectors {
  import opened Wrappers
  import opened Entities
  import opened Grouping
  import O = TransactionObservable

  /** `selectTransactionsByType` */
  function ByType(ts: seq<Transaction>, kind: string): (r: seq<Transaction>)
    ensures forall t :: t in r <==> t in ts && t.kind == kind
    ensures IsSubsequence(r, ts)
  {
    FilterIsSubsequence(ts, O.KindIs(kind));
    Filter(ts, O.KindIs(kind))
  }

  /** `selectTransactionsByCategory` */
  function ByCategory(ts: seq<Transaction>, category: string): (r: seq<Transaction>)
    ensures forall t :: t in r <==> t in ts && t.category == category
    ensures IsSubsequence(r, ts)
  {
    FilterIsSubsequence(ts, O.CategoryIs(category));
    Filter(ts, O.CategoryIs(category))
  }

  /** The successive `filtered = filtered.filter(...)` steps of
    * `selectFilteredTransactions`, in its order: type, category, search,
    * start date, end date, minimum, maximum. */
  function Steps(f: TransactionFilters): seq<Transaction -> bool>
  {
    O.Optional(O.KindApplies(f), O.KindIs(f.kind))
    + O.Optional(f.category != "", O.CategoryIs(f.category))
    + O.Optional(f.search != "", O.Hit(f.search))
    + O.Optional(Truthy(f.startDate), O.From(OrElse(f.startDate, "")))
    + O.Optional(Truthy(f.endDate), O.Until(OrElse(f.endDate, "")))
    + O.Optional(f.minAmount.Some?, O.AtLeast(O.AmountOr(f.minAmount)))
    + O.Optional(f.maxAmount.Some?, O.AtMost(O.AmountOr(f.maxAmount)))
  }

  /** `selectFilteredTransactions` */
  function SelectFiltered(ts: seq<Transaction>, f: TransactionFilters): seq<Transaction>
  {
    FilterChain(ts, Steps(f))
  }

  function Matching(f: TransactionFilters): Transaction -> bool
  {
    (t: Transaction) => O.Matches(Some(f), t)
  }

  /** The selector keeps exactly the records that satisfy every present
    * filter, the same condition as the live query's. */
  lemma {:induction false} SelectFilteredSpec(ts: seq<Transaction>, f: TransactionFilters)
    ensures SelectFiltered(ts, f) == Filter(ts, Matching(f))
  {
    FilterChainIsFilter(ts, Steps(f));
    forall t ensures AllHold(Steps(f), t) == Matching(f)(t) {
      O.AllHoldSeven(O.KindApplies(f), O.KindIs(f.kind),
                     f.category != "", O.CategoryIs(f.category),
                     f.search != "", O.Hit(f.search),
                     Truthy(f.startDate), O.From(OrElse(f.startDate, "")),
                     Truthy(f.endDate), O.Until(OrElse(f.endDate, "")),
                     f.minAmount.Some?, O.AtLeast(O.AmountOr(f.minAmount)),
                     f.maxAmount.Some?, O.AtMost(O.AmountOr(f.maxAmount)), t);
    }
    FilterExt(ts, x => AllHold(Steps(f), x), Matching(f));
  }

  /** The filtered list is an order-preserving selection of the list, and
    * each record in it satisfies the filters. */
  lemma {:induction false} SelectFilteredSubsequence(ts: seq<Transaction>, f: TransactionFilters)
    ensures IsSubsequence(SelectFiltered(ts, f), ts)
    ensures forall t :: t in SelectFiltered(ts, f) ==> O.Matches(Some(f), t)
    ensures forall t :: t in ts && O.Matches(Some(f), t) ==> t in SelectFiltered(ts, f)
  {
    SelectFilteredSpec(ts, f);
    FilterIsSubsequence(ts, Matching(f));
  }

  /** The default filters select the whole list. */
  lemma {:induction false} DefaultFiltersKeepAll(ts: seq<Transaction>)
    ensures SelectFiltered(ts, DEFAULT_FILTERS) == ts
  {
    SelectFilteredSpec(ts, DEFAULT_FILTERS);
    FilterAll(ts, Matching(DEFAULT_FILTERS));
  }

  datatype Stats = Stats(totalIncome: int, totalExpense: int, balance: int, transactionCount: nat)

  function Amount(t: Transaction): int { t.amount }

  /** `selectTransactionsStats` */
  function SelectStats(ts: seq<Transaction>): (r: Stats)
    ensures r.balance == r.totalIncome - r.totalExpense
    ensures r.transactionCount == |ts|
  {
    var income := Sum(Filter(ts, O.KindIs(INCOME)), Amount);
    var expense := Sum(Filter(ts, O.KindIs(EXPENSE)), Amount);
    Stats(income, expense, income - expense, |ts|)
  }

  /** Income and expense together account for every amount exactly when no
    * record has another type; records of another type count in neither. */
  lemma {:induction false} StatsCoverAll(ts: seq<Transaction>)
    requires forall t :: t in ts ==> t.kind == INCOME || t.kind == EXPENSE
    ensures SelectStats(ts).totalIncome + SelectStats(ts).totalExpense == Sum(ts, Amount)
  {
    SumSplit(ts, O.KindIs(INCOME), Amount);
    forall x ensures Not(O.KindIs(INCOME))(x) == (x.kind != INCOME) {}
    var rest := Filter(ts, Not(O.KindIs(INCOME)));
    assert forall t :: t in rest ==> t.kind == EXPENSE;
    OnlyExpense(ts);
  }

  lemma {:induction false} OnlyExpense(ts: seq<Transaction>)
    requires forall t :: t in ts ==> t.kind == INCOME || t.kind == EXPENSE
    ensures Filter(ts, Not(O.KindIs(INCOME))) == Filter(ts, O.KindIs(EXPENSE))
  {
    forall x | x in ts ensures Not(O.KindIs(INCOME))(x) == O.KindIs(EXPENSE)(x) {}
    if ts != [] {
      var init := ts[..|ts| - 1];
      assert forall t :: t in init ==> t in ts;
      OnlyExpense(init);
    }
  }
}
