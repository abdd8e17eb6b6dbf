/** The REST transaction client's local helpers
  * (src/services/transactionService/index.ts): filtering the full list the
  * backend answers, and the categories found in it. The list itself is a
  * parameter. */
module TransactionService {
  import opened Wrappers
  import opened Entities
  import opened Grouping
  import Text
  import Dates

  /** `filters.type && filters.type !== 'all' && transaction.type !== filters.type`
    * rejects; otherwise the type passes. */
  predicate KindPasses(f: TransactionFilters, t: Transaction)
  {
    f.kind == "" || f.kind == "all" || t.kind == f.kind
  }

  predicate CategoryPasses(f: TransactionFilters, t: Transaction)
  {
    f.category == "" || t.category == f.category
  }

  /** `new Date(transaction.date) < new Date(filters.startDate)` rejects; a
    * comparison with an invalid date is false and lets the record pass. */
  predicate StartPasses(f: TransactionFilters, t: Transaction)
  {
    !Truthy(f.startDate) ||
    match (Dates.Parse(t.date), Dates.Parse(f.startDate.value))
    case (Some(d), Some(s)) => !Dates.Before(d, s)
    case _ => true
  }

  predicate EndPasses(f: TransactionFilters, t: Transaction)
  {
    !Truthy(f.endDate) ||
    match (Dates.Parse(t.date), Dates.Parse(f.endDate.value))
    case (Some(d), Some(e)) => !Dates.Before(e, d)
    case _ => true
  }

  /** A bound is tested only when truthy: `0` and a missing bound alike are
    * ignored. */
  predicate BoundSet(b: Option<int>)
  {
    b.Some? && b.value != 0
  }

  predicate MinPasses(f: TransactionFilters, t: Transaction)
  {
    !BoundSet(f.minAmount) || t.amount >= f.minAmount.value
  }

  predicate MaxPasses(f: TransactionFilters, t: Transaction)
  {
    !BoundSet(f.maxAmount) || t.amount <= f.maxAmount.value
  }

  predicate SearchPasses(f: TransactionFilters, t: Transaction)
  {
    f.search == "" || Text.Contains(Text.ToLower(t.description), Text.ToLower(f.search))
  }

  /** The predicate of `getTransactionsWithFilters`: no active filter rejects
    * the record. */
  predicate Passes(f: TransactionFilters, t: Transaction)
  {
    KindPasses(f, t) && CategoryPasses(f, t) && StartPasses(f, t) && EndPasses(f, t) &&
    MinPasses(f, t) && MaxPasses(f, t) && SearchPasses(f, t)
  }

  function PassesAll(f: TransactionFilters): Transaction -> bool
  {
    (t: Transaction) => Passes(f, t)
  }

  /** `getTransactionsWithFilters(filters)` over the list `all`. */
  function WithFilters(all: seq<Transaction>, f: TransactionFilters): seq<Transaction>
  {
    Filter(all, PassesAll(f))
  }

  /** The result is an order-preserving selection of the list holding
    * exactly the records no active filter rejects. */
  lemma {:induction false} WithFiltersSpec(all: seq<Transaction>, f: TransactionFilters)
    ensures IsSubsequence(WithFilters(all, f), all)
    ensures forall t :: t in WithFilters(all, f) <==> t in all && Passes(f, t)
  {
    FilterIsSubsequence(all, PassesAll(f));
  }

  /** Filters that agree on every record select the same list. */
  lemma {:induction false} SameVerdicts(all: seq<Transaction>, f: TransactionFilters, g: TransactionFilters)
    requires forall t :: Passes(f, t) == Passes(g, t)
    ensures WithFilters(all, f) == WithFilters(all, g)
  {
    FilterExt(all, PassesAll(f), PassesAll(g));
  }

  /** An amount bound of `0` is no bound at all, for either end. */
  lemma {:induction false} ZeroBoundsIgnored(all: seq<Transaction>, f: TransactionFilters)
    ensures WithFilters(all, f.(minAmount := Some(0))) == WithFilters(all, f.(minAmount := None))
    ensures WithFilters(all, f.(maxAmount := Some(0))) == WithFilters(all, f.(maxAmount := None))
  {
    SameVerdicts(all, f.(minAmount := Some(0)), f.(minAmount := None));
    SameVerdicts(all, f.(maxAmount := Some(0)), f.(maxAmount := None));
  }

  /** The type `all` and an absent type both select every type. */
  lemma {:induction false} AllTypesIgnored(all: seq<Transaction>, f: TransactionFilters)
    ensures WithFilters(all, f.(kind := "all")) == WithFilters(all, f.(kind := ""))
    ensures forall t :: t in all && Passes(f.(kind := ""), t) ==> t in WithFilters(all, f.(kind := "all"))
  {
    SameVerdicts(all, f.(kind := "all"), f.(kind := ""));
  }

  /** The default filters select the whole list. */
  lemma {:induction false} DefaultFiltersKeepAll(all: seq<Transaction>)
    ensures WithFilters(all, DEFAULT_FILTERS) == all
  {
    FilterAll(all, PassesAll(DEFAULT_FILTERS));
  }

  /** A record whose date cannot be read passes both date bounds. */
  lemma {:induction false} UnreadableDatePasses(f: TransactionFilters, t: Transaction)
    requires Dates.Parse(t.date).None?
    ensures StartPasses(f, t) && EndPasses(f, t)
  {
  }

  function CategoryOf(t: Transaction): string { t.category }

  /** `getCategories`: `[...new Set(transactions.map(t => t.category))]`. */
  function Categories(all: seq<Transaction>): seq<string>
  {
    Dedup(Map(all, CategoryOf))
  }

  /** Each category of the list once, empty ones included, in the order of
    * its first record. */
  lemma {:induction false} CategoriesSpec(all: seq<Transaction>)
    ensures Distinct(Categories(all))
    ensures forall c :: c in Categories(all) <==> exists t :: t in all && t.category == c
    ensures forall i, j :: 0 <= i < j < |Categories(all)| ==>
      FirstIndex(Map(all, CategoryOf), Categories(all)[i]) < FirstIndex(Map(all, CategoryOf), Categories(all)[j])
  {
    var names := Map(all, CategoryOf);
    DedupFirstOccurrence(names);
    forall c ensures c in Categories(all) <==> exists t :: t in all && t.category == c {
      if c in names {
        var i :| 0 <= i < |names| && names[i] == c;
        assert all[i] in all;
      }
      if exists t :: t in all && t.category == c {
        var t :| t in all && t.category == c;
        var i :| 0 <= i < |all| && all[i] == t;
        assert names[i] == c;
      }
    }
  }
}
