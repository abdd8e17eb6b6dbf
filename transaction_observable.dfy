/** The live transaction list (src/infrastructure/reactive/TransactionObservable.ts):
  * each snapshot of the user's documents is mapped to transactions with
  * defaults, filtered on the client and sorted by date, newest first. */
module TransactionObservable {
  import opened Wrappers
  import Text
  import Dates
  import opened Entities
  import Sorting
  import opened Grouping
  import Streams

  /** The `tags` field of a stored document: absent, a list, or an object
    * that may carry a `type`. */
  datatype RawTags = NoTags | TagList(items: seq<string>) | TagRecord(kind: Option<string>)

  /** A stored document as the snapshot delivers it; `None` is a missing or
    * null field. */
  datatype RawDoc = RawDoc(
    id: string,
    description: Option<string>,
    amount: Option<int>,
    kind: Option<string>,
    category: Option<string>,
    date: Option<string>,
    createdAt: Option<string>,
    updatedAt: Option<string>,
    receiptUrl: Option<string>,
    tags: RawTags,
    notes: Option<string>)

  /** `data.type || (data.tags && typeof data.tags === 'object' && data.tags.type) || 'expense'` */
  function DocKind(d: RawDoc): string
  {
    if Truthy(d.kind) then d.kind.value
    else match d.tags
      case TagRecord(k) => OrElse(k, EXPENSE)
      case _ => EXPENSE
  }

  /** The transaction a document maps to; `nowIso` is `new Date().toISOString()`. */
  function MapDoc(d: RawDoc, nowIso: string): (t: Transaction)
    ensures t.id == d.id
    ensures t.kind != ""
    ensures Truthy(d.kind) ==> t.kind == d.kind.value
    ensures !Truthy(d.kind) && !d.tags.TagRecord? ==> t.kind == EXPENSE
    ensures t.amount == if d.amount.Some? then d.amount.value else 0
    ensures t.description == OrElse(d.description, "") && t.category == OrElse(d.category, "")
    ensures t.date == OrElse(d.date, nowIso)
  {
    Transaction(
      d.id,
      OrElse(d.description, ""),
      if d.amount.Some? then d.amount.value else 0,
      DocKind(d),
      OrElse(d.category, ""),
      OrElse(d.date, nowIso),
      OrElse(d.createdAt, nowIso),
      OrElse(d.updatedAt, nowIso),
      d.receiptUrl,
      match d.tags case TagList(items) => items case _ => [],
      d.notes)
  }

  /** `startDate` at 00:00 is not after the record's day at 00:00; an
    * unreadable date on either side fails the comparison. */
  predicate OnOrAfter(start: string, t: Transaction)
  {
    match (Dates.Parse(start), Dates.Parse(t.date))
    case (Some(s), Some(d)) => Dates.InstantLe(Dates.StartOf(s), Dates.StartOf(d))
    case _ => false
  }

  /** The record's day at 00:00 is not after `endDate` at 23:59:59.999. */
  predicate OnOrBefore(end: string, t: Transaction)
  {
    match (Dates.Parse(end), Dates.Parse(t.date))
    case (Some(e), Some(d)) => Dates.InstantLe(Dates.StartOf(d), Dates.LastMsOf(e))
    case _ => false
  }

  predicate SearchHit(search: string, t: Transaction)
  {
    Text.Contains(Text.ToLower(t.description), Text.ToLower(search))
  }

  /** A filter that is applied only when `applies`. */
  function Optional<T>(applies: bool, p: T -> bool): seq<T -> bool>
  {
    if applies then [p] else []
  }

  function KindIs(kind: string): Transaction -> bool { (t: Transaction) => t.kind == kind }

  function CategoryIs(category: string): Transaction -> bool { (t: Transaction) => t.category == category }

  function From(start: string): Transaction -> bool { (t: Transaction) => OnOrAfter(start, t) }

  function Until(end: string): Transaction -> bool { (t: Transaction) => OnOrBefore(end, t) }

  function Hit(search: string): Transaction -> bool { (t: Transaction) => SearchHit(search, t) }

  function AmountOr(o: Option<int>): int { if o.Some? then o.value else 0 }

  function AtLeast(min: int): Transaction -> bool { (t: Transaction) => t.amount >= min }

  function AtMost(max: int): Transaction -> bool { (t: Transaction) => t.amount <= max }

  /** The type filter applies unless the type is empty or `all`. */
  predicate KindApplies(f: TransactionFilters) { f.kind != "" && f.kind != "all" }

  /** The filters the handler applies, in its order; a filter whose field
    * is falsy (or `all` for the type, or null for an amount) is skipped. */
  function ActiveFilters(filters: Option<TransactionFilters>): seq<Transaction -> bool>
  {
    if filters.None? then []
    else
      var f := filters.value;
      Optional(KindApplies(f), KindIs(f.kind))
      + Optional(f.category != "", CategoryIs(f.category))
      + Optional(Truthy(f.startDate), From(OrElse(f.startDate, "")))
      + Optional(Truthy(f.endDate), Until(OrElse(f.endDate, "")))
      + Optional(f.search != "", Hit(f.search))
      + Optional(f.minAmount.Some?, AtLeast(AmountOr(f.minAmount)))
      + Optional(f.maxAmount.Some?, AtMost(AmountOr(f.maxAmount)))
  }

  /** A filter that is skipped, or that holds. */
  predicate Holds<T>(applies: bool, p: T -> bool, x: T) { !applies || p(x) }

  /** A record satisfies the filters: every present one holds. */
  predicate Matches(filters: Option<TransactionFilters>, t: Transaction)
  {
    filters.None? ||
    var f := filters.value;
    Holds(KindApplies(f), KindIs(f.kind), t) &&
    Holds(f.category != "", CategoryIs(f.category), t) &&
    Holds(Truthy(f.startDate), From(OrElse(f.startDate, "")), t) &&
    Holds(Truthy(f.endDate), Until(OrElse(f.endDate, "")), t) &&
    Holds(f.search != "", Hit(f.search), t) &&
    Holds(f.minAmount.Some?, AtLeast(AmountOr(f.minAmount)), t) &&
    Holds(f.maxAmount.Some?, AtMost(AmountOr(f.maxAmount)), t)
  }

  lemma {:induction false} AllHoldAppend<T>(a: seq<T -> bool>, b: seq<T -> bool>, x: T)
    ensures AllHold(a + b, x) <==> AllHold(a, x) && AllHold(b, x)
  {
    if AllHold(a, x) && AllHold(b, x) {
      forall i | 0 <= i < |a + b| ensures (a + b)[i](x) {
        if i >= |a| { assert (a + b)[i] == b[i - |a|]; }
      }
    }
    if AllHold(a + b, x) {
      forall i | 0 <= i < |a| ensures a[i](x) {
        assert (a + b)[i] == a[i];
      }
      forall i | 0 <= i < |b| ensures b[i](x) {
        assert (a + b)[|a| + i] == b[i];
      }
    }
  }

  lemma {:induction false} AllHoldOptional<T>(applies: bool, p: T -> bool, x: T)
    ensures AllHold(Optional(applies, p), x) <==> Holds(applies, p, x)
  {
    if applies { assert Optional(applies, p)[0] == p; }
  }

  /** A chain of seven optional filters holds exactly when each applied one
    * does. */
  lemma {:induction false} AllHoldSeven<T>(b1: bool, p1: T -> bool, b2: bool, p2: T -> bool, b3: bool, p3: T -> bool,
                                           b4: bool, p4: T -> bool, b5: bool, p5: T -> bool, b6: bool, p6: T -> bool,
                                           b7: bool, p7: T -> bool, x: T)
    ensures AllHold(Optional(b1, p1) + Optional(b2, p2) + Optional(b3, p3) + Optional(b4, p4)
                    + Optional(b5, p5) + Optional(b6, p6) + Optional(b7, p7), x)
      <==> Holds(b1, p1, x) && Holds(b2, p2, x) && Holds(b3, p3, x) && Holds(b4, p4, x)
           && Holds(b5, p5, x) && Holds(b6, p6, x) && Holds(b7, p7, x)
  {
    var a1, a2, a3, a4 := Optional(b1, p1), Optional(b2, p2), Optional(b3, p3), Optional(b4, p4);
    var a5, a6, a7 := Optional(b5, p5), Optional(b6, p6), Optional(b7, p7);
    AllHoldOptional(b1, p1, x);
    AllHoldOptional(b2, p2, x);
    AllHoldOptional(b3, p3, x);
    AllHoldOptional(b4, p4, x);
    AllHoldOptional(b5, p5, x);
    AllHoldOptional(b6, p6, x);
    AllHoldOptional(b7, p7, x);
    AllHoldAppend(a1 + a2 + a3 + a4 + a5 + a6, a7, x);
    AllHoldAppend(a1 + a2 + a3 + a4 + a5, a6, x);
    AllHoldAppend(a1 + a2 + a3 + a4, a5, x);
    AllHoldAppend(a1 + a2 + a3, a4, x);
    AllHoldAppend(a1 + a2, a3, x);
    AllHoldAppend(a1, a2, x);
  }

  /** The chain of active filters is the conjunction of the filters. */
  lemma {:induction false} ActiveFiltersMatch(filters: Option<TransactionFilters>, t: Transaction)
    ensures AllHold(ActiveFilters(filters), t) <==> Matches(filters, t)
  {
    if filters.Some? {
      var f := filters.value;
      AllHoldSeven(KindApplies(f), KindIs(f.kind),
                   f.category != "", CategoryIs(f.category),
                   Truthy(f.startDate), From(OrElse(f.startDate, "")),
                   Truthy(f.endDate), Until(OrElse(f.endDate, "")),
                   f.search != "", Hit(f.search),
                   f.minAmount.Some?, AtLeast(AmountOr(f.minAmount)),
                   f.maxAmount.Some?, AtMost(AmountOr(f.maxAmount)), t);
    }
  }

  function ByDateDesc(): (Transaction, Transaction) -> bool
  {
    Sorting.ByTextDesc((t: Transaction) => t.date)
  }

  function MapDocs(docs: seq<RawDoc>, nowIso: string): seq<Transaction>
  {
    Map(docs, (d: RawDoc) => MapDoc(d, nowIso))
  }

  /** The list one snapshot emits: the mapped records through the chain of
    * active filters, sorted by date, newest first. */
  function Snapshot(docs: seq<RawDoc>, filters: Option<TransactionFilters>, nowIso: string): (r: seq<Transaction>)
    ensures Sorting.SortedBy(r, ByDateDesc())
  {
    Sorting.ByTextDescOrder((t: Transaction) => t.date);
    Sorting.SortBy(FilterChain(MapDocs(docs, nowIso), ActiveFilters(filters)), ByDateDesc())
  }

  /** A snapshot emits exactly the mapped records that satisfy the filters,
    * each as often as it occurs. */
  lemma {:induction false} SnapshotContents(docs: seq<RawDoc>, filters: Option<TransactionFilters>, nowIso: string)
    ensures multiset(Snapshot(docs, filters, nowIso)) == multiset(Filter(MapDocs(docs, nowIso), (t: Transaction) => Matches(filters, t)))
    ensures forall t :: t in Snapshot(docs, filters, nowIso) ==> Matches(filters, t) && t in MapDocs(docs, nowIso)
  {
    var mapped := MapDocs(docs, nowIso);
    FilterChainIsFilter(mapped, ActiveFilters(filters));
    SnapshotFilter(mapped, filters);
    var r := Snapshot(docs, filters, nowIso);
    var expected := Filter(mapped, (t: Transaction) => Matches(filters, t));
    assert multiset(r) == multiset(expected);
    forall t | t in r ensures Matches(filters, t) && t in mapped {
      assert t in multiset(r);
      assert t in expected;
    }
  }

  lemma {:induction false} SnapshotFilter(mapped: seq<Transaction>, filters: Option<TransactionFilters>)
    ensures Filter(mapped, (t: Transaction) => AllHold(ActiveFilters(filters), t))
         == Filter(mapped, (t: Transaction) => Matches(filters, t))
  {
    forall t ensures AllHold(ActiveFilters(filters), t) == Matches(filters, t) {
      ActiveFiltersMatch(filters, t);
    }
    FilterExt(mapped, (t: Transaction) => AllHold(ActiveFilters(filters), t), (t: Transaction) => Matches(filters, t));
  }

  /** Without filters every mapped record is emitted. */
  lemma {:induction false} NoFiltersKeepsAll(docs: seq<RawDoc>, nowIso: string)
    ensures multiset(Snapshot(docs, None, nowIso)) == multiset(MapDocs(docs, nowIso))
  {
    SnapshotContents(docs, None, nowIso);
    FilterAll(MapDocs(docs, nowIso), (t: Transaction) => Matches(None, t));
  }

  /** `{ search: searchTerm } as TransactionFilters`: only the search field
    * is set. */
  function SearchFilters(term: string): (f: TransactionFilters)
    ensures f.search == term
  {
    TransactionFilters(None, None, "", term, "", None, None)
  }

  /** The search variant filters by the search term alone. */
  lemma {:induction false} SearchOnly(term: string, t: Transaction)
    ensures Matches(Some(SearchFilters(term)), t) <==> term == "" || SearchHit(term, t)
  {
  }

  /** The comparator of `getTransactionsDistinct$`: same length and the same
    * id at each position. */
  function SameIds(prev: seq<Transaction>, curr: seq<Transaction>): bool
  {
    |prev| == |curr| && forall i :: 0 <= i < |prev| ==> prev[i].id == curr[i].id
  }

  function Ids(s: seq<Transaction>): seq<string>
  {
    Map(s, (t: Transaction) => t.id)
  }

  /** Two lists count as the same emission exactly when their id sequences
    * are equal. */
  lemma {:induction false} SameIdsIff(prev: seq<Transaction>, curr: seq<Transaction>)
    ensures SameIds(prev, curr) <==> Ids(prev) == Ids(curr)
  {
    if Ids(prev) == Ids(curr) {
      forall i | 0 <= i < |prev| ensures prev[i].id == curr[i].id {
        assert Ids(prev)[i] == Ids(curr)[i];
      }
    }
  }

  /** The distinct stream: consecutive emissions differ in their ids. */
  function DistinctSnapshots(emissions: seq<seq<Transaction>>): (r: seq<seq<Transaction>>)
    ensures forall i :: 0 <= i < |r| - 1 ==> Ids(r[i]) != Ids(r[i + 1])
    ensures forall x :: x in r ==> x in emissions
    ensures |emissions| > 0 ==> |r| > 0 && r[0] == emissions[0]
  {
    var r := Streams.DistinctUntilChanged(emissions, SameIds);
    assert forall i :: 0 <= i < |r| - 1 ==> Ids(r[i]) != Ids(r[i + 1]) by {
      forall i | 0 <= i < |r| - 1 ensures Ids(r[i]) != Ids(r[i + 1]) {
        SameIdsIff(r[i], r[i + 1]);
      }
    }
    r
  }

  /** A new snapshot is emitted exactly when it is the first or its ids
    * differ from those of the last snapshot emitted. */
  lemma {:induction false} DistinctSnapshotsStep(emissions: seq<seq<Transaction>>, x: seq<Transaction>)
    ensures var r := DistinctSnapshots(emissions);
      DistinctSnapshots(emissions + [x]) == if r != [] && Ids(r[|r| - 1]) == Ids(x) then r else r + [x]
  {
    Streams.DistinctStep(emissions, SameIds, x);
    var r := DistinctSnapshots(emissions);
    if r != [] {
      SameIdsIff(r[|r| - 1], x);
    }
  }
}
