/** The transactions list state (src/store/slices/transactionsSlice/index.ts):
  * the list, its filters and pagination, updated in place by the reducers.
  * The use cases behind the thunks are parameters that say what they answer. */
module TransactionsSlice {
  import opened Wrappers
  import opened Entities
  import Sorting
  import Grouping

  const PAGE_SIZE: nat := 20
  const NOT_AUTHENTICATED: string := "Usuário não autenticado"
  const FETCH_ERROR: string := "Erro ao carregar transações"

  /** The Firestore document the next page starts after; opaque here. */
  type Cursor = string

  /** `Partial<TransactionFilters>`: `None` for a key the payload omits. */
  datatype FiltersPatch = FiltersPatch(
    startDate: Option<Option<string>>,
    endDate: Option<Option<string>>,
    category: Option<string>,
    search: Option<string>,
    kind: Option<string>,
    minAmount: Option<Option<int>>,
    maxAmount: Option<Option<int>>)

  const EMPTY_PATCH: FiltersPatch := FiltersPatch(None, None, None, None, None, None, None)

  function Pick<T>(current: T, patch: Option<T>): T
  {
    if patch.Some? then patch.value else current
  }

  /** `{ ...state.filters, ...action.payload }` */
  function Merge(f: TransactionFilters, p: FiltersPatch): TransactionFilters
  {
    TransactionFilters(
      Pick(f.startDate, p.startDate), Pick(f.endDate, p.endDate),
      Pick(f.category, p.category), Pick(f.search, p.search), Pick(f.kind, p.kind),
      Pick(f.minAmount, p.minAmount), Pick(f.maxAmount, p.maxAmount))
  }

  /** The seven field comparisons of `setFilters`. */
  predicate Changed(a: TransactionFilters, b: TransactionFilters)
  {
    a.startDate != b.startDate || a.endDate != b.endDate || a.category != b.category
    || a.search != b.search || a.kind != b.kind || a.minAmount != b.minAmount
    || a.maxAmount != b.maxAmount
  }

  /** The comparison covers every field, so it detects exactly a change of
    * the filters. */
  lemma {:induction false} ChangedIff(a: TransactionFilters, b: TransactionFilters)
    ensures Changed(a, b) <==> a != b
  {
  }

  /** Merging keeps what the payload omits and takes what it gives. */
  lemma {:induction false} MergeFields(f: TransactionFilters, p: FiltersPatch)
    ensures Merge(f, EMPTY_PATCH) == f
    ensures Merge(Merge(f, p), p) == Merge(f, p)
    ensures p.search.Some? ==> Merge(f, p).search == p.search.value
    ensures p.search.None? ==> Merge(f, p).search == f.search
  {
  }

  /** A patch changes the filters only at a key it carries with a new
    * value. */
  lemma {:induction false} ChangedByPatch(f: TransactionFilters, p: FiltersPatch)
    ensures Changed(f, Merge(f, p)) <==>
      (p.startDate.Some? && p.startDate.value != f.startDate) ||
      (p.endDate.Some? && p.endDate.value != f.endDate) ||
      (p.category.Some? && p.category.value != f.category) ||
      (p.search.Some? && p.search.value != f.search) ||
      (p.kind.Some? && p.kind.value != f.kind) ||
      (p.minAmount.Some? && p.minAmount.value != f.minAmount) ||
      (p.maxAmount.Some? && p.maxAmount.value != f.maxAmount)
  {
  }

  /** What `fetchTransactions` asks the use case for. */
  datatype FetchRequest = FetchRequest(
    userId: string, filters: TransactionFilters, pageSize: nat, lastDoc: Option<Cursor>, page: int)

  /** One page as the use case answers it. */
  datatype Page = Page(transactions: seq<Transaction>, hasMore: bool, lastDoc: Option<Cursor>)

  /** The fulfilled payload: the page and the page number it counts as. */
  datatype FetchPayload = FetchPayload(transactions: seq<Transaction>, hasMore: bool, lastDoc: Option<Cursor>, page: int)

  /** The thunk's request: it throws without a user; a later page without a
    * stored cursor is fetched as page 1 from the start. */
  function FetchPlan(userId: Option<string>, page: int, filters: TransactionFilters, storedLastDoc: Option<Cursor>): (r: Result<FetchRequest>)
    ensures r.Err? <==> !Truthy(userId)
    ensures r.Err? ==> r.message == NOT_AUTHENTICATED
    ensures r.Ok? ==> r.value.userId == userId.value && r.value.filters == filters && r.value.pageSize == PAGE_SIZE
    ensures r.Ok? ==> (r.value.page == 1 <==> page == 1 || storedLastDoc.None?)
    ensures r.Ok? ==> r.value.lastDoc == (if page == 1 then None else storedLastDoc)
    ensures r.Ok? && r.value.page != 1 ==> r.value.page == page
  {
    if !Truthy(userId) then Err(NOT_AUTHENTICATED)
    else
      var lastDoc := if page == 1 then None else storedLastDoc;
      if page != 1 && lastDoc.None? then Ok(FetchRequest(userId.value, filters, PAGE_SIZE, None, 1))
      else Ok(FetchRequest(userId.value, filters, PAGE_SIZE, lastDoc, page))
  }

  function PayloadOf(req: FetchRequest, resp: Page): FetchPayload
  {
    FetchPayload(resp.transactions, resp.hasMore, resp.lastDoc, req.page)
  }

  /** The list after a fulfilled fetch: page 1 replaces, any other appends. */
  function Loaded(current: seq<Transaction>, payload: FetchPayload): (r: seq<Transaction>)
    ensures payload.page == 1 ==> r == payload.transactions
    ensures payload.page != 1 ==> |r| == |current| + |payload.transactions|
    ensures payload.page != 1 ==> r[..|current|] == current && r[|current|..] == payload.transactions
  {
    if payload.page == 1 then payload.transactions else current + payload.transactions
  }

  /** Newest date first, then newest `createdAt` first; ISO strings compare
    * in time order. */
  function NewestFirst(): (Transaction, Transaction) -> bool
  {
    Sorting.ByTextPairDesc((t: Transaction) => t.date, (t: Transaction) => t.createdAt)
  }

  /** `unshift` followed by the resorting `sort`. */
  function Inserted(t: Transaction, s: seq<Transaction>): (r: seq<Transaction>)
    ensures |r| == |s| + 1
    ensures multiset(r) == multiset(s) + multiset{t}
    ensures Sorting.SortedBy(r, NewestFirst())
  {
    Sorting.ByTextPairDescOrder((t: Transaction) => t.date, (t: Transaction) => t.createdAt);
    assert multiset([t] + s) == multiset(s) + multiset{t};
    Sorting.SortBy([t] + s, NewestFirst())
  }

  /** A record newer than every listed one goes to the top. */
  lemma {:induction false} NewestGoesFirst(t: Transaction, s: seq<Transaction>)
    requires forall x :: x in s ==> NewestFirst()(t, x)
    ensures Inserted(t, s)[0] == t
  {
    var r := Inserted(t, s);
    assert t in multiset(r);
    var k :| 0 <= k < |r| && r[k] == t;
    assert r[0] in multiset(r);
  }

  /** `findIndex(t => t.id === id)` */
  function FindIndex(s: seq<Transaction>, id: string): (r: Option<nat>)
    ensures r.Some? ==> r.value < |s| && s[r.value].id == id && forall j :: 0 <= j < r.value ==> s[j].id != id
    ensures r.None? ==> forall j :: 0 <= j < |s| ==> s[j].id != id
  {
    if s == [] then None
    else if s[0].id == id then Some(0)
    else
      var rest := FindIndex(s[1..], id);
      if rest.Some? then Some(rest.value + 1) else None
  }

  /** The list after a fulfilled update. */
  function Replaced(s: seq<Transaction>, t: Transaction): seq<Transaction>
  {
    var i := FindIndex(s, t.id);
    if i.Some? then s[i.value := t] else s
  }

  /** An update replaces the first record with the same id and nothing
    * else; without one the list is unchanged. */
  lemma {:induction false} ReplacedSpec(s: seq<Transaction>, t: Transaction)
    ensures |Replaced(s, t)| == |s|
    ensures (forall x :: x in s ==> x.id != t.id) ==> Replaced(s, t) == s
    ensures (exists x :: x in s && x.id == t.id) ==>
              FindIndex(Replaced(s, t), t.id) == FindIndex(s, t.id) && Replaced(s, t)[FindIndex(s, t.id).value] == t
    ensures forall j :: 0 <= j < |s| && s[j].id != t.id ==> Replaced(s, t)[j] == s[j]
  {
    var i := FindIndex(s, t.id);
    if i.Some? {
      var r := s[i.value := t];
      assert r[i.value].id == t.id;
      forall j | 0 <= j < i.value ensures r[j].id != t.id {
        assert r[j] == s[j];
      }
    } else {
      forall x | x in s ensures x.id != t.id {
        var j :| 0 <= j < |s| && s[j] == x;
      }
    }
  }

  function IdIsNot(id: string): Transaction -> bool
  {
    (t: Transaction) => t.id != id
  }

  /** The list after a fulfilled delete. */
  function Deleted(s: seq<Transaction>, id: string): seq<Transaction>
  {
    Grouping.Filter(s, IdIsNot(id))
  }

  /** A delete drops every record with that id and keeps the others, in
    * their order. */
  lemma {:induction false} DeletedSpec(s: seq<Transaction>, id: string)
    ensures forall x :: x in Deleted(s, id) ==> x.id != id
    ensures forall x :: x in s && x.id != id ==> x in Deleted(s, id)
    ensures Grouping.IsSubsequence(Deleted(s, id), s)
  {
    Grouping.FilterIsSubsequence(s, IdIsNot(id));
  }

  /** The list after a fulfilled receipt upload. */
  function WithReceipt(s: seq<Transaction>, id: string, url: string): seq<Transaction>
  {
    var i := FindIndex(s, id);
    if i.Some? then s[i.value := s[i.value].(receiptUrl := Some(url))] else s
  }

  /** Only the receipt of the first record with that id changes. */
  lemma {:induction false} WithReceiptSpec(s: seq<Transaction>, id: string, url: string)
    ensures |WithReceipt(s, id, url)| == |s|
    ensures forall j :: 0 <= j < |s| ==>
      WithReceipt(s, id, url)[j] == if Some(j) == FindIndex(s, id) then s[j].(receiptUrl := Some(url)) else s[j]
    ensures forall j :: 0 <= j < |s| ==> WithReceipt(s, id, url)[j].id == s[j].id
  {
  }

  class TransactionsState {
    var transactions: seq<Transaction>
    var loading: bool
    var error: Option<string>
    var filters: TransactionFilters
    var hasMore: bool
    var currentPage: int
    var lastDoc: Option<Cursor>

    /** The state after a pagination reset, with these filters. */
    predicate FirstPage(f: TransactionFilters)
      reads this
    {
      filters == f && currentPage == 1 && transactions == [] && hasMore && lastDoc.None?
    }

    constructor ()
      ensures FirstPage(DEFAULT_FILTERS) && !loading && error.None?
    {
      transactions := [];
      loading := false;
      error := None;
      filters := DEFAULT_FILTERS;
      hasMore := true;
      currentPage := 1;
      lastDoc := None;
    }

    method SetFilters(patch: FiltersPatch)
      modifies this
      ensures filters == Merge(old(filters), patch)
      ensures Changed(old(filters), filters) ==> FirstPage(filters)
      ensures !Changed(old(filters), filters) ==>
        transactions == old(transactions) && currentPage == old(currentPage)
        && hasMore == old(hasMore) && lastDoc == old(lastDoc)
      ensures loading == old(loading) && error == old(error)
    {
      var newFilters := Merge(filters, patch);
      var filtersChanged := Changed(newFilters, filters);
      filters := newFilters;
      if filtersChanged {
        currentPage := 1;
        transactions := [];
        hasMore := true;
        lastDoc := None;
      }
    }

    method ClearFilters()
      modifies this
      ensures FirstPage(DEFAULT_FILTERS)
      ensures loading == old(loading) && error == old(error)
    {
      filters := DEFAULT_FILTERS;
      ResetPagination();
    }

    method ResetPagination()
      modifies this
      ensures FirstPage(old(filters))
      ensures loading == old(loading) && error == old(error)
    {
      currentPage := 1;
      transactions := [];
      hasMore := true;
      lastDoc := None;
    }

    method FetchPending()
      modifies this
      ensures loading && error.None?
      ensures transactions == old(transactions) && filters == old(filters) && hasMore == old(hasMore)
      ensures currentPage == old(currentPage) && lastDoc == old(lastDoc)
    {
      loading := true;
      error := None;
    }

    method FetchFulfilled(payload: FetchPayload)
      modifies this
      ensures !loading && error == old(error) && filters == old(filters)
      ensures transactions == Loaded(old(transactions), payload)
      ensures hasMore == payload.hasMore && lastDoc == payload.lastDoc && currentPage == payload.page
    {
      loading := false;
      if payload.page == 1 {
        transactions := payload.transactions;
      } else {
        transactions := transactions + payload.transactions;
      }
      hasMore := payload.hasMore;
      lastDoc := payload.lastDoc;
      currentPage := payload.page;
    }

    method FetchRejected(message: Option<string>)
      modifies this
      ensures !loading && error == Some(OrElse(message, FETCH_ERROR))
      ensures transactions == old(transactions) && filters == old(filters) && hasMore == old(hasMore)
      ensures currentPage == old(currentPage) && lastDoc == old(lastDoc)
    {
      loading := false;
      error := Some(OrElse(message, FETCH_ERROR));
    }

    /** `fetchTransactions(page)` from dispatch to settlement; `respond`
      * is what the use case answers for a request. */
    method FetchTransactions(page: int, userId: Option<string>, respond: FetchRequest -> Result<Page>)
      modifies this
      ensures !loading && filters == old(filters)
      ensures var plan := FetchPlan(userId, page, old(filters), old(lastDoc));
        if plan.Err? then
          error == Some(NOT_AUTHENTICATED) && transactions == old(transactions) && lastDoc == old(lastDoc)
          && hasMore == old(hasMore) && currentPage == old(currentPage)
        else if respond(plan.value).Err? then
          error == Some(OrElse(Some(respond(plan.value).message), FETCH_ERROR)) && transactions == old(transactions)
          && lastDoc == old(lastDoc) && hasMore == old(hasMore) && currentPage == old(currentPage)
        else
          error.None? && transactions == Loaded(old(transactions), PayloadOf(plan.value, respond(plan.value).value))
          && currentPage == plan.value.page && lastDoc == respond(plan.value).value.lastDoc
          && hasMore == respond(plan.value).value.hasMore
    {
      FetchPending();
      var plan := FetchPlan(userId, page, filters, lastDoc);
      if plan.Err? {
        FetchRejected(Some(plan.message));
        return;
      }
      var response := respond(plan.value);
      if response.Err? {
        FetchRejected(Some(response.message));
        return;
      }
      FetchFulfilled(PayloadOf(plan.value, response.value));
    }

    method AddFulfilled(t: Transaction)
      modifies this
      ensures transactions == Inserted(t, old(transactions))
      ensures loading == old(loading) && error == old(error) && filters == old(filters)
      ensures hasMore == old(hasMore) && currentPage == old(currentPage) && lastDoc == old(lastDoc)
    {
      transactions := Inserted(t, transactions);
    }

    /** `addTransaction(form)`: without a user it throws before the use
      * case; a rejected add has no reducer, so only a created record
      * changes the state. */
    method AddTransaction(form: TransactionFormData, userId: Option<string>,
                          create: (TransactionFormData, string) -> Result<Transaction>)
      returns (r: Result<Transaction>)
      modifies this
      ensures !Truthy(userId) ==> r == Err(NOT_AUTHENTICATED)
      ensures Truthy(userId) ==> r == create(form, userId.value)
      ensures r.Ok? ==> transactions == Inserted(r.value, old(transactions))
      ensures r.Err? ==> transactions == old(transactions)
      ensures loading == old(loading) && error == old(error) && filters == old(filters)
      ensures hasMore == old(hasMore) && currentPage == old(currentPage) && lastDoc == old(lastDoc)
    {
      if !Truthy(userId) {
        return Err(NOT_AUTHENTICATED);
      }
      r := create(form, userId.value);
      if r.Ok? {
        AddFulfilled(r.value);
      }
    }

    method UpdateFulfilled(t: Transaction)
      modifies this
      ensures transactions == Replaced(old(transactions), t)
      ensures loading == old(loading) && error == old(error) && filters == old(filters)
      ensures hasMore == old(hasMore) && currentPage == old(currentPage) && lastDoc == old(lastDoc)
    {
      var index := FindIndex(transactions, t.id);
      if index.Some? {
        transactions := transactions[index.value := t];
      }
    }

    method DeleteFulfilled(id: string)
      modifies this
      ensures transactions == Deleted(old(transactions), id)
      ensures loading == old(loading) && error == old(error) && filters == old(filters)
      ensures hasMore == old(hasMore) && currentPage == old(currentPage) && lastDoc == old(lastDoc)
    {
      transactions := Deleted(transactions, id);
    }

    method UploadReceiptFulfilled(id: string, url: string)
      modifies this
      ensures transactions == WithReceipt(old(transactions), id, url)
      ensures loading == old(loading) && error == old(error) && filters == old(filters)
      ensures hasMore == old(hasMore) && currentPage == old(currentPage) && lastDoc == old(lastDoc)
    {
      var index := FindIndex(transactions, id);
      if index.Some? {
        transactions := transactions[index.value := transactions[index.value].(receiptUrl := Some(url))];
      }
    }
  }

  /** A later page requested before any cursor is stored replaces the list
    * instead of appending to it. */
  lemma {:induction false} LaterPageWithoutCursorReplaces(userId: Option<string>, page: int, filters: TransactionFilters,
                                                          current: seq<Transaction>, resp: Page)
    requires Truthy(userId) && page != 1
    ensures var req := FetchPlan(userId, page, filters, None).value;
            req.page == 1 && req.lastDoc.None? && Loaded(current, PayloadOf(req, resp)) == resp.transactions
  {
  }

  /** Fetching the next page with a stored cursor extends the list. */
  lemma {:induction false} NextPageAppends(userId: Option<string>, page: int, filters: TransactionFilters,
                                           cursor: Cursor, current: seq<Transaction>, resp: Page)
    requires Truthy(userId) && page != 1
    ensures var req := FetchPlan(userId, page, filters, Some(cursor)).value;
            req.lastDoc == Some(cursor) && Loaded(current, PayloadOf(req, resp)) == current + resp.transactions
  {
  }
}
