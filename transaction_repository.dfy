/** The read-through transaction repository over the remote transaction
  * service (src/infrastructure/data/repositories/TransactionRepository.ts).
  * The remote service is an object whose answers are fixed functions of
  * the request; it counts its calls and may refuse every one. */
module TransactionRepository {
  import opened Wrappers
  import Numbers
  import Text
  import opened Entities
  import CacheKeys
  import opened CacheService
  import opened RepositoryCache

  const SERVICE_ERROR: string := "Erro no serviço de transações"

  function JsonText(s: string): string
  {
    "\"" + s + "\""
  }

  function JsonOptText(o: Option<string>): string
  {
    match o
    case None => "null"
    case Some(s) => JsonText(s)
  }

  function JsonField(name: string, value: string): string
  {
    JsonText(name) + ":" + value
  }

  /** The serialised filters of `JSON.stringify({...filters, pageSize,
    * lastDoc: lastDoc ? 'hasDoc' : null})`: fields in declaration order,
    * absent optional numbers omitted. */
  function FiltersJson(f: TransactionFilters, pageSize: Option<nat>, hasLastDoc: bool): string
  {
    var fields :=
      [JsonField("startDate", JsonOptText(f.startDate)),
       JsonField("endDate", JsonOptText(f.endDate)),
       JsonField("category", JsonText(f.category)),
       JsonField("search", JsonText(f.search)),
       JsonField("type", JsonText(f.kind))]
      + (if f.minAmount.Some? then [JsonField("minAmount", Numbers.IntToString(f.minAmount.value))] else [])
      + (if f.maxAmount.Some? then [JsonField("maxAmount", Numbers.IntToString(f.maxAmount.value))] else [])
      + (if pageSize.Some? then [JsonField("pageSize", Numbers.NatToString(pageSize.value))] else []);
    "{" + Text.Join(fields, ",") + "," + JsonField("lastDoc", if hasLastDoc then JsonText("hasDoc") else "null") + "}"
  }

  /** The filter part of the page key: `no-filters` without filters. */
  function FiltersKey(filters: Option<TransactionFilters>, pageSize: Option<nat>, hasLastDoc: bool): string
  {
    match filters
    case None => "no-filters"
    case Some(f) => FiltersJson(f, pageSize, hasLastDoc)
  }

  /** The cache key of one page request. */
  function PageKey(userId: string, filters: Option<TransactionFilters>, pageSize: Option<nat>, hasLastDoc: bool): string
  {
    CacheKeys.Transactions(userId, Some(FiltersKey(filters, pageSize, hasLastDoc)))
  }

  /** The substrings `invalidateUserCache` matches: fully prefixed. */
  function UserPatterns(userId: string): seq<string>
  {
    [PREFIX + "transactions:" + userId, PREFIX + "transaction_categories:" + userId]
  }

  /** A cached page; any other kind of cached value counts as a miss. */
  function PageHit(failing: bool, st: Store<CacheValue>, key: string, now: int): Option<Page>
  {
    match Hit(failing, st, key, now)
    case Some(PageValue(p)) => Some(p)
    case _ => None
  }

  /** A cached category list; any other kind of cached value counts as a miss. */
  function CategoriesHit(failing: bool, st: Store<CacheValue>, key: string, now: int): Option<seq<string>>
  {
    match Hit(failing, st, key, now)
    case Some(CategoriesValue(c)) => Some(c)
    case _ => None
  }

  /** Without filters the key is `transactions:{userId}:no-filters`, whatever
    * the page size and cursor. */
  lemma {:induction false} NoFiltersKey(userId: string, pageSize: Option<nat>, hasLastDoc: bool)
    ensures PageKey(userId, None, pageSize, hasLastDoc) == "transactions:" + userId + ":no-filters"
  {
  }

  /** With filters, the presence of a cursor is part of the key, and the key
    * never equals the unfiltered one. */
  lemma {:induction false} CursorInKey(userId: string, f: TransactionFilters, pageSize: Option<nat>)
    ensures PageKey(userId, Some(f), pageSize, true) != PageKey(userId, Some(f), pageSize, false)
    ensures PageKey(userId, Some(f), pageSize, true) != PageKey(userId, None, pageSize, true)
  {
    var a, b := FiltersJson(f, pageSize, true), FiltersJson(f, pageSize, false);
    assert a[|a| - 2] == '"' && b[|b| - 2] == 'l';
    assert a[0] == '{';
    var pre := "transactions:" + userId + ":";
    assert PageKey(userId, Some(f), pageSize, true) == pre + a;
    assert PageKey(userId, Some(f), pageSize, false) == pre + b;
    assert PageKey(userId, None, pageSize, true) == pre + "no-filters";
    if pre + a == pre + b {
      CacheKeys.StripPrefix(pre, a, b);
    }
    if pre + a == pre + "no-filters" {
      CacheKeys.StripPrefix(pre, a, "no-filters");
    }
  }

  /** Every list key of a user, whatever its filter part, contains the
    * user's first pattern. */
  lemma {:induction false} ListKeyMatches(userId: string, filterKey: Option<string>)
    ensures Text.Contains(PREFIX + CacheKeys.Transactions(userId, filterKey), UserPatterns(userId)[0])
  {
    var k := CacheKeys.Transactions(userId, filterKey);
    var pat := UserPatterns(userId)[0];
    var rest := k[|"transactions:" + userId|..];
    assert PREFIX + k == pat + rest;
    Text.ContainsInfix([], pat, rest);
    assert [] + pat + rest == pat + rest;
  }

  /** Invalidating a user removes every page that user has cached. */
  lemma {:induction false} UserPagesRemoved(st: Store<CacheValue>, userId: string, filters: Option<TransactionFilters>, pageSize: Option<nat>, hasLastDoc: bool)
    ensures PREFIX + PageKey(userId, filters, pageSize, hasLastDoc) !in WithoutMatching(st, UserPatterns(userId))
  {
    ListKeyMatches(userId, Some(FiltersKey(filters, pageSize, hasLastDoc)));
  }

  /** Invalidating a user removes the category list that user has cached. */
  lemma {:induction false} UserCategoriesRemoved(st: Store<CacheValue>, userId: string)
    ensures PREFIX + CacheKeys.TransactionCategories(userId) !in WithoutMatching(st, UserPatterns(userId))
  {
    var pats := UserPatterns(userId);
    assert PREFIX + CacheKeys.TransactionCategories(userId) == pats[1];
    Text.ContainsInfix([], pats[1], []);
    assert [] + pats[1] + [] == pats[1];
  }

  /** Matching by substring reaches other users: invalidating user `ab`
    * also drops the pages of user `abc`. */
  lemma {:induction false} ExtendingUserCollides(st: Store<CacheValue>)
    ensures PREFIX + PageKey("abc", None, None, false) !in WithoutMatching(st, UserPatterns("ab"))
  {
    var pats := UserPatterns("ab");
    var k := PREFIX + PageKey("abc", None, None, false);
    assert k == pats[0] + "c:no-filters";
    Text.ContainsInfix([], pats[0], "c:no-filters");
    assert [] + pats[0] + "c:no-filters" == pats[0] + "c:no-filters";
  }

  /** The remote transaction service. */
  class TransactionService {
    var calls: nat
    const failing: bool
    const pages: (string, Option<TransactionFilters>, Option<nat>, bool) -> Page
    const categoriesOf: string -> seq<string>
    const byId: string -> Option<Transaction>
    const created: (TransactionFormData, string) -> Transaction
    const updated: (string, TransactionPatch) -> Transaction

    constructor (failing: bool,
                 pages: (string, Option<TransactionFilters>, Option<nat>, bool) -> Page,
                 categoriesOf: string -> seq<string>,
                 byId: string -> Option<Transaction>,
                 created: (TransactionFormData, string) -> Transaction,
                 updated: (string, TransactionPatch) -> Transaction)
      ensures calls == 0 && this.failing == failing && this.pages == pages
      ensures this.categoriesOf == categoriesOf && this.byId == byId
      ensures this.created == created && this.updated == updated
    {
      calls := 0;
      this.failing := failing;
      this.pages := pages;
      this.categoriesOf := categoriesOf;
      this.byId := byId;
      this.created := created;
      this.updated := updated;
    }

    method GetTransactions(userId: string, filters: Option<TransactionFilters>, pageSize: Option<nat>, hasLastDoc: bool)
      returns (r: Result<Page>)
      modifies this
      ensures calls == old(calls) + 1
      ensures r == if failing then Err(SERVICE_ERROR) else Ok(pages(userId, filters, pageSize, hasLastDoc))
    {
      calls := calls + 1;
      r := if failing then Err(SERVICE_ERROR) else Ok(pages(userId, filters, pageSize, hasLastDoc));
    }

    method GetCategories(userId: string) returns (r: Result<seq<string>>)
      modifies this
      ensures calls == old(calls) + 1
      ensures r == if failing then Err(SERVICE_ERROR) else Ok(categoriesOf(userId))
    {
      calls := calls + 1;
      r := if failing then Err(SERVICE_ERROR) else Ok(categoriesOf(userId));
    }

    method GetTransactionById(id: string) returns (r: Result<Option<Transaction>>)
      modifies this
      ensures calls == old(calls) + 1
      ensures r == if failing then Err(SERVICE_ERROR) else Ok(byId(id))
    {
      calls := calls + 1;
      r := if failing then Err(SERVICE_ERROR) else Ok(byId(id));
    }

    method CreateTransaction(form: TransactionFormData, userId: string) returns (r: Result<Transaction>)
      modifies this
      ensures calls == old(calls) + 1
      ensures r == if failing then Err(SERVICE_ERROR) else Ok(created(form, userId))
    {
      calls := calls + 1;
      r := if failing then Err(SERVICE_ERROR) else Ok(created(form, userId));
    }

    method UpdateTransaction(id: string, patch: TransactionPatch) returns (r: Result<Transaction>)
      modifies this
      ensures calls == old(calls) + 1
      ensures r == if failing then Err(SERVICE_ERROR) else Ok(updated(id, patch))
    {
      calls := calls + 1;
      r := if failing then Err(SERVICE_ERROR) else Ok(updated(id, patch));
    }

    method DeleteTransaction(id: string) returns (r: Result<()>)
      modifies this
      ensures calls == old(calls) + 1
      ensures r == if failing then Err(SERVICE_ERROR) else Ok(())
    {
      calls := calls + 1;
      r := if failing then Err(SERVICE_ERROR) else Ok(());
    }
  }

  class TransactionRepository {
    const cache: Cache<CacheValue>
    const service: TransactionService

    constructor (cache: Cache<CacheValue>, service: TransactionService)
      ensures this.cache == cache && this.service == service
    {
      this.cache := cache;
      this.service := service;
    }

    /** A hit is returned without calling the service; a miss calls it once
      * and caches what it returns for `MEDIUM`. */
    method GetTransactions(userId: string, filters: Option<TransactionFilters>, pageSize: Option<nat>, hasLastDoc: bool, now: int)
      returns (r: Result<Page>)
      modifies cache, service
      ensures var key := PageKey(userId, filters, pageSize, hasLastDoc);
              var hit := PageHit(cache.failing, old(cache.storage), key, now);
              if hit.Some? then
                r == Ok(hit.value) && service.calls == old(service.calls)
                && cache.storage == AfterRead(cache.failing, old(cache.storage), key, now)
              else
                service.calls == old(service.calls) + 1
                && if service.failing then
                     r.Err? && cache.storage == AfterRead(cache.failing, old(cache.storage), key, now)
                   else
                     r == Ok(service.pages(userId, filters, pageSize, hasLastDoc))
                     && cache.storage == AfterFill(cache.failing, old(cache.storage), key, PageValue(r.value), now, CacheKeys.MEDIUM)
    {
      var key := PageKey(userId, filters, pageSize, hasLastDoc);
      var cached := Read(cache, key, now);
      if cached.Some? && cached.value.PageValue? {
        return Ok(cached.value.page);
      }
      r := service.GetTransactions(userId, filters, pageSize, hasLastDoc);
      if r.Ok? {
        Fill(cache, key, PageValue(r.value), now, CacheKeys.MEDIUM);
      }
    }

    /** Never cached. */
    method GetTransactionById(id: string) returns (r: Result<Option<Transaction>>)
      modifies service
      ensures service.calls == old(service.calls) + 1
      ensures r == if service.failing then Err(SERVICE_ERROR) else Ok(service.byId(id))
    {
      r := service.GetTransactionById(id);
    }

    /** The user's cached pages and categories are dropped once the service
      * has created the record; a refused create leaves the cache alone. */
    method CreateTransaction(form: TransactionFormData, userId: string) returns (r: Result<Transaction>)
      modifies cache, service
      ensures service.calls == old(service.calls) + 1
      ensures r == if service.failing then Err(SERVICE_ERROR) else Ok(service.created(form, userId))
      ensures cache.storage == if service.failing || cache.failing then old(cache.storage)
                               else WithoutMatching(old(cache.storage), UserPatterns(userId))
    {
      r := service.CreateTransaction(form, userId);
      if r.Ok? {
        InvalidateUserCache(userId);
      }
    }

    /** The whole cache is cleared once the service has updated the record. */
    method UpdateTransaction(id: string, patch: TransactionPatch) returns (r: Result<Transaction>)
      modifies cache, service
      ensures service.calls == old(service.calls) + 1
      ensures r == if service.failing then Err(SERVICE_ERROR) else Ok(service.updated(id, patch))
      ensures cache.storage == if service.failing || cache.failing then old(cache.storage) else Cleared(old(cache.storage))
    {
      r := service.UpdateTransaction(id, patch);
      if r.Ok? {
        cache.Clear();
      }
    }

    /** The whole cache is cleared once the service has deleted the record. */
    method DeleteTransaction(id: string) returns (r: Result<()>)
      modifies cache, service
      ensures service.calls == old(service.calls) + 1
      ensures r == if service.failing then Err(SERVICE_ERROR) else Ok(())
      ensures cache.storage == if service.failing || cache.failing then old(cache.storage) else Cleared(old(cache.storage))
    {
      r := service.DeleteTransaction(id);
      if r.Ok? {
        cache.Clear();
      }
    }

    /** Read-through with the `LONG` ttl. */
    method GetCategories(userId: string, now: int) returns (r: Result<seq<string>>)
      modifies cache, service
      ensures var key := CacheKeys.TransactionCategories(userId);
              var hit := CategoriesHit(cache.failing, old(cache.storage), key, now);
              if hit.Some? then
                r == Ok(hit.value) && service.calls == old(service.calls)
                && cache.storage == AfterRead(cache.failing, old(cache.storage), key, now)
              else
                service.calls == old(service.calls) + 1
                && if service.failing then
                     r.Err? && cache.storage == AfterRead(cache.failing, old(cache.storage), key, now)
                   else
                     r == Ok(service.categoriesOf(userId))
                     && cache.storage == AfterFill(cache.failing, old(cache.storage), key, CategoriesValue(r.value), now, CacheKeys.LONG)
    {
      var key := CacheKeys.TransactionCategories(userId);
      var cached := Read(cache, key, now);
      if cached.Some? && cached.value.CategoriesValue? {
        return Ok(cached.value.categories);
      }
      r := service.GetCategories(userId);
      if r.Ok? {
        Fill(cache, key, CategoriesValue(r.value), now, CacheKeys.LONG);
      }
    }

    method InvalidateUserCache(userId: string)
      modifies cache
      ensures cache.storage == if cache.failing then old(cache.storage) else WithoutMatching(old(cache.storage), UserPatterns(userId))
    {
      RemoveMatching(cache, UserPatterns(userId));
    }
  }
}
