/** The cached repository the application talks to
  * (src/infrastructure/cache/CachedTransactionRepository.ts). It wraps a
  * `TransactionRepository` that caches in the same store, so a miss here
  * is also a miss there at the same instant. */
module CachedTransactionRepository {
  import opened Wrappers
  import Text
  import opened Entities
  import CacheKeys
  import opened CacheService
  import opened RepositoryCache
  import TR = TransactionRepository

  /** The substrings `invalidateUserTransactionsCache` matches: without the
    * cache prefix. */
  function UserPatterns(userId: string): seq<string>
  {
    ["transactions:" + userId, "transaction_categories:" + userId]
  }

  /** The unprefixed patterns also reach keys outside the cache, such as
    * another part of the application storing `backup_transactions:{userId}`. */
  lemma {:induction false} ReachesOtherStorage(st: Store<CacheValue>, userId: string)
    ensures "backup_transactions:" + userId !in WithoutMatching(st, UserPatterns(userId))
    ensures !Prefixed("backup_transactions:" + userId)
  {
    var pats := UserPatterns(userId);
    Text.ContainsInfix("backup_", pats[0], []);
    assert "backup_" + pats[0] + [] == "backup_transactions:" + userId;
    assert ("backup_transactions:" + userId)[0] != PREFIX[0];
  }

  /** The invalidation here removes every key the inner repository's
    * invalidation removes. */
  lemma {:induction false} CoversInner(st: Store<CacheValue>, userId: string)
    ensures WithoutMatching(WithoutMatching(st, TR.UserPatterns(userId)), UserPatterns(userId))
         == WithoutMatching(st, UserPatterns(userId))
  {
    RemoveTwice(st, UserPatterns(userId), PREFIX, TR.UserPatterns(userId));
  }

  class CachedTransactionRepository {
    const repository: TR.TransactionRepository

    constructor (repository: TR.TransactionRepository)
      ensures this.repository == repository
    {
      this.repository := repository;
    }

    /** Read-through with the `MEDIUM` ttl, in front of the caching
      * repository. */
    method GetTransactions(userId: string, filters: Option<TransactionFilters>, pageSize: Option<nat>, hasLastDoc: bool, now: int)
      returns (r: Result<Page>)
      modifies repository.cache, repository.service
      ensures var cache, service := repository.cache, repository.service;
              var key := TR.PageKey(userId, filters, pageSize, hasLastDoc);
              var hit := TR.PageHit(cache.failing, old(cache.storage), key, now);
              if hit.Some? then
                r == Ok(hit.value) && service.calls == old(service.calls)
                && cache.storage == AfterRead(cache.failing, old(cache.storage), key, now)
              else
                service.calls == old(service.calls) + 1
                && if service.failing then
                     r.Err? && cache.storage == AfterRead(cache.failing, old(cache.storage), key, now)
                   else
                     r == Ok(service.pages(userId, filters, pageSize, hasLastDoc))
                     && cache.storage == AfterFill(cache.failing, old(cache.storage), key, PageValue(r.value), now, CacheKeys.MEDIUM)
    {
      var cache := repository.cache;
      var key := TR.PageKey(userId, filters, pageSize, hasLastDoc);
      ghost var st := cache.storage;
      var cached := Read(cache, key, now);
      if cached.Some? && cached.value.PageValue? {
        return Ok(cached.value.page);
      }
      ReadTwice(cache.failing, st, key, now);
      r := repository.GetTransactions(userId, filters, pageSize, hasLastDoc, now);
      if r.Ok? {
        FillAfterRead(cache.failing, st, key, PageValue(r.value), now, CacheKeys.MEDIUM);
        Fill(cache, key, PageValue(r.value), now, CacheKeys.MEDIUM);
      }
    }

    /** Never cached. */
    method GetTransactionById(id: string) returns (r: Result<Option<Transaction>>)
      modifies repository.service
      ensures repository.service.calls == old(repository.service.calls) + 1
      ensures r == if repository.service.failing then Err(TR.SERVICE_ERROR) else Ok(repository.service.byId(id))
    {
      r := repository.GetTransactionById(id);
    }

    /** After a successful create, every key containing
      * `transactions:{userId}` or `transaction_categories:{userId}` is gone. */
    method CreateTransaction(form: TransactionFormData, userId: string) returns (r: Result<Transaction>)
      modifies repository.cache, repository.service
      ensures repository.service.calls == old(repository.service.calls) + 1
      ensures r == if repository.service.failing then Err(TR.SERVICE_ERROR) else Ok(repository.service.created(form, userId))
      ensures repository.cache.storage ==
                if repository.service.failing || repository.cache.failing then old(repository.cache.storage)
                else WithoutMatching(old(repository.cache.storage), UserPatterns(userId))
    {
      ghost var st := repository.cache.storage;
      r := repository.CreateTransaction(form, userId);
      if r.Ok? {
        CoversInner(st, userId);
        InvalidateUserTransactionsCache(userId);
      }
    }

    /** The whole cache is cleared after a successful update. */
    method UpdateTransaction(id: string, patch: TransactionPatch) returns (r: Result<Transaction>)
      modifies repository.cache, repository.service
      ensures repository.service.calls == old(repository.service.calls) + 1
      ensures r == if repository.service.failing then Err(TR.SERVICE_ERROR) else Ok(repository.service.updated(id, patch))
      ensures repository.cache.storage ==
                if repository.service.failing || repository.cache.failing then old(repository.cache.storage)
                else Cleared(old(repository.cache.storage))
    {
      ghost var st := repository.cache.storage;
      r := repository.UpdateTransaction(id, patch);
      if r.Ok? {
        ClearTwice(st);
        repository.cache.Clear();
      }
    }

    /** The whole cache is cleared after a successful delete. */
    method DeleteTransaction(id: string) returns (r: Result<()>)
      modifies repository.cache, repository.service
      ensures repository.service.calls == old(repository.service.calls) + 1
      ensures r == if repository.service.failing then Err(TR.SERVICE_ERROR) else Ok(())
      ensures repository.cache.storage ==
                if repository.service.failing || repository.cache.failing then old(repository.cache.storage)
                else Cleared(old(repository.cache.storage))
    {
      ghost var st := repository.cache.storage;
      r := repository.DeleteTransaction(id);
      if r.Ok? {
        ClearTwice(st);
        repository.cache.Clear();
      }
    }

    /** Read-through with the `LONG` ttl. */
    method GetCategories(userId: string, now: int) returns (r: Result<seq<string>>)
      modifies repository.cache, repository.service
      ensures var cache, service := repository.cache, repository.service;
              var key := CacheKeys.TransactionCategories(userId);
              var hit := TR.CategoriesHit(cache.failing, old(cache.storage), key, now);
              if hit.Some? then
                r == Ok(hit.value) && service.calls == old(service.calls)
                && cache.storage == AfterRead(cache.failing, old(cache.storage), key, now)
              else
                service.calls == old(service.calls) + 1
                && if service.failing then
                     r.Err? && cache.storage == AfterRead(cache.failing, old(cache.storage), key, now)
                   else
                     r == Ok(service.categoriesOf(userId))
                     && cache.storage == AfterFill(cache.failing, old(cache.storage), key, CategoriesValue(r.value), now, CacheKeys.LONG)
    {
      var cache := repository.cache;
      var key := CacheKeys.TransactionCategories(userId);
      ghost var st := cache.storage;
      var cached := Read(cache, key, now);
      if cached.Some? && cached.value.CategoriesValue? {
        return Ok(cached.value.categories);
      }
      ReadTwice(cache.failing, st, key, now);
      r := repository.GetCategories(userId, now);
      if r.Ok? {
        FillAfterRead(cache.failing, st, key, CategoriesValue(r.value), now, CacheKeys.LONG);
        Fill(cache, key, CategoriesValue(r.value), now, CacheKeys.LONG);
      }
    }

    method InvalidateUserTransactionsCache(userId: string)
      modifies repository.cache
      ensures repository.cache.storage ==
                if repository.cache.failing then old(repository.cache.storage)
                else WithoutMatching(old(repository.cache.storage), UserPatterns(userId))
    {
      RemoveMatching(repository.cache, UserPatterns(userId));
    }
  }
}
