/** What the cached repositories keep in the shared cache, and the two
  * cache steps they share: the read-through lookup and fill, and the
  * removal of every stored key that contains one of a list of patterns
  * (`getAllKeys`, `filter(key => key.includes(...))`, `multiRemove`, with
  * errors swallowed). */
module RepositoryCache {
  import opened Wrappers
  import Text
  import opened Entities
  import opened CacheService

  /** One page of the transaction list as the repositories return it. The
    * Firestore cursor is not part of the model. */
  datatype Page = Page(transactions: seq<Transaction>, hasMore: bool)

  /** The kinds of value the repositories cache. */
  datatype CacheValue =
    | PageValue(page: Page)
    | CategoriesValue(categories: seq<string>)
    | DashboardValue(dashboard: DashboardData)
    | ChartsValue(charts: seq<ChartData>)

  /** What `CacheService.get(key)` hands the repository: nothing when the
    * store fails. */
  function Hit(failing: bool, st: Store<CacheValue>, key: string, now: int): Option<CacheValue>
  {
    if failing then None else Lookup(st, key, now)
  }

  /** The store after that `get`. */
  function AfterRead(failing: bool, st: Store<CacheValue>, key: string, now: int): Store<CacheValue>
  {
    if failing then st else AfterGet(st, key, now)
  }

  /** The store after a miss whose fetch returned `v`, stored with `ttl`. */
  function AfterFill(failing: bool, st: Store<CacheValue>, key: string, v: CacheValue, now: int, ttl: int): Store<CacheValue>
  {
    if failing then st else st[PREFIX + key := Entry(v, now, ttl)]
  }

  predicate MatchesAny(k: string, patterns: seq<string>)
  {
    exists i | 0 <= i < |patterns| :: Text.Contains(k, patterns[i])
  }

  /** The store after removing every key that contains one of `patterns`. */
  function WithoutMatching(st: Store<CacheValue>, patterns: seq<string>): Store<CacheValue>
  {
    map k | k in st && !MatchesAny(k, patterns) :: st[k]
  }

  /** A second `get` at the same time finds what the first one found, and
    * leaves the store as the first one left it. */
  lemma {:induction false} ReadTwice(failing: bool, st: Store<CacheValue>, key: string, now: int)
    ensures Hit(failing, AfterRead(failing, st, key, now), key, now) == Hit(failing, st, key, now)
    ensures AfterRead(failing, AfterRead(failing, st, key, now), key, now) == AfterRead(failing, st, key, now)
  {
    if !failing {
      GetPreservesLookups(st, key, key, now);
    }
  }

  /** Filling after a read is the same as filling the original store. */
  lemma {:induction false} FillAfterRead(failing: bool, st: Store<CacheValue>, key: string, v: CacheValue, now: int, ttl: int)
    ensures AfterFill(failing, AfterRead(failing, st, key, now), key, v, now, ttl) == AfterFill(failing, st, key, v, now, ttl)
  {
  }

  /** A filled value is served back by every read until its ttl has
    * elapsed. */
  lemma {:induction false} FilledIsServed(st: Store<CacheValue>, key: string, v: CacheValue, now: int, ttl: int, later: int)
    requires later - now <= ttl
    ensures Hit(false, AfterFill(false, st, key, v, now, ttl), key, later) == Some(v)
  {
  }

  /** Removing with `PREFIX + p` patterns and then with the `p` patterns
    * removes exactly what the `p` patterns alone remove. */
  lemma {:induction false} RemoveTwice(st: Store<CacheValue>, patterns: seq<string>, prefix: string, prefixed: seq<string>)
    requires |prefixed| == |patterns|
    requires forall i :: 0 <= i < |patterns| ==> prefixed[i] == prefix + patterns[i]
    ensures WithoutMatching(WithoutMatching(st, prefixed), patterns) == WithoutMatching(st, patterns)
  {
    forall k | k in st && MatchesAny(k, prefixed)
      ensures MatchesAny(k, patterns)
    {
      var i :| 0 <= i < |prefixed| && Text.Contains(k, prefixed[i]);
      Text.ContainsTail(k, prefix, patterns[i]);
    }
  }

  /** `Cleared` is idempotent. */
  lemma {:induction false} ClearTwice(st: Store<CacheValue>)
    ensures Cleared(Cleared(st)) == Cleared(st)
  {
  }

  /** The read-through lookup: `CacheService.get(key)`. */
  method Read(cache: Cache<CacheValue>, key: string, now: int) returns (hit: Option<CacheValue>)
    modifies cache
    ensures hit == Hit(cache.failing, old(cache.storage), key, now)
    ensures cache.storage == AfterRead(cache.failing, old(cache.storage), key, now)
  {
    hit := cache.Get(key, now);
  }

  /** The read-through fill: `CacheService.set(key, v, ttl)`. */
  method Fill(cache: Cache<CacheValue>, key: string, v: CacheValue, now: int, ttl: int)
    modifies cache
    ensures cache.storage == AfterFill(cache.failing, old(cache.storage), key, v, now, ttl)
  {
    cache.Set(key, v, now, ttl);
  }

  /** Remove every stored key containing one of `patterns`; a failing store
    * is left as it is. */
  method RemoveMatching(cache: Cache<CacheValue>, patterns: seq<string>)
    modifies cache
    ensures cache.storage == if cache.failing then old(cache.storage) else WithoutMatching(old(cache.storage), patterns)
  {
    if !cache.failing {
      var doomed := set k | k in cache.storage && MatchesAny(k, patterns);
      var kept := map k | k in cache.storage && k !in doomed :: cache.storage[k];
      assert kept == WithoutMatching(cache.storage, patterns);
      if doomed != {} {
        cache.storage := kept;
      } else {
        assert kept == cache.storage;
      }
    }
  }
}
