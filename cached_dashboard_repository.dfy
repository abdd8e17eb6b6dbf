/** The cached dashboard repository
  * (src/infrastructure/cache/CachedDashboardRepository.ts) over the remote
  * dashboard source, an object whose answers are fixed functions of the
  * request. */
module CachedDashboardRepository {
  import opened Wrappers
  import Text
  import opened Entities
  import CacheKeys
  import opened CacheService
  import opened RepositoryCache

  const SOURCE_ERROR: string := "Erro ao carregar dados do dashboard"

  function DataKey(userId: string, period: Period, month: string): string
  {
    CacheKeys.DashboardData(userId, PeriodName(period), month)
  }

  function ChartsKey(userId: string, period: Period, month: string): string
  {
    CacheKeys.DashboardCharts(userId, PeriodName(period), month)
  }

  /** The substrings `invalidateCache` matches: one dashboard entry when both
    * `period` and `month` are non-empty, else everything of the user. */
  function InvalidationPatterns(userId: string, period: Option<string>, month: Option<string>): seq<string>
  {
    if period.Some? && period.value != "" && month.Some? && month.value != "" then
      [CacheKeys.DashboardData(userId, period.value, month.value),
       CacheKeys.DashboardCharts(userId, period.value, month.value)]
    else
      ["dashboard:" + userId, "dashboard_charts:" + userId]
  }

  function DataHit(failing: bool, st: Store<CacheValue>, key: string, now: int): Option<DashboardData>
  {
    match Hit(failing, st, key, now)
    case Some(DashboardValue(d)) => Some(d)
    case _ => None
  }

  function ChartsHit(failing: bool, st: Store<CacheValue>, key: string, now: int): Option<seq<ChartData>>
  {
    match Hit(failing, st, key, now)
    case Some(ChartsValue(c)) => Some(c)
    case _ => None
  }

  /** A scoped invalidation removes that period and month's data and charts. */
  lemma {:induction false} ScopedInvalidationRemoves(st: Store<CacheValue>, userId: string, period: Period, month: string)
    requires month != ""
    ensures PREFIX + DataKey(userId, period, month)
            !in WithoutMatching(st, InvalidationPatterns(userId, Some(PeriodName(period)), Some(month)))
    ensures PREFIX + ChartsKey(userId, period, month)
            !in WithoutMatching(st, InvalidationPatterns(userId, Some(PeriodName(period)), Some(month)))
  {
    var pats := InvalidationPatterns(userId, Some(PeriodName(period)), Some(month));
    assert PeriodName(period) != "";
    Text.ContainsInfix(PREFIX, pats[0], []);
    assert PREFIX + pats[0] + [] == PREFIX + DataKey(userId, period, month);
    Text.ContainsInfix(PREFIX, pats[1], []);
    assert PREFIX + pats[1] + [] == PREFIX + ChartsKey(userId, period, month);
  }

  /** An unscoped invalidation removes the user's data for every period and
    * month. */
  lemma {:induction false} FullInvalidationRemovesData(st: Store<CacheValue>, userId: string, period: Period, month: string, p: Option<string>, m: Option<string>)
    requires !(p.Some? && p.value != "" && m.Some? && m.value != "")
    ensures PREFIX + DataKey(userId, period, month) !in WithoutMatching(st, InvalidationPatterns(userId, p, m))
  {
    var pats := InvalidationPatterns(userId, p, m);
    var rest := ":" + PeriodName(period) + ":" + month;
    Text.ContainsInfix(PREFIX, pats[0], rest);
    assert PREFIX + pats[0] + rest == PREFIX + DataKey(userId, period, month);
  }

  /** An unscoped invalidation removes the user's charts for every period and
    * month. */
  lemma {:induction false} FullInvalidationRemovesCharts(st: Store<CacheValue>, userId: string, period: Period, month: string, p: Option<string>, m: Option<string>)
    requires !(p.Some? && p.value != "" && m.Some? && m.value != "")
    ensures PREFIX + ChartsKey(userId, period, month) !in WithoutMatching(st, InvalidationPatterns(userId, p, m))
  {
    var pats := InvalidationPatterns(userId, p, m);
    var rest := ":" + PeriodName(period) + ":" + month;
    Text.ContainsInfix(PREFIX, pats[1], rest);
    assert PREFIX + pats[1] + rest == PREFIX + ChartsKey(userId, period, month);
  }

  /** The remote dashboard source. */
  class DashboardSource {
    var calls: nat
    const failing: bool
    const dataOf: (string, Period, string) -> DashboardData
    const chartsOf: (string, Period, string) -> seq<ChartData>

    constructor (failing: bool, dataOf: (string, Period, string) -> DashboardData, chartsOf: (string, Period, string) -> seq<ChartData>)
      ensures calls == 0 && this.failing == failing && this.dataOf == dataOf && this.chartsOf == chartsOf
    {
      calls := 0;
      this.failing := failing;
      this.dataOf := dataOf;
      this.chartsOf := chartsOf;
    }

    method GetDashboardData(userId: string, period: Period, month: string) returns (r: Result<DashboardData>)
      modifies this
      ensures calls == old(calls) + 1
      ensures r == if failing then Err(SOURCE_ERROR) else Ok(dataOf(userId, period, month))
    {
      calls := calls + 1;
      r := if failing then Err(SOURCE_ERROR) else Ok(dataOf(userId, period, month));
    }

    method GetChartData(userId: string, period: Period, month: string) returns (r: Result<seq<ChartData>>)
      modifies this
      ensures calls == old(calls) + 1
      ensures r == if failing then Err(SOURCE_ERROR) else Ok(chartsOf(userId, period, month))
    {
      calls := calls + 1;
      r := if failing then Err(SOURCE_ERROR) else Ok(chartsOf(userId, period, month));
    }
  }

  class CachedDashboardRepository {
    const cache: Cache<CacheValue>
    const source: DashboardSource

    constructor (cache: Cache<CacheValue>, source: DashboardSource)
      ensures this.cache == cache && this.source == source
    {
      this.cache := cache;
      this.source := source;
    }

    /** Read-through under `DASHBOARD_DATA` with the `MEDIUM` ttl. */
    method GetDashboardData(userId: string, period: Period, month: string, now: int) returns (r: Result<DashboardData>)
      modifies cache, source
      ensures var key := DataKey(userId, period, month);
              var hit := DataHit(cache.failing, old(cache.storage), key, now);
              if hit.Some? then
                r == Ok(hit.value) && source.calls == old(source.calls)
                && cache.storage == AfterRead(cache.failing, old(cache.storage), key, now)
              else
                source.calls == old(source.calls) + 1
                && if source.failing then
                     r.Err? && cache.storage == AfterRead(cache.failing, old(cache.storage), key, now)
                   else
                     r == Ok(source.dataOf(userId, period, month))
                     && cache.storage == AfterFill(cache.failing, old(cache.storage), key, DashboardValue(r.value), now, CacheKeys.MEDIUM)
    {
      var key := DataKey(userId, period, month);
      var cached := Read(cache, key, now);
      if cached.Some? && cached.value.DashboardValue? {
        return Ok(cached.value.dashboard);
      }
      r := source.GetDashboardData(userId, period, month);
      if r.Ok? {
        Fill(cache, key, DashboardValue(r.value), now, CacheKeys.MEDIUM);
      }
    }

    /** Read-through under `DASHBOARD_CHARTS` with the `MEDIUM` ttl. */
    method GetChartData(userId: string, period: Period, month: string, now: int) returns (r: Result<seq<ChartData>>)
      modifies cache, source
      ensures var key := ChartsKey(userId, period, month);
              var hit := ChartsHit(cache.failing, old(cache.storage), key, now);
              if hit.Some? then
                r == Ok(hit.value) && source.calls == old(source.calls)
                && cache.storage == AfterRead(cache.failing, old(cache.storage), key, now)
              else
                source.calls == old(source.calls) + 1
                && if source.failing then
                     r.Err? && cache.storage == AfterRead(cache.failing, old(cache.storage), key, now)
                   else
                     r == Ok(source.chartsOf(userId, period, month))
                     && cache.storage == AfterFill(cache.failing, old(cache.storage), key, ChartsValue(r.value), now, CacheKeys.MEDIUM)
    {
      var key := ChartsKey(userId, period, month);
      var cached := Read(cache, key, now);
      if cached.Some? && cached.value.ChartsValue? {
        return Ok(cached.value.charts);
      }
      r := source.GetChartData(userId, period, month);
      if r.Ok? {
        Fill(cache, key, ChartsValue(r.value), now, CacheKeys.MEDIUM);
      }
    }

    /** Storage errors are swallowed: a failing store is left as it is. */
    method InvalidateCache(userId: string, period: Option<string>, month: Option<string>)
      modifies cache
      ensures cache.storage == if cache.failing then old(cache.storage)
                               else WithoutMatching(old(cache.storage), InvalidationPatterns(userId, period, month))
    {
      RemoveMatching(cache, InvalidationPatterns(userId, period, month));
    }
  }
}
