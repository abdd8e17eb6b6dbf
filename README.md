# ByteBank core in Dafny

ByteBank is a personal-finance mobile application: a user signs in, records
income, expenses and investments, and reads a dashboard of totals, top
categories, trends and charts. This project models the core of its client
and proves properties of the model:

- **Cache** (`CacheKeys`, `CacheService`, `RepositoryCache`,
  `CachedTransactionRepository`, `CachedDashboardRepository`): the key
  scheme and time-to-live tiers, the TTL cache over the device key-value
  store, and the read-through repositories with their invalidation by key
  pattern. The cache and the repositories are classes whose fields the
  operations update.
- **Repositories** (`TransactionRepository`): the read-through repository
  over the remote transaction service.
- **Security** (`SecureStorage`, `SessionManager`): the credential store over
  the encrypted key-value store, and the session life cycle with its
  24-hour expiry and single renewal timer.
- **Reactive views** (`Streams`, `TransactionObservable`,
  `DashboardObservable`): the live transaction list (document mapping with
  defaults, client filters, newest first) and the live dashboard computed
  from each emission.
- **State** (`AuthSlice`, `DashboardSlice`, `TransactionsSlice`,
  `TransactionsSelectors`): the reducers of the three state slices, as
  classes updated in place, their thunks' user-id resolution, and the
  memoised selectors.
- **Services** (`FirebaseTransactionService`, `FirebaseDashboardService`,
  `FirebaseAuthService`, `TransactionService`, `DashboardService`): what the
  Firestore and REST clients compute from the records a query answers
  (page, statistics, recent records, top categories, date ranges, line and
  investment charts, trends, metrics), and the account client's error-code
  table and profile shaping.
- **Rules** (`Validation`, `FormValidation`, `Sanitization`, `Categories`,
  `TransactionUseCases`, `DashboardUseCases`, `AuthUseCases`): the field
  validators and the form hook, the input sanitisers, the fixed category
  list, and the business rules each use case checks before calling its
  repository.
- **Support** (`Wrappers`, `Text`, `Numbers`, `Dates`, `JsValues`,
  `Sorting`, `Grouping`, `Entities`): the JavaScript built-ins the code
  relies on (`trim`, `toLowerCase`, `split`, `parseInt`, `Date` arithmetic
  at day granularity, truthiness, a stable `sort`, `filter`/`reduce`,
  grouping through a `Map`) and the shared records.

Clocks, the locale, the SDKs and the network are inputs: the time is a
parameter (`now` in epoch milliseconds, or the current calendar day), and
what a remote call answers is a parameter or a stand-in object whose
answers are fixed functions of the request.

## Model

| member | source | states |
|---|---|---|
| CacheKeys.Transactions | src/infrastructure/cache/CacheKeys.ts:6-7 | the key of a user's transaction list starts with `transactions:` followed by the user id |
| CacheKeys.TransactionsDefaultFilter | src/infrastructure/cache/CacheKeys.ts:6-7 | an absent or empty filter string gives the same key as the filter `all`, namely `transactions:{userId}:all` |
| CacheKeys.DashboardKeysInjective | src/infrastructure/cache/CacheKeys.ts:16-20 | for one user, equal dashboard (or chart) keys mean equal period and month, when neither contains `:` |
| CacheKeys.CategoriesNotTransactions | src/infrastructure/cache/CacheKeys.ts:6-13 | the categories key never starts with `transactions:` |
| CacheKeys.KeyFamiliesDisjoint | src/infrastructure/cache/CacheKeys.ts:6-20 | the transaction-list, categories, dashboard and chart keys never coincide, whatever their arguments |
| CacheService.SetThenGet | src/infrastructure/cache/CacheService.ts:15-28 | an item just written is returned by `get` while its age is at most its ttl, and `get` leaves the store as it was |
| CacheService.GetExpired | src/infrastructure/cache/CacheService.ts:44-50 | once the age exceeds the ttl, `get` returns nothing and removes exactly that prefixed key |
| CacheService.GetRaw | src/infrastructure/cache/CacheService.ts:42-56 | text that does not parse as an item reads as absent and stays in the store |
| CacheService.GetPreservesLookups | src/infrastructure/cache/CacheService.ts:33-57 | a `get` never changes what any later `get` at the same time returns |
| CacheService.ClearedExact | src/infrastructure/cache/CacheService.ts:74-82 | `clear` removes exactly the keys with the `@bytebank_cache:` prefix and keeps every other key and value |
| CacheService.SweptExact | src/infrastructure/cache/CacheService.ts:95-126 | after `clearExpired` no prefixed slot is expired or unparsable, every other slot survives unchanged, and no key is added |
| CacheService.SweptLookups | src/infrastructure/cache/CacheService.ts:95-126 | `clearExpired` changes no result of `get` at the same time, and a second sweep changes nothing |
| CacheService.ClearedSize | src/infrastructure/cache/CacheService.ts:131-149 | after `clear` (lines 74-82), `getSize` reports 0 |
| CacheService.Cache.constructor | src/infrastructure/cache/CacheService.ts:9-10 | the cache starts over the given store |
| CacheService.Cache.Set | src/infrastructure/cache/CacheService.ts:15-28 | the prefixed key holds the item stamped with the current time; a failing write changes nothing and is not reported; the ttl defaults to five minutes |
| CacheService.Cache.Get | src/infrastructure/cache/CacheService.ts:33-57 | the result and the new store are those of the lookup function: missing, unparsable or expired items give nothing, and only an expired one is removed |
| CacheService.Cache.Remove | src/infrastructure/cache/CacheService.ts:62-69 | the prefixed key is gone and nothing else changes; a failure is swallowed |
| CacheService.Cache.Clear | src/infrastructure/cache/CacheService.ts:74-82 | the new store is the old one without its prefixed keys |
| CacheService.Cache.Has | src/infrastructure/cache/CacheService.ts:87-90 | true exactly when `get` would return a value, with the same removal of an expired item |
| CacheService.Cache.ClearExpired | src/infrastructure/cache/CacheService.ts:95-126 | the loop collects exactly the stale prefixed keys and the store loses exactly those |
| CacheService.Cache.GetSize | src/infrastructure/cache/CacheService.ts:131-149 | the sum of the stored text lengths over the prefixed keys, expired ones included; 0 when the store fails |
| RepositoryCache.ReadTwice | src/infrastructure/cache/CachedTransactionRepository.ts:29-36 | after the outer repository misses, the inner repository's lookup of the same key at the same time also misses and leaves the store as the first lookup left it |
| RepositoryCache.FillAfterRead | src/infrastructure/cache/CachedTransactionRepository.ts:36-39 | writing the fetched value after a lookup gives the same store as writing it without the lookup, so the outer and inner fills agree |
| RepositoryCache.FilledIsServed | src/infrastructure/cache/CachedTransactionRepository.ts:29-39 | a value filled at one time is served by every later lookup whose age is within the ttl |
| RepositoryCache.RemoveTwice | src/infrastructure/cache/CachedTransactionRepository.ts:102-116 | removing the keys that contain the prefixed patterns and then those that contain the bare patterns removes exactly what the bare patterns remove |
| RepositoryCache.ClearTwice | src/infrastructure/cache/CachedTransactionRepository.ts:59-74 | clearing the cache twice leaves what clearing once leaves |
| RepositoryCache.Read | src/infrastructure/data/repositories/TransactionRepository.ts:23-26 | the lookup answers what `CacheService.get` answers, nothing when the store fails, and leaves the store `get` leaves |
| RepositoryCache.Fill | src/infrastructure/data/repositories/TransactionRepository.ts:32 | the fetched value is stored under the prefixed key with the current time and the given ttl; a failing store is left unchanged |
| RepositoryCache.RemoveMatching | src/infrastructure/data/repositories/TransactionRepository.ts:91-105 | exactly the keys containing one of the patterns are removed, all others keep their values, and a failing store is left unchanged |
| TransactionRepository.NoFiltersKey | src/infrastructure/data/repositories/TransactionRepository.ts:16-20 | without filters the page key is `transactions:{userId}:no-filters`, whatever the page size and cursor |
| TransactionRepository.CursorInKey | src/infrastructure/data/repositories/TransactionRepository.ts:16-20 | with filters, a page with a cursor and one without have different keys, and neither equals the unfiltered key |
| TransactionRepository.ListKeyMatches | src/infrastructure/data/repositories/TransactionRepository.ts:94-96 | every prefixed list key of a user contains `@bytebank_cache:transactions:{userId}` |
| TransactionRepository.UserPagesRemoved | src/infrastructure/data/repositories/TransactionRepository.ts:91-105 | invalidating a user removes every cached page of that user, whatever its filters, page size and cursor |
| TransactionRepository.UserCategoriesRemoved | src/infrastructure/data/repositories/TransactionRepository.ts:91-105 | invalidating a user removes that user's cached category list |
| TransactionRepository.ExtendingUserCollides | src/infrastructure/data/repositories/TransactionRepository.ts:94-96 | the substring match reaches other users: invalidating user `ab` also removes the pages of user `abc` |
| TransactionRepository.TransactionRepository.constructor | src/infrastructure/data/repositories/TransactionRepository.ts:8 | the repository works over the given cache and remote service |
| TransactionRepository.TransactionRepository.GetTransactions | src/infrastructure/data/repositories/TransactionRepository.ts:9-35 | a cached page is returned without calling the service; a miss calls it once, and a successful answer is cached for `MEDIUM` and returned; a refused call is reported and caches nothing |
| TransactionRepository.TransactionRepository.GetTransactionById | src/infrastructure/data/repositories/TransactionRepository.ts:37-39 | one call to the service, whose answer is returned; the cache is not touched |
| TransactionRepository.TransactionRepository.CreateTransaction | src/infrastructure/data/repositories/TransactionRepository.ts:41-48 | one call to the service; on success the result is returned and the user's cached keys are removed; on failure the cache is unchanged |
| TransactionRepository.TransactionRepository.UpdateTransaction | src/infrastructure/data/repositories/TransactionRepository.ts:50-57 | one call to the service; on success the whole cache is cleared and the updated record returned |
| TransactionRepository.TransactionRepository.DeleteTransaction | src/infrastructure/data/repositories/TransactionRepository.ts:59-64 | one call to the service; on success the whole cache is cleared |
| TransactionRepository.TransactionRepository.GetCategories | src/infrastructure/data/repositories/TransactionRepository.ts:70-86 | a cached category list is returned without calling the service; a miss calls it once and caches its answer for `LONG` |
| TransactionRepository.TransactionRepository.InvalidateUserCache | src/infrastructure/data/repositories/TransactionRepository.ts:91-105 | the store loses exactly the keys containing the user's prefixed list or categories pattern; a failing store is left unchanged |
| CachedTransactionRepository.ReachesOtherStorage | src/infrastructure/cache/CachedTransactionRepository.ts:102-116 | without the cache prefix the patterns also remove keys outside the cache, such as `backup_transactions:{userId}` |
| CachedTransactionRepository.CoversInner | src/infrastructure/cache/CachedTransactionRepository.ts:50-57 | the outer invalidation removes everything the inner repository's invalidation removed, so the pair removes what the outer patterns alone remove |
| CachedTransactionRepository.CachedTransactionRepository.constructor | src/infrastructure/cache/CachedTransactionRepository.ts:11-13 | the cached repository wraps the given caching repository |
| CachedTransactionRepository.CachedTransactionRepository.GetTransactions | src/infrastructure/cache/CachedTransactionRepository.ts:15-42 | a page cached under the key built from filters, page size and cursor is returned without any service call; on a miss the inner repository also misses, the service is called exactly once, and its page is cached for `MEDIUM` |
| CachedTransactionRepository.CachedTransactionRepository.GetTransactionById | src/infrastructure/cache/CachedTransactionRepository.ts:44-48 | passed to the inner repository uncached: one service call, its answer returned |
| CachedTransactionRepository.CachedTransactionRepository.CreateTransaction | src/infrastructure/cache/CachedTransactionRepository.ts:50-57 | one service call; on success every key containing `transactions:{userId}` or `transaction_categories:{userId}` is gone and all others remain |
| CachedTransactionRepository.CachedTransactionRepository.UpdateTransaction | src/infrastructure/cache/CachedTransactionRepository.ts:59-67 | one service call; on success the store is the old one without its prefixed keys |
| CachedTransactionRepository.CachedTransactionRepository.DeleteTransaction | src/infrastructure/cache/CachedTransactionRepository.ts:69-74 | one service call; on success the store is the old one without its prefixed keys |
| CachedTransactionRepository.CachedTransactionRepository.GetCategories | src/infrastructure/cache/CachedTransactionRepository.ts:80-97 | a cached category list is returned without a service call; on a miss the service is called once and its answer cached for `LONG` |
| CachedTransactionRepository.CachedTransactionRepository.InvalidateUserTransactionsCache | src/infrastructure/cache/CachedTransactionRepository.ts:102-116 | exactly the keys containing one of the two unprefixed user patterns are removed; a failing store is left unchanged |
| CachedDashboardRepository.ScopedInvalidationRemoves | src/infrastructure/cache/CachedDashboardRepository.ts:69-74 | with a non-empty period and month, the cached data and charts of that period and month are removed |
| CachedDashboardRepository.FullInvalidationRemovesData | src/infrastructure/cache/CachedDashboardRepository.ts:75-81 | when the period or month is absent or empty, the user's cached dashboard data is removed for every period and month |
| CachedDashboardRepository.FullInvalidationRemovesCharts | src/infrastructure/cache/CachedDashboardRepository.ts:75-81 | when the period or month is absent or empty, the user's cached charts are removed for every period and month |
| CachedDashboardRepository.CachedDashboardRepository.constructor | src/infrastructure/cache/CachedDashboardRepository.ts:11-13 | the repository works over the given cache and dashboard source |
| CachedDashboardRepository.CachedDashboardRepository.GetDashboardData | src/infrastructure/cache/CachedDashboardRepository.ts:15-36 | a hit under `dashboard:{userId}:{period}:{month}` is returned without calling the source; a miss calls it once and caches its answer for `MEDIUM`; a refused call caches nothing |
| CachedDashboardRepository.CachedDashboardRepository.GetChartData | src/infrastructure/cache/CachedDashboardRepository.ts:38-59 | the same read-through under `dashboard_charts:{userId}:{period}:{month}` |
| CachedDashboardRepository.CachedDashboardRepository.InvalidateCache | src/infrastructure/cache/CachedDashboardRepository.ts:64-89 | exactly the keys that contain one of the scoped or unscoped patterns are removed, and a storage failure leaves the store unchanged |
| SecureStorage.PutThenGet | src/infrastructure/security/SecureStorageService.ts:148-167 | a value written under an accepted name is read back, and a write changes what no other name reads |
| SecureStorage.ExpiryRoundTrip | src/infrastructure/security/SecureStorageService.ts:90-112 | an expiry written with `toString` is read back by `parseInt(…, 10)` as the same integer |
| SecureStorage.ValidUntilExpiry | src/infrastructure/security/SecureStorageService.ts:117-127 | after a non-zero expiry is stored, the session is valid exactly while the time is before it |
| SecureStorage.ClearedAuth | src/infrastructure/security/SecureStorageService.ts:132-143 | when no delete is rejected, no auth name can be read afterwards, every other name reads as before, and the expiry is absent |
| SecureStorage.SecureStore.constructor | src/infrastructure/security/SecureStorageService.ts:9-13 | the store starts with the given items and the names the platform rejects |
| SecureStorage.SecureStore.Write | src/infrastructure/security/SecureStorageService.ts:148-155 | an accepted write stores the value under the name; a rejected one throws the given message and changes nothing |
| SecureStorage.SecureStore.Read | src/infrastructure/security/SecureStorageService.ts:160-167 | the stored value, or null when the name is absent or the read is rejected |
| SecureStorage.SecureStore.SetToken | src/infrastructure/security/SecureStorageService.ts:18-25 | the token is stored under `auth_token`; a rejected write throws `Falha ao salvar token de autenticação` |
| SecureStorage.SecureStore.GetToken | src/infrastructure/security/SecureStorageService.ts:30-37 | what is stored under `auth_token`, null on absence or error |
| SecureStorage.SecureStore.SetRefreshToken | src/infrastructure/security/SecureStorageService.ts:42-49 | the token is stored under `refresh_token`; a rejected write throws `Falha ao salvar refresh token` |
| SecureStorage.SecureStore.GetRefreshToken | src/infrastructure/security/SecureStorageService.ts:54-61 | what is stored under `refresh_token`, null on absence or error |
| SecureStorage.SecureStore.SetUserId | src/infrastructure/security/SecureStorageService.ts:66-73 | the id is stored under `user_id`; a rejected write throws `Falha ao salvar ID do usuário` |
| SecureStorage.SecureStore.GetUserId | src/infrastructure/security/SecureStorageService.ts:78-85 | what is stored under `user_id`, null on absence or error |
| SecureStorage.SecureStore.SetSessionExpiry | src/infrastructure/security/SecureStorageService.ts:90-99 | the decimal text of the expiry is stored under `session_expiry`; a rejected write is swallowed and changes nothing |
| SecureStorage.SecureStore.GetSessionExpiry | src/infrastructure/security/SecureStorageService.ts:104-112 | an absent or empty value gives null, otherwise the `parseInt` reading, `NaN` included |
| SecureStorage.SecureStore.IsSessionValid | src/infrastructure/security/SecureStorageService.ts:117-127 | false for a missing, `NaN` or zero expiry, otherwise whether the time is strictly before the expiry |
| SecureStorage.SecureStore.ClearAuthData | src/infrastructure/security/SecureStorageService.ts:132-143 | the four auth names are deleted except those whose delete is rejected; every other name keeps its value; errors are swallowed |
| SecureStorage.SecureStore.SetItem | src/infrastructure/security/SecureStorageService.ts:148-155 | the value is stored under the name; a rejected write throws `Falha ao salvar {key}` |
| SecureStorage.SecureStore.GetItem | src/infrastructure/security/SecureStorageService.ts:160-167 | what is stored under the name, null on absence or error |
| SecureStorage.SecureStore.RemoveItem | src/infrastructure/security/SecureStorageService.ts:172-178 | the name is removed unless the delete is rejected, which is swallowed; nothing else changes |
| SessionManager.InitializedSessionValid | src/infrastructure/security/SessionManager.ts:20-68 | a session initialised at some time validates exactly during the following 24 hours, as long as the provider keeps the user |
| SessionManager.RenewalExtends | src/infrastructure/security/SessionManager.ts:73-101 | a successful renewal stores the new token and makes the session valid exactly until 24 hours after the renewal |
| SessionManager.ClearedSessionInvalid | src/infrastructure/security/SessionManager.ts:141-148 | after the session is cleared, validation fails for want of a token, whatever the provider says |
| SessionManager.SessionManager.constructor | src/infrastructure/security/SessionManager.ts:13 | the manager starts over the given store with no renewal timer |
| SessionManager.SessionManager.StartTokenRefresh | src/infrastructure/security/SessionManager.ts:106-126 | any previous timer is replaced by a fresh one, so at most one exists |
| SessionManager.SessionManager.StopTokenRefresh | src/infrastructure/security/SessionManager.ts:131-136 | no timer remains |
| SessionManager.SessionManager.ClearSession | src/infrastructure/security/SessionManager.ts:141-148 | the timer is stopped and the auth names are deleted from the store |
| SessionManager.SessionManager.InitializeSession | src/infrastructure/security/SessionManager.ts:20-36 | the token, the user id and an expiry 24 hours ahead are stored and a timer started; a failed token or user id write is rethrown, leaves the writes before it in place and starts no timer |
| SessionManager.SessionManager.ValidateSession | src/infrastructure/security/SessionManager.ts:41-68 | true exactly when a token is stored, the session has not expired and a user is signed in; an expired session or a missing user clears the session, an empty token or a failing profile read answers false and keeps everything |
| SessionManager.SessionManager.RefreshToken | src/infrastructure/security/SessionManager.ts:73-101 | on success the new token is returned and stored and the expiry moved to 24 hours ahead; without a user or token, or when storing fails, the session is cleared and null returned |
| SessionManager.SessionManager.Tick | src/infrastructure/security/SessionManager.ts:113-125 | one firing of the timer renews the token when the session validates, and otherwise stops the timer |
| SessionManager.SessionManager.GetValidToken | src/infrastructure/security/SessionManager.ts:153-165 | the stored token, non-empty, when the session validates, null otherwise, with the same clearing as validation |
| SessionManager.SessionManager.GetCurrentUserId | src/infrastructure/security/SessionManager.ts:170-177 | what is stored under `user_id`, null on absence or error |
| Streams.DistinctUntilChanged | src/infrastructure/reactive/TransactionObservable.ts:165-167 | the first value always passes, no two consecutive values let through are `same`, nothing is let through that did not arrive, and a stream with no two consecutive `same` values passes unchanged |
| Streams.DistinctFromStep | src/infrastructure/reactive/TransactionObservable.ts:165-167 | a value arriving after the stream so far is let through exactly when it is not `same` as the last value emitted (the seed when none was) |
| Streams.DistinctStep | src/infrastructure/reactive/TransactionObservable.ts:165-167 | nothing comes out of an empty stream, and a value arriving after a stream is let through exactly when nothing was emitted yet or it is not `same` as the last value emitted |
| TransactionObservable.MapDoc | src/infrastructure/reactive/TransactionObservable.ts:50-66 | the record keeps the document id; its type is the stored type when truthy, else the tag object's type, else `expense`, and never empty; missing description and category become empty, a missing amount 0 and a missing date the current instant |
| TransactionObservable.ActiveFiltersMatch | src/infrastructure/reactive/TransactionObservable.ts:68-127 | the chain of filters the handler applies, each only when its field is set, holds of a record exactly when every set filter holds of it |
| TransactionObservable.Snapshot | src/infrastructure/reactive/TransactionObservable.ts:129-136 | every emitted list is sorted by date, newest first |
| TransactionObservable.SnapshotContents | src/infrastructure/reactive/TransactionObservable.ts:47-136 | a snapshot emits exactly the mapped documents that satisfy the filters, each as often as it occurs, so the emission is a permutation of the filtered records |
| TransactionObservable.NoFiltersKeepsAll | src/infrastructure/reactive/TransactionObservable.ts:68-136 | without filters every mapped document is emitted |
| TransactionObservable.SearchFilters | src/infrastructure/reactive/TransactionObservable.ts:169 | the search variant sets the search term |
| TransactionObservable.SearchOnly | src/infrastructure/reactive/TransactionObservable.ts:161-173 | the search variant keeps a record exactly when the term is empty or the lower-cased description contains the lower-cased term |
| TransactionObservable.SameIdsIff | src/infrastructure/reactive/TransactionObservable.ts:181-185 | the distinct comparator says two lists are the same exactly when their id sequences are equal |
| TransactionObservable.DistinctSnapshots | src/infrastructure/reactive/TransactionObservable.ts:179-187 | the first snapshot always passes, consecutive emissions of the distinct stream differ in their id sequences, and each is one of the snapshots |
| TransactionObservable.DistinctSnapshotsStep | src/infrastructure/reactive/TransactionObservable.ts:179-187 | a new snapshot is let through exactly when none was emitted yet or its id sequence differs from the last one emitted |
| DashboardObservable.WeekWindow | src/infrastructure/reactive/DashboardObservable.ts:136-139 | the week window runs from the same time of day seven days back to now: a record dated the seventh day back counts only when now is exactly midnight, and records dated after today never count |
| DashboardObservable.InDayWindow | src/infrastructure/reactive/DashboardObservable.ts:155-158 | a window from midnight of one day to 23:59:59 of another holds exactly the records dated from the first day to the second |
| DashboardObservable.MonthBounds | src/infrastructure/reactive/DashboardObservable.ts:140-144 | for `YYYY-MM` with a month from 1 to 12 and a year outside 0-99, the bounds are midnight of the first and 23:59:59 of the last day of that month |
| DashboardObservable.MonthWindow | src/infrastructure/reactive/DashboardObservable.ts:140-158 | for such a month, a record is in the window exactly when its stored day lies in that month |
| DashboardObservable.YearBounds | src/infrastructure/reactive/DashboardObservable.ts:145-149 | for a year outside 0-99, the bounds are 1 January 00:00 and 31 December 23:59:59 |
| DashboardObservable.YearWindow | src/infrastructure/reactive/DashboardObservable.ts:145-158 | for such a year, a record is in the window exactly when its stored day lies in that year |
| DashboardObservable.SavingsRateBounds | src/infrastructure/reactive/DashboardObservable.ts:55 | the rate is 0 without positive income, at most 100 when expenses are not negative, and positive exactly when income exceeds expense |
| DashboardObservable.Shares | src/infrastructure/reactive/DashboardObservable.ts:90-94 | one share per entry, with its category and amount and its percentage of the total, 0 when the total is not positive |
| DashboardObservable.RankedCategories | src/infrastructure/reactive/DashboardObservable.ts:66-68 | the expense category totals reordered, greatest amount first |
| DashboardObservable.ExpenseTotalsDistinct | src/infrastructure/reactive/DashboardObservable.ts:58-64 | the category map holds each expense category once |
| DashboardObservable.ExpenseTotalsSums | src/infrastructure/reactive/DashboardObservable.ts:58-64 | each entry of the category map is an expense category with the sum of the amounts of its expenses |
| DashboardObservable.TopCategoriesShape | src/infrastructure/reactive/DashboardObservable.ts:66-69 | at most five top categories, each once, greatest amount first |
| DashboardObservable.TopCategoriesSums | src/infrastructure/reactive/DashboardObservable.ts:58-69 | every top category is an expense category carrying the sum of its expenses |
| DashboardObservable.TopCategoriesAreTop | src/infrastructure/reactive/DashboardObservable.ts:66-69 | no category left out has a greater amount than any category kept |
| DashboardObservable.Newest | src/infrastructure/reactive/DashboardObservable.ts:72-73 | the in-place sort of the window is a permutation of it ordered by date, newest first |
| DashboardObservable.RecentShape | src/infrastructure/reactive/DashboardObservable.ts:72-82 | the recent list has ten entries, or all of the window when it is smaller, newest first |
| DashboardObservable.RecentFrom | src/infrastructure/reactive/DashboardObservable.ts:75-82 | every recent entry is the projection of a record of the window |
| DashboardObservable.RecentDrawn | src/infrastructure/reactive/DashboardObservable.ts:75-82 | the recent list projects a newest-first selection of the window's records that repeats no record more often than the window holds it |
| DashboardObservable.RecentNewest | src/infrastructure/reactive/DashboardObservable.ts:72-74 | no record left out of the recent list is newer than one kept |
| DashboardObservable.Trend | src/infrastructure/reactive/DashboardObservable.ts:164-186 | the monthly entries, one per month of the records, sorted by month |
| DashboardObservable.TrendAscending | src/infrastructure/reactive/DashboardObservable.ts:178-185 | the months of the trend are unique and strictly ascending |
| DashboardObservable.TrendSums | src/infrastructure/reactive/DashboardObservable.ts:167-184 | each month carries the sum of its income, the sum of all its other records as expense, and their difference as balance |
| DashboardObservable.TrendCovers | src/infrastructure/reactive/DashboardObservable.ts:167-176 | the month of every record appears in the trend |
| DashboardObservable.FoldTrend | src/infrastructure/reactive/DashboardObservable.ts:169-175 | the running `{ income, expense }` of one month ends as the sums of its income and non-income amounts |
| DashboardObservable.TrendEntries | src/infrastructure/reactive/DashboardObservable.ts:165-184 | the map-building loop yields one entry per month, in order of first occurrence, with that month's totals |
| DashboardObservable.CalculateMonthlyTrend | src/infrastructure/reactive/DashboardObservable.ts:164-186 | the trend entries sorted by month, equal to `Trend` |
| DashboardObservable.DistributionDistinct | src/infrastructure/reactive/DashboardObservable.ts:191-208 | each expense category appears once in the distribution |
| DashboardObservable.DistributionSums | src/infrastructure/reactive/DashboardObservable.ts:194-199 | each distribution entry carries the sum of its category's expenses |
| DashboardObservable.DistributionZero | src/infrastructure/reactive/DashboardObservable.ts:201-206 | when the total of all categories is not positive every percentage is 0 |
| DashboardObservable.Aggregate | src/infrastructure/reactive/DashboardObservable.ts:32-111 | income and expense are the sums over the period window, balance their difference, the savings rate, top categories with percentages of the expense, recent records, trend and distribution taken after the in-place sort, an empty investment list and the cash flow, with `month` and the current month as defaults |
| DashboardObservable.DistinctDashboards | src/infrastructure/reactive/DashboardObservable.ts:112-119 | consecutive dashboards let through differ in balance, income or expense, the first always passes, and each was computed |
| DashboardObservable.DistinctDashboardsStep | src/infrastructure/reactive/DashboardObservable.ts:112-119 | a new dashboard is let through exactly when none was emitted yet or its balance, income or expense differs from the last one emitted |
| AuthSlice.Fallback | src/store/slices/authSlice/index.ts:102-177 | each request whose rejection records an error has its own non-empty fallback message; logout and the current-user check have none |
| AuthSlice.RejectionError | src/store/slices/authSlice/index.ts:102-177 | a rejection records the error's message when it is non-empty and otherwise the request's fallback, so the recorded error is never empty |
| AuthSlice.AuthState.constructor | src/store/slices/authSlice/index.ts:13-19 | nobody is signed in, there is no token or error, and loading is on while the stored session is checked |
| AuthSlice.AuthState.ClearError | src/store/slices/authSlice/index.ts:78-80 | the error is cleared and nothing else changes |
| AuthSlice.AuthState.SetToken | src/store/slices/authSlice/index.ts:81-87 | the token is stored, the state is authenticated exactly when the token is non-empty, and loading ends |
| AuthSlice.AuthState.Pending | src/store/slices/authSlice/index.ts:92-170 | for login, register, forgot-password, change-password and profile update, loading starts and the error is cleared; other requests change nothing |
| AuthSlice.AuthState.SignedIn | src/store/slices/authSlice/index.ts:96-116 | a fulfilled login or registration stores the user and token, marks the state authenticated and ends loading |
| AuthSlice.AuthState.LogoutFulfilled | src/store/slices/authSlice/index.ts:122-127 | the user and token are cleared, the state is not authenticated and loading ends; the error is kept |
| AuthSlice.AuthState.CurrentUserFulfilled | src/store/slices/authSlice/index.ts:129-135 | the answered user, null included, is stored and the state is marked authenticated either way |
| AuthSlice.AuthState.Done | src/store/slices/authSlice/index.ts:147-161 | a fulfilled password reset or change only ends loading |
| AuthSlice.AuthState.ProfileUpdated | src/store/slices/authSlice/index.ts:171-174 | the updated user is stored and loading ends; authentication is untouched |
| AuthSlice.AuthState.Rejected | src/store/slices/authSlice/index.ts:102-177 | a tracked request records its error and ends loading; a failed current-user check ends loading and un-authenticates; a failed logout changes nothing; user and token are never touched |
| AuthSlice.PendingThenRejected | src/store/slices/authSlice/index.ts:92-177 | a tracked request that starts and then fails leaves a non-empty error and no loading flag, and keeps the user, token and authentication |
| DashboardSlice.DataUser | src/store/slices/dashboardSlice/index.ts:33-44 | the auth state's user id, except that a signed-in state with a token but no user id takes the id the session store answers, and keeps its own when the store throws |
| DashboardSlice.ChartUser | src/store/slices/dashboardSlice/index.ts:64-84 | as for the data, and when the session store answers no id or throws, the provider's current user id when there is one |
| DashboardSlice.UserResolution | src/store/slices/dashboardSlice/index.ts:33-89 | a state holding a user id never consults a fallback; a state without token or authentication resolves a user exactly when it holds one; the chart thunk finds a user whenever the data thunk does |
| DashboardSlice.DashboardState.constructor | src/store/slices/dashboardSlice/index.ts:17-25 | no data, no charts, no loading, no error, the `month` period, the current month and the current year |
| DashboardSlice.DashboardState.SetSelectedPeriod | src/store/slices/dashboardSlice/index.ts:102-104 | only the selected period changes |
| DashboardSlice.DashboardState.SetSelectedMonth | src/store/slices/dashboardSlice/index.ts:105-107 | only the selected month changes |
| DashboardSlice.DashboardState.SetSelectedYear | src/store/slices/dashboardSlice/index.ts:108-110 | only the selected year changes |
| DashboardSlice.DashboardState.ClearDashboardData | src/store/slices/dashboardSlice/index.ts:111-114 | data and charts are emptied; selections and flags are kept |
| DashboardSlice.DashboardState.Pending | src/store/slices/dashboardSlice/index.ts:118-137 | loading starts and the error is cleared |
| DashboardSlice.DashboardState.DataFulfilled | src/store/slices/dashboardSlice/index.ts:123-127 | the data is stored and loading ends; the charts are kept |
| DashboardSlice.DashboardState.ChartsFulfilled | src/store/slices/dashboardSlice/index.ts:138-143 | the charts are stored and loading ends; the data is kept |
| DashboardSlice.DashboardState.Rejected | src/store/slices/dashboardSlice/index.ts:128-148 | loading ends and the error is the message when non-empty, else the fallback |
| DashboardSlice.DashboardState.FetchDashboardData | src/store/slices/dashboardSlice/index.ts:27-56 | without a resolved user the error is `Usuário não autenticado`; otherwise the use case's answer for that user, the period and the selected month becomes the data, or its message the error; loading ends and the charts and selections are kept |
| DashboardSlice.DashboardState.FetchChartData | src/store/slices/dashboardSlice/index.ts:58-96 | the same for the charts, with the provider's current user as the last fallback and its own error fallback |
| TransactionsSlice.ChangedIff | src/store/slices/transactionsSlice/index.ts:149-157 | the seven field comparisons detect exactly a change of the filters |
| TransactionsSlice.MergeFields | src/store/slices/transactionsSlice/index.ts:144 | the spread merge keeps the fields the payload omits and takes those it gives; an empty payload changes nothing and merging the same payload twice is merging it once |
| TransactionsSlice.ChangedByPatch | src/store/slices/transactionsSlice/index.ts:144-157 | a payload changes the filters exactly when it carries some key with a value different from the current one |
| TransactionsSlice.FetchPlan | src/store/slices/transactionsSlice/index.ts:31-86 | without a user the thunk throws `Usuário não autenticado`; otherwise it asks for 20 records with the current filters, from the start for page 1, after the stored cursor for a later page, and as page 1 from the start when a later page has no stored cursor |
| TransactionsSlice.Loaded | src/store/slices/transactionsSlice/index.ts:203-209 | a page 1 payload replaces the list; any other page is appended after the records already listed |
| TransactionsSlice.Inserted | src/store/slices/transactionsSlice/index.ts:222-231 | the created record is added to the list, which keeps all its records and is sorted newest date first, then newest creation first |
| TransactionsSlice.NewestGoesFirst | src/store/slices/transactionsSlice/index.ts:222-231 | a created record newer than every listed one is first |
| TransactionsSlice.FindIndex | src/store/slices/transactionsSlice/index.ts:234 | the first position holding the id, or none when no record has it |
| TransactionsSlice.ReplacedSpec | src/store/slices/transactionsSlice/index.ts:233-238 | an update replaces the first record with the same id and nothing else; without such a record the list is unchanged |
| TransactionsSlice.DeletedSpec | src/store/slices/transactionsSlice/index.ts:239-241 | a delete drops every record with the id and keeps all others in their order |
| TransactionsSlice.WithReceiptSpec | src/store/slices/transactionsSlice/index.ts:242-247 | only the receipt of the first record with the id changes; order and ids are kept |
| TransactionsSlice.TransactionsState.constructor | src/store/slices/transactionsSlice/index.ts:15-29 | an empty first page with the default filters, more to load, no cursor, no loading and no error |
| TransactionsSlice.TransactionsState.SetFilters | src/store/slices/transactionsSlice/index.ts:140-173 | the filters become the merge; when they changed, pagination is reset to an empty first page, otherwise the list and pagination are kept |
| TransactionsSlice.TransactionsState.ClearFilters | src/store/slices/transactionsSlice/index.ts:174-186 | the default filters on an empty first page |
| TransactionsSlice.TransactionsState.ResetPagination | src/store/slices/transactionsSlice/index.ts:187-192 | an empty first page with more to load and no cursor; the filters are kept |
| TransactionsSlice.TransactionsState.FetchPending | src/store/slices/transactionsSlice/index.ts:196-199 | loading starts and the error is cleared |
| TransactionsSlice.TransactionsState.FetchFulfilled | src/store/slices/transactionsSlice/index.ts:200-214 | the list is loaded from the payload, and `hasMore`, the cursor and the page number are the payload's |
| TransactionsSlice.TransactionsState.FetchRejected | src/store/slices/transactionsSlice/index.ts:215-218 | loading ends and the error is the message when non-empty, else `Erro ao carregar transações` |
| TransactionsSlice.TransactionsState.FetchTransactions | src/store/slices/transactionsSlice/index.ts:31-86 | from dispatch to settlement: an unauthenticated error or the use case's error, each leaving the page, `hasMore` and the cursor as they were; or the page loaded as the plan says, with the answered `hasMore` and cursor |
| TransactionsSlice.TransactionsState.AddFulfilled | src/store/slices/transactionsSlice/index.ts:219-232 | the list becomes the resorted list with the record added; nothing else changes |
| TransactionsSlice.TransactionsState.AddTransaction | src/store/slices/transactionsSlice/index.ts:88-109 | without a user it fails with `Usuário não autenticado`; otherwise it answers what the use case answers, and only a created record changes the list |
| TransactionsSlice.TransactionsState.UpdateFulfilled | src/store/slices/transactionsSlice/index.ts:233-238 | the list is the replaced list; nothing else changes |
| TransactionsSlice.TransactionsState.DeleteFulfilled | src/store/slices/transactionsSlice/index.ts:239-241 | the list is the filtered list; nothing else changes |
| TransactionsSlice.TransactionsState.UploadReceiptFulfilled | src/store/slices/transactionsSlice/index.ts:242-247 | the list carries the new receipt URL on the first record with the id; nothing else changes |
| TransactionsSlice.LaterPageWithoutCursorReplaces | src/store/slices/transactionsSlice/index.ts:52-68 | a later page requested before a cursor is stored is fetched as page 1 and replaces the list instead of extending it |
| TransactionsSlice.NextPageAppends | src/store/slices/transactionsSlice/index.ts:70-84 | a later page with a stored cursor is fetched after that cursor and appended to the list |
| TransactionsSelectors.ByType | src/store/selectors/transactionsSelectors.ts:18-21 | exactly the listed records of that type, in their order |
| TransactionsSelectors.ByCategory | src/store/selectors/transactionsSelectors.ts:23-26 | exactly the listed records of that category, in their order |
| TransactionsSelectors.SelectFilteredSpec | src/store/selectors/transactionsSelectors.ts:28-78 | the chain of filters, each applied only when its field is set, keeps exactly the records that satisfy every set filter, the same condition as the live query's |
| TransactionsSelectors.SelectFilteredSubsequence | src/store/selectors/transactionsSelectors.ts:28-78 | the filtered list keeps the list's order, holds only matching records and every matching record |
| TransactionsSelectors.DefaultFiltersKeepAll | src/store/selectors/transactionsSelectors.ts:28-78 | the default filters select the whole list |
| TransactionsSelectors.SelectStats | src/store/selectors/transactionsSelectors.ts:80-100 | the balance is income minus expense and the count is the number of listed records |
| TransactionsSelectors.StatsCoverAll | src/store/selectors/transactionsSelectors.ts:83-89 | when every record is income or expense, the two totals add up to the sum of all amounts |
| FirebaseTransactionService.Selected | src/services/firebaseTransactionService/index.ts:160-197 | a subsequence of the user's records holding exactly those that satisfy every set filter; no filters object keeps them all |
| FirebaseTransactionService.GetTransactions | src/services/firebaseTransactionService/index.ts:130-217 | the first `pageSize` selected records (all of them when fewer, counted back from the end for a negative size), newest first, each no more often than selected; `hasMore` exactly when more records were selected than `pageSize`; the cursor returned is always absent |
| FirebaseTransactionService.CursorIgnored | src/services/firebaseTransactionService/index.ts:203 | the page starts at the first record whatever cursor is passed |
| FirebaseTransactionService.PageIsNewest | src/services/firebaseTransactionService/index.ts:199-205 | no selected record left off the page is newer than one on it |
| FirebaseTransactionService.BoundsInclusive | src/services/firebaseTransactionService/index.ts:171-193 | both date bounds include their own day, and an amount bound of 0 still applies |
| FirebaseTransactionService.GetCategories | src/services/firebaseTransactionService/index.ts:279-300 | the loop over the documents collects the truthy categories, each once, and the result is that set sorted |
| FirebaseTransactionService.CategoriesSorted | src/services/firebaseTransactionService/index.ts:287-296 | the list is strictly ascending and holds exactly the truthy categories of the documents |
| FirebaseTransactionService.CategoryStatsKeys | src/services/firebaseTransactionService/index.ts:325-337 | `categoryStats` has a key for exactly the categories (`Outros` when missing) of the documents inside the window |
| FirebaseTransactionService.CategoryStatsValues | src/services/firebaseTransactionService/index.ts:335-337 | each entry of `categoryStats` is the sum of the amounts of the window's documents of that category |
| FirebaseTransactionService.CategoryStatsSpec | src/services/firebaseTransactionService/index.ts:320-338 | the keys and the per-category sums, stated over the window's documents filtered by category |
| FirebaseTransactionService.GetTransactionStats | src/services/firebaseTransactionService/index.ts:303-357 | the loop's totals are the sums of income and of non-income amounts inside the window, the balance is their difference, the savings rate is the dashboard's, the per-category map is its specification and the count is every document |
| FirebaseTransactionService.StatsSplit | src/services/firebaseTransactionService/index.ts:326-333 | income is the window's income documents, everything else in the window is expense, and together they are the window's whole amount |
| FirebaseTransactionService.CountIgnoresWindow | src/services/firebaseTransactionService/index.ts:326-351 | documents outside the window add nothing to the totals or the categories, although they still count in `transactionCount` |
| FirebaseTransactionService.RecentPool | src/services/firebaseTransactionService/index.ts:380-386 | the records ranked are all the user's records unless both bounds are truthy, and then exactly those between them, both inclusive |
| FirebaseTransactionService.GetRecentTransactions | src/services/firebaseTransactionService/index.ts:360-400 | exactly `limitCount` records of the pool, or the whole pool when smaller (counted back from the end for a negative limit), newest first, each no more often than the pool holds it |
| FirebaseTransactionService.RecentAreNewest | src/services/firebaseTransactionService/index.ts:388-392 | no record of the pool left out is newer than one returned |
| FirebaseTransactionService.OneBoundIgnored | src/services/firebaseTransactionService/index.ts:381 | a single date bound filters nothing |
| FirebaseTransactionService.RankedEntries | src/services/firebaseTransactionService/index.ts:436-438 | the per-category entries, reordered by descending absolute amount |
| FirebaseTransactionService.TopEntries | src/services/firebaseTransactionService/index.ts:418-437 | the `forEach` that accumulates per-category amounts and first types, read back, gives one entry per category of the window in first-seen order |
| FirebaseTransactionService.GetTopCategories | src/services/firebaseTransactionService/index.ts:403-448 | the entries sorted by descending absolute amount and cut to `limitCount` |
| FirebaseTransactionService.TopCategoriesShape | src/services/firebaseTransactionService/index.ts:436-439 | at most `limitCount` entries, each category once, greatest absolute amount first |
| FirebaseTransactionService.TopCategoriesSums | src/services/firebaseTransactionService/index.ts:428-433 | every entry is a category of the window with the sum of its amounts and the type of its first document there |
| FirebaseTransactionService.TopCategoriesAreTop | src/services/firebaseTransactionService/index.ts:438-439 | a category left out has no greater absolute amount than one kept |
| FirebaseDashboardService.PeriodLabels | src/services/firebaseDashboardService/index.ts:260-271 | seven weekday labels, four week labels or twelve month labels, none repeated |
| FirebaseDashboardService.DateRangeSpec | src/services/firebaseDashboardService/index.ts:274-301 | the week ends today and starts on an earlier day seven days back; the month runs from its first to its last calendar day; the year from 1 January to 31 December |
| FirebaseDashboardService.GetDateRangeForMonth | src/services/firebaseDashboardService/index.ts:304-313 | fails, as `toISOString` throws on an invalid date, exactly when the year or the month part is not a number |
| FirebaseDashboardService.MonthRangeSpec | src/services/firebaseDashboardService/index.ts:305-311 | a month from 1 to 12 yields its first and its last calendar day |
| FirebaseDashboardService.MonthRangeOverflow | src/services/firebaseDashboardService/index.ts:306-307 | month 13 rolls over into January of the next year, as the `Date` constructor normalises it |
| FirebaseDashboardService.DashboardRange | src/services/firebaseDashboardService/index.ts:15-17 | the selected month's range when a month is selected with the month period, `getDateRange` of the period otherwise |
| FirebaseDashboardService.Average | src/services/firebaseDashboardService/index.ts:323-325 | 0 when there are no records, otherwise the value that multiplied by the count gives the total |
| FirebaseDashboardService.GetMetrics | src/services/firebaseDashboardService/index.ts:316-334 | the count of every record, the balance, savings rate and average of the period's statistics, and the two largest values left at 0 |
| FirebaseDashboardService.ExpenseDistribution | src/services/firebaseDashboardService/index.ts:364-376 | one entry per negative category, in order, with its positive absolute amount and the palette cycled by position |
| FirebaseDashboardService.CategoryBreakdown | src/services/firebaseDashboardService/index.ts:464-476 | one entry per category, in order, with its absolute amount and the palette cycled by position |
| FirebaseDashboardService.CashFlow | src/services/firebaseDashboardService/index.ts:479-484 | the statistics' income and expense |
| FirebaseDashboardService.PieChart | src/services/firebaseDashboardService/index.ts:248-257 | one slice per entry, in order, with its category as text, its amount as value and the seven colours cycled |
| FirebaseDashboardService.PieCoversStats | src/services/firebaseDashboardService/index.ts:251-256 | over the entries of `categoryStats` the pie has a slice for exactly its categories, each carrying that category's total |
| FirebaseDashboardService.MentionsAnyIff | src/services/firebaseDashboardService/index.ts:500-502 | `some` holds exactly when the text contains one of the names, lower-cased |
| FirebaseDashboardService.FixedIncomeSpec | src/services/firebaseDashboardService/index.ts:487-503 | any category with a fixed-income name inside it is fixed income, and the test ignores the category's case |
| FirebaseDashboardService.IndexIn | src/services/firebaseDashboardService/index.ts:201-202 | the first position of the label in the month list, or -1 when it is not there |
| FirebaseDashboardService.RemoveFirst | src/services/firebaseDashboardService/index.ts:430-431 | a label without a dot is unchanged by `replace('.', '')` |
| FirebaseDashboardService.RemoveFirstLast | src/services/firebaseDashboardService/index.ts:430-431 | a label ending in its only dot loses exactly that dot |
| FirebaseDashboardService.ByMonthOrderIsOrder | src/services/firebaseDashboardService/index.ts:428-444 | the month comparator is a strict weak order, so sorting by it is well defined |
| FirebaseDashboardService.MonthOrderShape | src/services/firebaseDashboardService/index.ts:199-215 | in a list sorted by the comparator the known months come first in calendar order and the other labels follow in ascending order |
| FirebaseDashboardService.KnownByPosition | src/services/firebaseDashboardService/index.ts:204-207 | two known months compare by their calendar position |
| FirebaseDashboardService.UnknownByText | src/services/firebaseDashboardService/index.ts:213-214 | two unknown labels compare as text |
| FirebaseDashboardService.DottedUnknown | src/services/firebaseDashboardService/index.ts:201-202 | no month abbreviation written with a trailing dot is found by the line chart's lookup |
| FirebaseDashboardService.DottedKnown | src/services/firebaseDashboardService/index.ts:430-431 | with the dot removed every dotted abbreviation is found at its calendar position |
| FirebaseDashboardService.DottedMonthsUnknown | src/services/firebaseDashboardService/index.ts:199-215 | as written, the line chart's comparator puts `fev.` before `jan.` |
| FirebaseDashboardService.DottedMonthsKnown | src/services/firebaseDashboardService/index.ts:428-444 | the investment chart's comparator, which removes the dot, orders any two dotted months by the calendar |
| FirebaseDashboardService.DefaultPageDropsRecords | src/services/firebaseTransactionService/index.ts:133 | as written, with more than 20 records in the range the default page leaves some of them out and reports `hasMore` |
| FirebaseDashboardService.RangeRecords | src/services/firebaseDashboardService/index.ts:149-155 | every record of the range, each as often as stored, newest first |
| FirebaseDashboardService.RangeRecordsMembers | src/services/firebaseDashboardService/index.ts:149-155 | the records of the range are exactly the user's records that pass both date bounds |
| FirebaseDashboardService.SmallRangeComplete | src/services/firebaseTransactionService/index.ts:133 | with at most 20 records in the range the default page is every record of the range, so the two differ only past that size |
| FirebaseDashboardService.FoldFlow | src/services/firebaseDashboardService/index.ts:189-195 | the running totals of one period are the sum of its incomes and the sum of the absolute values of its other records |
| FirebaseDashboardService.FlowAgrees | src/services/firebaseDashboardService/index.ts:180-195 | the entry the `periodData` loop builds for a period is the entry of that period's group |
| FirebaseDashboardService.ByPeriodOrder | src/services/firebaseDashboardService/index.ts:199-215 | the line chart's comparator, which looks each label up with its dot kept, is a strict weak order |
| FirebaseDashboardService.SortedFlows | src/services/firebaseDashboardService/index.ts:198-215 | the per-period entries, each once, reordered by the line chart's dot-keeping month comparator |
| FirebaseDashboardService.GenerateLineChart | src/services/firebaseDashboardService/index.ts:141-245 | the loop gives the line chart of the default 20-record page of the range (of the whole year for the month period), newest records first |
| FirebaseDashboardService.LineChartValues | src/services/firebaseDashboardService/index.ts:189-195 | each point is a period label of the records with the income of that period's records minus their expense |
| FirebaseDashboardService.LineChartCovers | src/services/firebaseDashboardService/index.ts:158-187 | every record's period label has a point |
| FirebaseDashboardService.LineChartDistinct | src/services/firebaseDashboardService/index.ts:180-187 | no period label has two points |
| FirebaseDashboardService.LineChartOrder | src/services/firebaseDashboardService/index.ts:199-215 | a label the lookup knows comes before every unknown one and the known labels are in month order; the unknown labels follow in text order |
| FirebaseDashboardService.FixedVariableSplit | src/services/firebaseDashboardService/index.ts:418-425 | fixed plus variable income is the total, and the fixed part is the total of the fixed-income records |
| FirebaseDashboardService.FoldInvestment | src/services/firebaseDashboardService/index.ts:404-426 | the running totals of one month are its total, its fixed and its variable income |
| FirebaseDashboardService.InvestmentAgrees | src/services/firebaseDashboardService/index.ts:408-426 | the entry the `monthlyData` loop builds for a month is the entry of that month's group |
| FirebaseDashboardService.ByMonthIsOrder | src/services/firebaseDashboardService/index.ts:428-444 | the investment chart's comparator is a strict weak order |
| FirebaseDashboardService.SortedMonths | src/services/firebaseDashboardService/index.ts:428-444 | the per-month entries, reordered by the month comparator |
| FirebaseDashboardService.GenerateInvestmentEvolution | src/services/firebaseDashboardService/index.ts:379-461 | the loop gives the investment chart of the income records on the default 20-record page of the year |
| FirebaseDashboardService.InvestmentValues | src/services/firebaseDashboardService/index.ts:404-426 | each entry carries the total of its month's income records, split into fixed and variable income |
| FirebaseDashboardService.InvestmentDistinct | src/services/firebaseDashboardService/index.ts:402-416 | no month appears twice |
| FirebaseDashboardService.InvestmentEmpty | src/services/firebaseDashboardService/index.ts:394-399 | the chart is empty exactly when no record is income |
| FirebaseDashboardService.InvestmentOrder | src/services/firebaseDashboardService/index.ts:428-444 | the months the comparator knows come first, in calendar order |
| FirebaseDashboardService.FoldYearTop | src/services/firebaseDashboardService/index.ts:45-55 | the running entry of one category is the sum of its amounts and the type of its first record |
| FirebaseDashboardService.YearTopAgrees | src/services/firebaseDashboardService/index.ts:44-55 | the entry the `categoryTotals` loop builds for a category is the entry of that category's group |
| FirebaseDashboardService.RankedYear | src/services/firebaseDashboardService/index.ts:58-59 | every category of the year's records, greatest absolute total first |
| FirebaseDashboardService.AggregateYear | src/services/firebaseDashboardService/index.ts:29-61 | the loop gives the categories of the default 20-record page of the year, ranked and cut to five |
| FirebaseDashboardService.YearTopShape | src/services/firebaseDashboardService/index.ts:58-60 | at most five categories, each once, greatest absolute total first |
| FirebaseDashboardService.YearTopSums | src/services/firebaseDashboardService/index.ts:45-55 | each entry holds the total of its category's records and the type of the first of them |
| FirebaseDashboardService.YearTopAreTop | src/services/firebaseDashboardService/index.ts:58-60 | a category left out has no greater absolute total than one kept |
| FirebaseDashboardService.StatsEntriesList | src/services/firebaseDashboardService/index.ts:251 | the entries of `categoryStats` list each of its categories once, with its total |
| FirebaseDashboardService.GetTrends | src/services/firebaseDashboardService/index.ts:337-361 | twelve entries, January first, each the statistics of days `01` to `31` of its month |
| FirebaseDashboardService.TrendShape | src/services/firebaseDashboardService/index.ts:349-354 | each month's balance is its income minus its expense and its number is its own |
| FirebaseDashboardService.GetDashboardData | src/services/firebaseDashboardService/index.ts:13-101 | an invalid selected month is reported as the dashboard error; otherwise the totals, recent records, categories, distribution, breakdown and cash flow of the range, and the line and investment charts of the year's default 20-record page |
| FirebaseDashboardService.GetChartData | src/services/firebaseDashboardService/index.ts:104-138 | an invalid selected month is reported as the charts error; otherwise the line chart of the period's default 20-record page and the pie of the range's category totals |
| FirebaseAuthService.ErrorMessage | src/services/firebaseAuthService/index.ts:252-266 | the table's message for a known code, the generic message for an unknown or missing one, never empty |
| FirebaseAuthService.GenericMeansUnknown | src/services/firebaseAuthService/index.ts:253-265 | the generic message comes out exactly when the code is missing or not in the table |
| FirebaseAuthService.SharedMessages | src/services/firebaseAuthService/index.ts:257-258 | the weak-password and invalid-e-mail messages are the very messages the account use cases throw |
| FirebaseAuthService.LocalPart | src/services/firebaseAuthService/index.ts:49 | absent exactly when there is no e-mail, and never containing an `@` |
| FirebaseAuthService.LocalPartOf | src/services/firebaseAuthService/index.ts:49 | the local part of `local@domain` is `local` |
| FirebaseAuthService.LoginName | src/services/firebaseAuthService/index.ts:49 | the display name, else the stored name, else the e-mail's local part, else `Usuário`, skipping empty ones; never empty |
| FirebaseAuthService.Login | src/services/firebaseAuthService/index.ts:19-63 | succeeds exactly when both sign-in and the token read do, with the account's id, login name and e-mail; otherwise the first failure's table message |
| FirebaseAuthService.LoginNameFromEmail | src/services/firebaseAuthService/index.ts:49 | without display or stored name `ana@example.com` is greeted as `ana`, and an e-mail starting with `@` falls back to `Usuário` |
| FirebaseAuthService.Register | src/services/firebaseAuthService/index.ts:66-133 | a password mismatch comes out as the generic message, an SDK failure as its table message; success carries the new uid with the form's name and e-mail |
| FirebaseAuthService.RegisterFlow | src/domain/usecases/AuthUseCases.ts:20-36 | behind the use case's rules a mismatch is reported with the use case's own message, and an accepted registration goes to the client unchanged |
| FirebaseAuthService.MismatchReported | src/services/firebaseAuthService/index.ts:70-72 | the client alone hides a mismatch behind the generic message, while the application reports it as such |
| FirebaseAuthService.CurrentUser | src/services/firebaseAuthService/index.ts:145-164 | nobody signed in gives `null`, a failed profile read the user-data error; a signed-in user gives the account with the display name, else the stored name, else empty |
| FirebaseAuthService.GetToken | src/services/firebaseAuthService/index.ts:240-249 | a token exactly when someone is signed in and the read succeeds, never an error |
| FirebaseAuthService.Logout | src/services/firebaseAuthService/index.ts:136-142 | fails, with the logout message, exactly when signing out fails |
| FirebaseAuthService.ForgotPassword | src/services/firebaseAuthService/index.ts:183-189 | fails exactly when sending fails, with that error's table message |
| FirebaseAuthService.ChangePassword | src/services/firebaseAuthService/index.ts:192-208 | refused unless someone with an e-mail is signed in; then succeeds exactly when reauthentication and the update both do, and otherwise reports the table message of the reauthentication's or the update's failure |
| FirebaseAuthService.LoginErrorsFromTable | src/services/firebaseAuthService/index.ts:60-62 | every login error is a table message or the generic one |
| DashboardService.Cutoff | src/services/dashboardService/index.ts:90-103 | a valid instant at the same time of day, on a day strictly before today |
| DashboardService.FilterByPeriodSpec | src/services/dashboardService/index.ts:89-108 | the filter keeps, in order, exactly the readable records dated at or after the cutoff, and every record dated today or later |
| DashboardService.MonthCutoff | src/services/dashboardService/index.ts:97-98 | the month cutoff is the same day of the previous month, or past that month's end when it is shorter |
| DashboardService.BalanceParts | src/services/dashboardService/index.ts:110-128 | the balance is the income less the expenses less the records of any other type |
| DashboardService.BalanceIsIncomeLessExpense | src/services/dashboardService/index.ts:110-128 | with only income and expense records the balance is income less expenses |
| DashboardService.RankedSummaries | src/services/dashboardService/index.ts:142-147 | the summaries of all category/type groups, greatest amount first |
| DashboardService.GetTopCategories | src/services/dashboardService/index.ts:130-149 | the `categoryMap` loop followed by the map, the sort and the slice gives the ranked summaries cut to five |
| DashboardService.GroupShown | src/services/dashboardService/index.ts:134-145 | the category shown is the record's category cut at its first `_`, the amount is the group's sum |
| DashboardService.UnderscoreCategory | src/services/dashboardService/index.ts:144 | a category containing `_` loses its tail and reports the text after the `_` as its type |
| DashboardService.TopCategoriesShape | src/services/dashboardService/index.ts:142-148 | at most five groups, greatest amount first, each with a zero percentage |
| DashboardService.TopZeroPercent | src/services/dashboardService/index.ts:145 | every summary shown has a zero percentage |
| DashboardService.SummarySource | src/services/dashboardService/index.ts:133-146 | each group summary comes from a record, with the sum of its group's amounts |
| DashboardService.TopCategoriesSums | src/services/dashboardService/index.ts:133-146 | every group shown shows a record's cut category and the sum of the amounts of the records of the same category and type |
| DashboardService.GroupOf | src/services/dashboardService/index.ts:144-145 | the category and type a summary shows |
| DashboardService.PlainShown | src/services/dashboardService/index.ts:134-145 | a record with no `_` in its category or type is shown with them unchanged |
| DashboardService.TopCategoriesDistinct | src/services/dashboardService/index.ts:130-149 | when no category or type contains `_`, each category/type pair is shown at most once |
| DashboardService.SummariesDistinct | src/services/dashboardService/index.ts:142-146 | before the sort the summaries of such records have distinct category/type pairs |
| DashboardService.TopCategoriesAreTop | src/services/dashboardService/index.ts:147-148 | a group left out has no greater amount than any group shown |
| DashboardService.ByAmountDescMeans | src/services/dashboardService/index.ts:147 | the comparator puts the greater amount first |
| DashboardService.RecentShape | src/services/dashboardService/index.ts:151-163 | at most five entries, as many as there are records up to five, newest first |
| DashboardService.RecentFrom | src/services/dashboardService/index.ts:155-162 | every entry is a record of the list with its own fields, an empty description replaced by the category |
| DashboardService.RecentDrawn | src/services/dashboardService/index.ts:151-163 | the recent list describes a newest-first selection of the records that repeats no record more often than the list holds it |
| DashboardService.RecentNewest | src/services/dashboardService/index.ts:152-154 | no record left out is newer than an entry kept |
| DashboardService.Trend | src/services/dashboardService/index.ts:184-191 | the per-month entries reordered by month text |
| DashboardService.TrendAgrees | src/services/dashboardService/index.ts:168-182 | the entry the `monthlyData` loop builds for a month is the trend of that month's records |
| DashboardService.GetMonthlyTrend | src/services/dashboardService/index.ts:165-192 | the loop, the map and the sort give the trend of every record |
| DashboardService.TrendKeys | src/services/dashboardService/index.ts:184-191 | the months are unique and strictly ascending, and every record's month is among them |
| DashboardService.TrendSums | src/services/dashboardService/index.ts:177-189 | each month carries the sum of its income, the sum of its other records and their difference |
| DashboardService.SavingsRateBounds | src/services/dashboardService/index.ts:32 | the rate is 0 without income, at most 100 while expenses are not negative, and positive exactly when income exceeds the expenses |
| DashboardService.Summarize | src/services/dashboardService/index.ts:26-55 | the totals, the top groups and the recent records of the period's records, the trend of all records, and the other charts empty |
| DashboardService.GetDashboardData | src/services/dashboardService/index.ts:20-61 | a failed fetch answers the fixed mock data; otherwise the summary of the fetched records for the period, `month` when none is given, with empty distribution, evolution and breakdown and a zero cash flow |
| DashboardService.GetChartData | src/services/dashboardService/index.ts:63-86 | a failed fetch answers the single mock chart; otherwise an empty line chart and an empty pie chart |
| DashboardService.ChartsIgnoreRecords | src/services/dashboardService/index.ts:194-202 | the records, the period and the clock never change a successful answer |
| TransactionService.WithFiltersSpec | src/services/transactionService/index.ts:85-112 | an order-preserving selection of the list holding exactly the records no active filter rejects |
| TransactionService.SameVerdicts | src/services/transactionService/index.ts:88-111 | filters that agree on every record select the same list |
| TransactionService.ZeroBoundsIgnored | src/services/transactionService/index.ts:101-106 | an amount bound of 0 is no bound at all, at either end |
| TransactionService.AllTypesIgnored | src/services/transactionService/index.ts:89-91 | the type `all` selects the same records as no type |
| TransactionService.DefaultFiltersKeepAll | src/services/transactionService/index.ts:88-111 | the default filters keep the whole list |
| TransactionService.UnreadableDatePasses | src/services/transactionService/index.ts:95-100 | a record whose date cannot be read passes both date bounds, since a comparison with an invalid date is false |
| TransactionService.CategoriesSpec | src/services/transactionService/index.ts:115-119 | each category of the list exactly once, empty ones included, in the order of its first record |
| Sanitization.Remove | src/utils/sanitization.ts:21-23 | a global class replace deletes every character of the class and never lengthens the text |
| Sanitization.RemoveNothing | src/utils/sanitization.ts:21-23 | a text with no character of the class is left as it is |
| Sanitization.RemoveKeeps | src/utils/sanitization.ts:21-23 | deleting one class keeps every other class absent |
| Sanitization.RemoveFrom | src/utils/sanitization.ts:21-23 | deleting brings in no character |
| Sanitization.StripTags | src/utils/sanitization.ts:19 | never longer, unchanged without `<`, and no `<` is left with a `>` after it |
| Sanitization.StripTagsFrom | src/utils/sanitization.ts:19 | the tag stripper brings in no character |
| Sanitization.CollapseWhite | src/utils/sanitization.ts:25 | never longer, empty exactly when the input is, starting with white space exactly when the input does, and with no two white-space characters adjacent |
| Sanitization.CollapseKeeps | src/utils/sanitization.ts:25 | collapsing white space brings in only spaces |
| Sanitization.CollapseFrom | src/utils/sanitization.ts:25 | the collapsed text holds characters of the input and spaces |
| Sanitization.CollapseClean | src/utils/sanitization.ts:25 | a text with single plain spaces is unchanged by the collapse |
| Sanitization.TrimmedTrim | src/utils/sanitization.ts:17 | a text that neither starts nor ends with white space is its own trim |
| Sanitization.TrimFrom | src/utils/sanitization.ts:17 | trimming brings in no character |
| Sanitization.Stripped | src/utils/sanitization.ts:16-23 | after the first four steps no dangerous or control character is left |
| Sanitization.SanitizeString | src/utils/sanitization.ts:11-26 | anything but a string gives the empty text; the output has no dangerous or control character and no doubled white space |
| Sanitization.SanitizeStringFrom | src/utils/sanitization.ts:11-26 | the output holds characters of the input and spaces only |
| Sanitization.SanitizeCleanString | src/utils/sanitization.ts:11-26 | a trimmed text with single plain spaces and nothing dangerous comes back unchanged |
| Sanitization.SanitizeStringIs | src/utils/sanitization.ts:16-25 | the output is the collapse of the stripped text |
| Sanitization.SanitizeDropsTag | src/utils/sanitization.ts:19 | markup between clean text is removed with everything between its brackets |
| Sanitization.NoLtAround | src/utils/sanitization.ts:23 | a clean text has no `<` |
| Sanitization.TagBetweenTrimmed | src/utils/sanitization.ts:17 | trimming leaves text with a tag inside it as it is |
| Sanitization.StripTag | src/utils/sanitization.ts:19 | one tag between stretches without `<` is removed |
| Sanitization.StripCons | src/utils/sanitization.ts:19 | a character other than `<` passes through the tag stripper |
| Sanitization.StripPrefix | src/utils/sanitization.ts:19 | a prefix without `<` passes through the tag stripper untouched |
| Sanitization.SanitizeEmail | src/utils/sanitization.ts:31-43 | anything but a string gives the empty text; the output is lower case with no white space or control character |
| Sanitization.RemoveLowerCase | src/utils/sanitization.ts:38-42 | deleting characters keeps a lower-case text lower case |
| Sanitization.SanitizeCleanEmail | src/utils/sanitization.ts:31-43 | a lower-case address without white space or control characters is unchanged |
| Sanitization.LowerCaseUnchanged | src/utils/sanitization.ts:38 | lower-casing a lower-case text changes nothing |
| Sanitization.ReplaceFirst | src/utils/sanitization.ts:58 | a one-character string pattern keeps the length of the text |
| Sanitization.ReplaceFirstSpec | src/utils/sanitization.ts:58 | only the first occurrence is replaced, and a text without it is unchanged |
| Sanitization.SanitizeNumber | src/utils/sanitization.ts:48-59 | a number prints as itself, anything but a number or a string gives the empty text, a string keeps as many characters as it has digits, dots and commas |
| Sanitization.SanitizeNumberSpec | src/utils/sanitization.ts:58 | a string keeps exactly its digits, dots and commas, in order, with the first comma turned into a dot |
| Sanitization.Without | src/utils/sanitization.ts:70 | the text with every separator removed has none left |
| Sanitization.JoinSplitWithout | src/utils/sanitization.ts:68-70 | joining the pieces of a split with nothing drops the separators |
| Sanitization.SanitizeCurrency | src/utils/sanitization.ts:64-74 | at most one dot is left |
| Sanitization.SanitizeCurrencySpec | src/utils/sanitization.ts:64-74 | an amount with two or more dots keeps its first dot and loses the others; one with at most one dot is left as it is |
| Sanitization.SanitizeAlphanumeric | src/utils/sanitization.ts:79-90 | anything but a string gives the empty text; only letters, digits, white space and the listed accented letters are left, with no doubled white space |
| Sanitization.SkipWhile | src/utils/sanitization.ts:130 | the end of the greedy run of characters from a position that satisfy a class |
| Sanitization.HandlerUnsafe | src/utils/sanitization.ts:130 | `onClick =` is caught in any case |
| Sanitization.PatternUnsafe | src/utils/sanitization.ts:127-136 | any spelling, in any case, of one of the five literal patterns anywhere in the input makes it unsafe |
| Sanitization.NonStringUnsafe | src/utils/sanitization.ts:122-124 | a non-string is never safe |
| Sanitization.NoScriptWithoutLt | src/utils/sanitization.ts:128 | a text without `<` holds no script tag in any case |
| Sanitization.SanitizedNoScriptTag | src/utils/sanitization.ts:11-26 | a sanitised text never holds a script tag |
| Sanitization.Escape | src/utils/sanitization.ts:155 | never shorter, and no dangerous character is left |
| Sanitization.EscapeHtml | src/utils/sanitization.ts:142-156 | anything but a string gives the empty text; the output is never shorter than the input and holds no dangerous character |
| Sanitization.EntityAt | src/utils/sanitization.ts:147-153 | an entity found is at most as long as the text |
| Sanitization.EntityOfEscape | src/utils/sanitization.ts:147-155 | an escaped character starts with its own entity, and one left as it is starts with none |
| Sanitization.UnescapeChar | src/utils/sanitization.ts:147-155 | decoding one escaped character gives it back |
| Sanitization.UnescapeEscape | src/utils/sanitization.ts:142-156 | decoding the five entities undoes the escaping, so no information is lost |
| Sanitization.EscapePlain | src/utils/sanitization.ts:155 | a text without any of the five characters needs no escaping |
| Sanitization.SanitizeFormData | src/utils/sanitization.ts:95-116 | the copy has the same fields; a field with a rule gets the rule's value, any other string field its sanitised text, and every other field is kept |
| Validation.ValidateRequired | src/constants/validation.ts:18-23 | the required message exactly for a falsy value or a blank string, no message otherwise |
| Validation.ValidateAmount | src/constants/validation.ts:25-30 | no message exactly when the amount is positive |
| Validation.IsEmailIsPattern | src/constants/validation.ts:33 | the direct test accepts exactly the language of the e-mail regular expression |
| Validation.PatternFields | src/constants/validation.ts:33 | in a match the `@` is the first one and no other character is `@` or white space |
| Validation.ValidateEmail | src/constants/validation.ts:32-38 | no message exactly when the address matches the regular expression |
| Validation.ValidatePassword | src/constants/validation.ts:40-45 | no message exactly when the password has at least 6 characters |
| Validation.ValidatePasswordMatch | src/constants/validation.ts:47-52 | no message exactly when the two passwords are equal |
| Validation.ValidateAmountRange | src/constants/validation.ts:54-62 | accepted exactly strictly between 0 and 1000000, the minimum message at or below 0, the maximum message at or above 1000000 |
| Validation.ValidateDate | src/constants/validation.ts:64-83 | the invalid-date message exactly for an unreadable date; accepted exactly between the same instant a year ago and now |
| Validation.TodayIsValid | src/constants/validation.ts:64-83 | today is always accepted |
| Validation.DateOutOfWindow | src/constants/validation.ts:74-80 | a day after today is future, a day before the same day last year is too old |
| Validation.ValidateDescription | src/constants/validation.ts:85-93 | accepted exactly with at least 3 characters once trimmed and at most 100 as written; the minimum message exactly when the trimmed text is too short |
| Validation.ValidateCategory | src/constants/validation.ts:95-103 | accepted exactly when not blank and listed; the required message exactly when blank |
| Validation.ValidateFile | src/constants/validation.ts:105-126 | no file is fine; the too-large message exactly for a truthy size over the limit; otherwise the type message exactly for a truthy type no allowed pattern admits |
| Validation.DefaultFileTypes | src/constants/validation.ts:105 | with the defaults every image and PDFs are accepted up to 10 MB, other types are refused, and a larger file is too large |
| FormValidation.FieldValue | src/hooks/useFormValidation.ts:30 | a missing field reads as `undefined`, a present one as its value |
| FormValidation.Failures | src/hooks/useFormValidation.ts:27-37 | an entry for exactly the fields whose rule answers a truthy message, holding that message |
| FormValidation.FailuresEmptyIff | src/hooks/useFormValidation.ts:26-41 | the form is valid exactly when no rule fails, and fields without a rule are never looked at |
| FormValidation.Form.constructor | src/hooks/useFormValidation.ts:23-24 | the hook starts with its rules and no errors |
| FormValidation.Form.Validate | src/hooks/useFormValidation.ts:26-41 | the loop over the rules replaces the errors with the failures found, and answers whether there are none |
| FormValidation.Form.ClearError | src/hooks/useFormValidation.ts:43-49 | that field's error is gone and every other field's error is as before |
| FormValidation.Form.ClearAllErrors | src/hooks/useFormValidation.ts:51-53 | no field has an error |
| FormValidation.Form.GetError | src/hooks/useFormValidation.ts:59-61 | a message exactly when the field has one |
| FormValidation.Form.HasErrorIffMessage | src/hooks/useFormValidation.ts:55-61 | as every stored message is truthy, a field has an error exactly when it has a message |
| Categories.CategoriesByGroup | src/constants/categories.ts:36-38 | the options of that group, in declaration order, and no other |
| Categories.BlocksInGroups | src/constants/categories.ts:6-28 | the three commented blocks of the list each hold options of their own group only |
| Categories.ByGroupBlocks | src/constants/categories.ts:36-38 | filtering by a group keeps the blocks of that group whole and drops the others |
| Categories.OwnBlocks | src/constants/categories.ts:36-38 | each declared group selects exactly its own block |
| Categories.OptionCounts | src/constants/categories.ts:6-38 | eight investment, two income and six expense options, sixteen in all, and no other group has any |
| Categories.GroupsDeclared | src/constants/categories.ts:6-34 | every option belongs to a declared group |
| Categories.GroupsInOrder | src/constants/categories.ts:40-42 | the groups in use are the three declared ones, in declaration order |
| Categories.NamesDistinct | src/constants/categories.ts:6-28 | no label is used twice |
| TransactionUseCases.GetTransactions | src/domain/usecases/TransactionUseCases.ts:7-14 | no rule: the repository call carries the arguments unchanged |
| TransactionUseCases.GetTransactionById | src/domain/usecases/TransactionUseCases.ts:16-18 | no rule, not even a non-empty id |
| TransactionUseCases.CreateTransaction | src/domain/usecases/TransactionUseCases.ts:20-35 | amount, description, category and date are checked in this order and the first that fails decides the message; accepted exactly when all four pass |
| TransactionUseCases.UpdateTransaction | src/domain/usecases/TransactionUseCases.ts:38-46 | only a present amount and a present description are checked; accepted exactly when neither fails |
| TransactionUseCases.DeleteTransaction | src/domain/usecases/TransactionUseCases.ts:49-54 | refused, with the id message, exactly for an empty id |
| TransactionUseCases.UploadReceipt | src/domain/usecases/TransactionUseCases.ts:56-63 | a falsy file is reported before a missing id; accepted exactly when both are present |
| TransactionUseCases.GetCategories | src/domain/usecases/TransactionUseCases.ts:66-70 | refused, with the user-id message, exactly for an empty user id |
| TransactionUseCases.FullPatch | src/domain/usecases/TransactionUseCases.ts:38-46 | the whole-record patch carries the form's amount and description |
| TransactionUseCases.CreatableIsUpdatable | src/domain/usecases/TransactionUseCases.ts:20-46 | a form creation accepts is accepted as a whole-record update under any id |
| TransactionUseCases.UpdateMayClearCategory | src/domain/usecases/TransactionUseCases.ts:38-46 | an update may clear the category and the date, which creation refuses |
| TransactionUseCases.AbsentFieldsPass | src/domain/usecases/TransactionUseCases.ts:38-46 | leaving a field out never makes an accepted update fail, and the unchecked fields never decide anything |
| TransactionUseCases.ValidatedFormCreatable | src/domain/usecases/TransactionUseCases.ts:20-35 | a form that passes the screen's amount, description, category and date validators is accepted |
| DashboardUseCases.GetDashboardData | src/domain/usecases/DashboardUseCases.ts:6-15 | refused exactly for an empty user id; otherwise the arguments are forwarded, an omitted period as `month` |
| DashboardUseCases.GetChartData | src/domain/usecases/DashboardUseCases.ts:17-26 | refused exactly for an empty user id; otherwise the arguments are forwarded, an omitted period as `month` |
| DashboardUseCases.SameGuard | src/domain/usecases/DashboardUseCases.ts:6-26 | the two queries fail together, with the same message, and otherwise forward the same arguments |
| DashboardUseCases.DefaultPeriodIsMonth | src/domain/usecases/DashboardUseCases.ts:6-26 | omitting the period is the same as passing `month` |
| AuthUseCases.EmailMatches | src/domain/usecases/AuthUseCases.ts:11-13 | the use cases' e-mail test accepts exactly the language of the e-mail regular expression |
| AuthUseCases.Login | src/domain/usecases/AuthUseCases.ts:7-17 | missing fields are reported before a malformed e-mail; accepted exactly with a password and a well-formed e-mail |
| AuthUseCases.Register | src/domain/usecases/AuthUseCases.ts:20-36 | mismatch, then length, then name, then e-mail, the first failure deciding the message; accepted exactly when all pass |
| AuthUseCases.ForgotPassword | src/domain/usecases/AuthUseCases.ts:51-60 | an empty e-mail is reported before a malformed one; accepted exactly for a well-formed e-mail |
| AuthUseCases.ChangePassword | src/domain/usecases/AuthUseCases.ts:62-67 | refused exactly when the new password is shorter than 6; the current password is never checked |
| AuthUseCases.UpdateProfile | src/domain/usecases/AuthUseCases.ts:69-77 | refused exactly when a truthy e-mail is malformed |
| AuthUseCases.RegisterAgreesWithValidators | src/domain/usecases/AuthUseCases.ts:20-36 | the registration rules are the form validators' rules, in the form's order, with the validators' own messages |
| AuthUseCases.EmailRuleShared | src/domain/usecases/AuthUseCases.ts:7-77 | login, recovery and profile update accept exactly the addresses the form validator accepts |
| AuthUseCases.EmptyProfileEmailPasses | src/domain/usecases/AuthUseCases.ts:69-77 | an empty e-mail in a profile update is not checked, although recovery refuses it |
| AuthUseCases.RegisteredPasswordChangeable | src/domain/usecases/AuthUseCases.ts:20-67 | a password good enough to register with is good enough to change to |

## Left out

- Amounts are integers (cents) and JavaScript numbers reaching `any` parameters are integers; floating-point rounding, `NaN` from `data.amount || 0` on a non-numeric amount, and infinities are not modelled. Percentages and rates are exact `real`s.
- Dates are civil days in one fixed time zone; the browser time zone and the locale are not modelled. The locale's month abbreviation of a stored date is the parameter `monthLabel`, and `localeCompare` is modelled as the code-point order of `Text.Lt`; locale collation is not modelled.
- Dates.Parse: reads only the `YYYY-MM-DD` form, where `new Date` also reads a full ISO timestamp such as the `new Date().toISOString()` that `TransactionObservable.MapDoc` stores for a document without a date. For such a record `TransactionObservable.OnOrAfter` and `TransactionObservable.OnOrBefore` fail, `DashboardObservable.InWindow` and `DashboardService.Kept` leave it out, `DashboardService.MonthKey` gives `NaN-NaN`, `FirebaseDashboardService.WeekLabel` gives `Sem NaN`, and `TransactionService.StartPasses` and `TransactionService.EndPasses` let it pass unchecked, where the source reads the instant and compares it.
- Text.Lower: maps only the ASCII capitals and U+00C0..U+00DE (except U+00D7), where `toLowerCase` maps every Unicode capital; the search filters, `isFixedIncome`, the month lookups and `sanitizeEmail` treat other capitals (such as `Ā` or Greek letters) as distinct from their lower case.
- Text.Lt: compares characters by code point, where the JavaScript string comparison uses UTF-16 code units; the two orders differ when a character above U+FFFF meets one in U+E000..U+FFFF.
- TransactionRepository.FiltersJson: writes the filter fields in one fixed order, writes a missing and a `null` date alike as `null`, and escapes no character, where `JSON.stringify` follows the object's own key order, omits `undefined` fields and escapes quotes and backslashes. The cache-key lemmas `TransactionRepository.NoFiltersKey`, `TransactionRepository.CursorInKey`, `TransactionRepository.ListKeyMatches` and `TransactionRepository.UserPagesRemoved`, and the keys of `TransactionRepository.TransactionRepository`, are stated over this text, so two filter objects that share a key in the model may not share one in the source, and the reverse.
- FirebaseTransactionService.CategoryStats: `categoryStats` is a map, so the plain-object behaviours are not modelled: an inherited key such as `constructor` makes `(categoryStats[category] || 0) + amount` concatenate text, and `FirebaseDashboardService.StatsEntries` lists the categories in first-seen order, where `Object.entries` lists integer-like keys first, in ascending order.
- Sorting by `new Date(date).getTime()` is modelled as the order of the stored `YYYY-MM-DD` text; the equivalence with calendar order is proved for well-formed dates but dates of other forms are ordered as text.
- `Array.prototype.sort` is modelled as a stable sort that returns a new sequence; sorting in place and aliasing of the sorted array are not modelled.
- String lengths count Dafny characters, not UTF-16 code units, so characters outside the Basic Multilingual Plane count once.
- `mapDoc` reads an object-valued `tags` field only for its `type`; such a `tags` becomes the empty list.
- The Firestore, Firebase Auth and Firebase Storage SDKs are not modelled: a query's documents, a sign-in's outcome and similar answers are parameters.
- The writes of firebaseTransactionService (`createTransaction`, `updateTransaction`, `deleteTransaction`, `uploadReceipt`) and `getTransactionById` are single SDK calls and are not modelled.
- firebaseAuthService `updateProfile` and `onAuthStateChanged` are SDK calls with no logic of their own and are not modelled; the avatar URL and the `createdAt`/`updatedAt` timestamps of a profile are not modelled.
- The error-code table is a map of the listed codes; lookups of inherited JavaScript prototype keys (such as `constructor`) are not modelled.
- transactionService's REST create, read, update, delete and `uploadFile` (HTTP and `FormData`) and both axios token interceptors are not modelled; the list the backend answers is a parameter.
- The remote services behind the repositories are stand-in classes (`TransactionRepository.TransactionService`, `CachedDashboardRepository.DashboardSource`) whose answers are fixed functions of the request.
- `uploadReceipt` of both repositories only delegates to the remote service and is not modelled.
- The `catch` branches in firebaseDashboardService that log an SDK error and return `[]` or throw `Erro ao buscar métricas` / `Erro ao buscar tendências` are not modelled; only the failure of the selected-month range is.
- `console` logging is not modelled.
- The delegations `logout`, `getCurrentUser`, `refreshToken`, `onAuthStateChanged` and `getToken` of AuthUseCases add no rule and are not modelled.
- AsyncStorage and the secure store are maps; their asynchrony and concurrent access are not modelled.
- RxJS timing (`debounceTime`, `switchMap` cancellation) is not modelled; only `distinctUntilChanged` and the per-emission computations are.
- The session renewal timer of `setInterval` is a handle counter; each firing of the interval is an explicit call of `SessionManager.SessionManager.Tick`.
- `commonValidationRules` only re-exports the validators and is not modelled separately.

## Findings

| source | as written | input that shows it | evidently intended | confidence | as-written member | corrected member |
|---|---|---|---|---|---|---|
| src/services/firebaseDashboardService/index.ts:201 | the line-chart comparator looks month labels up without removing the trailing dot, so pt-BR abbreviations such as `jan.` are unknown and sort as text | periods `jan.` and `fev.`: `fev.` sorts before `jan.` | look each label up with its dot removed, as line 430 does, so months sort in calendar order | not executed | FirebaseDashboardService.DottedMonthsUnknown | FirebaseDashboardService.DottedMonthsKnown |
| src/services/firebaseTransactionService/index.ts:133 | `getTransactions` defaults `pageSize` to 20, and the dashboard calls it without a page size for its year and range records | a range holding 21 records: only the 20 newest reach the charts | the dashboard reads every record of the range | not executed | FirebaseDashboardService.DefaultPageDropsRecords | FirebaseDashboardService.RangeRecords |
