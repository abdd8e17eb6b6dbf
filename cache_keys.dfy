/** The cache key scheme and the time-to-live tiers
  * (src/infrastructure/cache/CacheKeys.ts). */
module CacheKeys {
  import opened Wrappers
  import Text

  /** `transactions:{userId}:{filters || 'all'}` */
  function Transactions(userId: string, filters: Option<string>): (k: string)
    ensures Text.OccursAt(k, "transactions:" + userId, 0)
  {
    var f := if filters.None? || filters.value == "" then "all" else filters.value;
    assert (("transactions:" + userId) + (":" + f))[..|"transactions:" + userId|] == "transactions:" + userId;
    "transactions:" + userId + ":" + f
  }

  /** `transaction:{userId}:{transactionId}` */
  function Transaction(userId: string, transactionId: string): string
  {
    "transaction:" + userId + ":" + transactionId
  }

  /** `transaction_categories:{userId}` */
  function TransactionCategories(userId: string): string
  {
    "transaction_categories:" + userId
  }

  /** `dashboard:{userId}:{period}:{month}` */
  function DashboardData(userId: string, period: string, month: string): string
  {
    "dashboard:" + userId + ":" + period + ":" + month
  }

  /** `dashboard_charts:{userId}:{period}:{month}` */
  function DashboardCharts(userId: string, period: string, month: string): string
  {
    "dashboard_charts:" + userId + ":" + period + ":" + month
  }

  /** `user_profile:{userId}` */
  function UserProfile(userId: string): string
  {
    "user_profile:" + userId
  }

  const AUTH_TOKEN: string := "auth_token"
  const AUTH_USER: string := "auth_user"

  /** Time-to-live tiers, in milliseconds. */
  const SHORT: int := 1 * 60 * 1000
  const MEDIUM: int := 5 * 60 * 1000
  const LONG: int := 15 * 60 * 1000
  const VERY_LONG: int := 60 * 60 * 1000
  /** `Number.MAX_SAFE_INTEGER` */
  const INFINITE: int := 9007199254740991

  /** A missing or empty filter string and the literal `all` share a key. */
  lemma {:induction false} TransactionsDefaultFilter(userId: string)
    ensures Transactions(userId, None) == Transactions(userId, Some(""))
    ensures Transactions(userId, None) == Transactions(userId, Some("all"))
    ensures Transactions(userId, None) == "transactions:" + userId + ":all"
  {
  }

  predicate NoColon(s: string)
  {
    forall i :: 0 <= i < |s| ==> s[i] != ':'
  }

  lemma {:induction false} FirstColonAt(a: string, m: string)
    requires NoColon(a)
    ensures Text.IndexOfFrom(a + ":" + m, ':', 0) == Some(|a|)
  {
    var x := a + ":" + m;
    assert forall k :: 0 <= k < |a| ==> x[k] == a[k];
    assert x[|a|] == ':';
  }

  /** A colon-free first component is recovered from `a + ":" + rest`. */
  lemma {:induction false} ColonSplit(a: string, m: string, b: string, n: string)
    requires NoColon(a) && NoColon(b)
    requires a + ":" + m == b + ":" + n
    ensures a == b && m == n
  {
    var x := a + ":" + m;
    FirstColonAt(a, m);
    FirstColonAt(b, n);
    assert |a| == |b|;
    assert a == x[..|a|] && b == (b + ":" + n)[..|b|];
    assert m == x[|a| + 1..] && n == (b + ":" + n)[|b| + 1..];
  }

  lemma {:induction false} StripPrefix(p: string, a: string, b: string)
    requires p + a == p + b
    ensures a == b
  {
    assert a == (p + a)[|p|..] && b == (p + b)[|p|..];
  }

  /** For a fixed user, dashboard keys determine the period and the month
    * when periods contain no colon (the month may). */
  lemma {:induction false} DashboardKeysInjective(userId: string, p: string, m: string, q: string, n: string)
    requires NoColon(p) && NoColon(q)
    ensures DashboardData(userId, p, m) == DashboardData(userId, q, n) <==> p == q && m == n
    ensures DashboardCharts(userId, p, m) == DashboardCharts(userId, q, n) <==> p == q && m == n
  {
    var pre := "dashboard:" + userId + ":";
    if DashboardData(userId, p, m) == DashboardData(userId, q, n) {
      assert DashboardData(userId, p, m) == pre + (p + ":" + m);
      assert DashboardData(userId, q, n) == pre + (q + ":" + n);
      StripPrefix(pre, p + ":" + m, q + ":" + n);
      ColonSplit(p, m, q, n);
    }
    var pre' := "dashboard_charts:" + userId + ":";
    if DashboardCharts(userId, p, m) == DashboardCharts(userId, q, n) {
      assert DashboardCharts(userId, p, m) == pre' + (p + ":" + m);
      assert DashboardCharts(userId, q, n) == pre' + (q + ":" + n);
      StripPrefix(pre', p + ":" + m, q + ":" + n);
      ColonSplit(p, m, q, n);
    }
  }

  /** The category key never starts with `transactions:`. */
  lemma {:induction false} CategoriesNotTransactions(userId: string)
    ensures !("transactions:" <= TransactionCategories(userId))
  {
    assert TransactionCategories(userId)[11] == '_';
  }

  /** The four kinds of cached value live under disjoint key families, so a
    * key never holds two kinds of value. */
  lemma {:induction false} KeyFamiliesDisjoint(u1: string, f: Option<string>, u2: string, u3: string, p3: string,
                            m3: string, u4: string, p4: string, m4: string)
    ensures Transactions(u1, f) != TransactionCategories(u2)
    ensures Transactions(u1, f) != DashboardData(u3, p3, m3)
    ensures Transactions(u1, f) != DashboardCharts(u4, p4, m4)
    ensures TransactionCategories(u2) != DashboardData(u3, p3, m3)
    ensures TransactionCategories(u2) != DashboardCharts(u4, p4, m4)
    ensures DashboardData(u3, p3, m3) != DashboardCharts(u4, p4, m4)
  {
    var t, c := Transactions(u1, f), TransactionCategories(u2);
    var d, h := DashboardData(u3, p3, m3), DashboardCharts(u4, p4, m4);
    assert t[11] == 's' && c[11] == '_';
    assert t[0] == 't' && d[0] == 'd' && h[0] == 'd' && c[0] == 't';
    assert d[9] == ':' && h[9] == '_';
  }
}
