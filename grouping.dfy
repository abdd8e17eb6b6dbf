/** `filter`, `reduce`, de-duplication through a `Set`, and grouping through
  * a `Map` filled in a `forEach` loop, over sequences. */
module Grouping {
  import opened Wrappers
  import Sorting

  /** `s.filter(p)` */
  function Filter<T>(s: seq<T>, p: T -> bool): (r: seq<T>)
    ensures |r| <= |s|
    ensures forall x :: x in r ==> x in s && p(x)
    ensures forall x :: x in s && p(x) ==> x in r
  {
    if s == [] then []
    else Filter(s[..|s| - 1], p) + (if p(s[|s| - 1]) then [s[|s| - 1]] else [])
  }

  /** `r` is obtained from `s` by deleting elements, keeping the order of the
    * rest. */
  predicate IsSubsequence<T(==)>(r: seq<T>, s: seq<T>)
  {
    if r == [] then true
    else if s == [] then false
    else if r[|r| - 1] == s[|s| - 1] then IsSubsequence(r[..|r| - 1], s[..|s| - 1])
    else IsSubsequence(r, s[..|s| - 1])
  }

  lemma {:induction false} FilterIsSubsequence<T>(s: seq<T>, p: T -> bool)
    ensures IsSubsequence(Filter(s, p), s)
  {
    if s != [] {
      var init := s[..|s| - 1];
      FilterIsSubsequence(init, p);
      var r := Filter(s, p);
      if p(s[|s| - 1]) {
        assert r == Filter(init, p) + [s[|s| - 1]];
        assert r[..|r| - 1] == Filter(init, p);
      } else {
        assert r == Filter(init, p);
        if r != [] { assert p(r[|r| - 1]) && r[|r| - 1] in r; }
      }
    }
  }

  lemma {:induction false} FilterAll<T>(s: seq<T>, p: T -> bool)
    requires forall x :: x in s ==> p(x)
    ensures Filter(s, p) == s
  {
    if s != [] {
      var init, last := s[..|s| - 1], s[|s| - 1];
      forall x | x in init ensures p(x) {
        var t :| 0 <= t < |init| && init[t] == x;
        assert s[t] == x;
      }
      FilterAll(init, p);
      assert p(last);
      assert init + [last] == s;
    }
  }

  lemma {:induction false} FilterNone<T>(s: seq<T>, p: T -> bool)
    requires forall x :: x in s ==> !p(x)
    ensures Filter(s, p) == []
  {
    if s != [] {
      assert forall x :: x in s[..|s| - 1] ==> x in s;
      FilterNone(s[..|s| - 1], p);
    }
  }

  lemma {:induction false} FilterAppend<T>(a: seq<T>, b: seq<T>, p: T -> bool)
    ensures Filter(a + b, p) == Filter(a, p) + Filter(b, p)
    decreases |b|
  {
    if b == [] {
      assert a + b == a;
    } else {
      var init, last := b[..|b| - 1], b[|b| - 1];
      assert (a + b)[..|a + b| - 1] == a + init;
      FilterAppend(a, init, p);
      var tail := if p(last) then [last] else [];
      calc {
        Filter(a + b, p);
        Filter(a + init, p) + tail;
        Filter(a, p) + Filter(init, p) + tail;
        Filter(a, p) + (Filter(init, p) + tail);
      }
    }
  }

  /** Filtering by `p` and then by `q` is filtering by their conjunction. */
  lemma {:induction false} FilterFilter<T>(s: seq<T>, p: T -> bool, q: T -> bool, pq: T -> bool)
    requires forall x :: pq(x) == (p(x) && q(x))
    ensures Filter(Filter(s, p), q) == Filter(s, pq)
  {
    if s != [] {
      var init, last := s[..|s| - 1], s[|s| - 1];
      FilterFilter(init, p, q, pq);
      var tail := if p(last) then [last] else [];
      FilterAppend(Filter(init, p), tail, q);
      assert Filter([last], q) == Filter([last][..0], q) + (if q(last) then [last] else []);
    }
  }

  /** Filters by pointwise equal predicates are equal. */
  lemma {:induction false} FilterExt<T>(s: seq<T>, p: T -> bool, q: T -> bool)
    requires forall x :: p(x) == q(x)
    ensures Filter(s, p) == Filter(s, q)
  {
    if s != [] {
      FilterExt(s[..|s| - 1], p, q);
    }
  }

  /** `s.filter(ps[0]).filter(ps[1])...` */
  function FilterChain<T>(s: seq<T>, ps: seq<T -> bool>): seq<T>
    decreases |ps|
  {
    if ps == [] then s else FilterChain(Filter(s, ps[0]), ps[1..])
  }

  predicate AllHold<T>(ps: seq<T -> bool>, x: T)
  {
    forall i :: 0 <= i < |ps| ==> ps[i](x)
  }

  /** A chain of filters keeps exactly the elements every filter keeps, in
    * order. */
  lemma {:induction false} FilterChainIsFilter<T>(s: seq<T>, ps: seq<T -> bool>)
    ensures FilterChain(s, ps) == Filter(s, x => AllHold(ps, x))
    decreases |ps|
  {
    if ps == [] {
      FilterAll(s, x => AllHold(ps, x));
    } else {
      FilterChainIsFilter(Filter(s, ps[0]), ps[1..]);
      forall x
        ensures AllHold(ps, x) == (ps[0](x) && AllHold(ps[1..], x))
      {
        if ps[0](x) && AllHold(ps[1..], x) {
          forall i | 0 <= i < |ps| ensures ps[i](x) {
            if i > 0 { assert ps[1..][i - 1] == ps[i]; }
          }
        }
      }
      FilterFilter(s, ps[0], x => AllHold(ps[1..], x), x => AllHold(ps, x));
    }
  }

  /** `s.reduce((acc, x) => acc + f(x), 0)` */
  function Sum<T>(s: seq<T>, f: T -> int): int
  {
    if s == [] then 0 else Sum(s[..|s| - 1], f) + f(s[|s| - 1])
  }

  lemma {:induction false} SumAppend<T>(a: seq<T>, b: seq<T>, f: T -> int)
    ensures Sum(a + b, f) == Sum(a, f) + Sum(b, f)
    decreases |b|
  {
    if b == [] {
      assert a + b == a;
    } else {
      assert (a + b)[..|a + b| - 1] == a + b[..|b| - 1];
      SumAppend(a, b[..|b| - 1], f);
    }
  }

  lemma {:induction false} SumNonNegative<T>(s: seq<T>, f: T -> int)
    requires forall x :: x in s ==> f(x) >= 0
    ensures Sum(s, f) >= 0
  {
    if s != [] {
      assert forall x :: x in s[..|s| - 1] ==> x in s;
      SumNonNegative(s[..|s| - 1], f);
    }
  }

  function Not<T>(p: T -> bool): T -> bool
  {
    (x: T) => !p(x)
  }

  /** The elements that pass a filter and those that fail it sum to the
    * whole. */
  lemma {:induction false} SumSplit<T>(s: seq<T>, p: T -> bool, f: T -> int)
    ensures Sum(Filter(s, p), f) + Sum(Filter(s, Not(p)), f) == Sum(s, f)
  {
    if s != [] {
      var init, last := s[..|s| - 1], s[|s| - 1];
      SumSplit(init, p, f);
      SumAppend(Filter(init, p), if p(last) then [last] else [], f);
      SumAppend(Filter(init, Not(p)), if !p(last) then [last] else [], f);
      assert Sum([last], f) == f(last) by { assert [last][..0] == []; }
    }
  }

  /** `f` on the elements that satisfy `p`, 0 on the others. */
  function When<T>(p: T -> bool, f: T -> int): T -> int
  {
    (x: T) => if p(x) then f(x) else 0
  }

  /** Adding `f` only where `p` holds is summing over the filter. */
  lemma {:induction false} SumWhen<T>(s: seq<T>, p: T -> bool, f: T -> int)
    ensures Sum(s, When(p, f)) == Sum(Filter(s, p), f)
  {
    if s != [] {
      var init, last := s[..|s| - 1], s[|s| - 1];
      SumWhen(init, p, f);
      SumAppend(Filter(init, p), if p(last) then [last] else [], f);
      assert Sum([last], f) == f(last) by { assert [last][..0] == []; }
    }
  }

  /** `s.map(f)` */
  function Map<T, U>(s: seq<T>, f: T -> U): (r: seq<U>)
    ensures |r| == |s| && forall i :: 0 <= i < |s| ==> r[i] == f(s[i])
  {
    if s == [] then [] else Map(s[..|s| - 1], f) + [f(s[|s| - 1])]
  }

  /** The image of a member is a member of the image. */
  lemma {:induction false} MapHas<T, U>(s: seq<T>, f: T -> U, x: T)
    requires x in s
    ensures f(x) in Map(s, f)
  {
    var i :| 0 <= i < |s| && s[i] == x;
    assert Map(s, f)[i] == f(x);
  }

  predicate Distinct<K(==)>(s: seq<K>)
  {
    forall i, j :: 0 <= i < j < |s| ==> s[i] != s[j]
  }

  /** `[...new Set(s)]`: each value once, in order of first occurrence. */
  function Dedup<K(==)>(s: seq<K>): (r: seq<K>)
    ensures Distinct(r)
    ensures forall x :: x in r ==> x in s
    ensures forall x :: x in s ==> x in r
  {
    if s == [] then []
    else
      var d := Dedup(s[..|s| - 1]);
      assert forall x :: x in s ==> x in s[..|s| - 1] || x == s[|s| - 1] by {
        assert s == s[..|s| - 1] + [s[|s| - 1]];
      }
      if s[|s| - 1] in d then d else d + [s[|s| - 1]]
  }

  /** The elements of one key, in input order. */
  datatype Bucket<K, T> = Bucket(key: K, items: seq<T>)

  function Keys<K, T>(g: seq<Bucket<K, T>>): (r: seq<K>)
    ensures |r| == |g| && forall i :: 0 <= i < |g| ==> r[i] == g[i].key
  {
    if g == [] then [] else Keys(g[..|g| - 1]) + [g[|g| - 1].key]
  }

  /** `Map.prototype.has` / the index of the entry of key `k`. */
  function FindKey<K(==), T>(g: seq<Bucket<K, T>>, k: K): (r: Option<nat>)
    ensures r.Some? ==> r.value < |g| && g[r.value].key == k
    ensures r.None? ==> forall i :: 0 <= i < |g| ==> g[i].key != k
  {
    if g == [] then None
    else if g[|g| - 1].key == k then Some(|g| - 1)
    else FindKey(g[..|g| - 1], k)
  }

  function KeyIs<K(==), T>(key: T -> K, k: K): T -> bool
  {
    (x: T) => key(x) == k
  }

  /** One step of the `forEach`: add `x` to the entry of its key, or append
    * a new entry when none exists yet. */
  function Add<K(==), T>(g: seq<Bucket<K, T>>, x: T, key: T -> K): seq<Bucket<K, T>>
  {
    match FindKey(g, key(x))
    case Some(j) => g[j := Bucket(g[j].key, g[j].items + [x])]
    case None => g + [Bucket(key(x), [x])]
  }

  predicate DistinctKeys<K(==), T>(g: seq<Bucket<K, T>>)
  {
    forall i, j :: 0 <= i < j < |g| ==> g[i].key != g[j].key
  }

  /** Every entry of `g` holds the elements of `s` of its key, in order. */
  ghost predicate ItemsOf<K, T>(g: seq<Bucket<K, T>>, s: seq<T>, key: T -> K)
  {
    forall i :: 0 <= i < |g| ==> g[i].items == Filter(s, KeyIs(key, g[i].key))
  }

  /** Every key occurring in `s` has an entry in `g`. */
  ghost predicate Covers<K, T>(g: seq<Bucket<K, T>>, s: seq<T>, key: T -> K)
  {
    forall x :: x in s ==> FindKey(g, key(x)).Some?
  }

  predicate NonEmpty<K, T>(g: seq<Bucket<K, T>>)
  {
    forall i :: 0 <= i < |g| ==> |g[i].items| > 0
  }

  /** `g` holds, for each key occurring in `s`, exactly one entry with the
    * elements of that key in input order. */
  ghost predicate Grouped<K, T>(g: seq<Bucket<K, T>>, s: seq<T>, key: T -> K)
  {
    DistinctKeys(g) && ItemsOf(g, s, key) && NonEmpty(g) && Covers(g, s, key)
  }

  /** The entries of a `Map` keyed by `key(x)` after a `forEach` over `s`. */
  function GroupBy<K(==), T>(s: seq<T>, key: T -> K): seq<Bucket<K, T>>
  {
    if s == [] then [] else Add(GroupBy(s[..|s| - 1], key), s[|s| - 1], key)
  }

  lemma {:induction false} AddItems<K, T>(g: seq<Bucket<K, T>>, s: seq<T>, key: T -> K)
    requires s != [] && DistinctKeys(g) && ItemsOf(g, s[..|s| - 1], key) && Covers(g, s[..|s| - 1], key)
    ensures ItemsOf(Add(g, s[|s| - 1], key), s, key)
  {
    var init, x := s[..|s| - 1], s[|s| - 1];
    var g' := Add(g, x, key);
    forall i | 0 <= i < |g'| ensures g'[i].items == Filter(s, KeyIs(key, g'[i].key)) {
      assert Filter(s, KeyIs(key, g'[i].key)) ==
        Filter(init, KeyIs(key, g'[i].key)) + (if key(x) == g'[i].key then [x] else []);
      match FindKey(g, key(x))
      case Some(j) =>
        if i != j { assert g[i].key != g[j].key; }
      case None =>
        if i == |g| {
          forall y | y in init ensures !KeyIs(key, key(x))(y) {
            assert FindKey(g, key(y)).Some?;
          }
          FilterNone(init, KeyIs(key, key(x)));
        }
    }
  }

  lemma {:induction false} AddFinds<K, T>(g: seq<Bucket<K, T>>, s: seq<T>, key: T -> K)
    requires s != [] && Covers(g, s[..|s| - 1], key)
    ensures Covers(Add(g, s[|s| - 1], key), s, key)
  {
    var init, x := s[..|s| - 1], s[|s| - 1];
    var g' := Add(g, x, key);
    forall y | y in s ensures FindKey(g', key(y)).Some? {
      var t :| 0 <= t < |s| && s[t] == y;
      if t == |s| - 1 {
        match FindKey(g, key(x))
        case Some(j) => assert g'[j].key == key(y);
        case None => assert g'[|g|].key == key(y);
      } else {
        assert init[t] == y;
        var f := FindKey(g, key(y)).value;
        assert g'[f].key == key(y);
      }
    }
  }

  lemma {:induction false} AddShape<K, T>(g: seq<Bucket<K, T>>, x: T, key: T -> K)
    requires DistinctKeys(g)
    ensures DistinctKeys(Add(g, x, key))
  {
  }

  lemma {:induction false} AddNonEmpty<K, T>(g: seq<Bucket<K, T>>, x: T, key: T -> K)
    requires NonEmpty(g)
    ensures NonEmpty(Add(g, x, key))
  {
  }

  /** Grouping puts each element under its key, once, in input order. */
  lemma {:induction false} GroupBySpec<K, T>(s: seq<T>, key: T -> K)
    ensures Grouped(GroupBy(s, key), s, key)
  {
    if s != [] {
      var g := GroupBy(s[..|s| - 1], key);
      GroupBySpec(s[..|s| - 1], key);
      AddItems(g, s, key);
      AddFinds(g, s, key);
      AddShape(g, s[|s| - 1], key);
      AddNonEmpty(g, s[|s| - 1], key);
    }
  }

  lemma {:induction false} GroupByDistinct<K, T>(s: seq<T>, key: T -> K)
    ensures DistinctKeys(GroupBy(s, key))
  {
    GroupBySpec(s, key);
  }

  lemma {:induction false} GroupByItems<K, T>(s: seq<T>, key: T -> K)
    ensures ItemsOf(GroupBy(s, key), s, key)
  {
    GroupBySpec(s, key);
  }

  lemma {:induction false} GroupByCovers<K, T>(s: seq<T>, key: T -> K)
    ensures Covers(GroupBy(s, key), s, key)
  {
    GroupBySpec(s, key);
  }

  lemma {:induction false} KeysAdd<K, T>(g: seq<Bucket<K, T>>, x: T, key: T -> K)
    ensures Keys(Add(g, x, key)) ==
      if key(x) in Keys(g) then Keys(g) else Keys(g) + [key(x)]
  {
    var ks := Keys(g);
    match FindKey(g, key(x))
    case Some(j) =>
      assert ks[j] == key(x);
      assert Keys(Add(g, x, key)) == ks;
    case None =>
      assert key(x) !in ks;
      assert Keys(Add(g, x, key)) == ks + [key(x)];
  }

  /** The keys of the groups are the distinct keys of the input, in order of
    * first occurrence. */
  lemma {:induction false} GroupByKeys<K, T>(s: seq<T>, key: T -> K)
    ensures Keys(GroupBy(s, key)) == Dedup(Map(s, key))
  {
    if s != [] {
      var init := s[..|s| - 1];
      GroupByKeys(init, key);
      var m := Map(s, key);
      assert m[..|s| - 1] == Map(init, key);
      KeysAdd(GroupBy(init, key), s[|s| - 1], key);
    }
  }

  /** The value a `Map` entry reaches when its first element creates it
    * with `first` and each later one updates it with `step`. */
  function FoldEntry<T, A>(items: seq<T>, first: T -> A, step: (A, T) -> A): A
    requires |items| > 0
  {
    if |items| == 1 then first(items[0])
    else step(FoldEntry(items[..|items| - 1], first, step), items[|items| - 1])
  }

  /** Folding three running totals yields the three sums. */
  lemma {:induction false} FoldSums3<T>(items: seq<T>, first: T -> (int, int, int), step: ((int, int, int), T) -> (int, int, int),
                                        f: T -> int, g: T -> int, h: T -> int)
    requires |items| > 0
    requires forall t :: first(t) == (f(t), g(t), h(t))
    requires forall a, t :: step(a, t) == (a.0 + f(t), a.1 + g(t), a.2 + h(t))
    ensures FoldEntry(items, first, step) == (Sum(items, f), Sum(items, g), Sum(items, h))
    decreases |items|
  {
    var init := items[..|items| - 1];
    if |items| > 1 {
      FoldSums3(init, first, step, f, g, h);
    } else {
      assert init == [];
    }
  }

  /** Three running totals started from one element. */
  function Start3<T>(f: T -> int, g: T -> int, h: T -> int): T -> (int, int, int)
  {
    t => (f(t), g(t), h(t))
  }

  /** Three running totals advanced by one element. */
  function Step3<T>(f: T -> int, g: T -> int, h: T -> int): ((int, int, int), T) -> (int, int, int)
  {
    (a: (int, int, int), t: T) => (a.0 + f(t), a.1 + g(t), a.2 + h(t))
  }

  /** `Start3` and `Step3` fold to the three sums. */
  lemma {:induction false} FoldTotals3<T>(items: seq<T>, f: T -> int, g: T -> int, h: T -> int)
    requires |items| > 0
    ensures FoldEntry(items, Start3(f, g, h), Step3(f, g, h)) == (Sum(items, f), Sum(items, g), Sum(items, h))
  {
    FoldSums3(items, Start3(f, g, h), Step3(f, g, h), f, g, h);
  }

  /** `acc` holds, under the key of every entry of `g`, the value folded from
    * that entry's elements. */
  ghost predicate FoldedAll<K, T, A>(g: seq<Bucket<K, T>>, acc: map<K, A>, first: T -> A, step: (A, T) -> A)
  {
    forall j :: 0 <= j < |g| ==>
      |g[j].items| > 0 && g[j].key in acc && acc[g[j].key] == FoldEntry(g[j].items, first, step)
  }

  /** `keys` and `acc` are the insertion order and the entries of the `Map`
    * whose buckets are `g`. */
  ghost predicate Folded<K, T, A>(g: seq<Bucket<K, T>>, keys: seq<K>, acc: map<K, A>,
                                  first: T -> A, step: (A, T) -> A)
  {
    DistinctKeys(g) && keys == Keys(g) && (forall k :: k in acc ==> k in keys) &&
    FoldedAll(g, acc, first, step)
  }

  lemma {:induction false} UpdateFolded<K, T, A>(g: seq<Bucket<K, T>>, j: nat, x: T, acc: map<K, A>,
                                                 first: T -> A, step: (A, T) -> A)
    requires DistinctKeys(g) && j < |g| && FoldedAll(g, acc, first, step)
    ensures FoldedAll(g[j := Bucket(g[j].key, g[j].items + [x])], acc[g[j].key := step(acc[g[j].key], x)], first, step)
  {
    var g' := g[j := Bucket(g[j].key, g[j].items + [x])];
    var acc' := acc[g[j].key := step(acc[g[j].key], x)];
    forall i | 0 <= i < |g'|
      ensures |g'[i].items| > 0 && g'[i].key in acc' && acc'[g'[i].key] == FoldEntry(g'[i].items, first, step)
    {
      if i == j {
        assert g'[i].items[..|g'[i].items| - 1] == g[j].items;
      } else {
        assert g[i].key != g[j].key;
      }
    }
  }

  lemma {:induction false} UpdateEntry<K, T, A>(g: seq<Bucket<K, T>>, keys: seq<K>, x: T, key: T -> K,
                                                acc: map<K, A>, first: T -> A, step: (A, T) -> A)
    requires Folded(g, keys, acc, first, step) && key(x) in acc
    ensures Folded(Add(g, x, key), keys, acc[key(x) := step(acc[key(x)], x)], first, step)
  {
    var k := key(x);
    var t :| 0 <= t < |keys| && keys[t] == k;
    assert FindKey(g, k).Some?;
    var j := FindKey(g, k).value;
    assert Add(g, x, key) == g[j := Bucket(g[j].key, g[j].items + [x])];
    KeysAdd(g, x, key);
    AddShape(g, x, key);
    UpdateFolded(g, j, x, acc, first, step);
  }

  lemma {:induction false} NewFolded<K, T, A>(g: seq<Bucket<K, T>>, x: T, key: T -> K, acc: map<K, A>,
                                              first: T -> A, step: (A, T) -> A)
    requires FoldedAll(g, acc, first, step) && forall i :: 0 <= i < |g| ==> g[i].key != key(x)
    ensures FoldedAll(g + [Bucket(key(x), [x])], acc[key(x) := first(x)], first, step)
  {
    var g' := g + [Bucket(key(x), [x])];
    var acc' := acc[key(x) := first(x)];
    forall i | 0 <= i < |g'|
      ensures |g'[i].items| > 0 && g'[i].key in acc' && acc'[g'[i].key] == FoldEntry(g'[i].items, first, step)
    {
      if i < |g| { assert g'[i] == g[i]; }
    }
  }

  lemma {:induction false} NewEntry<K, T, A>(g: seq<Bucket<K, T>>, keys: seq<K>, x: T, key: T -> K,
                                             acc: map<K, A>, first: T -> A, step: (A, T) -> A)
    requires Folded(g, keys, acc, first, step) && key(x) !in acc
    ensures Folded(Add(g, x, key), keys + [key(x)], acc[key(x) := first(x)], first, step)
  {
    var k := key(x);
    forall i | 0 <= i < |g| ensures g[i].key != k {
      assert keys[i] == g[i].key;
    }
    assert Add(g, x, key) == g + [Bucket(k, [x])];
    assert Keys(Add(g, x, key)) == keys + [k];
    AddShape(g, x, key);
    NewFolded(g, x, key, acc, first, step);
  }

  /** The `forEach` loop that fills a `Map`: `keys` is the insertion order and
    * `acc` the entry of each key. */
  method Accumulate<K(==), T, A>(s: seq<T>, key: T -> K, first: T -> A, step: (A, T) -> A)
    returns (keys: seq<K>, acc: map<K, A>)
    ensures keys == Keys(GroupBy(s, key))
    ensures forall k :: k in acc ==> k in keys
    ensures FoldedAll(GroupBy(s, key), acc, first, step)
  {
    keys, acc := [], map[];
    ghost var g: seq<Bucket<K, T>> := [];
    var i := 0;
    while i < |s|
      invariant 0 <= i <= |s|
      invariant g == GroupBy(s[..i], key)
      invariant Folded(g, keys, acc, first, step)
    {
      var x, k := s[i], key(s[i]);
      assert s[..i + 1][..i] == s[..i];
      if k in acc {
        UpdateEntry(g, keys, x, key, acc, first, step);
        acc := acc[k := step(acc[k], x)];
      } else {
        NewEntry(g, keys, x, key, acc, first, step);
        acc := acc[k := first(x)];
        keys := keys + [k];
      }
      g := Add(g, x, key);
      i := i + 1;
    }
    assert s[..i] == s;
  }

  lemma {:induction false} PrefixSnoc<T>(s: seq<T>, i: nat)
    requires i < |s|
    ensures s[..i + 1] == s[..i] + [s[i]]
  {
  }

  /** The value of one `Map<K, number>` entry as `reduce` would give it: the
    * sum of `f` over the elements of that key. */
  lemma {:induction false} FoldSum<T>(items: seq<T>, f: T -> int, first: T -> int, step: (int, T) -> int)
    requires |items| > 0
    requires forall x :: first(x) == f(x)
    requires forall a, x :: step(a, x) == a + f(x)
    ensures FoldEntry(items, first, step) == Sum(items, f)
  {
    if |items| > 1 {
      FoldSum(items[..|items| - 1], f, first, step);
    } else {
      assert items[..0] == [];
    }
  }

  /** The `Map` entry of one bucket: its key and the sum of `f` over it. */
  function TotalOf<K, T>(f: T -> int): Bucket<K, T> -> (K, int)
  {
    (b: Bucket<K, T>) => (b.key, Sum(b.items, f))
  }

  /** `Array.from(map.entries())` after `map.set(k, (map.get(k) || 0) + f(x))`
    * for every `x` of `s`. */
  function Totals<K(==), T>(s: seq<T>, key: T -> K, f: T -> int): seq<(K, int)>
  {
    Map(GroupBy(s, key), TotalOf(f))
  }

  function FirstOf<K, V>(e: (K, V)): K { e.0 }

  /** Each key of `s` occurs once, in order of first occurrence, with the sum
    * of `f` over the elements of that key. */
  lemma {:induction false} TotalsSpec<K, T>(s: seq<T>, key: T -> K, f: T -> int)
    ensures Map(Totals(s, key, f), FirstOf) == Dedup(Map(s, key))
    ensures forall e :: e in Totals(s, key, f) ==> e.1 == Sum(Filter(s, KeyIs(key, e.0)), f)
  {
    var g := GroupBy(s, key);
    GroupByItems(s, key);
    GroupByKeys(s, key);
    var t := Totals(s, key, f);
    assert Map(t, FirstOf) == Keys(g);
    forall e | e in t ensures e.1 == Sum(Filter(s, KeyIs(key, e.0)), f) {
      var i :| 0 <= i < |t| && t[i] == e;
      assert g[i].items == Filter(s, KeyIs(key, g[i].key));
    }
  }

  function SumFirst<T>(f: T -> int): T -> int
  {
    (x: T) => f(x)
  }

  function SumStep<T>(f: T -> int): (int, T) -> int
  {
    (a: int, x: T) => a + f(x)
  }

  /** The `i`-th entry read back from the filled `Map` is the `i`-th total. */
  lemma {:induction false} TotalEntry<K, T>(g: seq<Bucket<K, T>>, i: nat, keys: seq<K>, acc: map<K, int>, f: T -> int)
    requires i < |g| && keys == Keys(g)
    requires FoldedAll(g, acc, SumFirst(f), SumStep(f))
    ensures keys[i] in acc && Map(g, TotalOf(f))[i] == (keys[i], acc[keys[i]])
  {
    FoldSum(g[i].items, f, SumFirst(f), SumStep(f));
  }

  /** The `forEach` that sums `f` per key into a `Map`, read back as its
    * entries. */
  method SumByKey<K(==), T>(s: seq<T>, key: T -> K, f: T -> int) returns (entries: seq<(K, int)>)
    ensures entries == Totals(s, key, f)
  {
    var keys, acc := Accumulate(s, key, SumFirst(f), SumStep(f));
    ghost var g := GroupBy(s, key);
    ghost var all := Totals(s, key, f);
    entries := [];
    var i := 0;
    while i < |keys|
      invariant 0 <= i <= |keys| == |g| == |all|
      invariant entries == all[..i]
    {
      TotalEntry(g, i, keys, acc, f);
      PrefixSnoc(all, i);
      entries := entries + [(keys[i], acc[keys[i]])];
      i := i + 1;
    }
    assert all[..i] == all;
  }

  /** `make`, applied to a bucket's key and folded value, builds `view` of
    * that bucket. */
  ghost predicate ViewAgrees<K(!new), T(!new), A, E>(first: T -> A, step: (A, T) -> A, make: (K, A) -> E, view: Bucket<K, T> -> E)
  {
    forall b: Bucket<K, T> :: |b.items| > 0 ==> make(b.key, FoldEntry(b.items, first, step)) == view(b)
  }

  lemma {:induction false} EntryStep<K(!new), T(!new), A, E>(g: seq<Bucket<K, T>>, i: nat, keys: seq<K>, acc: map<K, A>,
                                               first: T -> A, step: (A, T) -> A, make: (K, A) -> E, view: Bucket<K, T> -> E)
    requires i < |g| == |keys| && keys[i] == g[i].key
    requires FoldedAll(g, acc, first, step)
    requires ViewAgrees(first, step, make, view)
    ensures keys[i] in acc && make(keys[i], acc[keys[i]]) == Map(g, view)[i]
  {
    var b := g[i];
    assert |b.items| > 0;
  }

  /** `Array.from(map.values())` after `Accumulate`, each entry built by
    * `make` from its key and its folded value, when `make` agrees with
    * `view` on every non-empty bucket. */
  method EntriesOf<K(==,!new), T(!new), A, E>(s: seq<T>, key: T -> K, first: T -> A, step: (A, T) -> A,
                                   make: (K, A) -> E, view: Bucket<K, T> -> E)
    returns (entries: seq<E>)
    requires ViewAgrees(first, step, make, view)
    ensures entries == Map(GroupBy(s, key), view)
  {
    var keys, acc := Accumulate(s, key, first, step);
    ghost var g := GroupBy(s, key);
    ghost var all := Map(g, view);
    entries := [];
    var i := 0;
    while i < |keys|
      invariant 0 <= i <= |keys| == |g| == |all|
      invariant entries == all[..i]
    {
      EntryStep(g, i, keys, acc, first, step, make, view);
      PrefixSnoc(all, i);
      entries := entries + [make(keys[i], acc[keys[i]])];
      i := i + 1;
    }
    assert entries == all;
  }

  /** `s.map((x, index) => f(index, x))` */
  function MapIndexed<T, U>(s: seq<T>, f: (nat, T) -> U): (r: seq<U>)
    ensures |r| == |s| && forall i :: 0 <= i < |s| ==> r[i] == f(i, s[i])
  {
    if s == [] then [] else MapIndexed(s[..|s| - 1], f) + [f(|s| - 1, s[|s| - 1])]
  }

  /** Every entry built from a `GroupBy` is the view of one key's elements,
    * of which there is at least one. */
  lemma {:induction false} GroupEntries<K, T, E>(s: seq<T>, key: T -> K, view: Bucket<K, T> -> E)
    ensures forall e :: e in Map(GroupBy(s, key), view) ==>
      exists k :: |Filter(s, KeyIs(key, k))| > 0 && e == view(Bucket(k, Filter(s, KeyIs(key, k))))
  {
    var g := GroupBy(s, key);
    GroupBySpec(s, key);
    forall e | e in Map(g, view)
      ensures exists k :: |Filter(s, KeyIs(key, k))| > 0 && e == view(Bucket(k, Filter(s, KeyIs(key, k))))
    {
      var i :| 0 <= i < |g| && Map(g, view)[i] == e;
      assert g[i] == Bucket(g[i].key, Filter(s, KeyIs(key, g[i].key)));
    }
  }

  /** When each entry carries its bucket's key, the entries have distinct
    * keys and every element's key has an entry. */
  lemma {:induction false} GroupViewKeys<K, T, E>(s: seq<T>, key: T -> K, view: Bucket<K, T> -> E, keyOf: E -> K)
    requires forall b: Bucket<K, T> :: keyOf(view(b)) == b.key
    ensures Sorting.KeysDistinct(Map(GroupBy(s, key), view), keyOf)
    ensures forall x :: x in s ==> exists e :: e in Map(GroupBy(s, key), view) && keyOf(e) == key(x)
  {
    var g := GroupBy(s, key);
    var m := Map(g, view);
    GroupBySpec(s, key);
    forall i, j | 0 <= i < j < |m| ensures keyOf(m[i]) != keyOf(m[j]) {
      assert keyOf(m[i]) == g[i].key && keyOf(m[j]) == g[j].key;
    }
    forall x | x in s ensures exists e :: e in m && keyOf(e) == key(x) {
      var i := FindKey(g, key(x)).value;
      assert m[i] in m && keyOf(m[i]) == g[i].key;
    }
  }

  /** The key whose elements an entry of a reordering of the `GroupBy`
    * entries was built from. */
  lemma {:induction false} GroupEntryOf<K, T, E>(s: seq<T>, key: T -> K, view: Bucket<K, T> -> E, r: seq<E>, e: E)
    returns (k: K)
    requires multiset(r) == multiset(Map(GroupBy(s, key), view)) && e in r
    ensures |Filter(s, KeyIs(key, k))| > 0 && e == view(Bucket(k, Filter(s, KeyIs(key, k))))
  {
    var g := GroupBy(s, key);
    GroupBySpec(s, key);
    assert e in multiset(Map(g, view));
    var i :| 0 <= i < |g| && Map(g, view)[i] == e;
    k := g[i].key;
    assert g[i] == Bucket(k, Filter(s, KeyIs(key, k)));
  }

  /** The index of the first occurrence of `x` in `s`. */
  function FirstIndex<K(==)>(s: seq<K>, x: K): (k: nat)
    requires x in s
    ensures k < |s| && s[k] == x && x !in s[..k]
  {
    if s[0] == x then 0
    else
      var k := FirstIndex(s[1..], x);
      assert s[..k + 1] == [s[0]] + s[1..][..k];
      k + 1
  }

  /** An index holding `x` with no `x` before it is the first index. */
  lemma {:induction false} FirstIndexUnique<K>(s: seq<K>, x: K, k: nat)
    requires k < |s| && s[k] == x && x !in s[..k]
    ensures FirstIndex(s, x) == k
  {
  }

  /** Appending keeps the first occurrences already present. */
  lemma {:induction false} FirstIndexSnoc<K>(s: seq<K>, y: K, x: K)
    requires x in s
    ensures x in s + [y] && FirstIndex(s + [y], x) == FirstIndex(s, x)
  {
    var k := FirstIndex(s, x);
    assert (s + [y])[..k] == s[..k];
    FirstIndexUnique(s + [y], x, k);
  }

  /** `[...new Set(s)]` lists the values in the order of their first
    * occurrence in `s`. */
  lemma {:induction false} DedupFirstOccurrence<K>(s: seq<K>)
    ensures forall i, j :: 0 <= i < j < |Dedup(s)| ==> FirstIndex(s, Dedup(s)[i]) < FirstIndex(s, Dedup(s)[j])
  {
    if s != [] {
      var init, last := s[..|s| - 1], s[|s| - 1];
      var d := Dedup(init);
      DedupFirstOccurrence(init);
      assert s == init + [last];
      forall x | x in d ensures FirstIndex(s, x) == FirstIndex(init, x) {
        FirstIndexSnoc(init, last, x);
      }
      if last !in d {
        assert last !in init;
        FirstIndexUnique(s, last, |init|);
        var r := Dedup(s);
        assert r == d + [last];
        forall i, j | 0 <= i < j < |r| ensures FirstIndex(s, r[i]) < FirstIndex(s, r[j]) {
          if j < |d| {
            assert r[i] == d[i] && r[j] == d[j];
          } else {
            assert r[i] == d[i] && d[i] in d;
          }
        }
      }
    }
  }
}
