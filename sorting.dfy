/** `Array.prototype.sort` with a comparator, as a stable insertion sort over
  * sequences, and the comparators the application passes to it. */
module Sorting {
  import Text

  /** `less` is a strict weak order: the precondition ECMAScript puts on a
    * consistent comparator. */
  ghost predicate StrictWeakOrder<T(!new)>(less: (T, T) -> bool)
  {
    (forall a :: !less(a, a)) &&
    (forall a, b, c :: less(a, b) && less(b, c) ==> less(a, c)) &&
    (forall a, b, c :: less(a, c) ==> less(a, b) || less(b, c))
  }

  /** No element is `less` than one placed before it. */
  predicate SortedBy<T>(s: seq<T>, less: (T, T) -> bool)
  {
    forall i, j :: 0 <= i < j < |s| ==> !less(s[j], s[i])
  }

  /** Inserts `x` before the first element it is `less` than, so that it
    * lands after every equivalent element already present. */
  function Insert<T(!new)>(x: T, s: seq<T>, less: (T, T) -> bool): (r: seq<T>)
    requires StrictWeakOrder(less)
    requires SortedBy(s, less)
    ensures multiset(r) == multiset(s) + multiset{x}
    ensures SortedBy(r, less)
    ensures |r| == |s| + 1
  {
    if s == [] then [x]
    else if less(x, s[0]) then
      assert forall j :: 0 < j < |s| ==> less(x, s[j]) by {
        forall j | 0 < j < |s| ensures less(x, s[j]) {
          assert !less(s[j], s[0]);
        }
      }
      assert forall j :: 0 <= j < |s| ==> ([x] + s)[j + 1] == s[j];
      [x] + s
    else
      var rest := Insert(x, s[1..], less);
      HeadStaysFirst(x, s, rest, less);
      [s[0]] + rest
  }

  /** The head of a sorted list is not `less` than anything the insertion
    * into its tail produces, when it is not `less` than the inserted
    * element either. */
  lemma {:induction false} HeadStaysFirst<T>(x: T, s: seq<T>, rest: seq<T>, less: (T, T) -> bool)
    requires s != [] && SortedBy(s, less) && !less(x, s[0])
    requires multiset(rest) == multiset(s[1..]) + multiset{x}
    ensures multiset(s) + multiset{x} == multiset([s[0]] + rest)
    ensures forall j :: 0 <= j < |rest| ==> !less(rest[j], s[0])
  {
    assert multiset(s) == multiset{s[0]} + multiset(s[1..]) by { assert s == [s[0]] + s[1..]; }
    forall j | 0 <= j < |rest| ensures !less(rest[j], s[0]) {
      assert rest[j] in multiset(rest);
      if rest[j] != x {
        assert rest[j] in multiset(s[1..]);
        var k :| 0 <= k < |s[1..]| && s[1..][k] == rest[j];
        assert s[k + 1] == rest[j];
      }
    }
  }

  /** The sorted permutation of `s`; equivalent elements keep their order. */
  function SortBy<T(!new)>(s: seq<T>, less: (T, T) -> bool): (r: seq<T>)
    requires StrictWeakOrder(less)
    ensures multiset(r) == multiset(s)
    ensures SortedBy(r, less)
    ensures |r| == |s|
  {
    if s == [] then []
    else
      assert s == s[..|s| - 1] + [s[|s| - 1]];
      Insert(s[|s| - 1], SortBy(s[..|s| - 1], less), less)
  }

  function Self(s: string): string { s }

  /** `Array.prototype.sort()` on strings: ascending by code units. */
  function SortTexts(s: seq<string>): (r: seq<string>)
    ensures multiset(r) == multiset(s) && |r| == |s|
    ensures SortedBy(r, ByTextAsc(Self))
  {
    ByTextAscOrder(Self);
    SortBy(s, ByTextAsc(Self))
  }

  /** Sorting distinct strings gives a strictly ascending list of the same
    * strings. */
  lemma {:induction false} SortTextsStrict(s: seq<string>)
    requires forall i, j :: 0 <= i < j < |s| ==> s[i] != s[j]
    ensures forall i, j :: 0 <= i < j < |SortTexts(s)| ==> Text.Lt(SortTexts(s)[i], SortTexts(s)[j])
    ensures forall x :: x in SortTexts(s) <==> x in s
  {
    ByTextAscOrder(Self);
    var r := SortTexts(s);
    SortByKeysDistinct(s, ByTextAsc(Self), Self);
    forall i, j | 0 <= i < j < |r| ensures Text.Lt(r[i], r[j]) {
      assert !ByTextAsc(Self)(r[j], r[i]);
      assert Self(r[i]) != Self(r[j]);
      Text.LtTotal(r[i], r[j]);
    }
    forall x ensures x in r <==> x in s {
      assert x in r <==> x in multiset(r);
      assert x in s <==> x in multiset(s);
    }
  }

  /** The first `n` elements, or all of them: `s.slice(0, n)`. */
  function Take<T>(s: seq<T>, n: nat): (r: seq<T>)
    ensures |r| <= n && |r| <= |s| && r <= s
    ensures |r| == if n < |s| then n else |s|
  {
    if n < |s| then s[..n] else s
  }

  /** `s.slice(0, n)` for any integer `n`: a negative end counts back from
    * the last element. */
  function SliceTo<T>(s: seq<T>, n: int): (r: seq<T>)
    ensures r <= s
    ensures n >= 0 ==> r == Take(s, n)
    ensures n < 0 ==> |r| == if |s| + n > 0 then |s| + n else 0
  {
    if n >= 0 then Take(s, n) else if |s| + n > 0 then s[..|s| + n] else []
  }

  /** A prefix holds no element more often than the whole list. */
  lemma {:induction false} PrefixMultiset<T>(s: seq<T>, r: seq<T>)
    requires r <= s
    ensures multiset(r) <= multiset(s)
  {
    assert s == r + s[|r|..];
  }

  /** A prefix of a sorted list is sorted. */
  lemma {:induction false} PrefixSorted<T>(s: seq<T>, r: seq<T>, less: (T, T) -> bool)
    requires r <= s && SortedBy(s, less)
    ensures SortedBy(r, less)
  {
    assert forall i :: 0 <= i < |r| ==> r[i] == s[i];
  }

  lemma {:induction false} TakeSorted<T>(s: seq<T>, n: nat, less: (T, T) -> bool)
    requires SortedBy(s, less)
    ensures SortedBy(Take(s, n), less)
  {
  }

  /** What `slice(0, n)` leaves out of a sorted list is never `less` than
    * what it keeps. */
  lemma {:induction false} TakeKeepsFirst<T>(s: seq<T>, n: nat, less: (T, T) -> bool)
    requires SortedBy(s, less)
    ensures forall e, x :: e in s && e !in Take(s, n) && x in Take(s, n) ==> !less(e, x)
  {
    forall e, x | e in s && e !in Take(s, n) && x in Take(s, n) ensures !less(e, x) {
      var k :| 0 <= k < |s| && s[k] == e;
      var i :| 0 <= i < |Take(s, n)| && Take(s, n)[i] == x;
      assert s[i] == x;
      assert forall j :: 0 <= j < |Take(s, n)| ==> Take(s, n)[j] == s[j];
    }
  }

  /** Greatest integer key first: `(a, b) => key(b) - key(a)`. */
  function ByIntDesc<T>(key: T -> int): (T, T) -> bool
  {
    (a: T, b: T) => key(a) > key(b)
  }

  lemma {:induction false} ByIntDescOrder<T(!new)>(key: T -> int)
    ensures StrictWeakOrder(ByIntDesc(key))
  {
  }

  /** Strings in ascending `<` order of a key. */
  function ByTextAsc<T>(key: T -> string): (T, T) -> bool
  {
    (a: T, b: T) => Text.Lt(key(a), key(b))
  }

  /** Strings in descending `<` order of a key. */
  function ByTextDesc<T>(key: T -> string): (T, T) -> bool
  {
    (a: T, b: T) => Text.Lt(key(b), key(a))
  }

  lemma {:induction false} TextIncomparable(x: string, y: string, z: string)
    requires Text.Lt(x, z)
    ensures Text.Lt(x, y) || Text.Lt(y, z)
  {
    Text.LtTotal(x, y);
    Text.LtTotal(y, z);
    if !Text.Lt(x, y) && !Text.Lt(y, z) {
      if y != x && y != z { Text.LtTransitive(z, y, x); Text.LtAsymmetric(x, z); }
      else if y == x { Text.LtAsymmetric(x, z); }
      else { Text.LtAsymmetric(x, y); }
    }
  }

  lemma {:induction false} ByTextAscOrder<T(!new)>(key: T -> string)
    ensures StrictWeakOrder(ByTextAsc(key))
  {
    var less := ByTextAsc(key);
    forall a ensures !less(a, a) { Text.LtIrreflexive(key(a)); }
    forall a, b, c | less(a, b) && less(b, c) ensures less(a, c) {
      Text.LtTransitive(key(a), key(b), key(c));
    }
    forall a, b, c | less(a, c) ensures less(a, b) || less(b, c) {
      TextIncomparable(key(a), key(b), key(c));
    }
  }

  lemma {:induction false} ByTextDescOrder<T(!new)>(key: T -> string)
    ensures StrictWeakOrder(ByTextDesc(key))
  {
    var less := ByTextDesc(key);
    forall a ensures !less(a, a) { Text.LtIrreflexive(key(a)); }
    forall a, b, c | less(a, b) && less(b, c) ensures less(a, c) {
      Text.LtTransitive(key(c), key(b), key(a));
    }
    forall a, b, c | less(a, c) ensures less(a, b) || less(b, c) {
      TextIncomparable(key(c), key(b), key(a));
    }
  }

  /** Descending by a first text key, ties broken descending by a second. */
  function ByTextPairDesc<T>(first: T -> string, second: T -> string): (T, T) -> bool
  {
    (a: T, b: T) =>
      Text.Lt(first(b), first(a)) || (first(a) == first(b) && Text.Lt(second(b), second(a)))
  }

  lemma {:induction false} ByTextPairDescOrder<T(!new)>(first: T -> string, second: T -> string)
    ensures StrictWeakOrder(ByTextPairDesc(first, second))
  {
    var less := ByTextPairDesc(first, second);
    forall a ensures !less(a, a) {
      Text.LtIrreflexive(first(a));
      Text.LtIrreflexive(second(a));
    }
    forall a, b, c | less(a, b) && less(b, c) ensures less(a, c) {
      if Text.Lt(first(b), first(a)) && Text.Lt(first(c), first(b)) {
        Text.LtTransitive(first(c), first(b), first(a));
      } else if first(a) == first(b) && first(b) == first(c) {
        Text.LtTransitive(second(c), second(b), second(a));
      }
    }
    forall a, b, c | less(a, c) ensures less(a, b) || less(b, c) {
      Text.LtTotal(first(a), first(b));
      Text.LtTotal(first(b), first(c));
      if Text.Lt(first(c), first(a)) {
        TextIncomparable(first(c), first(b), first(a));
      } else {
        Text.LtTotal(second(a), second(b));
        Text.LtTotal(second(b), second(c));
        if first(b) == first(a) {
          TextIncomparable(second(c), second(b), second(a));
        } else if Text.Lt(first(b), first(a)) {
        } else {
          Text.LtAsymmetric(first(a), first(b));
        }
      }
    }
  }
  /** No two elements share a key. */
  ghost predicate KeysDistinct<T, K>(s: seq<T>, key: T -> K)
  {
    forall i, j :: 0 <= i < j < |s| ==> key(s[i]) != key(s[j])
  }

  lemma {:induction false} InsertKeysDistinct<T(!new), K>(x: T, s: seq<T>, less: (T, T) -> bool, key: T -> K)
    requires StrictWeakOrder(less) && SortedBy(s, less)
    requires KeysDistinct(s, key) && forall y :: y in s ==> key(y) != key(x)
    ensures KeysDistinct(Insert(x, s, less), key)
  {
    if s == [] {
    } else if less(x, s[0]) {
      assert Insert(x, s, less) == [x] + s;
      ConsKeysDistinct(x, s, key);
    } else {
      var tail := s[1..];
      assert forall i :: 0 <= i < |tail| ==> tail[i] == s[i + 1];
      InsertKeysDistinct(x, tail, less, key);
      var rest := Insert(x, tail, less);
      forall y | y in rest ensures key(y) != key(s[0]) {
        assert y in multiset(rest);
        if y != x {
          assert y in multiset(tail);
          var k :| 0 <= k < |tail| && tail[k] == y;
          assert s[k + 1] == y;
        }
      }
      assert Insert(x, s, less) == [s[0]] + rest;
      ConsKeysDistinct(s[0], rest, key);
    }
  }

  /** An element whose key no element of `t` shares keeps the keys distinct
    * in front of `t`. */
  lemma {:induction false} ConsKeysDistinct<T, K>(h: T, t: seq<T>, key: T -> K)
    requires KeysDistinct(t, key) && forall y :: y in t ==> key(y) != key(h)
    ensures KeysDistinct([h] + t, key)
  {
    var r := [h] + t;
    forall i, j | 0 <= i < j < |r| ensures key(r[i]) != key(r[j]) {
      assert r[j] == t[j - 1] && t[j - 1] in t;
      if i > 0 {
        assert r[i] == t[i - 1];
      }
    }
  }

  /** Sorting keeps distinct keys distinct. */
  lemma {:induction false} SortByKeysDistinct<T(!new), K>(s: seq<T>, less: (T, T) -> bool, key: T -> K)
    requires StrictWeakOrder(less) && KeysDistinct(s, key)
    ensures KeysDistinct(SortBy(s, less), key)
  {
    if s != [] {
      var init := s[..|s| - 1];
      SortByKeysDistinct(init, less, key);
      var sorted := SortBy(init, less);
      forall y | y in sorted ensures key(y) != key(s[|s| - 1]) {
        assert y in multiset(sorted);
        var k :| 0 <= k < |init| && init[k] == y;
        assert s[k] == y;
      }
      InsertKeysDistinct(s[|s| - 1], sorted, less, key);
    }
  }
}
