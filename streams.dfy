/** The one stream operator whose effect is not about timing:
  * `distinctUntilChanged(same)`, which drops a value when `same(last, value)`
  * holds for the last value it let through. */
module Streams {
  /** The values let through when `last` was the last one let through. */
  function DistinctFrom<T(==)>(s: seq<T>, same: (T, T) -> bool, last: T): (r: seq<T>)
    ensures |r| > 0 ==> !same(last, r[0])
    ensures forall i :: 0 <= i < |r| - 1 ==> !same(r[i], r[i + 1])
    ensures forall x :: x in r ==> x in s
    ensures forall i :: 0 <= i < |s| && !same(last, s[i]) && (forall j :: 0 <= j < i ==> same(last, s[j])) ==> |r| > 0 && r[0] == s[i]
    ensures (|s| > 0 ==> !same(last, s[0])) && (forall i :: 0 <= i < |s| - 1 ==> !same(s[i], s[i + 1])) ==> r == s
  {
    if s == [] then []
    else if same(last, s[0]) then DistinctFrom(s[1..], same, last)
    else [s[0]] + DistinctFrom(s[1..], same, s[0])
  }

  /** `source.pipe(distinctUntilChanged(same))`: the first value always
    * passes, and a stream whose consecutive values all differ passes
    * whole. */
  function DistinctUntilChanged<T(==)>(s: seq<T>, same: (T, T) -> bool): (r: seq<T>)
    ensures |s| > 0 ==> |r| > 0 && r[0] == s[0]
    ensures forall i :: 0 <= i < |r| - 1 ==> !same(r[i], r[i + 1])
    ensures forall x :: x in r ==> x in s
    ensures (forall i :: 0 <= i < |s| - 1 ==> !same(s[i], s[i + 1])) ==> r == s
  {
    if s == [] then [] else [s[0]] + DistinctFrom(s[1..], same, s[0])
  }

  /** What the operator does with one more value after `s`, given the last
    * value let through so far. */
  function Next<T>(r: seq<T>, same: (T, T) -> bool, last: T, x: T): seq<T>
  {
    if same(last, x) then r else r + [x]
  }

  lemma {:induction false} DistinctFromStep<T>(s: seq<T>, same: (T, T) -> bool, last: T, x: T)
    ensures var r := DistinctFrom(s, same, last);
      DistinctFrom(s + [x], same, last) == Next(r, same, if r == [] then last else r[|r| - 1], x)
  {
    if s != [] {
      var sx := s + [x];
      assert sx[0] == s[0] && sx[1..] == s[1..] + [x];
      if same(last, s[0]) {
        assert DistinctFrom(sx, same, last) == DistinctFrom(s[1..] + [x], same, last);
        assert DistinctFrom(s, same, last) == DistinctFrom(s[1..], same, last);
        DistinctFromStep(s[1..], same, last, x);
      } else {
        var t := DistinctFrom(s[1..], same, s[0]);
        assert DistinctFrom(sx, same, last) == [s[0]] + DistinctFrom(s[1..] + [x], same, s[0]);
        assert DistinctFrom(s, same, last) == [s[0]] + t;
        DistinctFromStep(s[1..], same, s[0], x);
        var l := if t == [] then s[0] else t[|t| - 1];
        assert ([s[0]] + t)[|[s[0]] + t| - 1] == l;
        assert [s[0]] + (t + [x]) == ([s[0]] + t) + [x];
      }
    }
  }

  /** The operator one value at a time: a value is emitted exactly when
    * nothing was emitted yet or it is not `same` as the last value emitted,
    * and the earlier emissions never change. With the empty stream giving
    * nothing, this determines every output. */
  lemma {:induction false} DistinctStep<T>(s: seq<T>, same: (T, T) -> bool, x: T)
    ensures DistinctUntilChanged([], same) == []
    ensures var r := DistinctUntilChanged(s, same);
      DistinctUntilChanged(s + [x], same) ==
        if r != [] && same(r[|r| - 1], x) then r else r + [x]
  {
    if s != [] {
      assert (s + [x])[1..] == s[1..] + [x];
      assert (s + [x])[0] == s[0];
      DistinctFromStep(s[1..], same, s[0], x);
      var t := DistinctFrom(s[1..], same, s[0]);
      var r := DistinctUntilChanged(s, same);
      var l := if t == [] then s[0] else t[|t| - 1];
      assert r == [s[0]] + t;
      assert r[|r| - 1] == l;
      assert DistinctUntilChanged(s + [x], same) == [s[0]] + DistinctFrom(s[1..] + [x], same, s[0]);
      if same(l, x) {
        assert DistinctFrom(s[1..] + [x], same, s[0]) == t;
      } else {
        assert DistinctFrom(s[1..] + [x], same, s[0]) == t + [x];
        assert [s[0]] + (t + [x]) == r + [x];
      }
    }
  }
}
