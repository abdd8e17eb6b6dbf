/** The TTL cache over the device key-value store
  * (src/infrastructure/cache/CacheService.ts). The store is a map from keys
  * to stored slots; the clock is passed in as `now` (milliseconds). */
module CacheService {
  import opened Wrappers

  const PREFIX: string := "@bytebank_cache:"

  /** The time-to-live `set` uses when none is given: five minutes. */
  const DEFAULT_TTL: int := 5 * 60 * 1000

  /** What the store holds under a key: a serialised cache item
    * `{data, timestamp, ttl}`, or text that is not one (text `JSON.parse`
    * rejects, or the empty string). */
  datatype Slot<V> = Entry(data: V, timestamp: int, ttl: int) | Raw(text: string)

  type Store<V> = map<string, Slot<V>>

  predicate Prefixed(k: string)
  {
    PREFIX <= k
  }

  /** An item is expired once its age is strictly greater than its ttl: at
    * `age == ttl` it is still served. */
  predicate Expired(timestamp: int, ttl: int, now: int)
  {
    now - timestamp > ttl
  }

  /** `clearExpired` deletes a slot that is an expired item or non-empty
    * text that does not parse; an empty value is skipped. */
  predicate Stale<V>(slot: Slot<V>, now: int)
  {
    match slot
    case Entry(_, timestamp, ttl) => Expired(timestamp, ttl, now)
    case Raw(text) => text != ""
  }

  /** The value `get(key)` returns from store `st` at time `now`. */
  function Lookup<V>(st: Store<V>, key: string, now: int): Option<V>
  {
    var k := PREFIX + key;
    if k !in st then None
    else match st[k]
      case Raw(_) => None
      case Entry(data, timestamp, ttl) => if Expired(timestamp, ttl, now) then None else Some(data)
  }

  /** The store after `get(key)`: an expired item is removed, anything else
    * stays (in particular unparsable text). */
  function AfterGet<V>(st: Store<V>, key: string, now: int): Store<V>
  {
    var k := PREFIX + key;
    if k in st && st[k].Entry? && Expired(st[k].timestamp, st[k].ttl, now) then st - {k} else st
  }

  /** The store after `clear()`: the non-prefixed keys only. */
  function Cleared<V>(st: Store<V>): Store<V>
  {
    map k | k in st && !Prefixed(k) :: st[k]
  }

  /** The store after `clearExpired()`. */
  function Swept<V>(st: Store<V>, now: int): Store<V>
  {
    map k | k in st && !(Prefixed(k) && Stale(st[k], now)) :: st[k]
  }

  function PrefixedKeys<V>(st: Store<V>): set<string>
  {
    set k | k in st && Prefixed(k)
  }

  /** Sum of `len(st[k])` over a set of keys. */
  ghost function SumLengths<V>(st: Store<V>, keys: set<string>, len: Slot<V> -> nat): nat
    requires keys <= st.Keys
  {
    if keys == {} then 0
    else var k :| k in keys; len(st[k]) + SumLengths(st, keys - {k}, len)
  }

  lemma {:induction false} SumLengthsRemove<V>(st: Store<V>, keys: set<string>, len: Slot<V> -> nat, k: string)
    requires keys <= st.Keys && k in keys
    ensures SumLengths(st, keys, len) == len(st[k]) + SumLengths(st, keys - {k}, len)
    decreases |keys|
  {
    var j :| j in keys && SumLengths(st, keys, len) == len(st[j]) + SumLengths(st, keys - {j}, len);
    if j != k {
      SumLengthsRemove(st, keys - {j}, len, k);
      SumLengthsRemove(st, keys - {k}, len, j);
      assert keys - {j} - {k} == keys - {k} - {j};
    }
  }

  /** The number `getSize()` reports: the total length of the stored text of
    * every prefixed key, expired items included. */
  ghost function Size<V>(st: Store<V>, len: Slot<V> -> nat): nat
  {
    SumLengths(st, PrefixedKeys(st), len)
  }

  /** A stored item is served back until its age exceeds its ttl, and
    * reading it leaves the store as it was. */
  lemma {:induction false} SetThenGet<V>(st: Store<V>, key: string, data: V, timestamp: int, ttl: int, now: int)
    requires now - timestamp <= ttl
    ensures Lookup(st[PREFIX + key := Entry(data, timestamp, ttl)], key, now) == Some(data)
    ensures AfterGet(st[PREFIX + key := Entry(data, timestamp, ttl)], key, now)
      == st[PREFIX + key := Entry(data, timestamp, ttl)]
  {
  }

  /** Past its ttl an item reads as absent and `get` removes its key. */
  lemma {:induction false} GetExpired<V>(st: Store<V>, key: string, now: int)
    requires PREFIX + key in st && st[PREFIX + key].Entry?
    requires now - st[PREFIX + key].timestamp > st[PREFIX + key].ttl
    ensures Lookup(st, key, now) == None
    ensures AfterGet(st, key, now) == st - {PREFIX + key}
  {
  }

  /** Unparsable text reads as absent and is not removed by `get`. */
  lemma {:induction false} GetRaw<V>(st: Store<V>, key: string, now: int)
    requires PREFIX + key in st && st[PREFIX + key].Raw?
    ensures Lookup(st, key, now) == None && AfterGet(st, key, now) == st
  {
  }

  /** `get` never changes what a later `get` of any key returns at the same
    * time: it only drops an item that already reads as absent. */
  lemma {:induction false} GetPreservesLookups<V>(st: Store<V>, key: string, other: string, now: int)
    ensures Lookup(AfterGet(st, key, now), other, now) == Lookup(st, other, now)
  {
    var k, j := PREFIX + key, PREFIX + other;
    if k != j { assert other != key; }
  }

  /** `clear` removes exactly the prefixed keys and keeps every other key
    * with its value. */
  lemma {:induction false} ClearedExact<V>(st: Store<V>, k: string)
    ensures k in Cleared(st) <==> k in st && !Prefixed(k)
    ensures k in Cleared(st) ==> Cleared(st)[k] == st[k]
  {
  }

  /** After `clearExpired`, no prefixed slot is expired or unparsable, and
    * every other slot is kept unchanged. */
  lemma {:induction false} SweptExact<V>(st: Store<V>, now: int, k: string)
    ensures k in Swept(st, now) ==> !(Prefixed(k) && Stale(Swept(st, now)[k], now))
    ensures k in st && !(Prefixed(k) && Stale(st[k], now)) ==> k in Swept(st, now) && Swept(st, now)[k] == st[k]
    ensures k in Swept(st, now) ==> k in st
  {
  }

  /** `clearExpired` changes no result of `get` at the same time, and a second
    * sweep removes nothing more. */
  lemma {:induction false} SweptLookups<V>(st: Store<V>, key: string, now: int)
    ensures Lookup(Swept(st, now), key, now) == Lookup(st, key, now)
    ensures Swept(Swept(st, now), now) == Swept(st, now)
  {
  }

  /** After `clear`, `getSize` reports 0. */
  lemma {:induction false} ClearedSize<V>(st: Store<V>, len: Slot<V> -> nat)
    ensures Size(Cleared(st), len) == 0
  {
    assert PrefixedKeys(Cleared(st)) == {};
  }

  /** The device store as the cache sees it. `failing` models a backend that
    * rejects every call. */
  class Cache<V> {
    var storage: Store<V>
    const failing: bool
    /** The length of the text an item is stored as. */
    const itemLength: (V, int, int) -> nat

    /** The length `getSize` adds for a stored value. */
    function Length(slot: Slot<V>): nat
    {
      match slot
      case Entry(d, t, ttl) => itemLength(d, t, ttl)
      case Raw(text) => |text|
    }

    constructor (initial: Store<V>, failing: bool, itemLength: (V, int, int) -> nat)
      ensures storage == initial && this.failing == failing && this.itemLength == itemLength
    {
      storage := initial;
      this.failing := failing;
      this.itemLength := itemLength;
    }

    /** `set(key, data, ttl)`: never throws; a failing write is dropped. */
    method Set(key: string, data: V, now: int, ttl: int := DEFAULT_TTL)
      modifies this
      ensures storage == if failing then old(storage) else old(storage)[PREFIX + key := Entry(data, now, ttl)]
    {
      if !failing {
        storage := storage[PREFIX + key := Entry(data, now, ttl)];
      }
    }

    /** `get(key)` */
    method Get(key: string, now: int) returns (r: Option<V>)
      modifies this
      ensures r == if failing then None else Lookup(old(storage), key, now)
      ensures storage == if failing then old(storage) else AfterGet(old(storage), key, now)
    {
      if failing {
        return None;
      }
      var k := PREFIX + key;
      if k !in storage {
        return None;
      }
      match storage[k]
      case Raw(_) =>
        r := None;
      case Entry(data, timestamp, ttl) =>
        var age := now - timestamp;
        if age > ttl {
          Remove(key);
          r := None;
        } else {
          r := Some(data);
        }
    }

    /** `remove(key)`: never throws. */
    method Remove(key: string)
      modifies this
      ensures storage == if failing then old(storage) else old(storage) - {PREFIX + key}
    {
      if !failing {
        storage := storage - {PREFIX + key};
      }
    }

    /** `clear()`: removes the prefixed keys only. */
    method Clear()
      modifies this
      ensures storage == if failing then old(storage) else Cleared(old(storage))
    {
      if !failing {
        var cacheKeys := PrefixedKeys(storage);
        storage := map k | k in storage && k !in cacheKeys :: storage[k];
      }
    }

    /** `has(key)`: whether `get(key)` returns a value, with the same
      * removal of an expired item. */
    method Has(key: string, now: int) returns (b: bool)
      modifies this
      ensures b == (!failing && Lookup(old(storage), key, now).Some?)
      ensures storage == if failing then old(storage) else AfterGet(old(storage), key, now)
    {
      var data := Get(key, now);
      b := data != None;
    }

    /** `clearExpired()`: one pass over the prefixed keys collecting the stale
      * ones, then a single removal. */
    method ClearExpired(now: int)
      modifies this
      ensures storage == if failing then old(storage) else Swept(old(storage), now)
    {
      if failing {
        return;
      }
      var cacheKeys := PrefixedKeys(storage);
      var remaining := cacheKeys;
      var expiredKeys: set<string> := {};
      while remaining != {}
        invariant remaining <= cacheKeys
        invariant expiredKeys == set k | k in cacheKeys - remaining && Stale(storage[k], now)
        decreases |remaining|
      {
        var k :| k in remaining;
        if Stale(storage[k], now) {
          expiredKeys := expiredKeys + {k};
        }
        remaining := remaining - {k};
      }
      assert remaining == {};
      var swept := map k | k in storage && k !in expiredKeys :: storage[k];
      assert swept == Swept(storage, now) by {
        forall k | k in storage
          ensures k in expiredKeys <==> Prefixed(k) && Stale(storage[k], now)
        {
          assert k in cacheKeys <==> Prefixed(k);
        }
      }
      if expiredKeys != {} {
        storage := swept;
      } else {
        assert swept == storage;
      }
    }

    /** `getSize()`: 0 when the store fails. */
    method GetSize() returns (size: nat)
      ensures size == if failing then 0 else Size(storage, Length)
    {
      if failing {
        return 0;
      }
      var cacheKeys := PrefixedKeys(storage);
      var remaining := cacheKeys;
      size := 0;
      while remaining != {}
        invariant remaining <= cacheKeys
        invariant size + SumLengths(storage, remaining, Length) == Size(storage, Length)
        decreases |remaining|
      {
        var k :| k in remaining;
        SumLengthsRemove(storage, remaining, Length, k);
        size := size + Length(storage[k]);
        remaining := remaining - {k};
      }
    }
  }
}
