/**
 * The TTL key-value store of utils/local_cache.py.
 *
 * The on-disk store is modelled as a map from keys to entries, each entry
 * carrying its value and an absolute expiry time (or none). The wall clock is
 * the explicit parameter `now`. Reads are lazy: an expired entry stays in the
 * map (and in the count) but is invisible to `Get`, `Contains` and `Delete`.
 */
module Cache {
  import opened Wrappers

  /** The constructor's defaults: `maxsize=1000, ttl=60`. */
  const DefaultMaxsize: int := 1000
  const DefaultTtl: Option<int> := Some(60)

  /** A stored value and the instant at which it stops being visible; `None` never expires. */
  datatype Entry<V> = Entry(value: V, expiry: Option<int>)

  /** The expiry recorded by a write at `now` with time-to-live `ttl` (a `None` ttl never expires). */
  function ExpiryAt(now: int, ttl: Option<int>): (r: Option<int>)
    ensures r.None? <==> ttl.None?
    ensures r.Some? ==> r.value - now == ttl.value
  {
    match ttl
    case None => None
    case Some(t) => Some(now + t)
  }

  /** An entry is visible strictly before its expiry instant. */
  predicate Live<V>(e: Entry<V>, now: int) {
    e.expiry.None? || now < e.expiry.value
  }

  /** The ttl `set` hands to the store: the per-call one whenever it is given (even 0), else the default. */
  function EffectiveTtl(ttl: Option<int>, defaultTtl: Option<int>): (r: Option<int>)
    ensures ttl.Some? ==> r == ttl
    ensures ttl.None? ==> r == defaultTtl
  {
    if ttl.Some? then ttl else defaultTtl
  }

  /** The store after writing `value` under `key` at `now`. */
  function Put<K, V>(store: map<K, Entry<V>>, key: K, value: V, ttl: Option<int>, now: int): (r: map<K, Entry<V>>)
    ensures r.Keys == store.Keys + {key}
    ensures r[key] == Entry(value, ExpiryAt(now, ttl))
    ensures forall k | k in store && k != key :: r[k] == store[k]
  {
    store[key := Entry(value, ExpiryAt(now, ttl))]
  }

  predicate Visible<K, V>(store: map<K, Entry<V>>, key: K, now: int) {
    key in store && Live(store[key], now)
  }

  /** What a read of `key` at `now` returns: the live value, or the caller's default. */
  function Lookup<K, V>(store: map<K, Entry<V>>, key: K, now: int, default: V): (r: V)
    ensures Visible(store, key, now) ==> r == store[key].value
    ensures !Visible(store, key, now) ==> r == default
  {
    if Visible(store, key, now) then store[key].value else default
  }

  /** A value written with ttl `t` is read back strictly before `now + t` and is the default from then on. */
  lemma PutVisibleUntilExpiry<K, V>(store: map<K, Entry<V>>, key: K, value: V, t: int, now: int, later: int, default: V)
    ensures Lookup(Put(store, key, value, Some(t), now), key, later, default)
            == if later < now + t then value else default
  {
  }

  /** A value written without any ttl is read back at every later instant. */
  lemma PutWithoutTtlNeverExpires<K, V>(store: map<K, Entry<V>>, key: K, value: V, now: int, later: int, default: V)
    ensures Lookup(Put(store, key, value, None, now), key, later, default) == value
  {
  }

  /**
   * Without a per-call ttl the default is used: with a default of `d` seconds the
   * value is visible for exactly the `d` seconds after the write.
   */
  lemma DefaultTtlSelected<K, V>(store: map<K, Entry<V>>, key: K, value: V, d: int, now: int, later: int, default: V)
    ensures Lookup(Put(store, key, value, EffectiveTtl(None, Some(d)), now), key, later, default)
            == if later < now + d then value else default
  {
    PutVisibleUntilExpiry(store, key, value, d, now, later, default);
  }

  /**
   * An explicit ttl of 0 is used as given and not replaced by the default (the
   * source tests `is not None`, not truthiness): the value is never visible.
   */
  lemma ZeroTtlIsNotDefaulted<K, V>(store: map<K, Entry<V>>, key: K, value: V, defaultTtl: Option<int>, now: int, later: int, default: V)
    requires later >= now
    ensures Lookup(Put(store, key, value, EffectiveTtl(Some(0), defaultTtl), now), key, later, default) == default
  {
  }

  /** The last write wins: a second write of the same key replaces the first entirely. */
  lemma LastPutWins<K, V>(store: map<K, Entry<V>>, key: K, v1: V, t1: Option<int>, n1: int, v2: V, t2: Option<int>, n2: int)
    ensures Put(Put(store, key, v1, t1, n1), key, v2, t2, n2) == Put(store, key, v2, t2, n2)
  {
  }

  /** A write to one key leaves every other key's read unchanged. */
  lemma PutKeepsOtherKeys<K, V>(store: map<K, Entry<V>>, key: K, value: V, ttl: Option<int>, now: int, other: K, later: int, default: V)
    requires other != key
    ensures Lookup(Put(store, key, value, ttl, now), other, later, default) == Lookup(store, other, later, default)
  {
  }

  /**
   * The store after deleting `key` at `now`: the store selects the entry with
   * the same expiry test as a read, so only a live entry is removed; an expired
   * one stays (and keeps being counted) until it is overwritten or cleared.
   */
  function Remove<K, V>(store: map<K, Entry<V>>, key: K, now: int): map<K, Entry<V>> {
    if Visible(store, key, now) then store - {key} else store
  }

  /**
   * After a delete the key reads as the default from then on, and every other
   * key reads as before.
   */
  lemma RemoveOnlyThatKey<K, V>(store: map<K, Entry<V>>, key: K, now: int, other: K, later: int, default: V)
    requires now <= later
    ensures Lookup(Remove(store, key, now), key, later, default) == default
    ensures other != key ==> Lookup(Remove(store, key, now), other, later, default) == Lookup(store, other, later, default)
  {
  }

  /** A delete shortens the count by one exactly when the key was live, and by nothing otherwise. */
  lemma RemoveCount<K, V>(store: map<K, Entry<V>>, key: K, now: int)
    ensures |Remove(store, key, now)| == if Visible(store, key, now) then |store| - 1 else |store|
  {
  }

  /**
   * The entry count grows by one for each new key and is not bounded by any
   * configured size: `maxsize` plays no part in a write.
   */
  lemma PutCount<K, V>(store: map<K, Entry<V>>, key: K, value: V, ttl: Option<int>, now: int)
    ensures |Put(store, key, value, ttl, now)| == if key in store then |store| else |store| + 1
  {
    var s' := Put(store, key, value, ttl, now);
    if key in store {
      assert s'.Keys == store.Keys;
    } else {
      assert s'.Keys == store.Keys + {key};
    }
  }

  /**
   * The cache object: the map `store` stands for the disk-backed diskcache
   * instance; `defaultTtl` and `maxsize` are the constructor's arguments.
   */
  class LocalCache<K(==), V> {
    var store: map<K, Entry<V>>
    const defaultTtl: Option<int>
    /** Stored but consulted by no operation. */
    const maxsize: int

    /** Opens the cache directory, whose entries `persisted` survive from earlier runs. */
    constructor (persisted: map<K, Entry<V>>, maxsize: int := DefaultMaxsize, ttl: Option<int> := DefaultTtl)
      ensures store == persisted
      ensures defaultTtl == ttl && this.maxsize == maxsize
    {
      store := persisted;
      defaultTtl := ttl;
      this.maxsize := maxsize;
    }

    /** `set(key, value, ttl=None)`: writes with the per-call ttl if given, otherwise the default. */
    method Set(key: K, value: V, now: int, ttl: Option<int> := None)
      modifies this
      ensures store == Put(old(store), key, value, EffectiveTtl(ttl, defaultTtl), now)
    {
      var expireTime := if ttl.Some? then ttl else defaultTtl;
      store := store[key := Entry(value, ExpiryAt(now, expireTime))];
    }

    /** `get(key, default=None)`: the live value, otherwise `default`; never an error. */
    method Get(key: K, now: int, default: V) returns (v: V)
      ensures Visible(store, key, now) ==> v == store[key].value
      ensures !Visible(store, key, now) ==> v == default
      ensures v == Lookup(store, key, now, default)
    {
      if Visible(store, key, now) {
        v := store[key].value;
      } else {
        v := default;
      }
    }

    /** `delete(key)`: removes the key if a live entry holds it; no error otherwise. */
    method Delete(key: K, now: int)
      modifies this
      ensures store == Remove(old(store), key, now)
      ensures Visible(old(store), key, now) ==> key !in store
      ensures !Visible(old(store), key, now) ==> store == old(store)
      ensures forall k | k != key :: (k in store <==> k in old(store))
    {
      if Visible(store, key, now) {
        store := store - {key};
      }
    }

    /** `clear()`: removes every entry. */
    method Clear()
      modifies this
      ensures store == map[]
      ensures forall k, now, default: V :: Lookup(store, k, now, default) == default
    {
      store := map[];
    }

    /** `key in cache`: true exactly when a live entry is stored under `key`. */
    method Contains(key: K, now: int) returns (b: bool)
      ensures b <==> Visible(store, key, now)
    {
      b := Visible(store, key, now);
    }

    /** `len(cache)`: the number of stored entries, expired ones not yet removed included. */
    method Len() returns (n: nat)
      ensures n == |store|
      ensures n == 0 <==> store == map[]
    {
      n := |store|;
    }
  }

  /**
   * The module's usage example: a cache with a 5-second default ttl returns
   * "bar" right after the write and `None` six seconds later.
   */
  method UsageExample() returns (first: Option<string>, second: Option<string>)
    ensures first == Some("bar") && second == None
  {
    var cache := new LocalCache<string, Option<string>>(map[], maxsize := 100, ttl := Some(5));
    cache.Set("foo", Some("bar"), 0);
    first := cache.Get("foo", 0, None);
    second := cache.Get("foo", 6, None);
  }
}
