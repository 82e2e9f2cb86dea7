/**
 * The API's in-memory response cache: a keyed store whose entries expire a fixed number of
 * seconds after they were written. The clock is read by the caller and passed in as `now`.
 */
module TtlCache {
  import opened Util

  /** A stored value with the time after which it is stale. */
  datatype Entry<V> = Entry(expiresAt: real, value: V)

  type Store<V> = map<string, Entry<V>>

  /** The expiry the cache uses when none is given. */
  const DefaultTtl: int := 300

  /** An entry is still served at `now` when `now` has not passed its expiry. */
  predicate Live<V>(e: Entry<V>, now: real) {
    now <= e.expiresAt
  }

  /** `get`: the value of a live entry; a stale entry is dropped from the store. */
  function CacheGet<V>(store: Store<V>, key: string, now: real): (r: (Store<V>, Option<V>))
    ensures key !in store ==> r.1 == None && r.0 == store
    ensures key in store && !Live(store[key], now) ==> r.1 == None && r.0 == store - {key}
    ensures key in store && Live(store[key], now) ==> r.1 == Some(store[key].value) && r.0 == store
    ensures r.0.Keys <= store.Keys
  {
    if key !in store then (store, None)
    else if now > store[key].expiresAt then (store - {key}, None)
    else (store, Some(store[key].value))
  }

  /** `set`: the entry for `key` now expires `ttl` seconds after `now`; other keys keep theirs. */
  function CacheSet<V>(store: Store<V>, key: string, value: V, now: real, ttl: int): (r: Store<V>)
    ensures r.Keys == store.Keys + {key}
    ensures r[key] == Entry(now + ttl as real, value)
    ensures forall k :: k in store && k != key ==> r[k] == store[k]
  {
    store[key := Entry(now + ttl as real, value)]
  }

  /** Reading never changes any entry it keeps. */
  lemma GetKeepsOthers<V>(store: Store<V>, key: string, now: real)
    ensures forall k :: k in CacheGet(store, key, now).0 ==> k in store && CacheGet(store, key, now).0[k] == store[k]
    ensures forall k :: k in store && k != key ==> k in CacheGet(store, key, now).0
  {
  }

  /** A value written at `t` is read back at `t'` exactly when `t'` is at most `t + ttl`. */
  lemma GetAfterSet<V>(store: Store<V>, key: string, value: V, t: real, ttl: int, t': real)
    ensures CacheGet(CacheSet(store, key, value, t, ttl), key, t').1 == Some(value) <==> t' <= t + ttl as real
    ensures t' > t + ttl as real ==> CacheGet(CacheSet(store, key, value, t, ttl), key, t').1 == None
  {
  }

  /** Writing one key does not change what another key reads. */
  lemma SetOtherKey<V>(store: Store<V>, key: string, value: V, t: real, ttl: int, other: string, t': real)
    requires other != key
    ensures CacheGet(CacheSet(store, key, value, t, ttl), other, t').1 == CacheGet(store, other, t').1
  {
  }

  /** Once a read has found an entry stale, every later read of that key misses too. */
  lemma StaleStaysGone<V>(store: Store<V>, key: string, now: real, later: real)
    requires key in store && !Live(store[key], now)
    ensures CacheGet(CacheGet(store, key, now).0, key, later).1 == None
  {
  }

  /** With the default expiry a value is served for five minutes after it was written, and not after. */
  lemma DefaultExpiry<V>(store: Store<V>, key: string, value: V, t: real, t': real)
    ensures CacheGet(CacheSet(store, key, value, t, DefaultTtl), key, t').1 == Some(value) <==> t' <= t + 300.0
  {
    GetAfterSet(store, key, value, t, DefaultTtl, t');
  }

  /** The cache object: the store is the only state that changes. */
  class Cache<V> {
    var store: Store<V>
    const ttl: int

    /** A new, empty cache whose entries live `ttlSeconds` seconds. */
    constructor (ttlSeconds: int)
      ensures store == map[] && ttl == ttlSeconds
    {
      store := map[];
      ttl := ttlSeconds;
    }

    /** `get(key)` at time `now`, deleting the entry when it has expired. */
    method Get(key: string, now: real) returns (r: Option<V>)
      modifies this
      ensures (store, r) == CacheGet(old(store), key, now)
    {
      if key !in store {
        return None;
      }
      var entry := store[key];
      if now > entry.expiresAt {
        store := store - {key};
        return None;
      }
      r := Some(entry.value);
    }

    /** `set(key, value)` at time `now`. */
    method Set(key: string, value: V, now: real)
      modifies this
      ensures store == CacheSet(old(store), key, value, now, ttl)
    {
      store := store[key := Entry(now + ttl as real, value)];
    }

    /** `clear()`: forget every entry. */
    method Clear()
      modifies this
      ensures store == map[]
    {
      store := map[];
    }
  }

  /** `cache = TTLCache()`: the one shared cache, empty and with the default expiry. */
  method SharedCache<V>() returns (c: Cache<V>)
    ensures fresh(c) && c.store == map[] && c.ttl == DefaultTtl
  {
    c := new Cache(DefaultTtl);
  }
}
