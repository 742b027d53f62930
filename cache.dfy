/**
  The process-wide time-to-live cache: a map from key to value and expiry time. An entry
  is live while its expiry is not earlier than the current time; reading an expired entry
  deletes it. The clock reading is a parameter.
*/
module TtlCache {
  import opened Wrappers

  datatype Entry<V> = Entry(v: V, exp: int)

  /** Whether `e` has expired at time `now` (`e.exp < now`). */
  predicate Expired<V>(e: Entry<V>, now: int) {
    e.exp < now
  }

  /** What `getCache(key)` returns at time `now`. */
  function Lookup<V>(store: map<string, Entry<V>>, key: string, now: int): (r: Option<V>)
    ensures key !in store ==> r.None?
    ensures r.Some? <==> key in store && store[key].exp >= now
    ensures r.Some? ==> r.value == store[key].v
  {
    if key !in store || Expired(store[key], now) then None else Some(store[key].v)
  }

  /** The store after `getCache(key)` at time `now`: only an expired entry for `key` goes. */
  function AfterGet<V>(store: map<string, Entry<V>>, key: string, now: int): (s: map<string, Entry<V>>)
    ensures key in store && store[key].exp < now ==> s == store - {key}
    ensures !(key in store && store[key].exp < now) ==> s == store
    ensures forall k :: k != key ==> (k in s <==> k in store) && (k in s ==> s[k] == store[k])
  {
    if key in store && Expired(store[key], now) then store - {key} else store
  }

  /** The store after `setCache(key, value, ttlMs)` at time `now`. */
  function AfterSet<V>(store: map<string, Entry<V>>, key: string, value: V, ttlMs: int, now: int)
    : (s: map<string, Entry<V>>)
    ensures s.Keys == store.Keys + {key}
    ensures s[key] == Entry(value, now + ttlMs)
    ensures forall k :: k in store && k != key ==> s[k] == store[k]
  {
    store[key := Entry(value, now + ttlMs)]
  }

  /**
    A value set at time `t` with time-to-live `ttl` is read back until `t + ttl`
    inclusive, and not after.
  */
  lemma ReadBackUntilExpiry<V>(store: map<string, Entry<V>>, key: string, value: V, ttl: int, t: int, now: int)
    ensures now <= t + ttl ==> Lookup(AfterSet(store, key, value, ttl, t), key, now) == Some(value)
    ensures now > t + ttl ==> Lookup(AfterSet(store, key, value, ttl, t), key, now).None?
  {
  }

  /** Reading or writing one key does not disturb the answer for any other key. */
  lemma OtherKeysUndisturbed<V>(store: map<string, Entry<V>>, key: string, other: string, value: V,
                                ttl: int, t: int, now: int)
    requires other != key
    ensures Lookup(AfterSet(store, key, value, ttl, t), other, now) == Lookup(store, other, now)
    ensures Lookup(AfterGet(store, key, t), other, now) == Lookup(store, other, now)
  {
  }

  /** Once a read has found an entry expired, the key reads as missing until it is set again. */
  lemma ExpiredStaysGone<V>(store: map<string, Entry<V>>, key: string, now: int, later: int)
    requires key in store && store[key].exp < now
    ensures key !in AfterGet(store, key, now)
    ensures Lookup(AfterGet(store, key, now), key, later).None?
  {
  }

  /** The cache object: one per server process. */
  class Cache<V> {
    var store: map<string, Entry<V>>

    constructor ()
      ensures store == map[]
    {
      store := map[];
    }

    /** `getCache(key)` at time `now` */
    method Get(key: string, now: int) returns (r: Option<V>)
      modifies this
      ensures r == Lookup(old(store), key, now)
      ensures store == AfterGet(old(store), key, now)
      ensures r.Some? ==> store == old(store)
    {
      if key !in store {
        return None;
      }
      var e := store[key];
      if e.exp < now {
        store := store - {key};
        return None;
      }
      return Some(e.v);
    }

    /** `setCache(key, value, ttlMs)` at time `now` */
    method Set(key: string, value: V, ttlMs: int, now: int)
      modifies this
      ensures store == AfterSet(old(store), key, value, ttlMs, now)
    {
      store := store[key := Entry(value, now + ttlMs)];
    }
  }
}
