/**
 * The process-wide in-memory cache of `firebase-cost-optimizer.ts`
 * (`SmartCache`): a keyed store whose entries each carry their own time to
 * live. Expired entries are removed lazily, when they are read. The clock
 * (`Date.now()`) is an explicit `now` argument in milliseconds.
 */
module TtlCache {
  import opened Common

  /** One stored value with the time it was stored and its lifetime in ms. */
  datatype CacheItem<V> = CacheItem(data: V, timestamp: int, ttl: int)

  /** The lifetime in ms of an entry stored with a TTL given in minutes. */
  function TtlMs(ttlMinutes: int): int {
    ttlMinutes * MinuteMs
  }

  /** An entry is expired once strictly more than its TTL has elapsed. */
  predicate Expired<V>(item: CacheItem<V>, now: int) {
    now - item.timestamp > item.ttl
  }

  /** What `get(key)` answers against the store `m` at time `now`. */
  function Lookup<V>(m: map<string, CacheItem<V>>, key: string, now: int): Option<V> {
    if key in m && !Expired(m[key], now) then Some(m[key].data) else None
  }

  /** The store after `get(key)`: an expired entry for `key` is dropped. */
  function AfterGet<V>(m: map<string, CacheItem<V>>, key: string, now: int): map<string, CacheItem<V>> {
    if key in m && Expired(m[key], now) then m - {key} else m
  }

  /** The store after `clear(key?)`: a truthy key removes that key, anything else empties it. */
  function AfterClear<V>(m: map<string, CacheItem<V>>, key: Option<string>): map<string, CacheItem<V>> {
    if Truthy(key) then m - {key.value} else map[]
  }

  class SmartCache<V> {
    var entries: map<string, CacheItem<V>>

    constructor ()
      ensures entries == map[]
    {
      entries := map[];
    }

    /** `set(key, data, ttlMinutes = 5)`: stores or replaces the entry for `key`. */
    method Set(key: string, data: V, now: int, ttlMinutes: int := 5)
      modifies this
      ensures entries == old(entries)[key := CacheItem(data, now, TtlMs(ttlMinutes))]
    {
      entries := entries[key := CacheItem(data, now, TtlMs(ttlMinutes))];
    }

    /** `get(key)`: the live value, or None; an expired entry is deleted on the way. */
    method Get(key: string, now: int) returns (r: Option<V>)
      modifies this
      ensures r == Lookup(old(entries), key, now)
      ensures entries == AfterGet(old(entries), key, now)
    {
      if key !in entries {
        return None;
      }
      var item := entries[key];
      if now - item.timestamp > item.ttl {
        entries := entries - {key};
        return None;
      }
      r := Some(item.data);
    }

    /** `clear(key?)` */
    method Clear(key: Option<string>)
      modifies this
      ensures entries == AfterClear(old(entries), key)
    {
      if key.Some? && key.value != "" {
        entries := entries - {key.value};
      } else {
        entries := map[];
      }
    }
  }

  // -----------------------------------------------------------------------
  // Properties of the store
  // -----------------------------------------------------------------------

  /**
   * A value just stored is returned by a later `get` exactly while at most
   * its TTL has elapsed: the entry is still live at the TTL itself.
   */
  lemma SetThenGet<V>(m: map<string, CacheItem<V>>, key: string, v: V, t0: int, ttlMinutes: int, now: int)
    ensures var m' := m[key := CacheItem(v, t0, TtlMs(ttlMinutes))];
      (Lookup(m', key, now) == Some(v) <==> now - t0 <= ttlMinutes * 60000)
      && (Lookup(m', key, now).None? <==> now - t0 > ttlMinutes * 60000)
  {
  }

  /** Setting a key never disturbs the entries of other keys. */
  lemma SetOthersUnchanged<V>(m: map<string, CacheItem<V>>, key: string, v: V, t0: int, ttlMinutes: int, other: string, now: int)
    requires other != key
    ensures Lookup(m[key := CacheItem(v, t0, TtlMs(ttlMinutes))], other, now) == Lookup(m, other, now)
  {
  }

  /** `get` on an absent key answers None and leaves the store as it was. */
  lemma GetAbsent<V>(m: map<string, CacheItem<V>>, key: string, now: int)
    requires key !in m
    ensures Lookup(m, key, now) == None && AfterGet(m, key, now) == m
  {
  }

  /** `get` on an expired key answers None and deletes that key and no other. */
  lemma GetExpired<V>(m: map<string, CacheItem<V>>, key: string, now: int)
    requires key in m && Expired(m[key], now)
    ensures Lookup(m, key, now) == None
    ensures key !in AfterGet(m, key, now)
    ensures forall k :: k != key ==> (k in AfterGet(m, key, now) <==> k in m)
    ensures forall k :: k != key && k in m ==> AfterGet(m, key, now)[k] == m[k]
  {
  }

  /** A `get` that finds a live entry changes nothing. */
  lemma GetLive<V>(m: map<string, CacheItem<V>>, key: string, now: int)
    requires key in m && !Expired(m[key], now)
    ensures Lookup(m, key, now) == Some(m[key].data) && AfterGet(m, key, now) == m
  {
  }

  /** Reading never changes what any key answers at the same instant. */
  lemma GetPreservesAnswers<V>(m: map<string, CacheItem<V>>, key: string, other: string, now: int)
    ensures Lookup(AfterGet(m, key, now), other, now) == Lookup(m, other, now)
  {
  }

  /** `clear(k)` with a non-empty key removes exactly `k`. */
  lemma ClearKey<V>(m: map<string, CacheItem<V>>, key: string)
    requires key != ""
    ensures key !in AfterClear(m, Some(key))
    ensures forall k :: k != key ==> (k in AfterClear(m, Some(key)) <==> k in m)
  {
  }

  /** `clear()` and `clear('')` both empty the whole store. */
  lemma ClearAll<V>(m: map<string, CacheItem<V>>)
    ensures AfterClear(m, None) == map[]
    ensures AfterClear(m, Some("")) == map[]
  {
  }
}
