/** The in-memory response cache of the Shortmax server (app.js): a map from key to an entry
    with an absolute expiry time in milliseconds. Entries are evicted lazily, by the lookup that
    finds them expired; there is no background sweep and no capacity bound. The clock is a
    parameter (`now`, in milliseconds). */
module ShortmaxCache {
  import opened Js

  datatype Entry<V> = Entry(exp: int, value: V)

  /** The lifetime cacheSet gives an entry: its ttl in seconds, but never less than one second. */
  function LifetimeMs(ttlSec: int): (ms: int)
    ensures ms >= 1000 && ms % 1000 == 0
    ensures ttlSec >= 1 ==> ms == ttlSec * 1000
    ensures ttlSec < 1 ==> ms == 1000
  {
    (if ttlSec > 1 then ttlSec else 1) * 1000
  }

  /** What a lookup of `key` at time `now` serves: the stored value while `now` has not passed
      its expiry (an entry is still served at exactly `exp`). */
  function Lookup<V>(m: map<string, Entry<V>>, key: string, now: int): Option<V> {
    if key in m && now <= m[key].exp then Some(m[key].value) else None
  }

  /** The map after a lookup: the looked-up entry is deleted when it has expired. */
  function Evicted<V>(m: map<string, Entry<V>>, key: string, now: int): map<string, Entry<V>> {
    if key in m && now > m[key].exp then m - {key} else m
  }

  /** The map after cacheSet: the key is overwritten with a fresh entry. */
  function Stored<V>(m: map<string, Entry<V>>, key: string, value: V, ttlSec: int, now: int): map<string, Entry<V>> {
    m[key := Entry(now + LifetimeMs(ttlSec), value)]
  }

  /** The hard invariant: nothing is ever served once its expiry time has passed. */
  lemma NeverServedAfterExpiry<V>(m: map<string, Entry<V>>, key: string, now: int)
    requires key in m && now > m[key].exp
    ensures Lookup(m, key, now) == None
    ensures key !in Evicted(m, key, now)
  {
  }

  /** Round trip: a value stored at `now` is served back by every lookup up to its expiry,
      at least one second later, and by none after it. */
  lemma StoreThenLookup<V>(m: map<string, Entry<V>>, key: string, value: V, ttlSec: int, now: int, later: int)
    requires now <= later
    ensures later <= now + LifetimeMs(ttlSec) ==> Lookup(Stored(m, key, value, ttlSec, now), key, later) == Some(value)
    ensures later > now + LifetimeMs(ttlSec) ==> Lookup(Stored(m, key, value, ttlSec, now), key, later) == None
    ensures later < now + 1000 ==> Lookup(Stored(m, key, value, ttlSec, now), key, later) == Some(value)
  {
  }

  /** Neither storing nor evicting one key changes what another key serves. */
  lemma OtherKeysUntouched<V>(m: map<string, Entry<V>>, key: string, other: string, value: V, ttlSec: int, now: int, t: int)
    requires other != key
    ensures Lookup(Stored(m, key, value, ttlSec, now), other, t) == Lookup(m, other, t)
    ensures Lookup(Evicted(m, key, now), other, t) == Lookup(m, other, t)
  {
  }

  /** Eviction never changes what the evicted key serves from then on: it only forgets an
      entry that could no longer be served. */
  lemma EvictionIsUnobservable<V>(m: map<string, Entry<V>>, key: string, now: int, later: int)
    requires now <= later
    ensures Lookup(Evicted(m, key, now), key, later) == Lookup(m, key, later)
  {
  }

  class MemCache<V> {
    var entries: map<string, Entry<V>>

    constructor ()
      ensures entries == map[]
    {
      entries := map[];
    }

    /** cacheGet: an absent key misses; an expired entry is deleted and misses; otherwise the
        stored value is returned and the map is left unchanged. */
    method Get(key: string, now: int) returns (r: Option<V>)
      modifies this
      ensures key !in old(entries) ==> r == None && entries == old(entries)
      ensures key in old(entries) && now > old(entries)[key].exp ==>
                r == None && entries == old(entries) - {key}
      ensures key in old(entries) && now <= old(entries)[key].exp ==>
                r == Some(old(entries)[key].value) && entries == old(entries)
      ensures r == Lookup(old(entries), key, now) && entries == Evicted(old(entries), key, now)
    {
      if key !in entries {
        return None;
      }
      var hit := entries[key];
      if now > hit.exp {
        entries := entries - {key};
        return None;
      }
      r := Some(hit.value);
    }

    /** cacheSet: overwrites the key with an entry that expires `max(1, ttlSec)` seconds from now. */
    method Set(key: string, value: V, ttlSec: int, now: int)
      modifies this
      ensures key in entries && entries[key] == Entry(now + LifetimeMs(ttlSec), value)
      ensures entries[key].exp >= now + 1000
      ensures forall k :: k != key ==> (k in entries <==> k in old(entries))
      ensures forall k :: k != key && k in entries ==> entries[k] == old(entries)[k]
      ensures entries == Stored(old(entries), key, value, ttlSec, now)
    {
      var ttl := LifetimeMs(ttlSec);
      entries := entries[key := Entry(now + ttl, value)];
    }
  }
}
