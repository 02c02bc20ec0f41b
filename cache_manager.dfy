// The AI service's in-memory cache: each key holds a value and the instant
// it expires.  A read of an expired key removes it; the reported size counts
// every stored key, expired or not.  The clock is a parameter `now`, in
// seconds.

module CacheManager {
  import opened Wrappers

  /** Lifetime of an entry when the caller gives none, in seconds. */
  const DefaultTtl: int := 3600

  datatype Entry<V> = Entry(value: V, expiresAt: int)

  type Store<V> = map<string, Entry<V>>

  /** What a read answers: the value while it has not expired, nothing otherwise. */
  function Lookup<V>(m: Store<V>, key: string, now: int): (r: Option<V>)
    ensures r.Some? <==> key in m && now < m[key].expiresAt
    ensures r.Some? ==> r.value == m[key].value
  {
    if key in m && now < m[key].expiresAt then Some(m[key].value) else None
  }

  /** The store after a read: an entry found expired is dropped, nothing else changes. */
  function AfterLookup<V>(m: Store<V>, key: string, now: int): (r: Store<V>)
    ensures r.Keys == if key in m && m[key].expiresAt <= now then m.Keys - {key} else m.Keys
    ensures forall k :: k in r ==> r[k] == m[k]
  {
    if key in m && m[key].expiresAt <= now then m - {key} else m
  }

  /** The store after a write: the key holds the value until `now + ttl`. */
  function Stored<V>(m: Store<V>, key: string, value: V, now: int, ttl: int): (r: Store<V>)
    ensures r.Keys == m.Keys + {key}
    ensures r[key] == Entry(value, now + ttl)
    ensures forall k :: k in m && k != key ==> r[k] == m[k]
  {
    m[key := Entry(value, now + ttl)]
  }

  /** The store after a delete: the key is gone, every other entry stays. */
  function Removed<V>(m: Store<V>, key: string): (r: Store<V>)
    ensures r.Keys == m.Keys - {key}
    ensures forall k :: k in r ==> r[k] == m[k]
  {
    m - {key}
  }

  class Cache<V> {
    var entries: Store<V>

    constructor()
      ensures entries == map[]
    {
      entries := map[];
    }

    method Get(key: string, now: int) returns (r: Option<V>)
      modifies this
      ensures r == Lookup(old(entries), key, now)
      ensures entries == AfterLookup(old(entries), key, now)
    {
      if key in entries {
        var item := entries[key];
        if now < item.expiresAt {
          return Some(item.value);
        } else {
          entries := entries - {key};
        }
      }
      return None;
    }

    /** Writes with the given lifetime; callers that give none use `DefaultTtl`. */
    method Set(key: string, value: V, now: int, ttl: int)
      modifies this
      ensures entries == Stored(old(entries), key, value, now, ttl)
    {
      entries := entries[key := Entry(value, now + ttl)];
    }

    method Delete(key: string)
      modifies this
      ensures entries == Removed(old(entries), key)
    {
      if key in entries {
        entries := entries - {key};
      }
    }

    method Clear()
      modifies this
      ensures entries == map[]
    {
      entries := map[];
    }

    /** The size the health check reports. */
    function Size(): nat
      reads this
    {
      |entries|
    }
  }

  /** A value written is read back until its expiry instant and not at or after it. */
  lemma ReadAfterWrite<V>(m: Store<V>, key: string, value: V, now: int, ttl: int, later: int)
    ensures Lookup(Stored(m, key, value, now, ttl), key, later) == if later < now + ttl then Some(value) else None
  {
  }

  /** With the default lifetime a value is readable for 3600 seconds and expired at the 3600th. */
  lemma DefaultLifetime<V>(m: Store<V>, key: string, value: V, now: int)
    ensures Lookup(Stored(m, key, value, now, DefaultTtl), key, now + 3599) == Some(value)
    ensures Lookup(Stored(m, key, value, now, DefaultTtl), key, now + 3600) == None
  {
  }

  /** Writing one key does not change what any other key reads. */
  lemma WriteIsolated<V>(m: Store<V>, key: string, other: string, value: V, now: int, ttl: int, t: int)
    requires other != key
    ensures Lookup(Stored(m, key, value, now, ttl), other, t) == Lookup(m, other, t)
  {
  }

  /** A read never changes what any key reads at the same instant. */
  lemma LookupStable<V>(m: Store<V>, key: string, other: string, now: int)
    ensures Lookup(AfterLookup(m, key, now), other, now) == Lookup(m, other, now)
  {
  }

  /** A missing key reads as nothing and leaves the store as it was. */
  lemma MissingKey<V>(m: Store<V>, key: string, now: int)
    requires key !in m
    ensures Lookup(m, key, now) == None && AfterLookup(m, key, now) == m
  {
  }

  /** Deleting reads as nothing afterwards, touches no other key, and does nothing to an absent key. */
  lemma DeleteEffect<V>(m: Store<V>, key: string, other: string, t: int)
    requires other != key
    ensures Lookup(Removed(m, key), key, t) == None
    ensures Lookup(Removed(m, key), other, t) == Lookup(m, other, t)
    ensures key !in m ==> Removed(m, key) == m
  {
  }

  /** An expired entry still counts towards the size until a read removes it. */
  lemma SizeCountsExpired<V>(m: Store<V>, key: string, value: V, now: int)
    requires key !in m
    ensures |Stored(m, key, value, now, 0)| == |m| + 1
    ensures Lookup(Stored(m, key, value, now, 0), key, now) == None
    ensures |AfterLookup(Stored(m, key, value, now, 0), key, now)| == |m|
  {
    var s := Stored(m, key, value, now, 0);
    assert AfterLookup(s, key, now) == m;
  }
}
