/** The TTL cache (src/worker/cache.ts), in memory. Expiry is inclusive: an entry is gone at its deadline. */
module ProviderCache {
  import opened Common

  datatype Entry<+V> = Entry(value: V, expiresAt: int)

  type Entries<K, V> = map<K, Entry<V>>

  /** What a reader of `key` sees at time `t`. */
  function Lookup<K, V>(entries: Entries<K, V>, key: K, t: int): Option<V> {
    if key in entries && t < entries[key].expiresAt then Some(entries[key].value) else None
  }

  function Swept<K, V>(entries: Entries<K, V>, now: int): Entries<K, V> {
    map k | k in entries && now < entries[k].expiresAt :: entries[k]
  }

  ghost function PartlySwept<K, V>(entries: Entries<K, V>, left: set<K>, now: int): Entries<K, V> {
    map k | k in entries && (k in left || now < entries[k].expiresAt) :: entries[k]
  }

  /** The entries after a `set`; a sweep may or may not be due first. */
  function Stored<K, V>(entries: Entries<K, V>, sweep: bool, key: K, value: V, ttlSeconds: int, now: int): Entries<K, V> {
    var base := if sweep then Swept(entries, now) else entries;
    if ttlSeconds <= 0 then base - {key} else base[key := Entry(value, now + ttlSeconds * 1_000)]
  }

  class InMemoryProviderCache<K(==), V> {
    var entries: Entries<K, V>
    var lastSweepAt: int
    const sweepIntervalMs: int

    constructor (sweepIntervalMs: int, now: int)
      ensures entries == map[] && lastSweepAt == now && this.sweepIntervalMs == sweepIntervalMs
    {
      entries := map[];
      lastSweepAt := now;
      this.sweepIntervalMs := sweepIntervalMs;
    }

    /** A read drops the entry it finds expired; no reader can tell, now or later. */
    method Get(key: K, now: int) returns (r: Option<V>)
      modifies this
      ensures r == Lookup(old(entries), key, now)
      ensures entries == (if key in old(entries) && old(entries)[key].expiresAt <= now then old(entries) - {key} else old(entries))
      ensures forall k, t :: now <= t ==> Lookup(entries, k, t) == Lookup(old(entries), k, t)
      ensures lastSweepAt == old(lastSweepAt)
    {
      if key !in entries {
        return None;
      }
      if entries[key].expiresAt <= now {
        entries := entries - {key};
        return None;
      }
      return Some(entries[key].value);
    }

    /** A write is seen by every later reader of its key until the TTL has passed, and by no other reader. */
    method Set(key: K, value: V, ttlSeconds: int, now: int)
      modifies this
      ensures entries == Stored(old(entries), old(lastSweepAt) + sweepIntervalMs <= now, key, value, ttlSeconds, now)
      ensures forall k, t :: now <= t ==>
        Lookup(entries, k, t) ==
          if k == key then (if t < now + ttlSeconds * 1_000 then Some(value) else None) else Lookup(old(entries), k, t)
      ensures lastSweepAt == if old(lastSweepAt) + sweepIntervalMs <= now then now else old(lastSweepAt)
    {
      SweepExpired(now);
      if ttlSeconds <= 0 {
        entries := entries - {key};
        return;
      }
      entries := entries[key := Entry(value, now + ttlSeconds * 1_000)];
    }

    method SweepExpired(now: int)
      modifies this
      ensures var due := old(lastSweepAt) + sweepIntervalMs <= now;
              && entries == (if due then Swept(old(entries), now) else old(entries))
              && lastSweepAt == (if due then now else old(lastSweepAt))
              && forall k :: k in entries <==> k in old(entries) && (due ==> now < old(entries)[k].expiresAt)
      ensures forall k :: k in entries ==> entries[k] == old(entries)[k]
    {
      if now - lastSweepAt < sweepIntervalMs {
        return;
      }
      lastSweepAt := now;
      ghost var was := entries;
      var left := entries.Keys;
      while left != {}
        invariant left <= was.Keys
        invariant entries == PartlySwept(was, left, now)
        invariant lastSweepAt == now
        decreases |left|
      {
        var key := Pick(left);
        if entries[key].expiresAt <= now {
          entries := entries - {key};
        }
        left := left - {key};
      }
    }
  }

  /** The same two facts about the specification functions, for use in proofs over runs. */
  lemma LookupStored<K, V>(entries: Entries<K, V>, sweep: bool, key: K, value: V, ttlSeconds: int, now: int, k: K, t: int)
    requires now <= t
    ensures Lookup(Stored(entries, sweep, key, value, ttlSeconds, now), k, t) ==
            if k == key then (if t < now + ttlSeconds * 1_000 then Some(value) else None) else Lookup(entries, k, t)
  {}
}
