/** The search cache of the web backend (main.py `SimpleCache`): two maps kept
    in step, a time-to-live per entry, and a size bound kept by evicting the
    entry with the oldest timestamp before an insert. The clock is passed in. */
module Cache {
  import opened Options

  /** `k` carries the smallest timestamp of `ts`. */
  ghost predicate IsOldest<K>(ts: map<K, real>, k: K)
  {
    k in ts && forall k' :: k' in ts ==> ts[k] <= ts[k']
  }

  class SimpleCache<K(==), V> {
    var cache: map<K, V>
    var timestamps: map<K, real>
    const maxSize: int
    const ttl: real

    /** The two maps have the same keys, and the size bound holds (a cache
        whose bound is not positive can never take an entry, so it stays
        empty). */
    ghost predicate Valid()
      reads this
    {
      cache.Keys == timestamps.Keys && (|cache| <= maxSize || cache == map[])
    }

    constructor (maxSize: int, ttl: real)
      ensures Valid()
      ensures cache == map[] && timestamps == map[]
      ensures this.maxSize == maxSize && this.ttl == ttl
    {
      this.maxSize := maxSize;
      this.ttl := ttl;
      cache := map[];
      timestamps := map[];
    }

    /** `get(key)` at time `now`: a fresh entry is returned; an expired one is
        removed from both maps and `None` is returned. */
    method Get(key: K, now: real) returns (r: Option<V>)
      requires Valid()
      modifies this
      ensures Valid()
      ensures key in old(cache) && now - old(timestamps)[key] < ttl ==>
        r == Some(old(cache)[key]) && cache == old(cache) && timestamps == old(timestamps)
      ensures key in old(cache) && now - old(timestamps)[key] >= ttl ==>
        r == None && cache == old(cache) - {key} && timestamps == old(timestamps) - {key}
      ensures key !in old(cache) ==>
        r == None && cache == old(cache) && timestamps == old(timestamps)
    {
      r := None;
      if key in cache {
        if now - timestamps[key] < ttl {
          r := Some(cache[key]);
        } else {
          cache := cache - {key};
          timestamps := timestamps - {key};
        }
      }
    }

    /** The key with the smallest timestamp (`min(timestamps, key=...)`). */
    method OldestKey() returns (oldest: K)
      requires timestamps != map[]
      ensures IsOldest(timestamps, oldest)
    {
      var rest := timestamps.Keys;
      oldest :| oldest in rest;
      rest := rest - {oldest};
      while rest != {}
        invariant rest <= timestamps.Keys
        invariant oldest in timestamps
        invariant forall k :: k in timestamps && k !in rest ==> timestamps[oldest] <= timestamps[k]
        decreases |rest|
      {
        var k :| k in rest;
        if timestamps[k] < timestamps[oldest] {
          oldest := k;
        }
        rest := rest - {k};
      }
    }

    /** `set(key, value)` at time `now`. When the cache is full, the entry with
        the oldest timestamp is evicted first; `ok` is false where Python's
        `min` raises because a full cache holds no timestamps at all. */
    method Set(key: K, value: V, now: real) returns (ok: bool)
      requires Valid()
      modifies this
      ensures Valid()
      ensures ok <==> |old(cache)| < maxSize || old(timestamps) != map[]
      ensures !ok ==> cache == old(cache) && timestamps == old(timestamps)
      ensures ok ==> |cache| <= maxSize && key in cache && cache[key] == value && timestamps[key] == now
      ensures ok && |old(cache)| < maxSize ==>
        cache == old(cache)[key := value] && timestamps == old(timestamps)[key := now]
      ensures ok && |old(cache)| >= maxSize ==>
        exists oldest :: IsOldest(old(timestamps), oldest) &&
          cache == (old(cache) - {oldest})[key := value] &&
          timestamps == (old(timestamps) - {oldest})[key := now]
    {
      if |cache| >= maxSize {
        if timestamps == map[] {
          return false;
        }
        var oldest := OldestKey();
        cache := cache - {oldest};
        timestamps := timestamps - {oldest};
        assert |cache| == |old(cache)| - 1;
      }
      cache := cache[key := value];
      timestamps := timestamps[key := now];
      ok := true;
    }

    /** `clear()`: both maps become empty. */
    method Clear()
      requires Valid()
      modifies this
      ensures Valid()
      ensures cache == map[] && timestamps == map[]
    {
      cache := map[];
      timestamps := map[];
    }
  }
}
