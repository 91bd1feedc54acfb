/** The distance cache: camera-to-entity distances kept per entity id for a
    few frames, reused while neither end has moved more than a tolerance,
    with a capacity limit enforced by evicting the oldest entry. Frame
    numbers are naturals with the saturating subtraction of `u32`; the
    Euclidean distance itself is computed by the caller and passed in. */
module DistanceCaching {
  import opened Common

  /** `CachedDistance` (without its Morton key; see README). */
  datatype CachedDistance = CachedDistance(distance: real, frame: nat, cameraPos: Vec3, entityPos: Vec3)

  /** `is_valid`: younger than the time to live, with saturating age. */
  predicate IsValid(c: CachedDistance, currentFrame: nat, ttlFrames: nat)
  {
    SatSub(currentFrame, c.frame) < ttlFrames
  }

  /** An entry is valid exactly for the `ttl` frames starting at its own:
      never before it ages, and from frame + ttl on never again. */
  lemma ValidWindow(c: CachedDistance, currentFrame: nat, ttlFrames: nat)
    ensures currentFrame <= c.frame ==> (IsValid(c, currentFrame, ttlFrames) <==> ttlFrames > 0)
    ensures currentFrame >= c.frame ==> (IsValid(c, currentFrame, ttlFrames) <==> currentFrame < c.frame + ttlFrames)
  {
  }

  /** The validity test: stored at frame 100 with a TTL of 5, valid at 104
      and not at 106. */
  lemma ValidityExample(cam: Vec3, ent: Vec3)
    ensures IsValid(CachedDistance(10.0, 100, cam, ent), 104, 5)
    ensures !IsValid(CachedDistance(10.0, 100, cam, ent), 106, 5)
  {
  }

  function Sq(t: real): real
  {
    t * t
  }

  function LengthSquared(v: Vec3): real
  {
    Sq(v.x) + Sq(v.y) + Sq(v.z)
  }

  function Sub(a: Vec3, b: Vec3): Vec3
  {
    Vec3(a.x - b.x, a.y - b.y, a.z - b.z)
  }

  /** `length() < tolerance`, compared on squares: a length is never
      negative, so a non-positive tolerance admits nothing. */
  predicate CloserThan(a: Vec3, b: Vec3, tolerance: real)
  {
    tolerance > 0.0 && LengthSquared(Sub(a, b)) < Sq(tolerance)
  }

  /** `is_position_accurate`: both ends moved less than the tolerance. */
  predicate IsPositionAccurate(c: CachedDistance, cameraPos: Vec3, entityPos: Vec3, tolerance: real)
  {
    CloserThan(c.cameraPos, cameraPos, tolerance) && CloserThan(c.entityPos, entityPos, tolerance)
  }

  /** `retain(|_, c| c.is_valid(current_frame, ttl))` */
  function KeepValid(m: map<nat, CachedDistance>, currentFrame: nat, ttlFrames: nat): (r: map<nat, CachedDistance>)
    ensures forall k :: k in r <==> k in m && IsValid(m[k], currentFrame, ttlFrames)
    ensures forall k :: k in r ==> r[k] == m[k]
  {
    map k | k in m && IsValid(m[k], currentFrame, ttlFrames) :: m[k]
  }

  /** Keeping part of a map never makes it larger. */
  lemma SubmapSize(small: map<nat, CachedDistance>, big: map<nat, CachedDistance>)
    requires small.Keys <= big.Keys
    ensures |small| <= |big|
  {
    assert |small.Keys| <= |big.Keys| by {
      SubsetSize(small.Keys, big.Keys);
    }
    assert |small| == |small.Keys| && |big| == |big.Keys|;
  }

  lemma {:induction false} SubsetSize(a: set<nat>, b: set<nat>)
    requires a <= b
    ensures |a| <= |b|
    decreases |b|
  {
    if b != {} {
      var x :| x in b;
      SubsetSize(a - {x}, b - {x});
    }
  }

  /** `hit_rate`: hits over lookups, 0 before any lookup. */
  function HitRate(hits: nat, misses: nat): (r: real)
    ensures 0.0 <= r <= 1.0
    ensures hits + misses == 0 ==> r == 0.0
    ensures misses == 0 && hits > 0 ==> r == 1.0
    ensures hits == 0 ==> r == 0.0
  {
    if hits + misses > 0 then (hits as real) / ((hits + misses) as real) else 0.0
  }

  /** The statistics test: one hit in two lookups is a rate of one half. */
  lemma HitRateExample()
    ensures HitRate(1, 1) == 0.5
  {
  }

  datatype CacheStats = CacheStats(hits: nat, misses: nat, evictions: nat, size: nat, capacity: nat, hitRate: real)

  /** The default capacity, time to live and tolerance (1 cm). */
  const DefaultCapacity: nat := 2048
  const DefaultTtlFrames: nat := 5
  const DefaultTolerance: real := 0.01

  /** `DistanceCache` */
  class DistanceCache {
    var cache: map<nat, CachedDistance>
    var capacity: nat
    var ttlFrames: nat
    var positionTolerance: real
    var hits: nat
    var misses: nat
    var evictions: nat

    /** The size never exceeds the capacity, except that a cache of
        capacity 0 still holds the one entry just inserted. */
    ghost predicate Valid()
      reads this
    {
      |cache| <= capacity || |cache| <= 1
    }

    /** `with_capacity_and_ttl`; `new` is this with 2048 and 5. */
    constructor (cap: nat, ttl: nat)
      ensures Valid()
      ensures cache == map[] && capacity == cap && ttlFrames == ttl && positionTolerance == DefaultTolerance
      ensures hits == 0 && misses == 0 && evictions == 0
    {
      cache := map[];
      capacity := cap;
      ttlFrames := ttl;
      positionTolerance := DefaultTolerance;
      hits, misses, evictions := 0, 0, 0;
    }

    /** `find_oldest_entry`: a key whose entry has the smallest frame, or
        none for an empty cache (ties go to whichever key comes first). */
    method FindOldestEntry() returns (oldest: Option<nat>)
      ensures oldest.None? <==> cache == map[]
      ensures oldest.Some? ==>
        oldest.value in cache && forall j :: j in cache ==> cache[oldest.value].frame <= cache[j].frame
    {
      oldest := None;
      var keys := cache.Keys;
      while keys != {}
        invariant keys <= cache.Keys
        invariant oldest.None? ==> keys == cache.Keys
        invariant oldest.Some? ==>
          oldest.value in cache && forall j :: j in cache && j !in keys ==> cache[oldest.value].frame <= cache[j].frame
        decreases keys
      {
        var j :| j in keys;
        if oldest.None? || cache[j].frame < cache[oldest.value].frame {
          oldest := Some(j);
        }
        keys := keys - {j};
      }
    }

    /** `evict_oldest`: one entry of the smallest frame removed and counted,
        if there is any. */
    method EvictOldest() returns (ghost victim: Option<nat>)
      modifies this`cache, this`evictions
      ensures victim.None? ==> old(cache) == map[] && cache == old(cache) && evictions == old(evictions)
      ensures victim.Some? ==>
        && victim.value in old(cache)
        && (forall j :: j in old(cache) ==> old(cache)[victim.value].frame <= old(cache)[j].frame)
        && cache == old(cache) - {victim.value} && evictions == old(evictions) + 1
      ensures |cache| <= |old(cache)| && (old(cache) != map[] ==> |cache| == |old(cache)| - 1)
    {
      var oldest := FindOldestEntry();
      victim := oldest;
      if oldest.Some? {
        cache := cache - {oldest.value};
        evictions := evictions + 1;
      }
    }

    /** `insert_cached_distance`: when the cache is full and the id is new,
        the oldest entry is evicted first; then the entry for the id is
        stored (replacing any earlier one). The size stays within the
        capacity. */
    method InsertCachedDistance(id: nat, distance: real, frame: nat, cameraPos: Vec3, entityPos: Vec3)
      returns (ghost victim: Option<nat>)
      requires Valid()
      modifies this`cache, this`evictions
      ensures Valid()
      ensures victim.Some? ==>
        && |old(cache)| >= capacity && id !in old(cache) && victim.value in old(cache)
        && (forall j :: j in old(cache) ==> old(cache)[victim.value].frame <= old(cache)[j].frame)
        && cache == (old(cache) - {victim.value})[id := CachedDistance(distance, frame, cameraPos, entityPos)]
        && evictions == old(evictions) + 1
      ensures victim.None? ==>
        && (|old(cache)| < capacity || id in old(cache) || old(cache) == map[])
        && cache == old(cache)[id := CachedDistance(distance, frame, cameraPos, entityPos)]
        && evictions == old(evictions)
    {
      victim := None;
      if |cache| >= capacity && id !in cache {
        victim := EvictOldest();
      }
      cache := cache[id := CachedDistance(distance, frame, cameraPos, entityPos)];
    }

    /** `get_or_compute_distance_with_frame`: a valid, accurate entry is a
        hit and its distance is returned; otherwise a miss, and the fresh
        distance (`computed`, the caller's `camera_pos.distance(entity_pos)`)
        is stored and returned through `insert_cached_distance`, so every
        other entry is kept except one oldest entry (`victim`), which goes
        only when the cache was full and the id new, and is counted as an
        eviction. Exactly one of the lookup counters grows by one. */
    method GetOrComputeDistance(cameraPos: Vec3, entityPos: Vec3, id: nat, currentFrame: nat, computed: real)
      returns (d: real, ghost victim: Option<nat>)
      requires Valid()
      modifies this`cache, this`evictions, this`hits, this`misses
      ensures Valid()
      ensures hits + misses == old(hits) + old(misses) + 1
      ensures var hit := id in old(cache) && IsValid(old(cache)[id], currentFrame, ttlFrames)
                         && IsPositionAccurate(old(cache)[id], cameraPos, entityPos, positionTolerance);
        if hit then
          d == old(cache)[id].distance && hits == old(hits) + 1 && cache == old(cache)
          && evictions == old(evictions) && victim.None?
        else
          d == computed && misses == old(misses) + 1 && hits == old(hits)
          && (victim.Some? ==>
                && |old(cache)| >= capacity && id !in old(cache) && victim.value in old(cache)
                && (forall j :: j in old(cache) ==> old(cache)[victim.value].frame <= old(cache)[j].frame)
                && cache == (old(cache) - {victim.value})[id := CachedDistance(computed, currentFrame, cameraPos, entityPos)]
                && evictions == old(evictions) + 1)
          && (victim.None? ==>
                && (|old(cache)| < capacity || id in old(cache) || old(cache) == map[])
                && cache == old(cache)[id := CachedDistance(computed, currentFrame, cameraPos, entityPos)]
                && evictions == old(evictions))
    {
      victim := None;
      if id in cache {
        var cached := cache[id];
        if IsValid(cached, currentFrame, ttlFrames) && IsPositionAccurate(cached, cameraPos, entityPos, positionTolerance) {
          hits := hits + 1;
          return cached.distance, None;
        }
      }
      misses := misses + 1;
      d := computed;
      victim := InsertCachedDistance(id, computed, currentFrame, cameraPos, entityPos);
    }

    /** `cleanup_expired`: exactly the entries still valid at the frame
        remain, and every removed one is counted as an eviction. */
    method CleanupExpired(currentFrame: nat)
      requires Valid()
      modifies this`cache, this`evictions
      ensures Valid()
      ensures cache == KeepValid(old(cache), currentFrame, ttlFrames)
      ensures evictions == old(evictions) + (|old(cache)| - |cache|)
    {
      var initialLen := |cache|;
      var kept := KeepValid(cache, currentFrame, ttlFrames);
      SubmapSize(kept, cache);
      cache := kept;
      evictions := evictions + (initialLen - |cache|);
    }

    /** `stats` */
    function Stats(): (s: CacheStats)
      reads this
      ensures s.size == |cache| && s.capacity == capacity
      ensures s.hits == hits && s.misses == misses && s.evictions == evictions
      ensures 0.0 <= s.hitRate <= 1.0 && (hits + misses == 0 ==> s.hitRate == 0.0)
    {
      CacheStats(hits, misses, evictions, |cache|, capacity, HitRate(hits, misses))
    }

    /** `clear`: no entries and every counter back to zero. */
    method Clear()
      modifies this`cache, this`hits, this`misses, this`evictions
      ensures Valid()
      ensures cache == map[] && hits == 0 && misses == 0 && evictions == 0
      ensures Stats().hitRate == 0.0 && Stats().size == 0
    {
      cache := map[];
      hits, misses, evictions := 0, 0, 0;
    }
  }

}
