/** The fixed vector pool: vectors handed out by capacity bucket and taken
    back for reuse, with allocation and reuse counters per frame. A vector's
    elements do not matter to the pool (it clears each vector it takes
    back), so a pooled vector is modelled by its capacity and the
    generation stamped on its handle. */
module MemoryPools {
  import opened Common

  /** `PAGE_SIZE`: 4 KiB. */
  const PageSize: nat := 4096

  predicate IsPowerOfTwo(n: nat)
    decreases n
  {
    n == 1 || (n > 1 && n % 2 == 0 && IsPowerOfTwo(n / 2))
  }

  function NextPowerOfTwoFrom(n: nat, p: nat): (r: nat)
    requires IsPowerOfTwo(p)
    ensures IsPowerOfTwo(r) && r >= n && r >= p
    ensures r == p || r / 2 < n
    decreases n - p
  {
    if p >= n then p else NextPowerOfTwoFrom(n, 2 * p)
  }

  /** `usize::next_power_of_two`: the least power of two not below `n`. */
  function NextPowerOfTwo(n: nat): (r: nat)
    ensures IsPowerOfTwo(r) && r >= n && r >= 1
    ensures r == 1 || r / 2 < n
  {
    NextPowerOfTwoFrom(n, 1)
  }

  /** A power of two is its own next power of two. */
  lemma {:induction false} PowerOfTwoFixed(n: nat, p: nat)
    requires IsPowerOfTwo(n) && IsPowerOfTwo(p) && p <= n
    ensures NextPowerOfTwoFrom(n, p) == n
    decreases n - p
  {
    if p < n {
      PowersDouble(p, n);
      PowerOfTwoFixed(n, 2 * p);
    }
  }

  /** Between a power of two and a larger one there is room for its double. */
  lemma {:induction false} PowersDouble(p: nat, n: nat)
    requires IsPowerOfTwo(p) && IsPowerOfTwo(n) && p < n
    ensures 2 * p <= n
    decreases n
  {
    if p > 1 {
      PowersDouble(p / 2, n / 2);
    }
  }

  /** `calculate_bucket_capacity` for elements of `elementSize` bytes: 64 for
      no capacity; up to 1024 the next power of two; above that a whole
      number of 4 KiB pages, or the next power of two when an element is
      empty or larger than a page. */
  function BucketCapacity(minCapacity: nat, elementSize: nat): (r: nat)
    ensures r >= minCapacity && r > 0
    ensures minCapacity == 0 ==> r == 64
    ensures 0 < minCapacity <= 1024 ==> r == NextPowerOfTwo(minCapacity)
    ensures minCapacity > 1024 && 0 < elementSize <= PageSize ==>
      && r % (PageSize / elementSize) == 0
      && r < minCapacity + PageSize / elementSize
  {
    if minCapacity == 0 then 64
    else if minCapacity <= 1024 then NextPowerOfTwo(minCapacity)
    else if elementSize > 0 && PageSize / elementSize > 0 then
      var perPage := PageSize / elementSize;
      RoundUpBounds(minCapacity, perPage);
      (minCapacity + perPage - 1) / perPage * perPage
    else NextPowerOfTwo(minCapacity)
  }

  /** `d * k` is at least `k` once `d` is positive. */
  lemma {:induction false} MulAtLeast(d: int, k: nat)
    requires d >= 1
    ensures d * k >= k
    decreases d
  {
    if d > 1 {
      MulAtLeast(d - 1, k);
      assert d * k == (d - 1) * k + k;
    }
  }

  /** Quotient and remainder are the only ones: `q * k + m` with
      `0 <= m < k` divides to `q` remainder `m`. */
  lemma DivUnique(a: int, k: nat, q: int, m: int)
    requires k > 0 && a == q * k + m && 0 <= m < k
    ensures a / k == q && a % k == m
  {
    var q', m' := a / k, a % k;
    assert q' * k + m' == a;
    assert (q' - q) * k == m - m';
    if q' > q {
      MulAtLeast(q' - q, k);
    } else if q > q' {
      MulAtLeast(q - q', k);
    }
  }

  /** Rounding up to a multiple of `k` lands on the least multiple of `k`
      not below `n`. */
  lemma RoundUpBounds(n: nat, k: nat)
    requires k > 0
    ensures var r := (n + k - 1) / k * k;
      r >= n && r < n + k && r % k == 0
  {
    var q, m := (n + k - 1) / k, (n + k - 1) % k;
    assert n + k - 1 == q * k + m;
    DivUnique(q * k, k, q, 0);
  }

  /** A multiple of `k` rounds up to itself. */
  lemma RoundUpMultiple(q: nat, k: nat)
    requires k > 0
    ensures (q * k + k - 1) / k * k == q * k
  {
    DivUnique(q * k + k - 1, k, q, k - 1);
  }

  function Pow2(e: nat): nat
  {
    if e == 0 then 1 else 2 * Pow2(e - 1)
  }

  lemma {:induction false} Pow2IsPowerOfTwo(e: nat)
    ensures IsPowerOfTwo(Pow2(e))
  {
    if e > 0 {
      Pow2IsPowerOfTwo(e - 1);
      assert Pow2(e) / 2 == Pow2(e - 1);
    }
  }

  /** A bucket capacity falls into its own bucket again, so a vector
      handed out at its bucket's capacity returns to that same bucket. */
  lemma BucketIdempotent(minCapacity: nat, elementSize: nat)
    ensures BucketCapacity(BucketCapacity(minCapacity, elementSize), elementSize) == BucketCapacity(minCapacity, elementSize)
  {
    var b := BucketCapacity(minCapacity, elementSize);
    if minCapacity == 0 {
      Pow2IsPowerOfTwo(6);
      assert Pow2(6) == 64;
      PowerOfTwoFixed(64, 1);
    } else if minCapacity <= 1024 {
      Pow2IsPowerOfTwo(10);
      assert Pow2(10) == 1024;
      if b > 1024 {
        PowersDouble(1024, b);
      }
      PowerOfTwoFixed(b, 1);
    } else if elementSize > 0 && PageSize / elementSize > 0 {
      var k := PageSize / elementSize;
      var q := (minCapacity + k - 1) / k;
      RoundUpMultiple(q, k);
    } else {
      PowerOfTwoFixed(b, 1);
    }
  }

  /** The bucket test (byte elements): 0 gives 64, 100 gives 128, 500
      gives 512, and 5000 gives two whole pages. */
  lemma BucketExamples()
    ensures BucketCapacity(0, 1) == 64
    ensures BucketCapacity(100, 1) == 128
    ensures BucketCapacity(500, 1) == 512
    ensures BucketCapacity(5000, 1) == 8192
  {
    assert NextPowerOfTwo(100) == 128 by {
      assert NextPowerOfTwoFrom(100, 64) == 128;
    }
    assert NextPowerOfTwo(500) == 512 by {
      assert NextPowerOfTwoFrom(500, 256) == 512;
    }
  }

  /** `GLOBAL_GENERATION`: the process-wide counter stamped on handles. */
  class GenerationCounter {
    var next: nat

    constructor ()
      ensures next == 1
    {
      next := 1;
    }

    /** `fetch_add(1)` */
    method FetchAdd() returns (g: nat)
      modifies this
      ensures g == old(next) && next == old(next) + 1
    {
      g := next;
      next := next + 1;
    }
  }

  /** A `PoolEntry` waiting in a bucket: an empty vector of this capacity. */
  datatype PoolEntry = PoolEntry(capacity: nat, generation: nat)

  /** A `PooledVec` as handed out: its vector's capacity, its handle's
      generation, and whether it was reused rather than allocated. */
  datatype PooledVec = PooledVec(capacity: nat, generation: nat, reused: bool)

  datatype PoolStats = PoolStats(totalPools: nat, peakPools: nat, activePools: nat,
                                 frameAllocations: nat, frameReuses: nat, bucketCount: nat)

  /** `FixedVecPool` over elements of `elementSize` bytes. */
  class FixedVecPool {
    const elementSize: nat
    var pools: map<nat, seq<PoolEntry>>
    var totalPools: nat
    var peakPools: nat
    var activePools: nat
    var frameAllocations: nat
    var frameReuses: nat

    /** The peak is never below the current count, nor above the number
        ever allocated. */
    ghost predicate Valid()
      reads this
    {
      activePools <= peakPools <= totalPools
    }

    /** `new` / `default`: no buckets and every counter zero. */
    constructor (size: nat)
      ensures Valid()
      ensures elementSize == size && pools == map[]
      ensures totalPools == 0 && peakPools == 0 && activePools == 0
      ensures frameAllocations == 0 && frameReuses == 0
    {
      elementSize := size;
      pools := map[];
      totalPools, peakPools, activePools := 0, 0, 0;
      frameAllocations, frameReuses := 0, 0;
    }

    predicate CanReuse(bucket: nat)
      reads this
    {
      bucket in pools && |pools[bucket]| > 0
    }

    /** `get`: the front entry of the bucket for `minCapacity` when there is
        one (a reuse), otherwise a new vector of the bucket's capacity (an
        allocation, counted as active and in the total, raising the peak if
        needed). */
    method Get(minCapacity: nat, gen: GenerationCounter) returns (v: PooledVec)
      requires Valid()
      modifies this`pools, this`totalPools, this`peakPools, this`activePools,
               this`frameAllocations, this`frameReuses, gen
      ensures Valid()
      ensures var b := BucketCapacity(minCapacity, elementSize);
        if old(CanReuse(b)) then
          && v == PooledVec(old(pools[b][0].capacity), old(pools[b][0].generation), true)
          && pools == old(pools)[b := old(pools[b][1..])]
          && frameReuses == old(frameReuses) + 1 && frameAllocations == old(frameAllocations)
          && activePools == old(activePools) && totalPools == old(totalPools) && peakPools == old(peakPools)
          && gen.next == old(gen.next)
        else
          && v == PooledVec(b, old(gen.next), false)
          && pools == old(pools)
          && frameAllocations == old(frameAllocations) + 1 && frameReuses == old(frameReuses)
          && activePools == old(activePools) + 1 && totalPools == old(totalPools) + 1
          && peakPools == (if old(activePools) + 1 > old(peakPools) then old(activePools) + 1 else old(peakPools))
          && gen.next == old(gen.next) + 1
    {
      var bucket := BucketCapacity(minCapacity, elementSize);
      if bucket in pools && |pools[bucket]| > 0 {
        var entry := pools[bucket][0];
        pools := pools[bucket := pools[bucket][1..]];
        frameReuses := frameReuses + 1;
        return PooledVec(entry.capacity, entry.generation, true);
      }
      frameAllocations := frameAllocations + 1;
      activePools := activePools + 1;
      totalPools := totalPools + 1;
      if activePools > peakPools {
        peakPools := activePools;
      }
      var g := gen.FetchAdd();
      v := PooledVec(bucket, g, false);
    }

    /** `return_vec`, called when a pooled vector is dropped: the cleared
        vector joins the back of its capacity's bucket under a fresh
        generation, and the active count drops by one, never below zero. */
    method ReturnVec(capacity: nat, gen: GenerationCounter)
      requires Valid()
      modifies this`pools, this`activePools, gen
      ensures Valid()
      ensures var b := BucketCapacity(capacity, elementSize);
        pools == old(pools)[b := (if b in old(pools) then old(pools[b]) else []) + [PoolEntry(capacity, old(gen.next) + 1)]]
      ensures activePools == SatSub(old(activePools), 1)
      ensures gen.next == old(gen.next) + 2
    {
      var bucket := BucketCapacity(capacity, elementSize);
      // `PoolEntry::new` takes one generation and `put` the next.
      var _ := gen.FetchAdd();
      var g := gen.FetchAdd();
      var queue := if bucket in pools then pools[bucket] else [];
      pools := pools[bucket := queue + [PoolEntry(capacity, g)]];
      activePools := SatSub(activePools, 1);
    }

    /** `reset_frame`: the two frame counters back to zero and nothing
        else touched. */
    method ResetFrame()
      modifies this`frameAllocations, this`frameReuses
      ensures frameAllocations == 0 && frameReuses == 0
    {
      frameAllocations, frameReuses := 0, 0;
    }

    /** `stats`: the counters and the number of buckets. */
    function Stats(): (s: PoolStats)
      reads this
      ensures Valid() ==> s.activePools <= s.peakPools <= s.totalPools
      ensures s.bucketCount == |pools| && s.frameAllocations == frameAllocations && s.frameReuses == frameReuses
    {
      PoolStats(totalPools, peakPools, activePools, frameAllocations, frameReuses, |pools|)
    }
  }

  /** The reuse test: a vector taken and given back is handed out again
      for the same request, counted as one allocation and one reuse, with
      a generation different from the first. */
  method ReuseScenario() returns (first: PooledVec, second: PooledVec, stats: PoolStats)
    ensures !first.reused && second.reused
    ensures first.generation != second.generation
    ensures stats.frameAllocations == 1 && stats.frameReuses == 1 && stats.activePools == 0
  {
    var gen := new GenerationCounter();
    var pool := new FixedVecPool(4);
    first := pool.Get(10, gen);
    BucketIdempotent(10, 4);
    pool.ReturnVec(first.capacity, gen);
    second := pool.Get(10, gen);
    stats := pool.Stats();
  }

  /** `ScopedArena`: a private pool and the vectors allocated from it. */
  class ScopedArena {
    const pool: FixedVecPool
    var activeVecs: seq<PooledVec>

    ghost predicate Valid()
      reads this, pool
    {
      pool.Valid()
    }

    constructor (elementSize: nat)
      ensures Valid() && fresh(pool) && activeVecs == []
      ensures pool.pools == map[] && pool.frameAllocations == 0 && pool.activePools == 0
    {
      pool := new FixedVecPool(elementSize);
      activeVecs := [];
    }

    /** `alloc`: a vector from the pool, kept until the arena goes away. */
    method Alloc(minCapacity: nat, gen: GenerationCounter) returns (v: PooledVec)
      requires Valid()
      modifies this`activeVecs, pool, gen
      ensures Valid()
      ensures activeVecs == old(activeVecs) + [v]
      ensures !v.reused ==> v.capacity >= minCapacity
      ensures var b := BucketCapacity(minCapacity, pool.elementSize);
        if old(pool.CanReuse(b)) then
          && v == PooledVec(old(pool.pools[b][0].capacity), old(pool.pools[b][0].generation), true)
          && pool.pools == old(pool.pools)[b := old(pool.pools[b][1..])]
          && pool.frameReuses == old(pool.frameReuses) + 1 && pool.frameAllocations == old(pool.frameAllocations)
          && pool.activePools == old(pool.activePools) && pool.totalPools == old(pool.totalPools)
          && pool.peakPools == old(pool.peakPools)
          && gen.next == old(gen.next)
        else
          && v == PooledVec(b, old(gen.next), false)
          && pool.pools == old(pool.pools)
          && pool.frameAllocations == old(pool.frameAllocations) + 1 && pool.frameReuses == old(pool.frameReuses)
          && pool.activePools == old(pool.activePools) + 1 && pool.totalPools == old(pool.totalPools) + 1
          && pool.peakPools == (if old(pool.activePools) + 1 > old(pool.peakPools) then old(pool.activePools) + 1 else old(pool.peakPools))
          && gen.next == old(gen.next) + 1
    {
      v := pool.Get(minCapacity, gen);
      activeVecs := activeVecs + [v];
    }
  }

  /** `GlobalMemoryPools`: one pool each for bytes, `u32` and `f32`, and a
      frame counter. */
  class GlobalMemoryPools {
    const bytePool: FixedVecPool
    const u32Pool: FixedVecPool
    const f32Pool: FixedVecPool
    var frameCount: nat

    /** Three distinct pools, each keeping its own counters in order. */
    ghost predicate Valid()
      reads this, bytePool, u32Pool, f32Pool
    {
      && bytePool != u32Pool && bytePool != f32Pool && u32Pool != f32Pool
      && bytePool.Valid() && u32Pool.Valid() && f32Pool.Valid()
    }

    /** `default`: three new pools, each without buckets and with every
        counter zero, and a frame count of zero. */
    constructor ()
      ensures Valid()
      ensures fresh(bytePool) && fresh(u32Pool) && fresh(f32Pool) && frameCount == 0
      ensures bytePool.elementSize == 1 && u32Pool.elementSize == 4 && f32Pool.elementSize == 4
      ensures bytePool.pools == map[] && u32Pool.pools == map[] && f32Pool.pools == map[]
      ensures bytePool.Stats() == PoolStats(0, 0, 0, 0, 0, 0)
      ensures u32Pool.Stats() == PoolStats(0, 0, 0, 0, 0, 0)
      ensures f32Pool.Stats() == PoolStats(0, 0, 0, 0, 0, 0)
    {
      bytePool := new FixedVecPool(1);
      u32Pool := new FixedVecPool(4);
      f32Pool := new FixedVecPool(4);
      frameCount := 0;
    }

    /** `reset_frame`: every pool's two frame counters zeroed, one more
        frame, and nothing else in the pools touched. */
    method ResetFrame()
      requires Valid()
      modifies this`frameCount,
               bytePool`frameAllocations, bytePool`frameReuses,
               u32Pool`frameAllocations, u32Pool`frameReuses,
               f32Pool`frameAllocations, f32Pool`frameReuses
      ensures Valid()
      ensures frameCount == old(frameCount) + 1
      ensures bytePool.frameAllocations == 0 && bytePool.frameReuses == 0
      ensures u32Pool.frameAllocations == 0 && u32Pool.frameReuses == 0
      ensures f32Pool.frameAllocations == 0 && f32Pool.frameReuses == 0
      ensures bytePool.pools == old(bytePool.pools) && u32Pool.pools == old(u32Pool.pools)
      ensures f32Pool.pools == old(f32Pool.pools)
    {
      bytePool.ResetFrame();
      u32Pool.ResetFrame();
      f32Pool.ResetFrame();
      frameCount := frameCount + 1;
    }
  }
}
