/** GPU culling results and how they reach the render queue. Each instance
    has one 32-bit word of results: bit 0 says whether it is visible and
    bits 1-2 hold its level of detail. */
module GpuCullingIntegration {
  import opened Common

  /** Bit 0 of a result word. */
  predicate VisibleBit(w: bv32)
  {
    w & 1 != 0
  }

  /** Bits 1-2 of a result word. */
  function LodBits(w: bv32): (lod: bv32)
    ensures lod < 4
  {
    (w >> 1) & 3
  }

  /** The word `run_gpu_culling_compute` writes for a visible instance:
      bit 0 set and the level of detail shifted into bits 1-2. */
  function Pack(lod: bv32): bv32
  {
    1 | (lod << 1)
  }

  /** Decoding a packed word gives back visibility and the level of detail
      (any level below 4); the word of a culled instance, 0, decodes as
      not visible at level 0. */
  lemma PackRoundTrip(lod: bv32)
    requires lod < 4
    ensures VisibleBit(Pack(lod)) && LodBits(Pack(lod)) == lod
    ensures !VisibleBit(0) && LodBits(0) == 0
  {
  }

  /** The number of result words with bit 0 set: the sum of `v & 1`. */
  function VisibleCount(data: seq<bv32>): (n: nat)
    ensures n <= |data|
  {
    if data == [] then 0 else (if VisibleBit(data[0]) then 1 else 0) + VisibleCount(data[1..])
  }

  /** Counting distributes over concatenation. */
  lemma {:induction false} VisibleCountAppend(a: seq<bv32>, b: seq<bv32>)
    ensures VisibleCount(a + b) == VisibleCount(a) + VisibleCount(b)
  {
    if a == [] {
      assert a + b == b;
    } else {
      assert (a + b)[1..] == a[1..] + b;
      VisibleCountAppend(a[1..], b);
    }
  }

  /** Every instance counts iff all are visible; none counts iff none is. */
  lemma {:induction false} VisibleCountExtremes(data: seq<bv32>)
    ensures VisibleCount(data) == |data| <==> forall i :: 0 <= i < |data| ==> VisibleBit(data[i])
    ensures VisibleCount(data) == 0 <==> forall i :: 0 <= i < |data| ==> !VisibleBit(data[i])
  {
    if data != [] {
      VisibleCountExtremes(data[1..]);
      assert forall i :: 1 <= i < |data| ==> data[i] == data[1..][i - 1];
    }
  }

  /** `GpuCullingResults`: one result word per instance and the counts of
      the last `update_stats`. */
  class GpuCullingResults {
    var visibilityData: seq<bv32>
    var totalInstances: nat
    var visibleInstances: nat

    /** `default`: no data, zero counts. */
    constructor ()
      ensures visibilityData == [] && totalInstances == 0 && visibleInstances == 0
    {
      visibilityData := [];
      totalInstances, visibleInstances := 0, 0;
    }

    /** `is_visible`: bit 0 of the instance's word; an index beyond the
        data is not visible. */
    predicate IsVisible(index: nat)
      reads this
      ensures IsVisible(index) <==> index < |visibilityData| && VisibleBit(visibilityData[index])
    {
      index < |visibilityData| && VisibleBit(visibilityData[index])
    }

    /** `get_lod_level`: bits 1-2 of the instance's word; 0 beyond the data. */
    function GetLodLevel(index: nat): (lod: bv32)
      reads this
      ensures lod < 4
      ensures index >= |visibilityData| ==> lod == 0
    {
      if index >= |visibilityData| then 0 else LodBits(visibilityData[index])
    }

    /** `update_stats`: the total is the number of words and the visible
        count the number with bit 0 set, never more than the total. */
    method UpdateStats()
      modifies this`totalInstances, this`visibleInstances
      ensures totalInstances == |visibilityData| && visibleInstances == VisibleCount(visibilityData)
      ensures visibleInstances <= totalInstances
    {
      totalInstances := |visibilityData|;
      visibleInstances := VisibleCount(visibilityData);
    }

    /** `clear`: no data and zero counts. */
    method Clear()
      modifies this
      ensures visibilityData == [] && totalInstances == 0 && visibleInstances == 0
    {
      visibilityData := [];
      totalInstances, visibleInstances := 0, 0;
    }

    /** `run_gpu_culling_compute`'s stand-in for the compute shader: the
        results are cleared, then (for a non-empty frame) one word per
        instance is written from its camera distance and the counts are
        updated. */
    method RunGpuCullingCompute(distances: seq<real>)
      modifies this
      ensures visibilityData == SimulatedData(distances)
      ensures distances == [] ==> totalInstances == 0 && visibleInstances == 0
      ensures distances != [] ==> totalInstances == |distances| && visibleInstances == VisibleCount(visibilityData)
    {
      Clear();
      if distances == [] {
        return;
      }
      var data: seq<bv32> := [];
      var i := 0;
      while i < |distances|
        invariant 0 <= i <= |distances|
        invariant |data| == i
        invariant forall j :: 0 <= j < i ==> data[j] == SimulatedWord(j, distances[j])
      {
        data := data + [SimulatedWord(i, distances[i])];
        i := i + 1;
      }
      visibilityData := data;
      UpdateStats();
    }
  }

  /** The stand-in's visibility: 9 in 10 instances nearer than 300, 3 in 5
      nearer than 600, and 3 in 10 further out, chosen by index. */
  predicate SimulatedVisible(index: nat, distance: real)
  {
    if distance < 300.0 then index % 10 != 0
    else if distance < 600.0 then index % 5 < 3
    else index % 10 < 3
  }

  /** The stand-in's level of detail by distance: 0 below 50, 1 below 150,
      2 below 400, otherwise 3. */
  function SimulatedLod(distance: real): (lod: bv32)
    ensures lod < 4
  {
    if distance < 50.0 then 0 else if distance < 150.0 then 1 else if distance < 400.0 then 2 else 3
  }

  function SimulatedWord(index: nat, distance: real): bv32
  {
    if SimulatedVisible(index, distance) then Pack(SimulatedLod(distance)) else 0
  }

  function SimulatedData(distances: seq<real>): (data: seq<bv32>)
    ensures |data| == |distances|
    ensures forall j :: 0 <= j < |data| ==> data[j] == SimulatedWord(j, distances[j])
  {
    seq(|distances|, j requires 0 <= j < |distances| => SimulatedWord(j, distances[j]))
  }

  /** The words the stand-in writes decode to the visibility and level it
      chose for each instance. */
  lemma SimulatedDecodes(index: nat, distance: real)
    ensures VisibleBit(SimulatedWord(index, distance)) == SimulatedVisible(index, distance)
    ensures SimulatedVisible(index, distance) ==> LodBits(SimulatedWord(index, distance)) == SimulatedLod(distance)
  {
    PackRoundTrip(SimulatedLod(distance));
  }

  /** The visibility test: words 1, 0, 5 are visible, hidden, visible, at
      levels 0, 0, 2. */
  lemma DecodeExample()
    ensures VisibleBit(1) && !VisibleBit(0) && VisibleBit(5)
    ensures LodBits(1) == 0 && LodBits(0) == 0 && LodBits(5) == 2
  {
  }

  /** The statistics test: of words 1, 0, 1, 0, 1, three are visible. */
  lemma StatsExample()
    ensures VisibleCount([1, 0, 1, 0, 1]) == 3
  {
    var s: seq<bv32> := [1, 0, 1, 0, 1];
    assert s[1..][1..][1..][1..][1..] == [];
  }

  /** `apply_gpu_culling_results`: with results present and non-empty,
      each instance's visible flag becomes its result bit (an instance
      beyond the results is culled), and the instances are counted as
      visible or culled; otherwise every flag is left alone. */
  method ApplyGpuCullingResults(visible: array<bool>, results: Option<GpuCullingResults>)
    returns (visibleCount: nat, culledCount: nat)
    modifies visible
    ensures results.None? || results.value.visibilityData == [] ==> visible[..] == old(visible[..])
    ensures results.Some? && results.value.visibilityData != [] ==>
      && (forall i :: 0 <= i < visible.Length ==> visible[i] == results.value.IsVisible(i))
      && visibleCount + culledCount == visible.Length
    ensures results.Some? && results.value.visibilityData != [] && visible.Length == |results.value.visibilityData| ==>
      visibleCount == VisibleCount(results.value.visibilityData)
  {
    visibleCount, culledCount := 0, 0;
    if results.None? || results.value.visibilityData == [] {
      return;
    }
    var r := results.value;
    var i := 0;
    while i < visible.Length
      invariant 0 <= i <= visible.Length
      invariant forall j :: 0 <= j < i ==> visible[j] == r.IsVisible(j)
      invariant visibleCount + culledCount == i
      invariant i <= |r.visibilityData| ==> visibleCount == VisibleCount(r.visibilityData[..i])
    {
      if r.IsVisible(i) {
        visible[i] := true;
        visibleCount := visibleCount + 1;
      } else {
        visible[i] := false;
        culledCount := culledCount + 1;
      }
      if i < |r.visibilityData| {
        VisibleCountAppend(r.visibilityData[..i], [r.visibilityData[i]]);
        assert r.visibilityData[..i + 1] == r.visibilityData[..i] + [r.visibilityData[i]];
      }
      i := i + 1;
    }
    if visible.Length == |r.visibilityData| {
      assert r.visibilityData[..visible.Length] == r.visibilityData;
    }
  }

  /** `GpuCulledBatch`: a batch's instance count before and after culling. */
  datatype GpuCulledBatch = GpuCulledBatch(originalCount: nat, visibleCount: nat)

  /** `culling_efficiency`: the culled fraction, 0 for an empty batch. */
  function CullingEfficiency(b: GpuCulledBatch): (e: real)
    ensures b.originalCount == 0 ==> e == 0.0
    ensures b.visibleCount <= b.originalCount ==> 0.0 <= e <= 1.0
    ensures b.originalCount > 0 && b.visibleCount == 0 ==> e == 1.0
    ensures b.originalCount > 0 && b.visibleCount == b.originalCount ==> e == 0.0
  {
    if b.originalCount == 0 then 0.0
    else 1.0 - (b.visibleCount as real) / (b.originalCount as real)
  }

  /** The efficiency test: 60 of 100 visible is 40 % culled. */
  lemma EfficiencyExample()
    ensures CullingEfficiency(GpuCulledBatch(100, 60)) == 0.4
    ensures CullingEfficiency(GpuCulledBatch(0, 0)) == 0.0
  {
  }

  /** A batch as the queue sees it: its instance count and whether its key
      is opaque. */
  datatype Batch = Batch(instanceCount: nat, isOpaque: bool)

  /** `(original_count as f32 * 0.7) as u32`: seven tenths, rounded down. */
  function SimulatedVisibleCount(original: nat): (v: nat)
    ensures v <= original
  {
    ((original as real) * 0.7).Floor
  }

  /** The count queued for a batch: all of it without results, the
      simulated seven tenths with them. */
  function QueuedCount(b: Batch, haveResults: bool): (v: nat)
    ensures v <= b.instanceCount
  {
    if haveResults then SimulatedVisibleCount(b.instanceCount) else b.instanceCount
  }

  /** What one batch contributes to the spawned batches: nothing if it
      is empty or keeps nothing visible. */
  function SpawnedHead(b: Batch, haveResults: bool): seq<GpuCulledBatch>
  {
    if b.instanceCount == 0 || QueuedCount(b, haveResults) == 0 then []
    else [GpuCulledBatch(b.instanceCount, QueuedCount(b, haveResults))]
  }

  /** The batches spawned, in order: the non-empty ones whose queued count
      is not zero. */
  function Spawned(batches: seq<Batch>, haveResults: bool): seq<GpuCulledBatch>
  {
    if batches == [] then [] else SpawnedHead(batches[0], haveResults) + Spawned(batches[1..], haveResults)
  }

  function SumVisible(s: seq<GpuCulledBatch>): nat
  {
    if s == [] then 0 else s[0].visibleCount + SumVisible(s[1..])
  }

  function SumInstances(batches: seq<Batch>): nat
  {
    if batches == [] then 0 else batches[0].instanceCount + SumInstances(batches[1..])
  }

  function OpaqueHead(b: Batch, haveResults: bool): nat
  {
    if b.instanceCount > 0 && QueuedCount(b, haveResults) > 0 && b.isOpaque then 1 else 0
  }

  function CountOpaque(batches: seq<Batch>, haveResults: bool): nat
  {
    if batches == [] then 0 else OpaqueHead(batches[0], haveResults) + CountOpaque(batches[1..], haveResults)
  }

  /** A batch's culled instances: `original - visible` when there are
      results, which is zero for an empty batch. */
  function CulledHead(b: Batch, haveResults: bool): nat
  {
    if haveResults then b.instanceCount - QueuedCount(b, haveResults) else 0
  }

  function CulledTotal(batches: seq<Batch>, haveResults: bool): nat
  {
    if batches == [] then 0 else CulledHead(batches[0], haveResults) + CulledTotal(batches[1..], haveResults)
  }

  /** Every spawned batch keeps a positive part of its instances. */
  lemma {:induction false} SpawnedBatchesShrink(batches: seq<Batch>, haveResults: bool)
    ensures forall k :: 0 <= k < |Spawned(batches, haveResults)| ==>
      0 < Spawned(batches, haveResults)[k].visibleCount <= Spawned(batches, haveResults)[k].originalCount
    ensures |Spawned(batches, haveResults)| <= |batches|
  {
    if batches != [] {
      SpawnedBatchesShrink(batches[1..], haveResults);
    }
  }

  /** No instance is lost or made up: what is queued and what is culled
      add up to all instances, and without results nothing is culled. */
  lemma {:induction false} QueueConserves(batches: seq<Batch>, haveResults: bool)
    ensures SumVisible(Spawned(batches, haveResults)) + CulledTotal(batches, haveResults) == SumInstances(batches)
    ensures !haveResults ==> CulledTotal(batches, false) == 0
  {
    if batches != [] {
      QueueConserves(batches[1..], haveResults);
      SumVisibleAppend(SpawnedHead(batches[0], haveResults), Spawned(batches[1..], haveResults));
    }
  }

  lemma {:induction false} SumVisibleAppend(a: seq<GpuCulledBatch>, b: seq<GpuCulledBatch>)
    ensures SumVisible(a + b) == SumVisible(a) + SumVisible(b)
  {
    if a == [] {
      assert a + b == b;
    } else {
      assert (a + b)[1..] == a[1..] + b;
      SumVisibleAppend(a[1..], b);
    }
  }

  /** Peeling batch `i` off the batches still to be queued. */
  lemma QueueStep(batches: seq<Batch>, i: nat, haveResults: bool)
    requires i < |batches|
    ensures Spawned(batches[i..], haveResults) == SpawnedHead(batches[i], haveResults) + Spawned(batches[i + 1..], haveResults)
    ensures CulledTotal(batches[i..], haveResults) == CulledHead(batches[i], haveResults) + CulledTotal(batches[i + 1..], haveResults)
    ensures CountOpaque(batches[i..], haveResults) == OpaqueHead(batches[i], haveResults) + CountOpaque(batches[i + 1..], haveResults)
  {
    assert batches[i..][0] == batches[i] && batches[i..][1..] == batches[i + 1..];
  }

  /** What the first `i` batches have contributed: together with what
      the remaining batches contribute, the totals over all batches. */
  predicate QueuedSoFar(batches: seq<Batch>, haveResults: bool, i: nat, spawned: seq<GpuCulledBatch>,
                        total: nat, culled: nat, opaqueCount: nat, alphaCount: nat)
    requires i <= |batches|
  {
    && spawned + Spawned(batches[i..], haveResults) == Spawned(batches, haveResults)
    && total == SumVisible(spawned)
    && culled + CulledTotal(batches[i..], haveResults) == CulledTotal(batches, haveResults)
    && opaqueCount + CountOpaque(batches[i..], haveResults) == CountOpaque(batches, haveResults)
    && opaqueCount + alphaCount == |spawned|
  }

  /** Queueing batch `i` keeps `QueuedSoFar`. */
  lemma QueuedSoFarStep(batches: seq<Batch>, haveResults: bool, i: nat, spawned: seq<GpuCulledBatch>,
                        total: nat, culled: nat, opaqueCount: nat, alphaCount: nat,
                        head: seq<GpuCulledBatch>, v: nat, c: nat, o: nat, a: nat)
    requires i < |batches|
    requires QueuedSoFar(batches, haveResults, i, spawned, total, culled, opaqueCount, alphaCount)
    requires head == SpawnedHead(batches[i], haveResults) && v == SumVisible(head)
    requires c == CulledHead(batches[i], haveResults) && o == OpaqueHead(batches[i], haveResults)
    requires o + a == |head|
    ensures QueuedSoFar(batches, haveResults, i + 1, spawned + head, total + v, culled + c, opaqueCount + o, alphaCount + a)
  {
    var rest, rest' := Spawned(batches[i..], haveResults), Spawned(batches[i + 1..], haveResults);
    QueueStep(batches, i, haveResults);
    assert rest == head + rest';
    assert (spawned + head) + rest' == spawned + (head + rest');
    SumVisibleAppend(spawned, head);
  }

  /** One batch of `queue_gpu_culled_batches`: an empty batch, or one
      left with nothing visible, spawns nothing; otherwise one culled
      batch is spawned and counted as opaque or alpha. With results, the
      instances not visible are counted as culled. */
  method QueueBatch(b: Batch, haveResults: bool)
    returns (head: seq<GpuCulledBatch>, visible: nat, culled: nat, opaqueCount: nat, alphaCount: nat)
    ensures head == SpawnedHead(b, haveResults) && visible == SumVisible(head)
    ensures culled == CulledHead(b, haveResults) && opaqueCount == OpaqueHead(b, haveResults)
    ensures opaqueCount + alphaCount == |head|
  {
    head, visible, culled, opaqueCount, alphaCount := [], 0, 0, 0, 0;
    var original := b.instanceCount;
    if original > 0 {
      var v := original;
      if haveResults {
        v := SimulatedVisibleCount(original);
        culled := original - v;
      }
      if v > 0 {
        head := [GpuCulledBatch(original, v)];
        visible := v;
        if b.isOpaque {
          opaqueCount := 1;
        } else {
          alphaCount := 1;
        }
      }
    }
  }

  /** `queue_gpu_culled_batches`: walks the batches, skipping empty ones
      and those left with nothing visible, spawns a culled batch for each
      other one and totals the instances queued and culled and the opaque
      and alpha batches. */
  method QueueGpuCulledBatches(batches: seq<Batch>, haveResults: bool)
    returns (spawned: seq<GpuCulledBatch>, opaqueBatches: nat, alphaBatches: nat, totalInstances: nat, culledInstances: nat)
    ensures spawned == Spawned(batches, haveResults)
    ensures totalInstances == SumVisible(spawned)
    ensures culledInstances == CulledTotal(batches, haveResults)
    ensures opaqueBatches == CountOpaque(batches, haveResults)
    ensures opaqueBatches + alphaBatches == |spawned|
  {
    spawned, opaqueBatches, alphaBatches, totalInstances, culledInstances := [], 0, 0, 0, 0;
    var i := 0;
    while i < |batches|
      invariant 0 <= i <= |batches|
      invariant QueuedSoFar(batches, haveResults, i, spawned, totalInstances, culledInstances, opaqueBatches, alphaBatches)
    {
      var head, visible, culled, opaqueCount, alphaCount := QueueBatch(batches[i], haveResults);
      QueuedSoFarStep(batches, haveResults, i, spawned, totalInstances, culledInstances, opaqueBatches, alphaBatches,
                      head, visible, culled, opaqueCount, alphaCount);
      spawned := spawned + head;
      totalInstances := totalInstances + visible;
      culledInstances := culledInstances + culled;
      opaqueBatches := opaqueBatches + opaqueCount;
      alphaBatches := alphaBatches + alphaCount;
      i := i + 1;
    }
    assert batches[i..] == [];
  }
}
