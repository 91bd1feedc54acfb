/** Vegetation level of detail and GPU resource bookkeeping: a plant's
    detail level follows its distance to the player, a plant's GPU handles
    are recorded until they are marked cleaned, and a global tracker keeps
    the VRAM in use, its peak and the budget. Byte counts are unbounded
    naturals. */
module Vegetation {
  import opened Common

  /** `VegetationDetailLevel` */
  datatype DetailLevel = Full | Medium | Billboard | Culled

  /** The position of a level from most to least detailed. */
  function Coarseness(level: DetailLevel): nat
  {
    match level
    case Full => 0
    case Medium => 1
    case Billboard => 2
    case Culled => 3
  }

  /** The level `update_from_distance` picks: Full below 50 m, Medium below
      150 m, Billboard below 300 m, Culled from 300 m on. */
  function DetailFor(distance: real): (level: DetailLevel)
    ensures level == Full <==> distance < 50.0
    ensures level == Medium <==> 50.0 <= distance < 150.0
    ensures level == Billboard <==> 150.0 <= distance < 300.0
    ensures level == Culled <==> distance >= 300.0
  {
    if distance < 50.0 then Full
    else if distance < 150.0 then Medium
    else if distance < 300.0 then Billboard
    else Culled
  }

  /** A farther plant is never drawn in more detail. */
  lemma DetailMonotone(d1: real, d2: real)
    requires d1 <= d2
    ensures Coarseness(DetailFor(d1)) <= Coarseness(DetailFor(d2))
  {
  }

  /** `should_be_visible` on a level. */
  predicate Visible(level: DetailLevel)
  {
    level != Culled
  }

  /** `VegetationMeshLOD`: one mesh handle per drawn level. */
  datatype MeshLod = MeshLod(fullMesh: nat, mediumMesh: nat, billboardMesh: nat)

  /** `get_mesh_for_level`: the level's own mesh, and none when culled. */
  function MeshForLevel(meshes: MeshLod, level: DetailLevel): (m: Option<nat>)
    ensures level == Full ==> m == Some(meshes.fullMesh)
    ensures level == Medium ==> m == Some(meshes.mediumMesh)
    ensures level == Billboard ==> m == Some(meshes.billboardMesh)
  {
    match level
    case Full => Some(meshes.fullMesh)
    case Medium => Some(meshes.mediumMesh)
    case Billboard => Some(meshes.billboardMesh)
    case Culled => None
  }

  /** A level has a mesh exactly when it is visible, and a plant is visible
      exactly when it is closer than 300 m. */
  lemma VisibleIffMesh(meshes: MeshLod, level: DetailLevel, distance: real)
    ensures Visible(level) <==> MeshForLevel(meshes, level).Some?
    ensures Visible(DetailFor(distance)) <==> distance < 300.0
  {
  }

  /** `VegetationLOD` */
  class VegetationLod {
    var detailLevel: DetailLevel
    var distanceToPlayer: real
    var lastUpdateFrame: nat

    /** `VegetationLOD::new`: full detail at distance zero, frame zero. */
    constructor ()
      ensures detailLevel == Full && distanceToPlayer == 0.0 && lastUpdateFrame == 0
    {
      detailLevel := Full;
      distanceToPlayer := 0.0;
      lastUpdateFrame := 0;
    }

    /** `VegetationLOD::from_distance`: a new component updated at frame 0. */
    constructor FromDistance(distance: real)
      ensures detailLevel == DetailFor(distance) && distanceToPlayer == distance && lastUpdateFrame == 0
    {
      detailLevel := DetailFor(distance);
      distanceToPlayer := distance;
      lastUpdateFrame := 0;
    }

    /** `update_from_distance`: the distance and frame are recorded and the
        level follows the distance. */
    method UpdateFromDistance(distance: real, frame: nat)
      modifies this
      ensures distanceToPlayer == distance && lastUpdateFrame == frame
      ensures detailLevel == DetailFor(distance)
    {
      distanceToPlayer := distance;
      lastUpdateFrame := frame;
      detailLevel := DetailFor(distance);
    }

    /** `should_be_visible`: any level but `Culled`. */
    predicate ShouldBeVisible()
      reads this
    {
      Visible(detailLevel)
    }
  }

  /** Once the level follows the distance, a plant is visible exactly when
      closer than 300 m. */
  lemma VisibleWithin300(lod: VegetationLod)
    requires lod.detailLevel == DetailFor(lod.distanceToPlayer)
    ensures lod.ShouldBeVisible() <==> lod.distanceToPlayer < 300.0
  {
  }

  /** `VegetationGpuResources`: the GPU handles one plant holds. */
  class GpuResources {
    var instanceBufferId: Option<nat>
    var atlasTextureId: Option<nat>
    var quadtreeNodeId: Option<nat>
    var gpuMemoryUsage: nat
    var resourcesAllocated: bool

    /** `VegetationGpuResources::new`: nothing held. */
    constructor ()
      ensures instanceBufferId == None && atlasTextureId == None && quadtreeNodeId == None
      ensures gpuMemoryUsage == 0 && !resourcesAllocated
      ensures !NeedsCleanup()
    {
      instanceBufferId := None;
      atlasTextureId := None;
      quadtreeNodeId := None;
      gpuMemoryUsage := 0;
      resourcesAllocated := false;
    }

    /** `needs_cleanup`: allocated and holding at least one handle. */
    predicate NeedsCleanup()
      reads this
    {
      resourcesAllocated && (instanceBufferId.Some? || atlasTextureId.Some? || quadtreeNodeId.Some?)
    }

    /** `allocate_resources`: the handles and size are recorded as given and
        the resources count as allocated; cleanup is then needed exactly
        when some handle was given. */
    method AllocateResources(instanceBuffer: Option<nat>, atlasTexture: Option<nat>,
                             quadtreeNode: Option<nat>, memoryUsage: nat)
      modifies this
      ensures instanceBufferId == instanceBuffer && atlasTextureId == atlasTexture
      ensures quadtreeNodeId == quadtreeNode && gpuMemoryUsage == memoryUsage && resourcesAllocated
      ensures NeedsCleanup() <==> instanceBuffer.Some? || atlasTexture.Some? || quadtreeNode.Some?
    {
      instanceBufferId := instanceBuffer;
      atlasTextureId := atlasTexture;
      quadtreeNodeId := quadtreeNode;
      gpuMemoryUsage := memoryUsage;
      resourcesAllocated := true;
    }

    /** `mark_cleaned`: every handle dropped, no memory, not allocated, so
        no cleanup is needed any more. */
    method MarkCleaned()
      modifies this
      ensures instanceBufferId == None && atlasTextureId == None && quadtreeNodeId == None
      ensures gpuMemoryUsage == 0 && !resourcesAllocated
      ensures !NeedsCleanup()
    {
      resourcesAllocated := false;
      instanceBufferId := None;
      atlasTextureId := None;
      quadtreeNodeId := None;
      gpuMemoryUsage := 0;
    }
  }

  /** The VRAM budget for vegetation: 512 MiB. */
  const BudgetBytes: nat := 512 * 1024 * 1024

  /** `VegetationGpuMemoryTracker` */
  class MemoryTracker {
    var totalVramUsage: nat
    var activeInstances: nat
    var peakVramUsage: nat
    var cleanupOperations: nat

    /** The peak is never below the current usage. */
    ghost predicate Valid()
      reads this
    {
      peakVramUsage >= totalVramUsage
    }

    /** `VegetationGpuMemoryTracker::default`: all zero. */
    constructor ()
      ensures Valid()
      ensures totalVramUsage == 0 && activeInstances == 0 && peakVramUsage == 0 && cleanupOperations == 0
    {
      totalVramUsage := 0;
      activeInstances := 0;
      peakVramUsage := 0;
      cleanupOperations := 0;
    }

    /** `allocate_memory`: the usage grows by the bytes, one more instance
        is active, and the peak rises to the usage if it passed it. */
    method AllocateMemory(bytes: nat)
      requires Valid()
      modifies this
      ensures Valid()
      ensures totalVramUsage == old(totalVramUsage) + bytes && activeInstances == old(activeInstances) + 1
      ensures peakVramUsage == (if old(peakVramUsage) >= totalVramUsage then old(peakVramUsage) else totalVramUsage)
      ensures cleanupOperations == old(cleanupOperations)
    {
      totalVramUsage := totalVramUsage + bytes;
      activeInstances := activeInstances + 1;
      if totalVramUsage > peakVramUsage {
        peakVramUsage := totalVramUsage;
      }
    }

    /** `deallocate_memory`: the usage and the instance count drop without
        going below zero, the peak is kept, and one more cleanup is
        counted. */
    method DeallocateMemory(bytes: nat)
      requires Valid()
      modifies this
      ensures Valid()
      ensures totalVramUsage == SatSub(old(totalVramUsage), bytes) && activeInstances == SatSub(old(activeInstances), 1)
      ensures peakVramUsage == old(peakVramUsage) && cleanupOperations == old(cleanupOperations) + 1
    {
      totalVramUsage := SatSub(totalVramUsage, bytes);
      activeInstances := SatSub(activeInstances, 1);
      cleanupOperations := cleanupOperations + 1;
    }

    /** `is_within_memory_budget`: strictly below 512 MiB. */
    predicate IsWithinMemoryBudget()
      reads this
    {
      totalVramUsage < BudgetBytes
    }

    /** `memory_usage_percentage`: the usage as a percentage of the budget,
        below 100 exactly when within budget. */
    function MemoryUsagePercentage(): (p: real)
      reads this
      ensures p >= 0.0
      ensures p < 100.0 <==> IsWithinMemoryBudget()
      ensures p == 0.0 <==> totalVramUsage == 0
    {
      totalVramUsage as real / BudgetBytes as real * 100.0
    }
  }

  /** The tracker and budget tests: 1 MiB then 2 MiB raise usage and peak to
      3 MiB with two instances; freeing 1 MiB leaves 2 MiB, one instance,
      the peak at 3 MiB and one cleanup. From empty, 256 MiB is half the
      budget and 300 MiB more is over it. */
  method TrackerExample() returns (total: nat, active: nat, peak: nat, cleanups: nat,
                                   half: real, within: bool, over: real, stillWithin: bool)
    ensures total == 2 * 1024 * 1024 && active == 1 && peak == 3 * 1024 * 1024 && cleanups == 1
    ensures half == 50.0 && within && over > 100.0 && !stillWithin
  {
    var t := new MemoryTracker();
    t.AllocateMemory(1024 * 1024);
    t.AllocateMemory(2 * 1024 * 1024);
    t.DeallocateMemory(1024 * 1024);
    total, active, peak, cleanups := t.totalVramUsage, t.activeInstances, t.peakVramUsage, t.cleanupOperations;
    var b := new MemoryTracker();
    b.AllocateMemory(256 * 1024 * 1024);
    half := b.MemoryUsagePercentage();
    within := b.IsWithinMemoryBudget();
    b.AllocateMemory(300 * 1024 * 1024);
    over := b.MemoryUsagePercentage();
    stillWithin := b.IsWithinMemoryBudget();
  }

  /** The cleanup-marking test: allocating three handles needs cleanup,
      marking cleaned needs none and frees the memory. */
  method CleanupExample() returns (before: bool, after: bool, memory: nat)
    ensures before && !after && memory == 0
  {
    var r := new GpuResources();
    r.AllocateResources(Some(1), Some(2), Some(3), 1024);
    before := r.NeedsCleanup();
    r.MarkCleaned();
    after := r.NeedsCleanup();
    memory := r.gpuMemoryUsage;
  }

  /** The culling-test distances: 250 m is drawn as a billboard and 100 m
      at medium detail, both visible. */
  lemma DistanceExamples()
    ensures DetailFor(250.0) == Billboard && DetailFor(100.0) == Medium
    ensures Visible(DetailFor(250.0)) && Visible(DetailFor(100.0))
  {
  }
}
