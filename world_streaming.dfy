/** World streaming bookkeeping: chunks and 64 m sectors around the player,
    their load/unload (spawn/despawn) queues, per-chunk entity lists and the
    streaming statistics, including the per-LOD sector counters. */
module WorldStreaming {
  import opened Common

  /** A sector's grid coordinates. */
  datatype SectorId = SectorId(x: int, z: int)

  /** A chunk's grid coordinates; only equality is used here. */
  datatype ChunkKey = ChunkKey(x: int, z: int)

  /** The four-state load cycle shared by chunks (`ChunkLoadState`) and
      sectors (`SpawnState`, `SectorLoadState`). */
  datatype LoadState = NotLoaded | Loading | Loaded | Unloading

  /** Full mesh, proxy mesh, impostor. */
  datatype LodLevel = Lod0 | Lod1 | Impostor

  // ---------------------------------------------------------------------
  // Sector coordinates

  /** `f32::ceil`, in terms of `floor`. */
  function Ceil(r: real): (c: int)
    ensures r <= c as real < r + 1.0
  {
    -((-r).Floor)
  }

  /** `SectorId::from_world_position`: the floor of each coordinate over the
      sector size. */
  function SectorOf(x: real, z: real, sectorSize: real): SectorId
    requires sectorSize > 0.0
  {
    SectorId((x / sectorSize).Floor, (z / sectorSize).Floor)
  }

  /** `SectorId::to_world_position`: the sector's lower corner. */
  function SectorCorner(id: SectorId, sectorSize: real): (real, real)
  {
    (id.x as real * sectorSize, id.z as real * sectorSize)
  }

  lemma FloorScaled(v: real, size: real)
    requires size > 0.0
    ensures (v / size).Floor as real * size <= v < ((v / size).Floor + 1) as real * size
  {
    var q := v / size;
    var f := q.Floor as real;
    assert q * size == v;
    assert f <= q < f + 1.0;
    MulMono(f, q, size);
    MulMono(q, f + 1.0, size);
    assert q * size < (f + 1.0) * size;
    var g := q.Floor + 1;
    assert g as real == f + 1.0;
    assert v < g as real * size;
  }

  lemma MulMono(a: real, b: real, c: real)
    requires a <= b && c > 0.0
    ensures a * c <= b * c
    ensures a < b ==> a * c < b * c
  {
    assert b * c - a * c == (b - a) * c;
  }

  /** The sector of a position is the one whose square contains it. */
  lemma SectorContainsPosition(x: real, z: real, sectorSize: real)
    requires sectorSize > 0.0
    ensures SectorCorner(SectorOf(x, z, sectorSize), sectorSize).0 <= x
              < SectorCorner(SectorOf(x, z, sectorSize), sectorSize).0 + sectorSize
    ensures SectorCorner(SectorOf(x, z, sectorSize), sectorSize).1 <= z
              < SectorCorner(SectorOf(x, z, sectorSize), sectorSize).1 + sectorSize
  {
    FloorScaled(x, sectorSize);
    FloorScaled(z, sectorSize);
  }

  /** A sector's corner lies in that sector. */
  lemma SectorOfCorner(id: SectorId, sectorSize: real)
    requires sectorSize > 0.0
    ensures SectorOf(SectorCorner(id, sectorSize).0, SectorCorner(id, sectorSize).1, sectorSize) == id
  {
    var c := SectorCorner(id, sectorSize);
    assert c.0 / sectorSize == id.x as real;
    assert c.1 / sectorSize == id.z as real;
    assert (id.x as real).Floor == id.x && (id.z as real).Floor == id.z;
  }

  /** The squared distance between two points. */
  function DistSq(a: Vec3, b: Vec3): real
  {
    (a.x - b.x) * (a.x - b.x) + (a.y - b.y) * (a.y - b.y) + (a.z - b.z) * (a.z - b.z)
  }

  /** `distance <= radius`, for a distance given by its square. */
  predicate WithinRadius(distSq: real, radius: real)
  {
    radius >= 0.0 && distSq <= radius * radius
  }

  /** The centre of a sector, at height 0. */
  function SectorCenter(id: SectorId, sectorSize: real): Vec3
  {
    Vec3(SectorCorner(id, sectorSize).0 + sectorSize / 2.0, 0.0, SectorCorner(id, sectorSize).1 + sectorSize / 2.0)
  }

  /** `is_sector_in_view_radius` for a given player position and sizes. */
  predicate InView(player: Vec3, id: SectorId, sectorSize: real, viewRadius: real)
  {
    WithinRadius(DistSq(player, SectorCenter(id, sectorSize)), viewRadius)
  }

  /** With the engine's 64 m sectors and 512 m view radius, the sector a
      player stands in is always needed, up to 400 m above or below it. */
  lemma OwnSectorInView(player: Vec3)
    requires -400.0 <= player.y <= 400.0
    ensures InView(player, SectorOf(player.x, player.z, 64.0), 64.0, 512.0)
  {
    var id := SectorOf(player.x, player.z, 64.0);
    SectorContainsPosition(player.x, player.z, 64.0);
    var c := SectorCenter(id, 64.0);
    var dx, dz := player.x - c.x, player.z - c.z;
    assert -32.0 <= dx <= 32.0 && -32.0 <= dz <= 32.0;
    SquareBound(dx, 32.0);
    SquareBound(dz, 32.0);
    SquareBound(player.y, 400.0);
  }

  lemma SquareBound(v: real, b: real)
    requires -b <= v <= b
    ensures v * v <= b * b
  {
    if v >= 0.0 {
      assert v * v <= v * b <= b * b;
    } else {
      assert v * v == (-v) * (-v) <= (-v) * b <= b * b;
    }
  }

  /** The sectors of the `(2r+1) x (2r+1)` box centred on `centre`. */
  ghost predicate InBox(id: SectorId, centre: SectorId, r: int)
  {
    centre.x - r <= id.x <= centre.x + r && centre.z - r <= id.z <= centre.z + r
  }

  // ---------------------------------------------------------------------
  // LOD selection and counters

  /** `update_sector_lod`'s choice: full mesh within 128 m, proxy within
      256 m, impostor beyond (distances given by their squares). */
  function LodFor(distSq: real): LodLevel
  {
    if WithinRadius(distSq, 128.0) then Lod0
    else if WithinRadius(distSq, 256.0) then Lod1
    else Impostor
  }

  function LodRank(l: LodLevel): nat
  {
    match l
    case Lod0 => 0
    case Lod1 => 1
    case Impostor => 2
  }

  /** Farther sectors never get a finer level. */
  lemma LodForMonotone(d1: real, d2: real)
    requires d1 <= d2
    ensures LodRank(LodFor(d1)) <= LodRank(LodFor(d2))
  {
  }

  /** The three bins of `lod_level_counts`: `[LOD0, LOD1, Impostor]`. */
  datatype LodCounts = LodCounts(lod0: nat, lod1: nat, impostor: nat)

  function CountAt(c: LodCounts, l: LodLevel): nat
  {
    match l
    case Lod0 => c.lod0
    case Lod1 => c.lod1
    case Impostor => c.impostor
  }

  function LodTotal(c: LodCounts): nat
  {
    c.lod0 + c.lod1 + c.impostor
  }

  /** The counters after a sector moves from `from` to `to`: nothing when
      the level is the same; otherwise the old bin loses one (saturating at
      zero) and the new bin gains one, and the third bin is untouched. */
  function MoveLod(c: LodCounts, from: LodLevel, to: LodLevel): (r: LodCounts)
    ensures from == to ==> r == c
    ensures from != to ==> CountAt(r, from) == SatSub(CountAt(c, from), 1) && CountAt(r, to) == CountAt(c, to) + 1
    ensures forall l :: l != from && l != to ==> CountAt(r, l) == CountAt(c, l)
    ensures from != to && CountAt(c, from) > 0 ==> LodTotal(r) == LodTotal(c)
  {
    if from == to then c
    else
      var dropped := match from
        case Lod0 => c.(lod0 := SatSub(c.lod0, 1))
        case Lod1 => c.(lod1 := SatSub(c.lod1, 1))
        case Impostor => c.(impostor := SatSub(c.impostor, 1));
      match to
      case Lod0 => dropped.(lod0 := dropped.lod0 + 1)
      case Lod1 => dropped.(lod1 := dropped.lod1 + 1)
      case Impostor => dropped.(impostor := dropped.impostor + 1)
  }

  /** Moving a sector away and back restores the counters when its old bin
      was not empty. */
  lemma MoveLodAndBack(c: LodCounts, from: LodLevel, to: LodLevel)
    requires CountAt(c, from) > 0
    ensures MoveLod(MoveLod(c, from, to), to, from) == c
  {
    var r := MoveLod(MoveLod(c, from, to), to, from);
    assert CountAt(r, Lod0) == CountAt(c, Lod0);
    assert CountAt(r, Lod1) == CountAt(c, Lod1);
    assert CountAt(r, Impostor) == CountAt(c, Impostor);
  }

  // ---------------------------------------------------------------------
  // Entity lists

  /** `iter().position(|&e| e == entity)`: the first index of `e`. */
  function IndexOf(s: seq<nat>, e: nat): (r: Option<nat>)
    ensures r.None? <==> e !in s
    ensures r.Some? ==> r.value < |s| && s[r.value] == e && e !in s[..r.value]
  {
    if s == [] then None
    else if s[0] == e then Some(0)
    else
      var r := IndexOf(s[1..], e);
      if r.None? then None
      else
        assert s[..r.value + 1] == [s[0]] + s[1..][..r.value];
        Some(r.value + 1)
  }

  /** `Vec::remove(i)`. */
  function RemoveAt(s: seq<nat>, i: nat): seq<nat>
    requires i < |s|
  {
    s[..i] + s[i + 1..]
  }

  lemma RemoveAtMultiset(s: seq<nat>, i: nat)
    requires i < |s|
    ensures multiset(RemoveAt(s, i)) == multiset(s) - multiset{s[i]}
    ensures |RemoveAt(s, i)| == |s| - 1
  {
    assert s == s[..i] + [s[i]] + s[i + 1..];
  }

  /** Adding an entity and removing it again leaves the same entities (the
      first occurrence is the one removed, so only as a multiset). */
  lemma AddThenRemove(s: seq<nat>, e: nat)
    ensures IndexOf(s + [e], e).Some?
    ensures multiset(RemoveAt(s + [e], IndexOf(s + [e], e).value)) == multiset(s)
  {
    var t := s + [e];
    assert t[|s|] == e;
    var i := IndexOf(t, e).value;
    RemoveAtMultiset(t, i);
  }

  /** An entity present once is gone after it is removed. */
  lemma RemoveUnique(s: seq<nat>, e: nat)
    requires multiset(s)[e] == 1
    ensures IndexOf(s, e).Some?
    ensures e !in RemoveAt(s, IndexOf(s, e).value)
  {
    var i := IndexOf(s, e).value;
    RemoveAtMultiset(s, i);
    assert multiset(RemoveAt(s, i))[e] == 0;
  }

  /** No key occurs twice. */
  ghost predicate Unique<T>(q: seq<T>)
  {
    forall i, j :: 0 <= i < j < |q| ==> q[i] != q[j]
  }

  lemma AppendUnique<T>(q: seq<T>, k: T)
    requires k !in q
    ensures Unique(q) ==> Unique(q + [k])
  {
    if Unique(q) {
      forall i, j | 0 <= i < j < |q| + 1 ensures (q + [k])[i] != (q + [k])[j] {
        if j == |q| { assert (q + [k])[i] == q[i]; }
      }
    }
  }

  // ---------------------------------------------------------------------
  // Chunk and sector records

  /** `ChunkData` (entity ids as numbers). */
  class ChunkData {
    const key: ChunkKey
    var entities: seq<nat>
    var loadState: LoadState
    var entityCount: nat
    var contentGenerated: bool

    /** The stored count agrees with the list. */
    ghost predicate Counted()
      reads this
    {
      entityCount == |entities|
    }

    constructor (k: ChunkKey)
      ensures key == k && entities == [] && loadState == NotLoaded
      ensures entityCount == 0 && !contentGenerated
      ensures Counted()
    {
      key := k;
      entities := [];
      loadState := NotLoaded;
      entityCount := 0;
      contentGenerated := false;
    }

    /** `add_entity`: append and count one more. */
    method AddEntity(e: nat)
      modifies this
      ensures entities == old(entities) + [e] && entityCount == old(entityCount) + 1
      ensures loadState == old(loadState) && contentGenerated == old(contentGenerated)
      ensures old(Counted()) ==> Counted()
    {
      entities := entities + [e];
      entityCount := entityCount + 1;
    }

    /** `remove_entity`: drop the first occurrence and count one less
        (saturating); an absent entity changes nothing. */
    method RemoveEntity(e: nat)
      modifies this
      ensures e !in old(entities) ==> entities == old(entities) && entityCount == old(entityCount)
      ensures e in old(entities) ==>
                IndexOf(old(entities), e).Some? &&
                entities == RemoveAt(old(entities), IndexOf(old(entities), e).value) &&
                entityCount == SatSub(old(entityCount), 1)
      ensures loadState == old(loadState) && contentGenerated == old(contentGenerated)
      ensures old(Counted()) ==> Counted()
    {
      var pos := IndexOf(entities, e);
      if pos.Some? {
        RemoveAtMultiset(entities, pos.value);
        entities := RemoveAt(entities, pos.value);
        entityCount := SatSub(entityCount, 1);
      }
    }

    /** `can_add_entity`: below the limit, so while the count agrees with
        the list, room for one more entity. */
    predicate CanAddEntity(limit: nat): (b: bool)
      reads this
      ensures Counted() ==> (b <==> |entities| + 1 <= limit)
    {
      entityCount < limit
    }
  }

  /** The entity-limit test: a new chunk has room under a limit of 100 and,
      after 100 entities are added, has none. */
  method EntityLimitScenario() returns (before: bool, after: bool)
    ensures before && !after
  {
    var chunk := new ChunkData(ChunkKey(0, 0));
    before := chunk.CanAddEntity(100);
    var i := 0;
    while i < 100
      invariant 0 <= i <= 100 && chunk.Counted() && |chunk.entities| == i
    {
      chunk.AddEntity(i);
      i := i + 1;
    }
    after := chunk.CanAddEntity(100);
  }

  /** `SectorData` (entity ids as numbers). */
  class SectorData {
    const id: SectorId
    var entities: seq<nat>
    var spawnState: LoadState
    var entityCount: nat
    var lodLevel: LodLevel

    constructor (i: SectorId)
      ensures id == i && entities == [] && spawnState == NotLoaded
      ensures entityCount == 0 && lodLevel == Lod0
      ensures ShouldSpawn() && !ShouldDespawn()
    {
      id := i;
      entities := [];
      spawnState := NotLoaded;
      entityCount := 0;
      lodLevel := Lod0;
    }

    /** `add_entity`: append and count one more. */
    method AddEntity(e: nat)
      modifies this
      ensures entities == old(entities) + [e] && entityCount == old(entityCount) + 1
      ensures spawnState == old(spawnState) && lodLevel == old(lodLevel)
    {
      entities := entities + [e];
      entityCount := entityCount + 1;
    }

    method SetLodLevel(level: LodLevel)
      modifies this
      ensures lodLevel == level
      ensures entities == old(entities) && entityCount == old(entityCount) && spawnState == old(spawnState)
    {
      lodLevel := level;
    }

    /** `should_spawn`: not loaded yet, so never also due to despawn. */
    predicate ShouldSpawn(): (b: bool)
      reads this
      ensures b ==> spawnState != Loaded && spawnState != Loading
    {
      spawnState == NotLoaded
    }

    /** `should_despawn`: loaded, so never also due to spawn. */
    predicate ShouldDespawn(): (b: bool)
      reads this
      ensures b ==> spawnState != NotLoaded && spawnState != Unloading
    {
      spawnState == Loaded
    }
  }

  /** `StreamingStats`. */
  datatype StreamingStats = StreamingStats(
    chunksLoaded: nat, chunksUnloaded: nat,
    entitiesSpawned: nat, entitiesDespawned: nat,
    averageUpdateTimeMs: real, peakUpdateTimeMs: real,
    sectorsLoaded: nat, sectorsUnloaded: nat,
    totalEntitiesInWorld: nat, memoryUsageMb: real,
    lodLevelCounts: LodCounts)

  const ZeroStats := StreamingStats(0, 0, 0, 0, 0.0, 0.0, 0, 0, 0, 0.0, LodCounts(0, 0, 0))

  /** The settings `WorldStreamer::new` copies from its configuration. */
  datatype StreamingConfig = StreamingConfig(chunkSize: real, streamingRadius: real,
                                             activeRadius: real, entityLimitPerChunk: nat)

  /** `WorldStreamer`. */
  class WorldStreamer {
    var loadedChunks: map<ChunkKey, ChunkData>
    var loadQueue: seq<ChunkKey>
    var unloadQueue: seq<ChunkKey>
    var playerPosition: Vec3
    var chunkSize: real
    var streamingRadius: real
    var activeRadius: real
    var entityLimitPerChunk: nat
    var stats: StreamingStats
    var sectors: map<SectorId, SectorData>
    var sectorSize: real
    var viewRadius: real
    var spawnQueue: seq<SectorId>
    var despawnQueue: seq<SectorId>

    /** Every record is stored under its own key, and no queue holds a key
        twice. */
    ghost predicate Valid()
      reads this, loadedChunks.Values, sectors.Values
    {
      && (forall k :: k in loadedChunks ==> loadedChunks[k].key == k)
      && (forall i :: i in sectors ==> sectors[i].id == i)
      && Unique(loadQueue) && Unique(unloadQueue) && Unique(spawnQueue) && Unique(despawnQueue)
    }

    /** `WorldStreamer::new`: empty maps and queues, the player at the
        origin, 64 m sectors and a 512 m view radius. */
    constructor (config: StreamingConfig)
      ensures loadedChunks == map[] && sectors == map[]
      ensures loadQueue == [] && unloadQueue == [] && spawnQueue == [] && despawnQueue == []
      ensures playerPosition == Vec3(0.0, 0.0, 0.0) && stats == ZeroStats
      ensures chunkSize == config.chunkSize && streamingRadius == config.streamingRadius
      ensures activeRadius == config.activeRadius && entityLimitPerChunk == config.entityLimitPerChunk
      ensures sectorSize == 64.0 && viewRadius == 512.0
      ensures Valid()
    {
      loadedChunks := map[];
      loadQueue := [];
      unloadQueue := [];
      playerPosition := Vec3(0.0, 0.0, 0.0);
      chunkSize := config.chunkSize;
      streamingRadius := config.streamingRadius;
      activeRadius := config.activeRadius;
      entityLimitPerChunk := config.entityLimitPerChunk;
      stats := ZeroStats;
      sectors := map[];
      sectorSize := 64.0;
      viewRadius := 512.0;
      spawnQueue := [];
      despawnQueue := [];
    }

    /** `queue_chunk_load`: append a key that is neither loaded nor queued. */
    method QueueChunkLoad(key: ChunkKey)
      modifies this`loadQueue
      ensures loadQueue == if key !in loadedChunks && key !in old(loadQueue) then old(loadQueue) + [key] else old(loadQueue)
      ensures key in loadedChunks || key in loadQueue
      ensures old(Valid()) ==> Valid()
    {
      if key !in loadedChunks && key !in loadQueue {
        AppendUnique(loadQueue, key);
        loadQueue := loadQueue + [key];
      }
    }

    /** `queue_chunk_unload`: append a loaded key that is not queued. */
    method QueueChunkUnload(key: ChunkKey)
      modifies this`unloadQueue
      ensures unloadQueue == if key in loadedChunks && key !in old(unloadQueue) then old(unloadQueue) + [key] else old(unloadQueue)
      ensures key in loadedChunks ==> key in unloadQueue
      ensures old(Valid()) ==> Valid()
    {
      if key in loadedChunks && key !in unloadQueue {
        AppendUnique(unloadQueue, key);
        unloadQueue := unloadQueue + [key];
      }
    }

    /** `mark_chunk_loaded`: the chunk's record (the existing one, or a new
        one) becomes Loaded with exactly the given entities, and the stats
        count one more chunk and its entities. A reused record keeps its
        generated-content flag, and every other chunk's record is left as
        it was (records are distinct objects, since each carries its own
        key). */
    method MarkChunkLoaded(key: ChunkKey, entities: seq<nat>)
      requires Valid()
      modifies this, loadedChunks.Values
      ensures loadedChunks.Keys == old(loadedChunks.Keys) + {key}
      ensures forall k :: k in old(loadedChunks) && k != key ==> loadedChunks[k] == old(loadedChunks[k])
      ensures forall k :: k in old(loadedChunks) && k != key ==> unchanged(old(loadedChunks)[k])
      ensures key in old(loadedChunks) ==> loadedChunks[key] == old(loadedChunks[key])
      ensures key in old(loadedChunks) ==> loadedChunks[key].contentGenerated == old(loadedChunks[key].contentGenerated)
      ensures key !in old(loadedChunks) ==> fresh(loadedChunks[key]) && !loadedChunks[key].contentGenerated
      ensures loadedChunks[key].loadState == Loaded && loadedChunks[key].entities == entities
      ensures loadedChunks[key].entityCount == |entities| && loadedChunks[key].Counted()
      ensures stats == old(stats).(chunksLoaded := old(stats).chunksLoaded + 1,
                                   entitiesSpawned := old(stats).entitiesSpawned + |entities|)
      ensures loadQueue == old(loadQueue) && unloadQueue == old(unloadQueue)
      ensures sectors == old(sectors) && spawnQueue == old(spawnQueue) && despawnQueue == old(despawnQueue)
      ensures playerPosition == old(playerPosition) && sectorSize == old(sectorSize) && viewRadius == old(viewRadius)
      ensures Valid()
    {
      var data: ChunkData;
      if key in loadedChunks {
        data := loadedChunks[key];
      } else {
        data := new ChunkData(key);
      }
      data.loadState := Loaded;
      data.entities := entities;
      data.entityCount := |entities|;
      loadedChunks := loadedChunks[key := data];
      stats := stats.(chunksLoaded := stats.chunksLoaded + 1,
                      entitiesSpawned := stats.entitiesSpawned + |entities|);
    }

    /** `mark_chunk_unloaded`: a loaded chunk leaves the map and the stats
        count it and its entities as unloaded; an absent key changes
        nothing. */
    method MarkChunkUnloaded(key: ChunkKey)
      requires Valid()
      modifies this`loadedChunks, this`stats
      ensures loadedChunks == old(loadedChunks) - {key}
      ensures key in old(loadedChunks) ==>
                stats == old(stats).(chunksUnloaded := old(stats).chunksUnloaded + 1,
                                     entitiesDespawned := old(stats).entitiesDespawned + old(loadedChunks[key].entityCount))
      ensures key !in old(loadedChunks) ==> stats == old(stats)
      ensures Valid()
    {
      if key in loadedChunks {
        var data := loadedChunks[key];
        loadedChunks := loadedChunks - {key};
        stats := stats.(chunksUnloaded := stats.chunksUnloaded + 1,
                        entitiesDespawned := stats.entitiesDespawned + data.entityCount);
      }
    }

    /** `update_stats`: the average moves halfway to the new time and the
        peak is the larger of the two. */
    method UpdateStats(updateTimeMs: real)
      modifies this`stats
      ensures stats == old(stats).(averageUpdateTimeMs := stats.averageUpdateTimeMs,
                                   peakUpdateTimeMs := stats.peakUpdateTimeMs)
      ensures stats.averageUpdateTimeMs - old(stats).averageUpdateTimeMs == updateTimeMs - stats.averageUpdateTimeMs
      ensures stats.peakUpdateTimeMs >= old(stats).peakUpdateTimeMs && stats.peakUpdateTimeMs >= updateTimeMs
      ensures stats.peakUpdateTimeMs == old(stats).peakUpdateTimeMs || stats.peakUpdateTimeMs == updateTimeMs
    {
      var peak := if stats.peakUpdateTimeMs >= updateTimeMs then stats.peakUpdateTimeMs else updateTimeMs;
      stats := stats.(averageUpdateTimeMs := (stats.averageUpdateTimeMs + updateTimeMs) / 2.0,
                      peakUpdateTimeMs := peak);
    }

    /** `get_sector_id`. */
    function SectorIdOf(position: Vec3): SectorId
      reads this
      requires sectorSize > 0.0
    {
      SectorOf(position.x, position.z, sectorSize)
    }

    /** `is_sector_in_view_radius`: the sector's centre is within the view
        radius of the player. */
    predicate IsSectorInViewRadius(id: SectorId)
      reads this
    {
      InView(playerPosition, id, sectorSize, viewRadius)
    }

    /** `get_needed_sectors`: walk the box of `ceil(view / size)` sectors
        around the player's sector, row by row, and keep those in view. The
        result holds exactly the sectors of that box that are in view, each
        once. */
    method NeededSectors() returns (needed: seq<SectorId>)
      requires sectorSize > 0.0
      ensures forall id :: id in needed <==>
                InBox(id, SectorIdOf(playerPosition), Ceil(viewRadius / sectorSize)) && IsSectorInViewRadius(id)
      ensures Unique(needed)
    {
      var p := SectorIdOf(playerPosition);
      var r := Ceil(viewRadius / sectorSize);
      needed := [];
      var x := -r;
      while x <= r
        invariant x == -r || x <= r + 1
        invariant forall id :: id in needed <==>
                    p.x - r <= id.x < p.x + x && p.z - r <= id.z <= p.z + r && IsSectorInViewRadius(id)
        invariant Unique(needed)
        decreases r + 1 - x
      {
        var z := -r;
        while z <= r
          invariant z == -r || z <= r + 1
          invariant forall id :: id in needed <==>
                      ((p.x - r <= id.x < p.x + x && p.z - r <= id.z <= p.z + r) ||
                       (id.x == p.x + x && p.z - r <= id.z < p.z + z)) && IsSectorInViewRadius(id)
          invariant Unique(needed)
          decreases r + 1 - z
        {
          var id := SectorId(p.x + x, p.z + z);
          if IsSectorInViewRadius(id) {
            AppendUnique(needed, id);
            needed := needed + [id];
          }
          z := z + 1;
        }
        x := x + 1;
      }
    }

    /** `queue_sector_spawn`: append a sector that is neither loaded nor
        queued. */
    method QueueSectorSpawn(id: SectorId)
      modifies this`spawnQueue
      ensures spawnQueue == if id !in sectors && id !in old(spawnQueue) then old(spawnQueue) + [id] else old(spawnQueue)
      ensures id in sectors || id in spawnQueue
      ensures old(Valid()) ==> Valid()
    {
      if id !in sectors && id !in spawnQueue {
        AppendUnique(spawnQueue, id);
        spawnQueue := spawnQueue + [id];
      }
    }

    /** `queue_sector_despawn`: append a loaded sector that is not queued. */
    method QueueSectorDespawn(id: SectorId)
      modifies this`despawnQueue
      ensures despawnQueue == if id in sectors && id !in old(despawnQueue) then old(despawnQueue) + [id] else old(despawnQueue)
      ensures id in sectors ==> id in despawnQueue
      ensures old(Valid()) ==> Valid()
    {
      if id in sectors && id !in despawnQueue {
        AppendUnique(despawnQueue, id);
        despawnQueue := despawnQueue + [id];
      }
    }

    /** `mark_sector_loaded`: a new Loaded record with the given entities
        replaces any old one, and the stats count one more sector and its
        entities, both spawned and in the world. */
    method MarkSectorLoaded(id: SectorId, entities: seq<nat>)
      requires Valid()
      modifies this`sectors, this`stats
      ensures sectors.Keys == old(sectors.Keys) + {id}
      ensures forall i :: i in old(sectors) && i != id ==> sectors[i] == old(sectors[i])
      ensures fresh(sectors[id]) && sectors[id].spawnState == Loaded && sectors[id].lodLevel == Lod0
      ensures sectors[id].ShouldDespawn() && !sectors[id].ShouldSpawn()
      ensures sectors[id].entities == entities && sectors[id].entityCount == |entities|
      ensures stats == old(stats).(sectorsLoaded := old(stats).sectorsLoaded + 1,
                                   entitiesSpawned := old(stats).entitiesSpawned + |entities|,
                                   totalEntitiesInWorld := old(stats).totalEntitiesInWorld + |entities|)
      ensures Valid()
    {
      var data := new SectorData(id);
      data.spawnState := Loaded;
      data.entities := entities;
      data.entityCount := |data.entities|;
      sectors := sectors[id := data];
      stats := stats.(sectorsLoaded := stats.sectorsLoaded + 1,
                      entitiesSpawned := stats.entitiesSpawned + |entities|,
                      totalEntitiesInWorld := stats.totalEntitiesInWorld + |entities|);
    }

    /** `mark_sector_unloaded`: a loaded sector leaves the map, the stats
        count it and its entities as unloaded, and the world total drops by
        its entities (saturating); an absent sector changes nothing. */
    method MarkSectorUnloaded(id: SectorId)
      requires Valid()
      modifies this`sectors, this`stats
      ensures sectors == old(sectors) - {id}
      ensures id in old(sectors) ==>
                stats == old(stats).(sectorsUnloaded := old(stats).sectorsUnloaded + 1,
                                     entitiesDespawned := old(stats).entitiesDespawned + old(sectors[id].entityCount),
                                     totalEntitiesInWorld := SatSub(old(stats).totalEntitiesInWorld, old(sectors[id].entityCount)))
      ensures id !in old(sectors) ==> stats == old(stats)
      ensures Valid()
    {
      if id in sectors {
        var data := sectors[id];
        sectors := sectors - {id};
        stats := stats.(sectorsUnloaded := stats.sectorsUnloaded + 1,
                        entitiesDespawned := stats.entitiesDespawned + data.entityCount,
                        totalEntitiesInWorld := SatSub(stats.totalEntitiesInWorld, data.entityCount));
      }
    }

    /** `update_sector_lod`: a loaded sector takes the level its distance
        calls for, and when the level changes one count moves between the
        LOD bins; an absent sector changes nothing. */
    method UpdateSectorLod(id: SectorId)
      requires Valid()
      modifies this`stats, sectors.Values
      ensures id !in sectors ==> stats == old(stats)
      ensures id in sectors ==>
                var target := LodFor(DistSq(playerPosition, SectorCenter(id, sectorSize)));
                && sectors[id].lodLevel == target
                && stats == old(stats).(lodLevelCounts := MoveLod(old(stats).lodLevelCounts, old(sectors[id].lodLevel), target))
      ensures forall i :: i in sectors && i != id ==> sectors[i].lodLevel == old(sectors[i].lodLevel)
      ensures forall i :: i in sectors ==>
                sectors[i].entities == old(sectors[i].entities) && sectors[i].entityCount == old(sectors[i].entityCount) &&
                sectors[i].spawnState == old(sectors[i].spawnState)
      ensures Valid()
    {
      if id in sectors {
        var data := sectors[id];
        var oldLod := data.lodLevel;
        var newLod := LodFor(DistSq(playerPosition, SectorCenter(id, sectorSize)));
        if oldLod != newLod {
          stats := stats.(lodLevelCounts := MoveLod(stats.lodLevelCounts, oldLod, newLod));
          data.SetLodLevel(newLod);
        }
      }
    }

    /** `update_memory_usage`: about 1 KB per entity in the world and 100 B
        per loaded sector. */
    method UpdateMemoryUsage()
      modifies this`stats
      ensures stats == old(stats).(memoryUsageMb := stats.memoryUsageMb)
      ensures stats.memoryUsageMb == (stats.totalEntitiesInWorld as real) * 0.001 + (|sectors| as real) * 0.0001
      ensures stats.memoryUsageMb >= 0.0
    {
      stats := stats.(memoryUsageMb := (stats.totalEntitiesInWorld as real) * 0.001 + (|sectors| as real) * 0.0001);
    }
  }
}
