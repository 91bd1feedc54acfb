/** The road network: roads and intersections stored by id, the connections
    between them, and the cache of chunks whose roads have been generated.
    A road's curve is kept as its control points; what the curve looks like
    (evaluation, length, nearest point) is not modelled. */
module RoadNetworks {
  import opened Common

  datatype RoadType = Highway | MainStreet | SideStreet | Alley

  /** `RoadType::width` in metres. */
  function Width(t: RoadType): (w: real)
    ensures w > 0.0
  {
    match t
    case Highway => 16.0
    case MainStreet => 12.0
    case SideStreet => 8.0
    case Alley => 4.0
  }

  datatype IntersectionType = Cross | TJunction | Curve | HighwayOnramp

  /** `IntersectionType::radius` in metres. */
  function Radius(t: IntersectionType): (r: real)
    ensures r > 0.0
  {
    match t
    case Cross => 20.0
    case TJunction => 15.0
    case Curve => 12.0
    case HighwayOnramp => 30.0
  }

  /** `IntersectionType::max_connections`: as many roads as the shape has
      arms. */
  function MaxConnections(t: IntersectionType): (n: nat)
    ensures 2 <= n <= 4
    ensures t == Cross ==> n == 4
    ensures t == TJunction ==> n == 3
  {
    match t
    case Cross => 4
    case TJunction => 3
    case Curve => 2
    case HighwayOnramp => 2
  }

  predicate NoDuplicates(s: seq<nat>)
  {
    forall i, j :: 0 <= i < j < |s| ==> s[i] != s[j]
  }

  /** A road's curve, by its control points: two for a straight road,
      three for a curved one, or those of a given spline. */
  datatype Spline = Spline(points: seq<Vec3>)

  function Linear(start: Vec3, end: Vec3): Spline { Spline([start, end]) }
  function Curved(start: Vec3, control: Vec3, end: Vec3): Spline { Spline([start, control, end]) }

  /** `RoadSpline` without its cached length. */
  datatype RoadSpline = RoadSpline(id: nat, spline: Spline, roadType: RoadType, connections: seq<nat>)

  /** `RoadSpline::new_straight`, `new_curved` and `from_spline`: no
      connections yet. */
  function NewRoad(id: nat, spline: Spline, t: RoadType): (r: RoadSpline)
    ensures r.id == id && r.connections == [] && NoDuplicates(r.connections)
  {
    RoadSpline(id, spline, t, [])
  }

  /** `connect_to`: the road id is added at the end unless it is already
      connected. */
  function ConnectTo(r: RoadSpline, roadId: nat): (r': RoadSpline)
    ensures roadId in r'.connections
    ensures forall x :: x in r'.connections <==> x in r.connections || x == roadId
    ensures NoDuplicates(r.connections) ==> NoDuplicates(r'.connections)
    ensures r'.id == r.id && r'.spline == r.spline && r'.roadType == r.roadType
  {
    if roadId in r.connections then r else r.(connections := r.connections + [roadId])
  }

  /** Connecting to the same road twice is connecting once. */
  lemma ConnectToIdempotent(r: RoadSpline, roadId: nat)
    ensures ConnectTo(ConnectTo(r, roadId), roadId) == ConnectTo(r, roadId)
  {
  }

  datatype RoadIntersection = RoadIntersection(id: nat, position: Vec3, connectedRoads: seq<nat>,
                                               intersectionType: IntersectionType, radius: real)

  /** `RoadIntersection::new`: the radius comes from the type; the roads
      given are taken as they are. */
  function NewIntersection(id: nat, position: Vec3, roads: seq<nat>, t: IntersectionType): (i: RoadIntersection)
    ensures i.radius == Radius(t) && i.connectedRoads == roads
  {
    RoadIntersection(id, position, roads, t, Radius(t))
  }

  /** `can_connect_more`: fewer roads than the type allows. */
  predicate CanConnectMore(i: RoadIntersection)
  {
    |i.connectedRoads| < MaxConnections(i.intersectionType)
  }

  /** `connect_road`: the road is added only if it is new and there is room. */
  function ConnectRoad(i: RoadIntersection, roadId: nat): (i': RoadIntersection)
    ensures roadId !in i.connectedRoads && CanConnectMore(i) ==> i'.connectedRoads == i.connectedRoads + [roadId]
    ensures roadId in i.connectedRoads || !CanConnectMore(i) ==> i' == i
    ensures i'.id == i.id && i'.intersectionType == i.intersectionType
  {
    if roadId !in i.connectedRoads && CanConnectMore(i) then i.(connectedRoads := i.connectedRoads + [roadId]) else i
  }

  /** Connecting keeps an intersection within its capacity and free of
      duplicates, if it started so. */
  lemma ConnectRoadKeepsLimits(i: RoadIntersection, roadId: nat)
    requires |i.connectedRoads| <= MaxConnections(i.intersectionType) && NoDuplicates(i.connectedRoads)
    ensures |ConnectRoad(i, roadId).connectedRoads| <= MaxConnections(i.intersectionType)
    ensures NoDuplicates(ConnectRoad(i, roadId).connectedRoads)
  {
  }

  /** However many roads are offered, a cross takes four at most. */
  lemma {:induction false} CrossFillsAtFour(i: RoadIntersection, offered: seq<nat>)
    requires i.intersectionType == Cross && |i.connectedRoads| <= 4
    ensures |ConnectAll(i, offered).connectedRoads| <= 4
    decreases offered
  {
    if offered != [] {
      CrossFillsAtFour(ConnectRoad(i, offered[0]), offered[1..]);
    }
  }

  /** `connect_road` for each offered road in turn. */
  function ConnectAll(i: RoadIntersection, offered: seq<nat>): RoadIntersection
    decreases offered
  {
    if offered == [] then i else ConnectAll(ConnectRoad(i, offered[0]), offered[1..])
  }

  /** The intersection test: a cross of roads 1-4 has radius 20. */
  lemma IntersectionExample(p: Vec3)
    ensures NewIntersection(1, p, [1, 2, 3, 4], Cross).radius == 20.0
    ensures !CanConnectMore(NewIntersection(1, p, [1, 2, 3, 4], Cross))
  {
  }

  /** `RoadGenerationParams` */
  datatype GenerationParams = GenerationParams(chunkSize: real, generationRadius: real, cleanupRadius: real,
                                               roadDensity: real, curveProbability: real)

  function DefaultParams(): GenerationParams
  {
    GenerationParams(400.0, 800.0, 2000.0, 0.8, 0.3)
  }

  /** The types of the spawn chunk's roads, in order: two highways, one
      main street, then side streets. */
  function SpawnRoadType(k: nat): RoadType
  {
    if k < 2 then Highway else if k == 2 then MainStreet else SideStreet
  }

  datatype RoadNetworkStats = RoadNetworkStats(totalRoads: nat, totalIntersections: nat, generatedChunks: nat,
                                               roadTypeCounts: map<RoadType, nat>)

  function OfType(roads: map<nat, RoadSpline>, ids: set<nat>, t: RoadType): set<nat>
  {
    set id | id in ids && id in roads && roads[id].roadType == t
  }

  /** `RoadNetwork` */
  class RoadNetwork {
    var roads: map<nat, RoadSpline>
    var intersections: map<nat, RoadIntersection>
    var nextRoadId: nat
    var nextIntersectionId: nat
    var generatedChunks: set<(int, int)>
    var params: GenerationParams

    /** Every road and intersection is stored under its own id, which is
        below the next id to hand out; no road lists a connection twice. */
    ghost predicate Valid()
      reads this
    {
      && (forall id :: id in roads ==> id < nextRoadId && roads[id].id == id && NoDuplicates(roads[id].connections))
      && (forall id :: id in intersections ==> id < nextIntersectionId && intersections[id].id == id)
    }

    /** `RoadNetwork::new` / `default`: empty, ids from 0. */
    constructor (p: GenerationParams)
      ensures Valid()
      ensures roads == map[] && intersections == map[] && generatedChunks == {}
      ensures nextRoadId == 0 && nextIntersectionId == 0 && params == p
    {
      roads, intersections := map[], map[];
      nextRoadId, nextIntersectionId := 0, 0;
      generatedChunks := {};
      params := p;
    }

    /** `Added` for this network's current roads and next id. */
    ghost predicate AddedRoads(oldRoads: map<nat, RoadSpline>, oldNext: nat, ids: seq<nat>)
      reads this
    {
      Added(roads, nextRoadId, oldRoads, oldNext, ids)
    }

    /** `add_spline_road`; `add_road` and `add_curved_road` build the
        spline first. The id handed out is the next one, which no stored
        road has. */
    method AddSplineRoad(spline: Spline, t: RoadType) returns (id: nat)
      requires Valid()
      modifies this`roads, this`nextRoadId
      ensures Valid()
      ensures id == old(nextRoadId) && id !in old(roads)
      ensures roads == old(roads)[id := NewRoad(id, spline, t)] && nextRoadId == id + 1
      ensures AddedRoads(old(roads), old(nextRoadId), [id])
    {
      id := nextRoadId;
      nextRoadId := nextRoadId + 1;
      roads := roads[id := NewRoad(id, spline, t)];
    }

    /** `add_road`: a straight road. */
    method AddRoad(start: Vec3, end: Vec3, t: RoadType) returns (id: nat)
      requires Valid()
      modifies this`roads, this`nextRoadId
      ensures Valid()
      ensures id == old(nextRoadId) && id !in old(roads)
      ensures roads == old(roads)[id := NewRoad(id, Linear(start, end), t)] && nextRoadId == id + 1
      ensures AddedRoads(old(roads), old(nextRoadId), [id])
    {
      id := AddSplineRoad(Linear(start, end), t);
    }

    /** `add_curved_road`: a road through one control point. */
    method AddCurvedRoad(start: Vec3, control: Vec3, end: Vec3, t: RoadType) returns (id: nat)
      requires Valid()
      modifies this`roads, this`nextRoadId
      ensures Valid()
      ensures id == old(nextRoadId) && id !in old(roads)
      ensures roads == old(roads)[id := NewRoad(id, Curved(start, control, end), t)] && nextRoadId == id + 1
      ensures AddedRoads(old(roads), old(nextRoadId), [id])
    {
      id := AddSplineRoad(Curved(start, control, end), t);
    }

    /** `connect_roads`: each of the two roads that exists lists the other,
        once; nothing else changes. */
    method ConnectRoads(road1: nat, road2: nat)
      requires Valid()
      modifies this`roads
      ensures Valid()
      ensures roads.Keys == old(roads).Keys
      ensures forall id :: id in roads && id != road1 && id != road2 ==> roads[id] == old(roads)[id]
      ensures road1 in roads ==> road2 in roads[road1].connections
      ensures road2 in roads ==> road1 in roads[road2].connections
      ensures forall id, x :: id in roads && x in old(roads)[id].connections ==> x in roads[id].connections
      ensures forall id, x :: id in roads && x in roads[id].connections ==>
        x in old(roads)[id].connections || (id == road1 && x == road2) || (id == road2 && x == road1)
    {
      if road1 in roads {
        roads := roads[road1 := ConnectTo(roads[road1], road2)];
      }
      if road2 in roads {
        roads := roads[road2 := ConnectTo(roads[road2], road1)];
      }
    }

    /** `add_intersection`: stored under the next intersection id. */
    method AddIntersection(position: Vec3, connected: seq<nat>, t: IntersectionType) returns (id: nat)
      requires Valid()
      modifies this`intersections, this`nextIntersectionId
      ensures Valid()
      ensures id == old(nextIntersectionId) && id !in old(intersections)
      ensures intersections == old(intersections)[id := NewIntersection(id, position, connected, t)]
      ensures nextIntersectionId == id + 1
    {
      id := nextIntersectionId;
      nextIntersectionId := nextIntersectionId + 1;
      intersections := intersections[id := NewIntersection(id, position, connected, t)];
    }

    /** The two side streets of one cell of the spawn chunk, a horizontal
        and a vertical one, each 60 m long and centred on the cell. */
    method AddSideStreetPair(subX: real, subZ: real) returns (pair: seq<nat>)
      requires Valid()
      modifies this`roads, this`nextRoadId
      ensures Valid()
      ensures AddedRoads(old(roads), old(nextRoadId), pair) && |pair| == 2
      ensures roads[pair[0]].roadType == SideStreet && roads[pair[1]].roadType == SideStreet
    {
      ghost var r0, n0 := roads, nextRoadId;
      var h := AddRoad(Vec3(subX - 30.0, 0.0, subZ), Vec3(subX + 30.0, 0.0, subZ), SideStreet);
      ghost var r1, n1 := roads, nextRoadId;
      var v := AddRoad(Vec3(subX, 0.0, subZ - 30.0), Vec3(subX, 0.0, subZ + 30.0), SideStreet);
      AddedAppend(r0, n0, [h], r1, n1, [v], roads, nextRoadId);
      pair := [h, v];
    }

    /** The two curved highways of the spawn chunk, one across and one
        down. */
    method AddSpawnHighways(baseX: real, baseZ: real) returns (a: nat, b: nat)
      requires Valid()
      modifies this`roads, this`nextRoadId
      ensures Valid()
      ensures AddedRoads(old(roads), old(nextRoadId), [a, b])
      ensures a in roads && b in roads && roads[a].roadType == Highway && roads[b].roadType == Highway
    {
      var size := params.chunkSize;
      ghost var r0, n0 := roads, nextRoadId;
      a := AddCurvedRoad(Vec3(baseX, 0.0, baseZ + size * 0.5), Vec3(baseX + size * 0.3, 0.0, baseZ + size * 0.6),
                         Vec3(baseX + size, 0.0, baseZ + size * 0.5), Highway);
      ghost var r1, n1 := roads, nextRoadId;
      b := AddCurvedRoad(Vec3(baseX + size * 0.5, 0.0, baseZ), Vec3(baseX + size * 0.6, 0.0, baseZ + size * 0.3),
                         Vec3(baseX + size * 0.5, 0.0, baseZ + size), Highway);
      AddedAppend(r0, n0, [a], r1, n1, [b], roads, nextRoadId);
    }

    /** The three long roads of the spawn chunk: a curved highway across,
        a curved highway down, and a straight main street. */
    method AddSpawnTrunkRoads(baseX: real, baseZ: real) returns (trunk: seq<nat>)
      requires Valid()
      modifies this`roads, this`nextRoadId
      ensures Valid()
      ensures AddedRoads(old(roads), old(nextRoadId), trunk) && |trunk| == 3
      ensures forall k :: 0 <= k < 3 ==> roads[trunk[k]].roadType == SpawnRoadType(k)
    {
      var size := params.chunkSize;
      ghost var r0, n0 := roads, nextRoadId;
      var a, b := AddSpawnHighways(baseX, baseZ);
      ghost var r2, n2 := roads, nextRoadId;
      var c := AddRoad(Vec3(baseX, 0.0, baseZ + size * 0.25), Vec3(baseX + size, 0.0, baseZ + size * 0.25), MainStreet);
      AddedAppend(r0, n0, [a, b], r2, n2, [c], roads, nextRoadId);
      trunk := [a, b, c];
    }

    /** The roads laid so far by `generate_spawn_chunk_roads`: added in
        one run since `r0`, each of the type its position calls for. */
    ghost predicate SpawnSoFar(r0: map<nat, RoadSpline>, n0: nat, newRoads: seq<nat>)
      reads this
    {
      && Valid()
      && AddedRoads(r0, n0, newRoads)
      && forall k :: 0 <= k < |newRoads| ==> newRoads[k] in roads && roads[newRoads[k]].roadType == SpawnRoadType(k)
    }

    /** One cell (i, j) of the 3 x 3 grid of the spawn chunk: two side
        streets, except in the centre cell. */
    method AddSpawnCell(baseX: real, baseZ: real, size: real, i: int, j: int, ghost r0: map<nat, RoadSpline>, ghost n0: nat,
                        prior: seq<nat>) returns (after: seq<nat>)
      requires SpawnSoFar(r0, n0, prior) && |prior| >= 3
      modifies this`roads, this`nextRoadId
      ensures SpawnSoFar(r0, n0, after)
      ensures |after| == |prior| + (if i == 1 && j == 1 then 0 else 2)
    {
      after := prior;
      if !(i == 1 && j == 1) {
        var subX := baseX + ((i as real) + 0.5) * size / 4.0;
        var subZ := baseZ + ((j as real) + 0.5) * size / 4.0;
        ghost var r1, n1 := roads, nextRoadId;
        var pair := AddSideStreetPair(subX, subZ);
        AddedAppend(r0, n0, prior, r1, n1, pair, roads, nextRoadId);
        after := prior + pair;
        forall k | 0 <= k < |after|
          ensures after[k] in roads && roads[after[k]].roadType == SpawnRoadType(k)
        {
          if k < |prior| {
            assert after[k] == prior[k] && prior[k] in r1;
          } else {
            assert after[k] == pair[k - |prior|];
          }
        }
      }
    }

    /** `generate_spawn_chunk_roads`: two curved highways crossing the
        chunk, one main street, and a horizontal and a vertical side street
        in each of the eight outer cells of a 3 x 3 grid: 19 roads. */
    method GenerateSpawnChunkRoads(baseX: real, baseZ: real) returns (newRoads: seq<nat>)
      requires Valid()
      modifies this`roads, this`nextRoadId
      ensures Valid()
      ensures AddedRoads(old(roads), old(nextRoadId), newRoads)
      ensures |newRoads| == 19
      ensures forall k :: 0 <= k < |newRoads| ==> roads[newRoads[k]].roadType == SpawnRoadType(k)
    {
      var size := params.chunkSize;
      newRoads := AddSpawnTrunkRoads(baseX, baseZ);
      var i := 0;
      while i < 3
        invariant 0 <= i <= 3
        invariant SpawnSoFar(old(roads), old(nextRoadId), newRoads)
        invariant |newRoads| == 3 + 2 * (3 * i - (if i > 1 then 1 else 0))
      {
        var j := 0;
        while j < 3
          invariant 0 <= j <= 3
          invariant SpawnSoFar(old(roads), old(nextRoadId), newRoads)
          invariant |newRoads| == 3 + 2 * (3 * i + j - (if i > 1 || (i == 1 && j > 1) then 1 else 0))
        {
          newRoads := AddSpawnCell(baseX, baseZ, size, i, j, old(roads), old(nextRoadId), newRoads);
          j := j + 1;
        }
        i := i + 1;
      }
    }

    /** `generate_regular_chunk_roads`. `draw` stands for the successive
        values of the random generator, each in [0, 1). A chunk of even x
        and odd z gets a vertical main street, one of odd x and even z a
        horizontal one; any other chunk may get up to four side streets. */
    method GenerateRegularChunkRoads(baseX: real, baseZ: real, chunkX: int, chunkZ: int, draw: nat -> real)
      returns (newRoads: seq<nat>)
      requires Valid()
      modifies this`roads, this`nextRoadId
      ensures Valid()
      ensures AddedRoads(old(roads), old(nextRoadId), newRoads)
      ensures MainStreetChunk(chunkX, chunkZ) ==> |newRoads| == 1 && roads[newRoads[0]].roadType == MainStreet
      ensures !MainStreetChunk(chunkX, chunkZ) ==>
        && |newRoads| <= 4
        && forall k :: 0 <= k < |newRoads| ==> roads[newRoads[k]].roadType == SideStreet
    {
      var size := params.chunkSize;
      var next := 0;
      newRoads := [];
      if chunkX % 2 == 0 && chunkZ % 2 != 0 {
        var control := Vec3(baseX + (draw(next) - 0.5) * 20.0, 0.0, baseZ + size * 0.2);
        next := next + 1;
        var id := AddCurvedRoad(Vec3(baseX, 0.0, baseZ - size * 0.5), control, Vec3(baseX, 0.0, baseZ + size * 1.5), MainStreet);
        newRoads := newRoads + [id];
      }
      if chunkZ % 2 == 0 && chunkX % 2 != 0 {
        var control := Vec3(baseX + size * 0.2, 0.0, baseZ + (draw(next) - 0.5) * 20.0);
        next := next + 1;
        var id := AddCurvedRoad(Vec3(baseX - size * 0.5, 0.0, baseZ), control, Vec3(baseX + size * 1.5, 0.0, baseZ), MainStreet);
        newRoads := newRoads + [id];
      }
      if newRoads != [] {
        return;
      }
      var gate := draw(next);
      next := next + 1;
      if gate < params.roadDensity {
        var i := 0;
        while i < 2
          invariant 0 <= i <= 2
          invariant Valid()
          invariant AddedRoads(old(roads), old(nextRoadId), newRoads)
          invariant |newRoads| <= 2 * i
          invariant forall k :: 0 <= k < |newRoads| ==> roads[newRoads[k]].roadType == SideStreet
        {
          var j := 0;
          while j < 2
            invariant 0 <= j <= 2
            invariant Valid()
            invariant AddedRoads(old(roads), old(nextRoadId), newRoads)
            invariant |newRoads| <= 2 * i + j
            invariant forall k :: 0 <= k < |newRoads| ==> roads[newRoads[k]].roadType == SideStreet
          {
            ghost var r1, n1 := roads, nextRoadId;
            var placed, id;
            placed, id, next := SideStreetAt(baseX, baseZ, size, i, j, draw, next);
            if placed {
              AddedAppend(old(roads), old(nextRoadId), newRoads, r1, n1, [id], roads, nextRoadId);
              newRoads := newRoads + [id];
            }
            j := j + 1;
          }
          i := i + 1;
        }
      }
    }

    /** One sub-cell (i, j) of `generate_regular_chunk_roads`: two draws
        offset the street, a third decides whether it is laid, and a laid
        street is curved when a fourth is below the curve probability. */
    method SideStreetAt(baseX: real, baseZ: real, size: real, i: nat, j: nat, draw: nat -> real, next: nat)
      returns (placed: bool, id: nat, after: nat)
      requires Valid()
      modifies this`roads, this`nextRoadId
      ensures Valid()
      ensures placed ==> AddedRoads(old(roads), old(nextRoadId), [id]) && id in roads && roads[id].roadType == SideStreet
      ensures !placed ==> roads == old(roads) && nextRoadId == old(nextRoadId)
      ensures placed <==> draw(next + 2) < params.roadDensity
      ensures after >= next + 3
    {
      var subX := baseX + ((i as real) + 0.5) * size / 3.0;
      var subZ := baseZ + ((j as real) + 0.5) * size / 3.0;
      var offsetX := (draw(next) - 0.5) * 30.0;
      var offsetZ := (draw(next + 1) - 0.5) * 30.0;
      after := next + 2;
      var place := draw(after);
      after := after + 1;
      placed := place < params.roadDensity;
      id := 0;
      if placed {
        var start := Vec3(subX + offsetX, 0.0, subZ - 40.0);
        var end := Vec3(subX + offsetX, 0.0, subZ + 40.0);
        var curve := draw(after);
        after := after + 1;
        if curve < params.curveProbability {
          var control := Vec3(subX + offsetX + (draw(after) - 0.5) * 20.0, 0.0, subZ);
          after := after + 1;
          id := AddCurvedRoad(start, control, end, SideStreet);
        } else {
          id := AddRoad(start, end, SideStreet);
        }
      }
    }

    /** `generate_chunk_roads`: an already generated chunk yields nothing
        and changes nothing; otherwise the chunk is recorded and its roads
        are generated, the spawn chunk (0, 0) with its 19 fixed roads. */
    method GenerateChunkRoads(chunkX: int, chunkZ: int, draw: nat -> real) returns (newRoads: seq<nat>)
      requires Valid()
      modifies this`roads, this`nextRoadId, this`generatedChunks
      ensures Valid()
      ensures (chunkX, chunkZ) in old(generatedChunks) ==>
        newRoads == [] && roads == old(roads) && nextRoadId == old(nextRoadId) && generatedChunks == old(generatedChunks)
      ensures (chunkX, chunkZ) !in old(generatedChunks) ==>
        && generatedChunks == old(generatedChunks) + {(chunkX, chunkZ)}
        && AddedRoads(old(roads), old(nextRoadId), newRoads)
      ensures (chunkX, chunkZ) !in old(generatedChunks) && chunkX == 0 && chunkZ == 0 ==> |newRoads| == 19
    {
      if (chunkX, chunkZ) in generatedChunks {
        return [];
      }
      generatedChunks := generatedChunks + {(chunkX, chunkZ)};
      var baseX := (chunkX as real) * params.chunkSize;
      var baseZ := (chunkZ as real) * params.chunkSize;
      if chunkX == 0 && chunkZ == 0 {
        newRoads := GenerateSpawnChunkRoads(baseX, baseZ);
      } else {
        newRoads := GenerateRegularChunkRoads(baseX, baseZ, chunkX, chunkZ, draw);
      }
    }

    /** `clear_cache`: every chunk may be generated again. */
    method ClearCache()
      modifies this`generatedChunks
      ensures generatedChunks == {}
    {
      generatedChunks := {};
    }

    /** `reset`: no roads, intersections or chunks, and ids from 0. */
    method Reset()
      modifies this`roads, this`intersections, this`generatedChunks, this`nextRoadId, this`nextIntersectionId
      ensures Valid()
      ensures roads == map[] && intersections == map[] && generatedChunks == {}
      ensures nextRoadId == 0 && nextIntersectionId == 0
    {
      roads, intersections := map[], map[];
      generatedChunks := {};
      nextRoadId, nextIntersectionId := 0, 0;
    }

    /** `stats`: the sizes of the maps and of the chunk cache, and for each
        road type in use the number of roads of that type. */
    method Stats() returns (s: RoadNetworkStats)
      ensures s.totalRoads == |roads| && s.totalIntersections == |intersections|
      ensures s.generatedChunks == |generatedChunks|
      ensures forall t :: t in s.roadTypeCounts <==> exists id :: id in roads && roads[id].roadType == t
      ensures forall t :: t in s.roadTypeCounts ==> s.roadTypeCounts[t] == |OfType(roads, roads.Keys, t)|
    {
      var counts := CountRoadTypes(roads);
      s := RoadNetworkStats(|roads|, |intersections|, |generatedChunks|, counts);
    }
  }

  /** After a run of additions taking roads `r0` with next id `n0` to `r`
      with next id `n`: the new roads got the consecutive ids from `n0` on,
      each stored under its id without connections, and the roads there
      before are untouched. */
  ghost predicate Added(r: map<nat, RoadSpline>, n: nat, r0: map<nat, RoadSpline>, n0: nat, ids: seq<nat>)
  {
    && n == n0 + |ids|
    && (forall k :: 0 <= k < |ids| ==> ids[k] == n0 + k)
    && (forall id :: id in r <==> id in r0 || n0 <= id < n)
    && (forall id :: id in r0 ==> r[id] == r0[id])
    && (forall k :: 0 <= k < |ids| ==> ids[k] in r && r[ids[k]].id == ids[k] && r[ids[k]].connections == [])
  }

  /** Two runs of additions, one after the other, are one run. */
  lemma AddedAppend(r0: map<nat, RoadSpline>, n0: nat, ids: seq<nat>, r1: map<nat, RoadSpline>, n1: nat,
                    more: seq<nat>, r2: map<nat, RoadSpline>, n2: nat)
    requires Added(r1, n1, r0, n0, ids) && Added(r2, n2, r1, n1, more)
    ensures Added(r2, n2, r0, n0, ids + more)
  {
  }

  /** Whether `generate_regular_chunk_roads` lays a main street: x even and
      z odd, or z even and x odd (parity is the same under Rust's `%`). */
  predicate MainStreetChunk(chunkX: int, chunkZ: int)
  {
    (chunkX % 2 == 0 && chunkZ % 2 != 0) || (chunkZ % 2 == 0 && chunkX % 2 != 0)
  }

  /** Adding one new road adds one to its type's count only. */
  lemma OfTypeAdd(roads: map<nat, RoadSpline>, s: set<nat>, id: nat)
    requires id !in s && id in roads
    ensures |OfType(roads, s + {id}, roads[id].roadType)| == |OfType(roads, s, roads[id].roadType)| + 1
    ensures forall t :: t != roads[id].roadType ==> OfType(roads, s + {id}, t) == OfType(roads, s, t)
    ensures (exists j :: j in s && j in roads && roads[j].roadType == roads[id].roadType) || OfType(roads, s, roads[id].roadType) == {}
  {
    assert OfType(roads, s + {id}, roads[id].roadType) == OfType(roads, s, roads[id].roadType) + {id};
  }

  /** `counts` holds, for each road type among the roads `seen`, how
      many of them have it. */
  ghost predicate TypeCounts(roads: map<nat, RoadSpline>, seen: set<nat>, counts: map<RoadType, nat>)
  {
    && (forall t :: t in counts <==> exists id :: id in seen && id in roads && roads[id].roadType == t)
    && (forall t :: t in counts ==> counts[t] == |OfType(roads, seen, t)|)
  }

  /** Counting one more road keeps `TypeCounts`. */
  lemma TypeCountsStep(roads: map<nat, RoadSpline>, seen: set<nat>, counts: map<RoadType, nat>, id: nat)
    requires id in roads && id !in seen && TypeCounts(roads, seen, counts)
    ensures var t := roads[id].roadType;
      TypeCounts(roads, seen + {id}, counts[t := if t in counts then counts[t] + 1 else 1])
  {
    OfTypeAdd(roads, seen, id);
  }

  /** The counting loop of `stats`: one pass over the roads, adding one to
      the count of each road's type. */
  method CountRoadTypes(roads: map<nat, RoadSpline>) returns (counts: map<RoadType, nat>)
    ensures forall t :: t in counts <==> exists id :: id in roads && roads[id].roadType == t
    ensures forall t :: t in counts ==> counts[t] == |OfType(roads, roads.Keys, t)|
  {
    counts := map[];
    var keys := roads.Keys;
    ghost var seen: set<nat> := {};
    while keys != {}
      invariant seen + keys == roads.Keys && seen !! keys
      invariant TypeCounts(roads, seen, counts)
      decreases keys
    {
      var id :| id in keys;
      TypeCountsStep(roads, seen, counts, id);
      var t := roads[id].roadType;
      counts := counts[t := if t in counts then counts[t] + 1 else 1];
      seen := seen + {id};
      keys := keys - {id};
    }
  }

  /** The network tests: the first road of a new network gets id 0, and
      two connected roads list each other. */
  method NetworkExample() returns (network: RoadNetwork, first: nat, second: nat)
    ensures first == 0 && second == 1 && network.roads.Keys == {0, 1}
    ensures second in network.roads[first].connections && first in network.roads[second].connections
  {
    network := new RoadNetwork(DefaultParams());
    first := network.AddRoad(Vec3(0.0, 0.0, 0.0), Vec3(100.0, 0.0, 0.0), MainStreet);
    second := network.AddRoad(Vec3(100.0, 0.0, 0.0), Vec3(100.0, 0.0, 100.0), SideStreet);
    network.ConnectRoads(first, second);
    assert network.roads.Keys == {0, 1};
  }
}
