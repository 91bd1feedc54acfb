/** Hierarchical world coordinates and the quadtree that indexes entities by
    them. Five levels of detail nest into one another: a macro region holds
    5 x 5 regions, a region 5 x 5 local chunks, a local chunk 4 x 4 detail
    chunks and a detail chunk 4 x 4 micro chunks. */
module Quadtree {
  import opened Common

  datatype LodLevel = Macro | Region | Local | Detail | Micro

  datatype WorldCoord = WorldCoord(level: LodLevel, x: int, z: int)

  /** Edge length of a cell at each level, in metres. */
  function CellSize(level: LodLevel): (s: real)
    ensures s > 0.0
  {
    match level
    case Macro => 10000.0
    case Region => 2000.0
    case Local => 400.0
    case Detail => 100.0
    case Micro => 25.0
  }

  /** `get_streaming_radius` */
  function StreamingRadius(level: LodLevel): (r: real)
    ensures r > CellSize(level)
  {
    match level
    case Macro => 50000.0
    case Region => 20000.0
    case Local => 5000.0
    case Detail => 2000.0
    case Micro => 500.0
  }

  /** Cells of `level` along one side of its parent cell (0 for Macro,
      which has none). */
  function Subdivisions(level: LodLevel): nat
  {
    match level
    case Macro => 0
    case Region => 5
    case Local => 5
    case Detail => 4
    case Micro => 4
  }

  /** The level one step finer, if any. */
  function ChildLevel(level: LodLevel): Option<LodLevel>
  {
    match level
    case Macro => Some(Region)
    case Region => Some(Local)
    case Local => Some(Detail)
    case Detail => Some(Micro)
    case Micro => None
  }

  /** The level one step coarser, if any. */
  function ParentLevel(level: LodLevel): Option<LodLevel>
  {
    match level
    case Macro => None
    case Region => Some(Macro)
    case Local => Some(Region)
    case Detail => Some(Local)
    case Micro => Some(Detail)
  }

  /** The level structure is a chain: stepping down and back up returns. */
  lemma LevelsChain(level: LodLevel)
    ensures ChildLevel(level).Some? ==> ParentLevel(ChildLevel(level).value) == Some(level)
    ensures ParentLevel(level).Some? ==> ChildLevel(ParentLevel(level).value) == Some(level)
    ensures ChildLevel(level).Some? ==> Subdivisions(ChildLevel(level).value) > 0
  {
  }

  // ---------------------------------------------------------------------
  // World positions

  /** `from_world_pos`: the cell whose half-open square holds the position
      (`floor(pos / size)` on each axis). */
  function FromWorldPos(pos: Vec3, level: LodLevel): WorldCoord
  {
    WorldCoord(level, (pos.x / CellSize(level)).Floor, (pos.z / CellSize(level)).Floor)
  }

  /** `to_world_pos`: the centre of the cell. */
  function ToWorldPos(c: WorldCoord): Vec3
  {
    var size := CellSize(c.level);
    Vec3((c.x as real) * size + size * 0.5, 0.0, (c.z as real) * size + size * 0.5)
  }

  /** `floor((i * size + size / 2) / size) == i`, level by level. */
  lemma CentreFloors(i: int, level: LodLevel)
    ensures (((i as real) * CellSize(level) + CellSize(level) * 0.5) / CellSize(level)).Floor == i
  {
    var size := CellSize(level);
    assert ((i as real) * size + size * 0.5) / size == (i as real) + 0.5;
  }

  /** A cell's centre lies in that cell: converting a coordinate to a
      position and back returns it. */
  lemma CentreRoundTrip(c: WorldCoord)
    ensures FromWorldPos(ToWorldPos(c), c.level) == c
  {
    CentreFloors(c.x, c.level);
    CentreFloors(c.z, c.level);
  }

  /** The conversion test: at 400 m chunks, (1200, -800) is chunk (3, -2). */
  lemma FromWorldPosExample()
    ensures FromWorldPos(Vec3(1200.0, 0.0, -800.0), Local) == WorldCoord(Local, 3, -2)
  {
  }

  /** The centre test: local chunk (2, -1) is centred at (1000, -200). */
  lemma ToWorldPosExample()
    ensures ToWorldPos(WorldCoord(Local, 2, -1)) == Vec3(1000.0, 0.0, -200.0)
  {
  }

  // ---------------------------------------------------------------------
  // Parents and children

  /** Rust's `/` on `i32`: the quotient truncated toward zero. */
  function TruncDiv(a: int, b: int): int
    requires b > 0
  {
    if a >= 0 then a / b else -((-a) / b)
  }

  /** `get_parent` as written: the coordinates divided by the subdivision
      with Rust's truncating `/`. */
  function ParentAsWritten(c: WorldCoord): Option<WorldCoord>
  {
    match ParentLevel(c.level)
    case None => None
    case Some(p) => Some(WorldCoord(p, TruncDiv(c.x, Subdivisions(c.level)), TruncDiv(c.z, Subdivisions(c.level))))
  }

  /** `get_parent` as intended: the coordinates divided by the subdivision
      rounding down (`div_euclid`), which is what `get_children`'s
      `x * subdivisions + dx` inverts. */
  function Parent(c: WorldCoord): (p: Option<WorldCoord>)
    ensures p.None? <==> c.level == Macro
    ensures p.Some? ==> ChildLevel(p.value.level) == Some(c.level)
  {
    match ParentLevel(c.level)
    case None => None
    case Some(p) => Some(WorldCoord(p, c.x / Subdivisions(c.level), c.z / Subdivisions(c.level)))
  }

  /** The two agree wherever the coordinates are not negative. */
  lemma ParentAgreesOnNonNegative(c: WorldCoord)
    requires c.x >= 0 && c.z >= 0
    ensures ParentAsWritten(c) == Parent(c)
  {
  }

  /** The parent test: local chunk (8, 12) lies in region (1, 2). */
  lemma ParentExample()
    ensures Parent(WorldCoord(Local, 8, 12)) == Some(WorldCoord(Region, 1, 2))
    ensures ParentAsWritten(WorldCoord(Local, 8, 12)) == Some(WorldCoord(Region, 1, 2))
  {
  }

  /** One cell below `c`, at offset (dx, dz) inside it. */
  function Child(c: WorldCoord, level: LodLevel, n: nat, dx: int, dz: int): WorldCoord
  {
    WorldCoord(level, c.x * n + dx, c.z * n + dz)
  }

  /** The row `dx` of the children: offsets (dx, 0) .. (dx, m - 1). */
  function Row(c: WorldCoord, level: LodLevel, n: nat, dx: int, m: nat): seq<WorldCoord>
  {
    if m == 0 then [] else Row(c, level, n, dx, m - 1) + [Child(c, level, n, dx, m - 1)]
  }

  /** The first `rows` rows of the children, each `n` long. */
  function Rows(c: WorldCoord, level: LodLevel, n: nat, rows: nat): seq<WorldCoord>
  {
    if rows == 0 then [] else Rows(c, level, n, rows - 1) + Row(c, level, n, rows - 1, n)
  }

  /** `get_children`: row after row, all `n x n` cells one level down, or
      none for a micro chunk. */
  function Children(c: WorldCoord): seq<WorldCoord>
  {
    match ChildLevel(c.level)
    case None => []
    case Some(l) => Rows(c, l, Subdivisions(l), Subdivisions(l))
  }

  lemma RowMembers(c: WorldCoord, level: LodLevel, n: nat, dx: int, m: nat)
    ensures |Row(c, level, n, dx, m)| == m
    ensures forall w :: w in Row(c, level, n, dx, m) <==>
      w.level == level && w.x == c.x * n + dx && c.z * n <= w.z < c.z * n + m
  {
    RowMembersAt(c, level, n, dx, m, c.x * n, c.z * n);
  }

  /** `RowMembers` with the row's corner named, so that no product is
      left inside the quantifier. */
  lemma {:induction false} RowMembersAt(c: WorldCoord, level: LodLevel, n: nat, dx: int, m: nat, bx: int, bz: int)
    requires bx == c.x * n && bz == c.z * n
    ensures |Row(c, level, n, dx, m)| == m
    ensures forall w :: w in Row(c, level, n, dx, m) <==> w.level == level && w.x == bx + dx && bz <= w.z < bz + m
  {
    if m > 0 {
      RowMembersAt(c, level, n, dx, m - 1, bx, bz);
    }
  }

  lemma RowsMembers(c: WorldCoord, level: LodLevel, n: nat, rows: nat)
    ensures |Rows(c, level, n, rows)| == rows * n
    ensures forall w :: w in Rows(c, level, n, rows) <==>
      w.level == level && c.x * n <= w.x < c.x * n + rows && c.z * n <= w.z < c.z * n + n
  {
    RowsLength(c, level, n, rows);
    RowsMembersAt(c, level, n, rows, c.x * n, c.z * n);
  }

  /** `RowsMembers` with the corner named. */
  lemma {:induction false} RowsMembersAt(c: WorldCoord, level: LodLevel, n: nat, rows: nat, bx: int, bz: int)
    requires bx == c.x * n && bz == c.z * n
    ensures forall w :: w in Rows(c, level, n, rows) <==> w.level == level && bx <= w.x < bx + rows && bz <= w.z < bz + n
  {
    if rows > 0 {
      RowsMembersAt(c, level, n, rows - 1, bx, bz);
      RowMembersAt(c, level, n, rows - 1, n, bx, bz);
      RowsStep(Rows(c, level, n, rows - 1), Row(c, level, n, rows - 1, n), level, bx, bz, n, rows);
    }
  }

  lemma {:induction false} RowsLength(c: WorldCoord, level: LodLevel, n: nat, rows: nat)
    ensures |Rows(c, level, n, rows)| == rows * n
  {
    if rows > 0 {
      RowsLength(c, level, n, rows - 1);
      RowMembersAt(c, level, n, rows - 1, n, c.x * n, c.z * n);
      MulPred(rows, n);
    }
  }

  lemma MulPred(rows: nat, n: nat)
    requires rows > 0
    ensures (rows - 1) * n + n == rows * n
  {
  }

  /** Adding row `rows - 1` to the rows before it covers one more x. */
  lemma RowsStep(prev: seq<WorldCoord>, row: seq<WorldCoord>, level: LodLevel, bx: int, bz: int, n: nat, rows: nat)
    requires rows > 0
    requires forall w :: w in prev <==> w.level == level && bx <= w.x < bx + rows - 1 && bz <= w.z < bz + n
    requires forall w :: w in row <==> w.level == level && w.x == bx + rows - 1 && bz <= w.z < bz + n
    ensures forall w :: w in prev + row <==> w.level == level && bx <= w.x < bx + rows && bz <= w.z < bz + n
  {
  }

  /** 25 children for a macro region or a region, 16 for a local or a
      detail chunk, none for a micro chunk. */
  lemma ChildrenCount(c: WorldCoord)
    ensures |Children(c)| == match c.level
      case Macro => 25
      case Region => 25
      case Local => 16
      case Detail => 16
      case Micro => 0
  {
    match ChildLevel(c.level)
    case None =>
    case Some(l) => RowsMembers(c, l, Subdivisions(l), Subdivisions(l));
  }

  /** `n * q <= a < n * q + n` says exactly that `a / n == q`. */
  lemma DivBand(a: int, n: int, q: int)
    requires n == 4 || n == 5
    ensures (n * q <= a < n * q + n) <==> a / n == q
  {
  }

  /** Children and parent are inverse: `w` is a child of `c` exactly when
      `c` is the parent of `w`. */
  lemma ChildrenAreParentsInverse(c: WorldCoord, w: WorldCoord)
    ensures w in Children(c) <==> Parent(w) == Some(c)
  {
    match ChildLevel(c.level)
    case None =>
      LevelsChain(w.level);
    case Some(l) =>
      var n := Subdivisions(l);
      RowsMembers(c, l, n, n);
      LevelsChain(c.level);
      LevelsChain(w.level);
      if w.level == l {
        DivBand(w.x, n, c.x);
        DivBand(w.z, n, c.z);
        assert c.x * n == n * c.x && c.z * n == n * c.z;
      }
  }

  /** The truncating parent of the code loses this inverse below zero:
      region (-1, 0) has local chunk (-4, 0) among its children, but that
      chunk's parent as written is region (0, 0). */
  lemma ParentAsWrittenMissesNegativeChildren()
    ensures WorldCoord(Local, -4, 0) in Children(WorldCoord(Region, -1, 0))
    ensures ParentAsWritten(WorldCoord(Local, -4, 0)) == Some(WorldCoord(Region, 0, 0))
  {
    RowsMembers(WorldCoord(Region, -1, 0), Local, 5, 5);
  }

  /** The children test: region (1, 2) has 25 children, local chunk (8, 12)
      among them. */
  lemma ChildrenExample()
    ensures |Children(WorldCoord(Region, 1, 2))| == 25
    ensures WorldCoord(Local, 8, 12) in Children(WorldCoord(Region, 1, 2))
  {
    ChildrenCount(WorldCoord(Region, 1, 2));
    ChildrenAreParentsInverse(WorldCoord(Region, 1, 2), WorldCoord(Local, 8, 12));
  }

  /** The nested loops of `get_children`. */
  method GetChildren(c: WorldCoord) returns (children: seq<WorldCoord>)
    ensures children == Children(c)
  {
    children := [];
    var level: LodLevel;
    match ChildLevel(c.level) {
      case None => return;
      case Some(l) => level := l;
    }
    var n := Subdivisions(level);
    var dx := 0;
    while dx < n
      invariant 0 <= dx <= n
      invariant children == Rows(c, level, n, dx)
    {
      var dz := 0;
      while dz < n
        invariant 0 <= dz <= n
        invariant children == Rows(c, level, n, dx) + Row(c, level, n, dx, dz)
      {
        children := children + [Child(c, level, n, dx, dz)];
        dz := dz + 1;
      }
      dx := dx + 1;
    }
  }

  // ---------------------------------------------------------------------
  // Nodes

  /** `QuadtreeNode::new`'s bounds: the cell's square, from its lower
      corner to its upper corner. */
  function Bounds(c: WorldCoord): (Vec3, Vec3)
  {
    var centre := ToWorldPos(c);
    var half := CellSize(c.level) * 0.5;
    (Vec3(centre.x - half, 0.0, centre.z - half), Vec3(centre.x + half, 0.0, centre.z + half))
  }

  /** `contains_point`: half-open on both axes, `min <= p < max`. */
  predicate InBounds(bounds: (Vec3, Vec3), p: Vec3)
  {
    p.x >= bounds.0.x && p.x < bounds.1.x && p.z >= bounds.0.z && p.z < bounds.1.z
  }

  /** One axis of the containment: `i * size <= p < i * size + size`
      exactly when `floor(p / size) == i`. */
  lemma FloorBand(p: real, i: int, level: LodLevel)
    ensures ((i as real) * CellSize(level) <= p < (i as real) * CellSize(level) + CellSize(level))
            <==> (p / CellSize(level)).Floor == i
  {
    var size := CellSize(level);
    var q := p / size;
    assert p == q * size;
    assert (i as real) * size <= p <==> (i as real) <= q;
    assert p < (i as real) * size + size <==> q < (i as real) + 1.0;
  }

  /** A node holds exactly the points that convert to its coordinate: the
      cells of one level tile the plane without overlap. */
  lemma BoundsMatchConversion(c: WorldCoord, p: Vec3)
    ensures InBounds(Bounds(c), p) <==> FromWorldPos(p, c.level) == c
  {
    var size := CellSize(c.level);
    assert Bounds(c).0.x == (c.x as real) * size && Bounds(c).1.x == (c.x as real) * size + size;
    assert Bounds(c).0.z == (c.z as real) * size && Bounds(c).1.z == (c.z as real) * size + size;
    FloorBand(p.x, c.x, c.level);
    FloorBand(p.z, c.z, c.level);
  }

  /** `QuadtreeNode`. Child nodes are never created, so a node's entities
      are all it holds (see README). */
  class QuadtreeNode {
    const coord: WorldCoord
    const bounds: (Vec3, Vec3)
    var entities: seq<nat>

    /** `QuadtreeNode::new`: the cell's bounds and no entities. */
    constructor (c: WorldCoord)
      ensures coord == c && bounds == Bounds(c) && entities == []
    {
      coord := c;
      bounds := Bounds(c);
      entities := [];
    }

    predicate ContainsPoint(p: Vec3)
    {
      InBounds(bounds, p)
    }

    /** `insert`: a point outside the node is refused; otherwise the entity
        is appended. */
    method Insert(id: nat, position: Vec3) returns (ok: bool)
      modifies this`entities
      ensures ok == ContainsPoint(position)
      ensures entities == if ok then old(entities) + [id] else old(entities)
    {
      if !ContainsPoint(position) {
        return false;
      }
      entities := entities + [id];
      ok := true;
    }
  }

  /** A map that gains at most the key `c`, agrees with the first away from
      `c` and holds the first's entry at `c` (or nothing) extended by `id`. */
  lemma ContentsAfterAppend(before: map<WorldCoord, seq<nat>>, after: map<WorldCoord, seq<nat>>, c: WorldCoord, id: nat)
    requires after.Keys == before.Keys + {c}
    requires after[c] == (if c in before then before[c] else []) + [id]
    requires forall k :: k in before && k != c ==> after[k] == before[k]
    ensures after == before[c := (if c in before then before[c] else []) + [id]]
  {
  }

  /** `HierarchicalQuadtree`: one node per coordinate in use. */
  class HierarchicalQuadtree {
    var rootNodes: map<WorldCoord, QuadtreeNode>
    var maxDepth: nat

    /** Every node is stored under its own coordinate (so no node is shared
        by two keys) with its cell's bounds. */
    ghost predicate Valid()
      reads this, rootNodes.Values
    {
      forall k :: k in rootNodes ==> rootNodes[k].coord == k && rootNodes[k].bounds == Bounds(k)
    }

    /** `HierarchicalQuadtree::new`: no nodes, depth 5. */
    constructor ()
      ensures rootNodes == map[] && maxDepth == 5 && Valid()
    {
      rootNodes := map[];
      maxDepth := 5;
    }

    /** The entities of every node. */
    ghost function Contents(): map<WorldCoord, seq<nat>>
      reads this, rootNodes.Values
    {
      map k | k in rootNodes :: rootNodes[k].entities
    }

    /** `ensure_node`: the node for the coordinate, created empty if it was
        missing; nothing else changes, so a second call changes nothing. */
    method EnsureNode(coord: WorldCoord) returns (node: QuadtreeNode)
      requires Valid()
      modifies this`rootNodes
      ensures Valid()
      ensures coord in rootNodes && rootNodes[coord] == node
      ensures coord in old(rootNodes) ==> rootNodes == old(rootNodes)
      ensures coord !in old(rootNodes) ==> fresh(node) && node.entities == [] && rootNodes == old(rootNodes)[coord := node]
      ensures Contents() == if coord in old(rootNodes) then old(Contents()) else old(Contents())[coord := []]
    {
      if coord in rootNodes {
        node := rootNodes[coord];
      } else {
        node := new QuadtreeNode(coord);
        rootNodes := rootNodes[coord := node];
      }
    }

    /** `insert_entity`: the entity is appended to the node of the cell that
        holds the position at the given level, created if needed; that node
        always accepts it. */
    method InsertEntity(id: nat, position: Vec3, level: LodLevel)
      requires Valid()
      modifies this`rootNodes, rootNodes.Values
      ensures Valid()
      ensures var c := FromWorldPos(position, level);
        && rootNodes.Keys == old(rootNodes.Keys) + {c}
        && Contents() == old(Contents())[c := (if c in old(Contents()) then old(Contents())[c] else []) + [id]]
    {
      var coord := FromWorldPos(position, level);
      var node := EnsureNode(coord);
      BoundsMatchConversion(coord, position);
      var _ := node.Insert(id, position);
      assert forall k :: k in rootNodes && k != coord ==> rootNodes[k] != node;
      ContentsAfterAppend(old(Contents()), Contents(), coord, id);
    }

    /** `remove_node`: the node's entities, if it existed; the node is
        gone either way. */
    method RemoveNode(coord: WorldCoord) returns (removed: Option<seq<nat>>)
      requires Valid()
      modifies this`rootNodes
      ensures Valid()
      ensures rootNodes == old(rootNodes) - {coord}
      ensures removed == if coord in old(Contents()) then Some(old(Contents())[coord]) else None
    {
      if coord in rootNodes {
        removed := Some(rootNodes[coord].entities);
        rootNodes := rootNodes - {coord};
      } else {
        removed := None;
      }
    }

    /** `get_node_counts`: for each level in use, the number of nodes at
        that level. */
    method GetNodeCounts() returns (counts: map<LodLevel, nat>)
      ensures forall l :: l in counts <==> exists k :: k in rootNodes && k.level == l
      ensures forall l :: l in counts ==> counts[l] == |AtLevel(rootNodes.Keys, l)|
    {
      counts := map[];
      var keys := rootNodes.Keys;
      ghost var seen: set<WorldCoord> := {};
      while keys != {}
        invariant seen + keys == rootNodes.Keys && seen !! keys
        invariant forall l :: l in counts <==> exists k :: k in seen && k.level == l
        invariant forall l :: l in counts ==> counts[l] == |AtLevel(seen, l)|
        decreases keys
      {
        var k :| k in keys;
        AtLevelAdd(seen, k);
        counts := counts[k.level := if k.level in counts then counts[k.level] + 1 else 1];
        seen := seen + {k};
        keys := keys - {k};
      }
    }
  }

  function AtLevel(s: set<WorldCoord>, l: LodLevel): set<WorldCoord>
  {
    set k | k in s && k.level == l
  }

  /** Adding one new coordinate adds one to its own level's count only. */
  lemma AtLevelAdd(s: set<WorldCoord>, k: WorldCoord)
    requires k !in s
    ensures |AtLevel(s + {k}, k.level)| == |AtLevel(s, k.level)| + 1
    ensures forall l :: l != k.level ==> AtLevel(s + {k}, l) == AtLevel(s, l)
    ensures (exists j :: j in s && j.level == k.level) || AtLevel(s, k.level) == {}
  {
    assert AtLevel(s + {k}, k.level) == AtLevel(s, k.level) + {k};
  }
}
