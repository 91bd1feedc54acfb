/** Procedural city layout: main roads every N tiles in both directions,
    side streets every third column, four-way intersections where main
    roads cross, buildings drawn from a seeded linear congruential
    generator on the tiles still free, and 3 by 3 parks every 20 tiles.
    Each generator phase walks the grid in nested loops and updates the
    layout maps one tile at a time; each phase is also given as a function
    of the layout before it, written in the shape of its loops, which the
    phase's method is proved to compute, and what the layout then holds
    tile by tile is proved about those functions. */
module CityLayouts {
  import opened Common
  import opened CityResources

  /** The tile map of a layout. */
  type Grid = map<IVec2, TileType>

  // ---------------------------------------------------------------------
  // Cells

  predicate InGrid(c: CityConfig, p: IVec2)
  {
    0 <= p.x < c.gridSize.x && 0 <= p.y < c.gridSize.y
  }

  /** A cell of a main road running along z (every N-th column). */
  predicate MainX(c: CityConfig, p: IVec2)
    requires c.intersectionFrequency >= 1
  {
    InGrid(c, p) && p.x % c.intersectionFrequency == 0
  }

  /** A cell of a main road running along x (every N-th row). */
  predicate MainZ(c: CityConfig, p: IVec2)
    requires c.intersectionFrequency >= 1
  {
    InGrid(c, p) && p.y % c.intersectionFrequency == 0
  }

  /** A cell of a side-street column (columns 2, 5, 8, ...). */
  predicate SideCol(c: CityConfig, p: IVec2)
  {
    InGrid(c, p) && p.x >= 2 && (p.x - 2) % 3 == 0
  }

  /** A cell where two main roads cross. */
  predicate Crossing(c: CityConfig, p: IVec2)
    requires c.intersectionFrequency >= 1
  {
    MainX(c, p) && MainZ(c, p)
  }

  /** Any street cell the street grid lays out. */
  predicate StreetCell(c: CityConfig, p: IVec2)
    requires c.intersectionFrequency >= 1
  {
    MainX(c, p) || MainZ(c, p) || SideCol(c, p)
  }

  /** `after` is `before` with the value `v` written at `p` when `cond`. */
  predicate Puts<V(==)>(before: map<IVec2, V>, after: map<IVec2, V>, p: IVec2, cond: bool, v: V)
  {
    (p in after <==> p in before || cond) &&
    (p in after ==> after[p] == if cond then v else before[p])
  }

  /** `after` is `before` with `v` written at `p` when `cond` and `p` was
      not yet a key. */
  predicate PutsIfAbsent<V(==)>(before: map<IVec2, V>, after: map<IVec2, V>, p: IVec2, cond: bool, v: V)
  {
    (p in after <==> p in before || cond) &&
    (p in after ==> after[p] == if p in before then before[p] else v)
  }

  /** A multiple of a positive step strictly between minus the step and
      the step is zero. */
  lemma MulSmall(step: int, k: int)
    requires step >= 1 && -step < step * k < step
    ensures k == 0
  {
  }

  /** Two step-by values that agree modulo the step and lie less than a
      step apart are equal. */
  lemma StepUnique(a: int, b: int, step: nat)
    requires step >= 1 && a % step == b % step && b <= a < b + step
    ensures a == b
  {
    assert a - b == step * (a / step - b / step);
    MulSmall(step, a / step - b / step);
  }

  /** Adding the step keeps the remainder. */
  lemma StepShift(a: int, step: nat)
    requires step >= 1
    ensures (a + step) % step == a % step
  {
    var k := (a + step) / step - a / step - 1;
    assert step * k == a % step - (a + step) % step;
    MulSmall(step, k);
  }

  const UnitX: Vec3 := Vec3(1.0, 0.0, 0.0)
  const UnitZ: Vec3 := Vec3(0.0, 0.0, 1.0)

  /** A main road tile: one and a half street widths, with sidewalks. */
  function MainStreet(c: CityConfig, direction: Vec3): StreetSpec
  {
    StreetSpec(Main, c.streetWidth * 1.5, direction, true, "street_main")
  }

  /** A side street tile: one street width, along z, with sidewalks. */
  function SideStreet(c: CityConfig): StreetSpec
  {
    StreetSpec(Side, c.streetWidth, UnitZ, true, "street_side")
  }

  /** A four-way intersection two street widths across, with traffic
      lights exactly in the city centre. */
  function CrossingSpec(c: CityConfig, p: IVec2): IntersectionSpec
  {
    IntersectionSpec(FourWay, c.streetWidth * 2.0, IsCityCenter(c, p), "intersection_fourway")
  }

  // ---------------------------------------------------------------------
  // Street grid (`generate_street_grid`)

  /** The inner loop of the first street pass: cells (x, z) onwards of a
      main-road column become streets along z. */
  function MainColumnFrom(c: CityConfig, l: CityLayout, x: int, z: int): (r: CityLayout)
    decreases c.gridSize.y - z
    ensures r.buildings == l.buildings && r.intersections == l.intersections
  {
    if z >= c.gridSize.y then l
    else
      var pos := IVec2(x, z);
      MainColumnFrom(c, l.(grid := l.grid[pos := Street], streets := l.streets[pos := MainStreet(c, UnitZ)]), x, z + 1)
  }

  /** The first street pass from column x on, every N-th column. */
  function MainColumnsFrom(c: CityConfig, l: CityLayout, x: int): (r: CityLayout)
    requires c.intersectionFrequency >= 1
    decreases c.gridSize.x - x
    ensures r.buildings == l.buildings && r.intersections == l.intersections
  {
    if x >= c.gridSize.x then l
    else MainColumnsFrom(c, MainColumnFrom(c, l, x, 0), x + c.intersectionFrequency)
  }

  /** The inner loop of the second street pass: cells (x, z) onwards of a
      main-road row become streets along x. */
  function MainRowFrom(c: CityConfig, l: CityLayout, z: int, x: int): (r: CityLayout)
    decreases c.gridSize.x - x
    ensures r.buildings == l.buildings && r.intersections == l.intersections
  {
    if x >= c.gridSize.x then l
    else
      var pos := IVec2(x, z);
      MainRowFrom(c, l.(grid := l.grid[pos := Street], streets := l.streets[pos := MainStreet(c, UnitX)]), z, x + 1)
  }

  /** The second street pass from row z on, every N-th row. */
  function MainRowsFrom(c: CityConfig, l: CityLayout, z: int): (r: CityLayout)
    requires c.intersectionFrequency >= 1
    decreases c.gridSize.y - z
    ensures r.buildings == l.buildings && r.intersections == l.intersections
  {
    if z >= c.gridSize.y then l
    else MainRowsFrom(c, MainRowFrom(c, l, z, 0), z + c.intersectionFrequency)
  }

  /** The inner loop of the side-street pass: the free cells from (x, z)
      on become side streets. */
  function SideColumnFrom(c: CityConfig, l: CityLayout, x: int, z: int): (r: CityLayout)
    decreases c.gridSize.y - z
    ensures r.buildings == l.buildings && r.intersections == l.intersections
  {
    if z >= c.gridSize.y then l
    else
      var pos := IVec2(x, z);
      var next := if pos in l.grid then l
                  else l.(grid := l.grid[pos := Street], streets := l.streets[pos := SideStreet(c)]);
      SideColumnFrom(c, next, x, z + 1)
  }

  /** The side-street pass from column x on, every third column. */
  function SideColumnsFrom(c: CityConfig, l: CityLayout, x: int): (r: CityLayout)
    decreases c.gridSize.x - x
    ensures r.buildings == l.buildings && r.intersections == l.intersections
  {
    if x >= c.gridSize.x then l
    else SideColumnsFrom(c, SideColumnFrom(c, l, x, 0), x + 3)
  }

  /** `generate_street_grid`: main columns from 0, main rows from 0, side
      columns from 2; buildings and intersections are untouched. */
  function StreetPhase(c: CityConfig, l: CityLayout): (r: CityLayout)
    requires c.intersectionFrequency >= 1
    ensures r.buildings == l.buildings && r.intersections == l.intersections
  {
    SideColumnsFrom(c, MainRowsFrom(c, MainColumnsFrom(c, l, 0), 0), 2)
  }

  lemma {:induction false} MainColumnFromAt(c: CityConfig, l: CityLayout, x: int, z: int, p: IVec2)
    decreases c.gridSize.y - z
    ensures var r := MainColumnFrom(c, l, x, z);
      && Puts(l.grid, r.grid, p, p.x == x && z <= p.y < c.gridSize.y, Street)
      && Puts(l.streets, r.streets, p, p.x == x && z <= p.y < c.gridSize.y, MainStreet(c, UnitZ))
  {
    if z < c.gridSize.y {
      var pos := IVec2(x, z);
      MainColumnFromAt(c, l.(grid := l.grid[pos := Street], streets := l.streets[pos := MainStreet(c, UnitZ)]), x, z + 1, p);
    }
  }

  lemma {:induction false} MainColumnsFromAt(c: CityConfig, l: CityLayout, x: int, p: IVec2)
    requires c.intersectionFrequency >= 1 && x >= 0 && x % c.intersectionFrequency == 0
    decreases c.gridSize.x - x
    ensures var r := MainColumnsFrom(c, l, x);
      && Puts(l.grid, r.grid, p, MainX(c, p) && p.x >= x, Street)
      && Puts(l.streets, r.streets, p, MainX(c, p) && p.x >= x, MainStreet(c, UnitZ))
  {
    var f := c.intersectionFrequency;
    if x < c.gridSize.x {
      MainColumnFromAt(c, l, x, 0, p);
      StepShift(x, f);
      MainColumnsFromAt(c, MainColumnFrom(c, l, x, 0), x + f, p);
      if MainX(c, p) && x <= p.x < x + f {
        StepUnique(p.x, x, f);
      }
    }
  }

  lemma {:induction false} MainRowFromAt(c: CityConfig, l: CityLayout, z: int, x: int, p: IVec2)
    decreases c.gridSize.x - x
    ensures var r := MainRowFrom(c, l, z, x);
      && Puts(l.grid, r.grid, p, p.y == z && x <= p.x < c.gridSize.x, Street)
      && Puts(l.streets, r.streets, p, p.y == z && x <= p.x < c.gridSize.x, MainStreet(c, UnitX))
  {
    if x < c.gridSize.x {
      var pos := IVec2(x, z);
      MainRowFromAt(c, l.(grid := l.grid[pos := Street], streets := l.streets[pos := MainStreet(c, UnitX)]), z, x + 1, p);
    }
  }

  lemma {:induction false} MainRowsFromAt(c: CityConfig, l: CityLayout, z: int, p: IVec2)
    requires c.intersectionFrequency >= 1 && z >= 0 && z % c.intersectionFrequency == 0
    decreases c.gridSize.y - z
    ensures var r := MainRowsFrom(c, l, z);
      && Puts(l.grid, r.grid, p, MainZ(c, p) && p.y >= z, Street)
      && Puts(l.streets, r.streets, p, MainZ(c, p) && p.y >= z, MainStreet(c, UnitX))
  {
    var f := c.intersectionFrequency;
    if z < c.gridSize.y {
      MainRowFromAt(c, l, z, 0, p);
      StepShift(z, f);
      MainRowsFromAt(c, MainRowFrom(c, l, z, 0), z + f, p);
      if MainZ(c, p) && z <= p.y < z + f {
        StepUnique(p.y, z, f);
      }
    }
  }

  lemma {:induction false} SideColumnFromAt(c: CityConfig, l: CityLayout, x: int, z: int, p: IVec2)
    decreases c.gridSize.y - z
    ensures var r := SideColumnFrom(c, l, x, z);
      && PutsIfAbsent(l.grid, r.grid, p, p.x == x && z <= p.y < c.gridSize.y, Street)
      && Puts(l.streets, r.streets, p, p.x == x && z <= p.y < c.gridSize.y && p !in l.grid, SideStreet(c))
  {
    if z < c.gridSize.y {
      var pos := IVec2(x, z);
      var next := if pos in l.grid then l
                  else l.(grid := l.grid[pos := Street], streets := l.streets[pos := SideStreet(c)]);
      SideColumnFromAt(c, next, x, z + 1, p);
    }
  }

  lemma {:induction false} SideColumnsFromAt(c: CityConfig, l: CityLayout, x: int, p: IVec2)
    requires x >= 2 && (x - 2) % 3 == 0
    decreases c.gridSize.x - x
    ensures var r := SideColumnsFrom(c, l, x);
      && PutsIfAbsent(l.grid, r.grid, p, SideCol(c, p) && p.x >= x, Street)
      && Puts(l.streets, r.streets, p, SideCol(c, p) && p.x >= x && p !in l.grid, SideStreet(c))
  {
    if x < c.gridSize.x {
      var next := SideColumnFrom(c, l, x, 0);
      SideColumnFromAt(c, l, x, 0, p);
      SideColumnsFromAt(c, next, x + 3, p);
    }
  }

  /** What the street grid leaves at each cell: main-road cells are main
      streets (along x where a row crosses, which the second pass
      overwrites), free side-street cells are side streets, and every other
      cell keeps what it held. */
  lemma StreetPhaseAt(c: CityConfig, l: CityLayout, p: IVec2)
    requires c.intersectionFrequency >= 1
    ensures var r := StreetPhase(c, l);
      && (MainX(c, p) || MainZ(c, p) ==>
            p in r.grid && r.grid[p] == Street &&
            p in r.streets && r.streets[p] == MainStreet(c, if MainZ(c, p) then UnitX else UnitZ))
      && (!MainX(c, p) && !MainZ(c, p) && SideCol(c, p) && p !in l.grid ==>
            p in r.grid && r.grid[p] == Street && p in r.streets && r.streets[p] == SideStreet(c))
      && (!MainX(c, p) && !MainZ(c, p) && (!SideCol(c, p) || p in l.grid) ==>
            (p in r.grid <==> p in l.grid) && (p in l.grid ==> r.grid[p] == l.grid[p]) &&
            (p in r.streets <==> p in l.streets) && (p in l.streets ==> r.streets[p] == l.streets[p]))
  {
    var l1 := MainColumnsFrom(c, l, 0);
    var l2 := MainRowsFrom(c, l1, 0);
    MainColumnsFromAt(c, l, 0, p);
    MainRowsFromAt(c, l1, 0, p);
    SideColumnsFromAt(c, l2, 2, p);
  }

  /** `generate_street_grid`, updating the layout tile by tile; a
      frequency of zero would make `step_by` panic. */
  method GenerateStreetGrid(c: CityConfig, l: CityLayout) returns (r: CityLayout)
    requires c.intersectionFrequency >= 1
    ensures r == StreetPhase(c, l)
  {
    var f := c.intersectionFrequency;
    r := l;
    ghost var target := MainColumnsFrom(c, l, 0);
    var x := 0;
    while x < c.gridSize.x
      invariant MainColumnsFrom(c, r, x) == target
      decreases c.gridSize.x - x
    {
      var z := 0;
      while z < c.gridSize.y
        invariant MainColumnsFrom(c, MainColumnFrom(c, r, x, z), x + f) == target
        decreases c.gridSize.y - z
      {
        var pos := IVec2(x, z);
        r := r.(grid := r.grid[pos := Street], streets := r.streets[pos := MainStreet(c, UnitZ)]);
        z := z + 1;
      }
      x := x + f;
    }
    target := MainRowsFrom(c, r, 0);
    var z := 0;
    while z < c.gridSize.y
      invariant MainRowsFrom(c, r, z) == target
      decreases c.gridSize.y - z
    {
      x := 0;
      while x < c.gridSize.x
        invariant MainRowsFrom(c, MainRowFrom(c, r, z, x), z + f) == target
        decreases c.gridSize.x - x
      {
        var pos := IVec2(x, z);
        r := r.(grid := r.grid[pos := Street], streets := r.streets[pos := MainStreet(c, UnitX)]);
        x := x + 1;
      }
      z := z + f;
    }
    target := SideColumnsFrom(c, r, 2);
    x := 2;
    while x < c.gridSize.x
      invariant SideColumnsFrom(c, r, x) == target
      decreases c.gridSize.x - x
    {
      z := 0;
      while z < c.gridSize.y
        invariant SideColumnsFrom(c, SideColumnFrom(c, r, x, z), x + 3) == target
        decreases c.gridSize.y - z
      {
        var pos := IVec2(x, z);
        if pos !in r.grid {
          r := r.(grid := r.grid[pos := Street], streets := r.streets[pos := SideStreet(c)]);
        }
        z := z + 1;
      }
      x := x + 3;
    }
  }

  // ---------------------------------------------------------------------
  // Intersections (`generate_intersections`)

  /** The inner loop: crossings of column x from row z on, every N-th row. */
  function CrossingColumnFrom(c: CityConfig, l: CityLayout, x: int, z: int): (r: CityLayout)
    requires c.intersectionFrequency >= 1
    decreases c.gridSize.y - z
    ensures r.buildings == l.buildings && r.streets == l.streets
  {
    if z >= c.gridSize.y then l
    else
      var pos := IVec2(x, z);
      CrossingColumnFrom(c, l.(grid := l.grid[pos := Intersection],
                               intersections := l.intersections[pos := CrossingSpec(c, pos)]),
                         x, z + c.intersectionFrequency)
  }

  /** The outer loop from column x on, every N-th column. */
  function CrossingsFrom(c: CityConfig, l: CityLayout, x: int): (r: CityLayout)
    requires c.intersectionFrequency >= 1
    decreases c.gridSize.x - x
    ensures r.buildings == l.buildings && r.streets == l.streets
  {
    if x >= c.gridSize.x then l
    else CrossingsFrom(c, CrossingColumnFrom(c, l, x, 0), x + c.intersectionFrequency)
  }

  /** `generate_intersections` */
  function IntersectionPhase(c: CityConfig, l: CityLayout): (r: CityLayout)
    requires c.intersectionFrequency >= 1
    ensures r.buildings == l.buildings && r.streets == l.streets
  {
    CrossingsFrom(c, l, 0)
  }

  lemma {:induction false} CrossingColumnFromAt(c: CityConfig, l: CityLayout, x: int, z: int, p: IVec2)
    requires c.intersectionFrequency >= 1 && 0 <= x < c.gridSize.x && z >= 0 && z % c.intersectionFrequency == 0
    decreases c.gridSize.y - z
    ensures var r := CrossingColumnFrom(c, l, x, z);
      && Puts(l.grid, r.grid, p, p.x == x && MainZ(c, p) && p.y >= z, Intersection)
      && Puts(l.intersections, r.intersections, p, p.x == x && MainZ(c, p) && p.y >= z, CrossingSpec(c, p))
  {
    var f := c.intersectionFrequency;
    if z < c.gridSize.y {
      var pos := IVec2(x, z);
      StepShift(z, f);
      CrossingColumnFromAt(c, l.(grid := l.grid[pos := Intersection],
                                 intersections := l.intersections[pos := CrossingSpec(c, pos)]),
                           x, z + f, p);
      if MainZ(c, p) && z <= p.y < z + f {
        StepUnique(p.y, z, f);
      }
    }
  }

  lemma {:induction false} CrossingsFromAt(c: CityConfig, l: CityLayout, x: int, p: IVec2)
    requires c.intersectionFrequency >= 1 && x >= 0 && x % c.intersectionFrequency == 0
    decreases c.gridSize.x - x
    ensures var r := CrossingsFrom(c, l, x);
      && Puts(l.grid, r.grid, p, Crossing(c, p) && p.x >= x, Intersection)
      && Puts(l.intersections, r.intersections, p, Crossing(c, p) && p.x >= x, CrossingSpec(c, p))
  {
    var f := c.intersectionFrequency;
    if x < c.gridSize.x {
      CrossingColumnFromAt(c, l, x, 0, p);
      StepShift(x, f);
      CrossingsFromAt(c, CrossingColumnFrom(c, l, x, 0), x + f, p);
      if MainX(c, p) && x <= p.x < x + f {
        StepUnique(p.x, x, f);
      }
    }
  }

  /** Every crossing of main roads becomes a four-way intersection with
      its spec, and no other cell changes. */
  lemma IntersectionPhaseAt(c: CityConfig, l: CityLayout, p: IVec2)
    requires c.intersectionFrequency >= 1
    ensures var r := IntersectionPhase(c, l);
      && Puts(l.grid, r.grid, p, Crossing(c, p), Intersection)
      && Puts(l.intersections, r.intersections, p, Crossing(c, p), CrossingSpec(c, p))
  {
    CrossingsFromAt(c, l, 0, p);
  }

  /** `generate_intersections`, updating the layout tile by tile. */
  method GenerateIntersections(c: CityConfig, l: CityLayout) returns (r: CityLayout)
    requires c.intersectionFrequency >= 1
    ensures r == IntersectionPhase(c, l)
  {
    var f := c.intersectionFrequency;
    r := l;
    var x := 0;
    while x < c.gridSize.x
      invariant CrossingsFrom(c, r, x) == IntersectionPhase(c, l)
      decreases c.gridSize.x - x
    {
      var z := 0;
      while z < c.gridSize.y
        invariant CrossingsFrom(c, CrossingColumnFrom(c, r, x, z), x + f) == IntersectionPhase(c, l)
        decreases c.gridSize.y - z
      {
        var pos := IVec2(x, z);
        r := r.(grid := r.grid[pos := Intersection], intersections := r.intersections[pos := CrossingSpec(c, pos)]);
        z := z + f;
      }
      x := x + f;
    }
  }

  // ---------------------------------------------------------------------
  // Buildings (`generate_buildings`)

  /** 2^64: the state of the generator is a `u64` updated with wrapping
      arithmetic. */
  const LcgModulus: nat := 0x1_0000_0000_0000_0000

  /** One step of the generator: `state * 1103515245 + 12345`, wrapped. */
  function LcgNext(state: nat): (next: nat)
    ensures next < LcgModulus
  {
    (state * 1103515245 + 12345) % LcgModulus
  }

  /** The value a step yields: bits 16 to 30 of the new state. */
  function LcgOutput(state: nat): (v: nat)
    ensures v < 32768
  {
    (state / 65536) % 32768
  }

  /** A generator value as a fraction in [0, 1). */
  function Fraction(v: nat): (f: real)
    requires v < 32768
    ensures 0.0 <= f < 1.0
  {
    v as real / 32768.0
  }

  /** From seed 42 the first value is 19081, about 0.58 of the range. */
  lemma LcgExample()
    ensures LcgNext(42) == 46347652635
    ensures LcgOutput(LcgNext(42)) == 19081
  {
  }

  /** `determine_building_type`: the roll modulo 100 picks from the
      centre's table (41 % commercial, 20 % skyscraper, 20 % residential,
      10 % shop, the rest infrastructure) or the outer table (51 %
      residential, 20 % industrial, 15 % commercial, 10 % shop, the rest
      infrastructure). */
  function DetermineBuildingType(c: CityConfig, p: IVec2, roll: nat): (t: BuildingType)
    ensures t == Skyscraper ==> IsCityCenter(c, p)
    ensures t == Industrial ==> !IsCityCenter(c, p)
    ensures IsCityCenter(c, p) ==> (t == Commercial <==> roll % 100 <= 40)
    ensures !IsCityCenter(c, p) ==> (t == Residential <==> roll % 100 <= 50)
    ensures t == Infrastructure <==> roll % 100 >= (if IsCityCenter(c, p) then 91 else 96)
  {
    var r := roll % 100;
    if IsCityCenter(c, p) then
      if r <= 40 then Commercial
      else if r <= 60 then Skyscraper
      else if r <= 80 then Residential
      else if r <= 90 then Shop
      else Infrastructure
    else
      if r <= 50 then Residential
      else if r <= 70 then Industrial
      else if r <= 85 then Commercial
      else if r <= 95 then Shop
      else Infrastructure
  }

  /** `get_building_prefab_name`: "building_" followed by the type. */
  function PrefabName(t: BuildingType): (name: string)
    ensures |name| > 9 && name[..9] == "building_"
  {
    match t
    case Residential => "building_residential"
    case Commercial => "building_commercial"
    case Industrial => "building_industrial"
    case Infrastructure => "building_infrastructure"
    case Skyscraper => "building_skyscraper"
    case Shop => "building_shop"
  }

  /** Distinct types have distinct prefab names. */
  lemma PrefabNamesDistinct(t1: BuildingType, t2: BuildingType)
    requires t1 != t2
    ensures PrefabName(t1) != PrefabName(t2)
  {
    var n1, n2 := PrefabName(t1), PrefabName(t2);
    if |n1| == |n2| {
      assert n1[9] != n2[9] || n1[10] != n2[10];
    }
  }

  /** `dist` gives every cell's distance to the city centre (the square
      root of `CenterDistSq`), which the height rule needs. */
  ghost predicate DistOk(c: CityConfig, dist: IVec2 -> real)
  {
    forall p :: dist(p) >= 0.0 && dist(p) * dist(p) == CenterDistSq(c, p)
  }

  /** The layout being built together with the generator state. */
  datatype Gen = Gen(layout: CityLayout, rng: nat)

  /** One cell of `generate_buildings`: an occupied cell is skipped without
      drawing; otherwise one draw decides against the density, and a
      building takes three more draws (type, height, size). */
  function PlaceAt(c: CityConfig, dist: IVec2 -> real, g: Gen, p: IVec2): (r: Gen)
    requires DistOk(c, dist) && InGrid(c, p)
    ensures r.layout.streets == g.layout.streets && r.layout.intersections == g.layout.intersections
  {
    var l := g.layout;
    if p in l.grid then g
    else
      var s1 := LcgNext(g.rng);
      if Fraction(LcgOutput(s1)) > c.buildingDensity then g.(rng := s1)
      else
        var s2 := LcgNext(s1);
        var kind := DetermineBuildingType(c, p, LcgOutput(s2));
        var s3 := LcgNext(s2);
        var base := Lerp(c.heightRange.0, c.heightRange.1, Fraction(LcgOutput(s3)));
        var height := if c.variedHeights then GetBuildingHeight(c, p, base, dist(p)) else base;
        var s4 := LcgNext(s3);
        var size := Lerp(c.sizeRange.0, c.sizeRange.1, Fraction(LcgOutput(s4)));
        Gen(l.(grid := l.grid[p := Building],
               buildings := l.buildings[p := BuildingSpec(kind, height, Vec2(size, size), 0.0, PrefabName(kind))]),
            s4)
  }

  /** The inner loop over row cells (x, z) onwards. */
  function BuildingColumnFrom(c: CityConfig, dist: IVec2 -> real, g: Gen, x: int, z: int): (r: Gen)
    requires DistOk(c, dist) && 0 <= x < c.gridSize.x && z >= 0
    decreases c.gridSize.y - z
    ensures r.layout.streets == g.layout.streets && r.layout.intersections == g.layout.intersections
  {
    if z >= c.gridSize.y then g
    else BuildingColumnFrom(c, dist, PlaceAt(c, dist, g, IVec2(x, z)), x, z + 1)
  }

  /** The outer loop from column x on. */
  function BuildingsFrom(c: CityConfig, dist: IVec2 -> real, g: Gen, x: int): (r: Gen)
    requires DistOk(c, dist) && x >= 0
    decreases c.gridSize.x - x
    ensures r.layout.streets == g.layout.streets && r.layout.intersections == g.layout.intersections
  {
    if x >= c.gridSize.x then g
    else BuildingsFrom(c, dist, BuildingColumnFrom(c, dist, g, x, 0), x + 1)
  }

  /** `generate_buildings`, the generator seeded with the configuration's
      seed. */
  function BuildingPhase(c: CityConfig, dist: IVec2 -> real, l: CityLayout): (r: CityLayout)
    requires DistOk(c, dist)
    ensures r.streets == l.streets && r.intersections == l.intersections
  {
    BuildingsFrom(c, dist, Gen(l, c.seed), 0).layout
  }

  /** A building as the generator makes it: the type's prefab, no
      rotation, a square footprint within the size range, and skyscrapers
      only in the centre. */
  predicate GeneratedBuilding(c: CityConfig, p: IVec2, b: BuildingSpec)
  {
    && b.prefabName == PrefabName(b.buildingType)
    && b.rotation == 0.0
    && b.size.x == b.size.y
    && (c.sizeRange.0 <= c.sizeRange.1 ==> c.sizeRange.0 <= b.size.x <= c.sizeRange.1)
    && (b.buildingType == Skyscraper ==> IsCityCenter(c, p))
  }

  /** `lo + f * (hi - lo)`: the point a fraction `f` of the way from `lo`
      to `hi`. */
  function Lerp(lo: real, hi: real, f: real): real
  {
    lo + f * (hi - lo)
  }

  /** A fraction in [0, 1) of the way stays in [lo, hi]. */
  lemma LerpWithin(lo: real, hi: real, f: real)
    requires lo <= hi && 0.0 <= f < 1.0
    ensures lo <= Lerp(lo, hi, f) <= hi
  {
    var d := hi - lo;
    NonNegativeProduct(f, d);
    NonNegativeProduct(1.0 - f, d);
    assert (1.0 - f) * d == d - f * d;
  }

  lemma NonNegativeProduct(a: real, b: real)
    requires a >= 0.0 && b >= 0.0
    ensures a * b >= 0.0
  {
  }

  /** From `l` to `r` buildings were only added on free cells: occupied
      cells keep their tile and their building entry, a newly filled cell
      is a generated building inside the grid, and every building entry of
      `r` is an old one or on a newly filled cell. */
  predicate BuildsOnFreeCells(c: CityConfig, l: CityLayout, r: CityLayout, q: IVec2)
  {
    && (q in l.grid ==> q in r.grid && r.grid[q] == l.grid[q])
    && (q in l.grid ==> (q in r.buildings <==> q in l.buildings) &&
                        (q in l.buildings ==> r.buildings[q] == l.buildings[q]))
    && (q !in l.grid && q in r.grid ==> InGrid(c, q) && r.grid[q] == Building && q in r.buildings &&
                                          GeneratedBuilding(c, q, r.buildings[q]))
    && (q in r.buildings ==> (q in l.buildings && r.buildings[q] == l.buildings[q]) || (q !in l.grid && q in r.grid))
  }

  lemma BuildsOnFreeCellsThen(c: CityConfig, a: CityLayout, b: CityLayout, d: CityLayout, q: IVec2)
    requires BuildsOnFreeCells(c, a, b, q) && BuildsOnFreeCells(c, b, d, q)
    ensures BuildsOnFreeCells(c, a, d, q)
  {
  }

  /** One cell step builds only on a free cell. */
  lemma PlaceAtCell(c: CityConfig, dist: IVec2 -> real, g: Gen, p: IVec2, q: IVec2)
    requires DistOk(c, dist) && InGrid(c, p)
    ensures BuildsOnFreeCells(c, g.layout, PlaceAt(c, dist, g, p).layout, q)
  {
    var l := g.layout;
    if p !in l.grid {
      var s1 := LcgNext(g.rng);
      if Fraction(LcgOutput(s1)) <= c.buildingDensity && c.sizeRange.0 <= c.sizeRange.1 {
        var s4 := LcgNext(LcgNext(LcgNext(s1)));
        LerpWithin(c.sizeRange.0, c.sizeRange.1, Fraction(LcgOutput(s4)));
      }
    }
  }

  lemma {:induction false} BuildingColumnFromAt(c: CityConfig, dist: IVec2 -> real, g: Gen, x: int, z: int, q: IVec2)
    requires DistOk(c, dist) && 0 <= x < c.gridSize.x && z >= 0
    decreases c.gridSize.y - z
    ensures BuildsOnFreeCells(c, g.layout, BuildingColumnFrom(c, dist, g, x, z).layout, q)
  {
    if z < c.gridSize.y {
      var g1 := PlaceAt(c, dist, g, IVec2(x, z));
      PlaceAtCell(c, dist, g, IVec2(x, z), q);
      BuildingColumnFromAt(c, dist, g1, x, z + 1, q);
      BuildsOnFreeCellsThen(c, g.layout, g1.layout, BuildingColumnFrom(c, dist, g1, x, z + 1).layout, q);
    }
  }

  lemma {:induction false} BuildingsFromAt(c: CityConfig, dist: IVec2 -> real, g: Gen, x: int, q: IVec2)
    requires DistOk(c, dist) && x >= 0
    decreases c.gridSize.x - x
    ensures BuildsOnFreeCells(c, g.layout, BuildingsFrom(c, dist, g, x).layout, q)
  {
    if x < c.gridSize.x {
      var g1 := BuildingColumnFrom(c, dist, g, x, 0);
      BuildingColumnFromAt(c, dist, g, x, 0, q);
      BuildingsFromAt(c, dist, g1, x + 1, q);
      BuildsOnFreeCellsThen(c, g.layout, g1.layout, BuildingsFrom(c, dist, g1, x + 1).layout, q);
    }
  }

  /** Buildings go only on free cells of the grid: occupied cells keep
      their tile, a newly filled cell is a generated building, and every
      building entry is either an old one or on such a cell. */
  lemma BuildingPhaseAt(c: CityConfig, dist: IVec2 -> real, l: CityLayout, q: IVec2)
    requires DistOk(c, dist)
    ensures BuildsOnFreeCells(c, l, BuildingPhase(c, dist, l), q)
  {
    BuildingsFromAt(c, dist, Gen(l, c.seed), 0, q);
  }

  /** The body of the inner loop of `generate_buildings` at one cell,
      drawing from the generator through `next_random`. */
  method PlaceBuilding(c: CityConfig, dist: IVec2 -> real, l: CityLayout, rng: nat, pos: IVec2)
    returns (r: CityLayout, rng': nat)
    requires DistOk(c, dist) && InGrid(c, pos)
    ensures Gen(r, rng') == PlaceAt(c, dist, Gen(l, rng), pos)
  {
    r, rng' := l, rng;
    if pos in r.grid {
      return;
    }
    rng' := LcgNext(rng');
    var densityRoll := Fraction(LcgOutput(rng'));
    if densityRoll > c.buildingDensity {
      assert Gen(r, rng') == PlaceAt(c, dist, Gen(l, rng), pos);
      return;
    }
    rng' := LcgNext(rng');
    var kind := DetermineBuildingType(c, pos, LcgOutput(rng'));
    rng' := LcgNext(rng');
    var base := Lerp(c.heightRange.0, c.heightRange.1, Fraction(LcgOutput(rng')));
    var height := if c.variedHeights then GetBuildingHeight(c, pos, base, dist(pos)) else base;
    rng' := LcgNext(rng');
    var sizeFactor := Fraction(LcgOutput(rng'));
    var size := Lerp(c.sizeRange.0, c.sizeRange.1, sizeFactor);
    r := r.(grid := r.grid[pos := Building],
            buildings := r.buildings[pos := BuildingSpec(kind, height, Vec2(size, size), 0.0, PrefabName(kind))]);
  }

  /** `generate_buildings`, drawing from the generator as it goes. */
  method GenerateBuildings(c: CityConfig, dist: IVec2 -> real, l: CityLayout) returns (r: CityLayout)
    requires DistOk(c, dist)
    ensures r == BuildingPhase(c, dist, l)
  {
    r := l;
    var rng := c.seed;
    var x := 0;
    while x < c.gridSize.x
      invariant x >= 0
      invariant BuildingsFrom(c, dist, Gen(r, rng), x) == BuildingsFrom(c, dist, Gen(l, c.seed), 0)
      decreases c.gridSize.x - x
    {
      var z := 0;
      while z < c.gridSize.y
        invariant z >= 0
        invariant BuildingsFrom(c, dist, BuildingColumnFrom(c, dist, Gen(r, rng), x, z), x + 1)
               == BuildingsFrom(c, dist, Gen(l, c.seed), 0)
        decreases c.gridSize.y - z
      {
        r, rng := PlaceBuilding(c, dist, r, rng, IVec2(x, z));
        z := z + 1;
      }
      x := x + 1;
    }
  }

  // ---------------------------------------------------------------------
  // Parks (`generate_parks`)

  /** Coordinate `v` lies in a park block along an axis of length `g`
      whose corner is at least `start`: corners are 10, 30, 50, ... below
      `g`, and a block spans three cells from its corner. */
  predicate ParkCoordFrom(v: int, start: int, g: int)
  {
    v >= 10 && (v - 10) % 20 < 3 && start <= v - (v - 10) % 20 < g
  }

  /** Taking the first corner off the front of the corners still to come. */
  lemma ParkCoordStep(v: int, start: int, g: int)
    requires start >= 10 && (start - 10) % 20 == 0
    ensures ParkCoordFrom(v, start, g) <==> (start < g && start <= v < start + 3) || ParkCoordFrom(v, start + 20, g)
  {
  }

  /** The same coordinates walked corner by corner, as the loops do:
      `v` is in the block at corner `start` or in one further on. */
  predicate InParkBlocks(v: int, start: int, g: int)
    decreases g - start
  {
    start < g && (start <= v < start + 3 || InParkBlocks(v, start + 20, g))
  }

  /** The corner-by-corner walk finds exactly the closed-form cells. */
  lemma {:induction false} InParkBlocksIsCoord(v: int, start: int, g: int)
    requires start >= 10 && (start - 10) % 20 == 0
    decreases g - start
    ensures InParkBlocks(v, start, g) <==> ParkCoordFrom(v, start, g)
  {
    ParkCoordStep(v, start, g);
    if start < g {
      assert (start + 20 - 10) % 20 == 0;
      InParkBlocksIsCoord(v, start + 20, g);
    }
  }

  /** A cell of one of the 3 by 3 parks. Blocks whose corner is inside the
      grid may reach up to two cells past its edge. */
  predicate ParkCell(c: CityConfig, p: IVec2)
  {
    ParkCoordFrom(p.x, 10, c.gridSize.x) && ParkCoordFrom(p.y, 10, c.gridSize.y)
  }

  /** The two innermost loops: the block with corner (x, z) from offset
      (dx, dz) on, in row-major order; only free cells become park. */
  function ParkBlockFrom(g: Grid, x: int, z: int, dx: nat, dz: nat): Grid
    requires dx <= 3 && dz <= 3
    decreases 3 - dx, 3 - dz
  {
    if dx == 3 then g
    else if dz == 3 then ParkBlockFrom(g, x, z, dx + 1, 0)
    else
      var pos := IVec2(x + dx, z + dz);
      var next := if pos in g then g else g[pos := Park];
      ParkBlockFrom(next, x, z, dx, dz + 1)
  }

  /** The second loop: blocks of column x from corner row z on. */
  function ParkColumnFrom(c: CityConfig, g: Grid, x: int, z: int): Grid
    decreases c.gridSize.y - z
  {
    if z >= c.gridSize.y then g
    else ParkColumnFrom(c, ParkBlockFrom(g, x, z, 0, 0), x, z + 20)
  }

  /** The outer loop: block columns from corner column x on. */
  function ParksFrom(c: CityConfig, g: Grid, x: int): Grid
    decreases c.gridSize.x - x
  {
    if x >= c.gridSize.x then g
    else ParksFrom(c, ParkColumnFrom(c, g, x, 10), x + 20)
  }

  /** `generate_parks` */
  function ParkPhase(c: CityConfig, l: CityLayout): (r: CityLayout)
    ensures r.buildings == l.buildings && r.streets == l.streets && r.intersections == l.intersections
  {
    l.(grid := ParksFrom(c, l.grid, 10))
  }

  lemma PutsIfAbsentIff(a: map<IVec2, TileType>, b: map<IVec2, TileType>, p: IVec2, c1: bool, c2: bool, v: TileType)
    requires PutsIfAbsent(a, b, p, c1, v) && (c1 <==> c2)
    ensures PutsIfAbsent(a, b, p, c2, v)
  {
  }

  lemma PutsIfAbsentThen(a: map<IVec2, TileType>, b: map<IVec2, TileType>, d: map<IVec2, TileType>,
                         p: IVec2, c1: bool, c2: bool, cond: bool, v: TileType)
    requires PutsIfAbsent(a, b, p, c1, v) && PutsIfAbsent(b, d, p, c2, v)
    requires cond <==> c1 || c2
    ensures PutsIfAbsent(a, d, p, cond, v)
  {
  }

  lemma {:induction false} ParkBlockFromAt(g: Grid, x: int, z: int, dx: nat, dz: nat, p: IVec2)
    requires dx <= 3 && dz <= 3
    decreases 3 - dx, 3 - dz
    ensures PutsIfAbsent(g, ParkBlockFrom(g, x, z, dx, dz), p,
                         (p.x == x + dx && dx < 3 && z + dz <= p.y < z + 3) || (x + dx < p.x < x + 3 && z <= p.y < z + 3),
                         Park)
  {
    if dx < 3 {
      if dz == 3 {
        ParkBlockFromAt(g, x, z, dx + 1, 0, p);
      } else {
        var pos := IVec2(x + dx, z + dz);
        var next := if pos in g then g else g[pos := Park];
        assert PutsIfAbsent(g, next, p, p == pos, Park);
        ParkBlockFromAt(next, x, z, dx, dz + 1, p);
        PutsIfAbsentThen(g, next, ParkBlockFrom(next, x, z, dx, dz + 1), p, p == pos,
                         (p.x == x + dx && z + dz + 1 <= p.y < z + 3) || (x + dx < p.x < x + 3 && z <= p.y < z + 3),
                         (p.x == x + dx && dx < 3 && z + dz <= p.y < z + 3) || (x + dx < p.x < x + 3 && z <= p.y < z + 3), Park);
      }
    }
  }

  lemma {:induction false} ParkColumnFromAt(c: CityConfig, g: Grid, x: int, z: int, p: IVec2, inside: bool)
    requires inside == (x <= p.x < x + 3 && InParkBlocks(p.y, z, c.gridSize.y))
    decreases c.gridSize.y - z
    ensures PutsIfAbsent(g, ParkColumnFrom(c, g, x, z), p, inside, Park)
  {
    if z < c.gridSize.y {
      var later := x <= p.x < x + 3 && InParkBlocks(p.y, z + 20, c.gridSize.y);
      ParkColumnFromAt(c, ParkBlockFrom(g, x, z, 0, 0), x, z + 20, p, later);
      ParkColumnStep(c, g, x, z, p, later, inside);
    }
  }

  /** A column's cells are those of its first block and those of the
      blocks after it. */
  lemma ParkColumnStep(c: CityConfig, g: Grid, x: int, z: int, p: IVec2, later: bool, inside: bool)
    requires z < c.gridSize.y
    requires later == (x <= p.x < x + 3 && InParkBlocks(p.y, z + 20, c.gridSize.y))
    requires inside == (x <= p.x < x + 3 && InParkBlocks(p.y, z, c.gridSize.y))
    requires PutsIfAbsent(ParkBlockFrom(g, x, z, 0, 0),
                          ParkColumnFrom(c, ParkBlockFrom(g, x, z, 0, 0), x, z + 20), p, later, Park)
    ensures PutsIfAbsent(g, ParkColumnFrom(c, g, x, z), p, inside, Park)
  {
    var near := x <= p.x < x + 3 && z <= p.y < z + 3;
    var next := ParkBlockFrom(g, x, z, 0, 0);
    ParkBlockAt(g, x, z, p, near);
    PutsIfAbsentThen(g, next, ParkColumnFrom(c, next, x, z + 20), p, near, later, inside, Park);
  }

  /** A whole 3 by 3 block fills exactly its free cells. */
  lemma ParkBlockAt(g: Grid, x: int, z: int, p: IVec2, near: bool)
    requires near == (x <= p.x < x + 3 && z <= p.y < z + 3)
    ensures PutsIfAbsent(g, ParkBlockFrom(g, x, z, 0, 0), p, near, Park)
  {
    ParkBlockFromAt(g, x, z, 0, 0, p);
    PutsIfAbsentIff(g, ParkBlockFrom(g, x, z, 0, 0), p,
                    (p.x == x && 0 < 3 && z <= p.y < z + 3) || (x < p.x < x + 3 && z <= p.y < z + 3), near, Park);
  }

  lemma {:induction false} ParksFromAt(c: CityConfig, g: Grid, x: int, p: IVec2)
    decreases c.gridSize.x - x
    ensures PutsIfAbsent(g, ParksFrom(c, g, x), p,
                         InParkBlocks(p.x, x, c.gridSize.x) && InParkBlocks(p.y, 10, c.gridSize.y), Park)
  {
    if x < c.gridSize.x {
      var next := ParkColumnFrom(c, g, x, 10);
      ParkColumnFromAt(c, g, x, 10, p, x <= p.x < x + 3 && InParkBlocks(p.y, 10, c.gridSize.y));
      ParksFromAt(c, next, x + 20, p);
      PutsIfAbsentThen(g, next, ParksFrom(c, next, x + 20), p,
                       x <= p.x < x + 3 && InParkBlocks(p.y, 10, c.gridSize.y),
                       InParkBlocks(p.x, x + 20, c.gridSize.x) && InParkBlocks(p.y, 10, c.gridSize.y),
                       InParkBlocks(p.x, x, c.gridSize.x) && InParkBlocks(p.y, 10, c.gridSize.y), Park);
    }
  }

  /** Parks fill only free cells of the 3 by 3 blocks; every other cell
      keeps its tile. */
  lemma ParkPhaseAt(c: CityConfig, l: CityLayout, p: IVec2)
    ensures PutsIfAbsent(l.grid, ParkPhase(c, l).grid, p, ParkCell(c, p), Park)
  {
    ParksFromAt(c, l.grid, 10, p);
    InParkBlocksIsCoord(p.x, 10, c.gridSize.x);
    InParkBlocksIsCoord(p.y, 10, c.gridSize.y);
    PutsIfAbsentIff(l.grid, ParkPhase(c, l).grid, p,
                    InParkBlocks(p.x, 10, c.gridSize.x) && InParkBlocks(p.y, 10, c.gridSize.y), ParkCell(c, p), Park);
  }

  /** `generate_parks`, filling block by block. */
  method GenerateParks(c: CityConfig, l: CityLayout) returns (r: CityLayout)
    ensures r == ParkPhase(c, l)
  {
    r := l;
    var x := 10;
    while x < c.gridSize.x
      invariant r == l.(grid := r.grid)
      invariant ParksFrom(c, r.grid, x) == ParkPhase(c, l).grid
      decreases c.gridSize.x - x
    {
      var z := 10;
      while z < c.gridSize.y
        invariant r == l.(grid := r.grid)
        invariant ParksFrom(c, ParkColumnFrom(c, r.grid, x, z), x + 20) == ParkPhase(c, l).grid
        decreases c.gridSize.y - z
      {
        var dx: nat := 0;
        while dx < 3
          invariant dx <= 3
          invariant r == l.(grid := r.grid)
          invariant ParksFrom(c, ParkColumnFrom(c, ParkBlockFrom(r.grid, x, z, dx, 0), x, z + 20), x + 20) == ParkPhase(c, l).grid
          decreases 3 - dx
        {
          var dz: nat := 0;
          while dz < 3
            invariant dz <= 3
            invariant r == l.(grid := r.grid)
            invariant ParksFrom(c, ParkColumnFrom(c, ParkBlockFrom(r.grid, x, z, dx, dz), x, z + 20), x + 20) == ParkPhase(c, l).grid
            decreases 3 - dz
          {
            var pos := IVec2(x + dx, z + dz);
            if pos !in r.grid {
              r := r.(grid := r.grid[pos := Park]);
            }
            dz := dz + 1;
          }
          dx := dx + 1;
        }
        z := z + 20;
      }
      x := x + 20;
    }
  }

  // ---------------------------------------------------------------------
  // The whole layout (`generate_layout`)

  /** `generate_layout`: streets, intersections, buildings and parks, in
      that order, on an empty layout. */
  function LayoutSpec(c: CityConfig, dist: IVec2 -> real): CityLayout
    requires c.intersectionFrequency >= 1 && DistOk(c, dist)
  {
    ParkPhase(c, BuildingPhase(c, dist, IntersectionPhase(c, StreetPhase(c, EmptyLayout()))))
  }

  /** What a generated city holds at each cell: every crossing of main
      roads is an intersection with traffic lights exactly in the centre;
      every other street cell is a street; intersections and streets are
      recorded only on street cells; buildings stand only on free cells of
      the grid and are generated buildings; parks only on park-block cells
      no street or building took; and nothing lies outside the grid but
      the edge of a park block. */
  lemma LayoutAt(c: CityConfig, dist: IVec2 -> real, p: IVec2)
    requires c.intersectionFrequency >= 1 && DistOk(c, dist)
    ensures var r := LayoutSpec(c, dist);
      && (Crossing(c, p) ==> p in r.grid && r.grid[p] == Intersection &&
                             p in r.intersections && r.intersections[p] == CrossingSpec(c, p))
      && (StreetCell(c, p) && !Crossing(c, p) ==> p in r.grid && r.grid[p] == Street && p in r.streets)
      && (p in r.intersections ==> Crossing(c, p))
      && (p in r.streets ==> StreetCell(c, p))
      && (p in r.buildings ==> p in r.grid && r.grid[p] == Building && InGrid(c, p) && !StreetCell(c, p) &&
                               GeneratedBuilding(c, p, r.buildings[p]))
      && (p in r.grid && r.grid[p] == Park ==> ParkCell(c, p) && !StreetCell(c, p) && p !in r.buildings)
      && (p in r.grid ==> InGrid(c, p) || ParkCell(c, p))
      && (p in r.grid ==> r.grid[p] != Empty && r.grid[p] != Water)
  {
    var l0 := EmptyLayout();
    var l1 := StreetPhase(c, l0);
    var l2 := IntersectionPhase(c, l1);
    var l3 := BuildingPhase(c, dist, l2);
    StreetPhaseAt(c, l0, p);
    IntersectionPhaseAt(c, l1, p);
    BuildingPhaseAt(c, dist, l2, p);
    ParkPhaseAt(c, l3, p);
  }

  /** `generate_layout`, running the four phases. */
  method GenerateLayout(c: CityConfig, dist: IVec2 -> real) returns (r: CityLayout)
    requires c.intersectionFrequency >= 1 && DistOk(c, dist)
    ensures r == LayoutSpec(c, dist)
  {
    r := EmptyLayout();
    r := GenerateStreetGrid(c, r);
    r := GenerateIntersections(c, r);
    r := GenerateBuildings(c, dist, r);
    r := GenerateParks(c, r);
  }
}
