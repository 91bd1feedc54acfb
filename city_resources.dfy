/** The city's configuration, its layout maps and its prefab registry:
    conversions between grid cells and world positions, the city-centre
    test, building heights, sector queries for streaming, and prefab ids.
    Floats are reals; `i32` coordinates are integers with the casts written
    out. */
module CityResources {
  import opened Common

  const I32Min: int := -0x8000_0000
  const I32Max: int := 0x7FFF_FFFF

  /** Bevy's `IVec2`; `y` is the grid's z axis. */
  datatype IVec2 = IVec2(x: int, y: int)

  /** The tile kinds, building kinds, street kinds and intersection kinds
      the layout code uses. */
  datatype TileType = Empty | Building | Street | Intersection | Park | Water
  datatype BuildingType = Residential | Commercial | Industrial | Infrastructure | Skyscraper | Shop
  datatype StreetType = Main | Side
  datatype IntersectionType = FourWay

  /** `BuildingSpec` */
  datatype BuildingSpec = BuildingSpec(buildingType: BuildingType, height: real, size: Vec2, rotation: real, prefabName: string)
  /** `StreetSpec` */
  datatype StreetSpec = StreetSpec(streetType: StreetType, width: real, direction: Vec3, hasSidewalks: bool, prefabName: string)
  /** `IntersectionSpec` */
  datatype IntersectionSpec = IntersectionSpec(intersectionType: IntersectionType, size: real, hasTrafficLights: bool, prefabName: string)

  /** `CityLayout`: the four maps keyed by grid cell. */
  datatype CityLayout = CityLayout(
    grid: map<IVec2, TileType>,
    buildings: map<IVec2, BuildingSpec>,
    streets: map<IVec2, StreetSpec>,
    intersections: map<IVec2, IntersectionSpec>)

  /** `CityLayout::default`: all four maps empty. */
  function EmptyLayout(): (l: CityLayout)
    ensures l.grid == map[] && l.buildings == map[] && l.streets == map[] && l.intersections == map[]
  {
    CityLayout(map[], map[], map[], map[])
  }

  /** `CityConfig` */
  datatype CityConfig = CityConfig(
    gridSize: IVec2, tileSize: real, seed: nat, buildingDensity: real, streetWidth: real,
    heightRange: (real, real), sizeRange: (real, real), variedHeights: bool,
    cityCenter: Vec2, cityCenterRadius: real, intersectionFrequency: nat)

  /** `CityConfig::default`: a 100 by 100 grid of 20 m tiles, seed 42, 60 %
      density, 8 m streets, heights 10 to 80 m, sizes 8 to 20 m, varied
      heights, a 20-tile centre at (50, 50), an intersection every 5 tiles. */
  function DefaultCityConfig(): (c: CityConfig)
    ensures c.gridSize == IVec2(100, 100) && c.tileSize == 20.0 && c.seed == 42
    ensures c.intersectionFrequency == 5 && c.cityCenter == Vec2(50.0, 50.0) && c.cityCenterRadius == 20.0
    ensures 0.0 <= c.buildingDensity <= 1.0 && c.heightRange.0 < c.heightRange.1 && c.sizeRange.0 < c.sizeRange.1
  {
    CityConfig(IVec2(100, 100), 20.0, 42, 0.6, 8.0, (10.0, 80.0), (8.0, 20.0), true,
               Vec2(50.0, 50.0), 20.0, 5)
  }

  /** `CityConfig::new`: the default with the given grid and tile size. */
  function NewCityConfig(gridSize: IVec2, tileSize: real): (c: CityConfig)
    ensures c.gridSize == gridSize && c.tileSize == tileSize
    ensures c.(gridSize := DefaultCityConfig().gridSize, tileSize := DefaultCityConfig().tileSize) == DefaultCityConfig()
  {
    DefaultCityConfig().(gridSize := gridSize, tileSize := tileSize)
  }

  /** `f32::round`: to the nearest integer, halves away from zero. */
  function Round(x: real): (n: int)
    ensures (n as real) - 0.5 <= x <= (n as real) + 0.5
  {
    if x >= 0.0 then (x + 0.5).Floor else -((-x + 0.5).Floor)
  }

  /** `as i32` on an integral value: saturating at both ends. */
  function CastI32(n: int): (r: int)
    ensures I32Min <= r <= I32Max
    ensures I32Min <= n <= I32Max ==> r == n
  {
    if n < I32Min then I32Min else if n > I32Max then I32Max else n
  }

  /** `grid_to_world`: the cell's corner on the ground plane. */
  function GridToWorld(c: CityConfig, p: IVec2): (w: Vec3)
    ensures w.y == 0.0
  {
    Vec3(p.x as real * c.tileSize, 0.0, p.y as real * c.tileSize)
  }

  /** `world_to_grid`: each coordinate over the tile size, rounded and cast
      to `i32`. */
  function WorldToGrid(c: CityConfig, w: Vec3): (p: IVec2)
    requires c.tileSize != 0.0
    ensures I32Min <= p.x <= I32Max && I32Min <= p.y <= I32Max
  {
    IVec2(CastI32(Round(w.x / c.tileSize)), CastI32(Round(w.z / c.tileSize)))
  }

  /** Rounding an integer gives it back. */
  lemma RoundIntegral(n: int)
    ensures Round(n as real) == n
  {
  }

  /** Converting a cell to the world and back gives the cell, for any
      non-zero tile size and any cell in `i32` range. */
  lemma GridWorldRoundTrip(c: CityConfig, p: IVec2)
    requires c.tileSize != 0.0
    requires I32Min <= p.x <= I32Max && I32Min <= p.y <= I32Max
    ensures WorldToGrid(c, GridToWorld(c, p)) == p
  {
    var w := GridToWorld(c, p);
    assert w.x / c.tileSize == p.x as real;
    assert w.z / c.tileSize == p.y as real;
    RoundIntegral(p.x);
    RoundIntegral(p.y);
  }

  /** The squared distance from a cell to the city centre. */
  function CenterDistSq(c: CityConfig, p: IVec2): (d: real)
    ensures d >= 0.0
  {
    var dx := p.x as real - c.cityCenter.x;
    var dy := p.y as real - c.cityCenter.y;
    dx * dx + dy * dy
  }

  /** `is_city_center`: the cell's distance to the centre is at most the
      radius, compared through squares (exact for the Euclidean distance). */
  predicate IsCityCenter(c: CityConfig, p: IVec2)
  {
    c.cityCenterRadius >= 0.0 && CenterDistSq(c, p) <= c.cityCenterRadius * c.cityCenterRadius
  }

  /** The square comparison is the distance comparison: for the distance
      `d` (the non-negative square root), `d <= r` exactly when the cell is
      in the centre. */
  lemma CityCenterIffWithinRadius(c: CityConfig, p: IVec2, d: real)
    requires d >= 0.0 && d * d == CenterDistSq(c, p)
    ensures IsCityCenter(c, p) <==> d <= c.cityCenterRadius
  {
    var r := c.cityCenterRadius;
    if d <= r {
      MulMonotone(d, r);
    } else if r >= 0.0 {
      MulStrict(r, d);
    }
  }

  lemma MulMonotone(a: real, b: real)
    requires 0.0 <= a <= b
    ensures a * a <= b * b
  {
    assert a * a <= a * b;
  }

  lemma MulStrict(a: real, b: real)
    requires 0.0 <= a < b
    ensures a * a < b * b
  {
    PositiveMul(b - a, b + a);
    assert (b - a) * (b + a) == b * b - a * a;
  }

  lemma PositiveMul(x: real, y: real)
    requires x > 0.0 && y > 0.0
    ensures x * y > 0.0
  {
  }

  /** `get_building_height`, given the cell's distance `d` to the centre
      (the square root of `CenterDistSq`): skyscraper height `2b + 30` in
      the centre, elsewhere `b` scaled by up to one and a half, less the
      farther from the centre. */
  function GetBuildingHeight(c: CityConfig, p: IVec2, base: real, d: real): (h: real)
    requires d >= 0.0 && d * d == CenterDistSq(c, p)
    requires IsCityCenter(c, p) || c.gridSize.x != 0
    ensures IsCityCenter(c, p) ==> h == base * 2.0 + 30.0
    ensures !IsCityCenter(c, p) && base >= 0.0 && c.gridSize.x > 0 ==> h <= base * 1.5
  {
    if IsCityCenter(c, p) then base * 2.0 + 30.0
    else
      var factor := 1.0 - d / (c.gridSize.x as real * 0.5);
      FactorBound(d, c.gridSize.x as real * 0.5, base);
      base * (1.0 + factor * 0.5)
  }

  lemma FactorBound(d: real, half: real, base: real)
    requires d >= 0.0 && half != 0.0
    ensures half > 0.0 && base >= 0.0 ==> base * (1.0 + (1.0 - d / half) * 0.5) <= base * 1.5
  {
    if half > 0.0 && base >= 0.0 {
      var q := d / half;
      assert q * half == d;
      assert q >= 0.0;
      assert base * (1.0 + (1.0 - q) * 0.5) == base * 1.5 - base * q * 0.5;
      assert base * q >= 0.0;
    }
  }

  /** For the same base height, a centre building is always the tallest. */
  lemma CenterIsTallest(c: CityConfig, inner: IVec2, outer: IVec2, base: real, dIn: real, dOut: real)
    requires base >= 0.0 && c.gridSize.x > 0
    requires dIn >= 0.0 && dIn * dIn == CenterDistSq(c, inner) && IsCityCenter(c, inner)
    requires dOut >= 0.0 && dOut * dOut == CenterDistSq(c, outer) && !IsCityCenter(c, outer)
    ensures GetBuildingHeight(c, inner, base, dIn) > GetBuildingHeight(c, outer, base, dOut)
  {
  }

  /** Outside the centre a building is taller the nearer it stands to the
      centre: for the same base height, a cell farther out never gets a
      greater height. */
  lemma HeightFallsWithDistance(c: CityConfig, near: IVec2, far: IVec2, base: real, dNear: real, dFar: real)
    requires base >= 0.0 && c.gridSize.x > 0
    requires dNear >= 0.0 && dNear * dNear == CenterDistSq(c, near) && !IsCityCenter(c, near)
    requires dFar >= 0.0 && dFar * dFar == CenterDistSq(c, far) && !IsCityCenter(c, far)
    requires dNear <= dFar
    ensures GetBuildingHeight(c, near, base, dNear) >= GetBuildingHeight(c, far, base, dFar)
  {
    var half := c.gridSize.x as real * 0.5;
    QuotientMonotone(dNear, dFar, half);
    var qn := dNear / half;
    var qf := dFar / half;
    assert GetBuildingHeight(c, near, base, dNear) == base * (1.0 + (1.0 - qn) * 0.5);
    assert GetBuildingHeight(c, far, base, dFar) == base * (1.0 + (1.0 - qf) * 0.5);
    NonNegMul(base, qf - qn);
    assert base * (1.0 + (1.0 - qn) * 0.5) - base * (1.0 + (1.0 - qf) * 0.5) == base * (qf - qn) * 0.5;
  }

  lemma NonNegMul(x: real, y: real)
    requires x >= 0.0 && y >= 0.0
    ensures x * y >= 0.0
  {
  }

  lemma QuotientMonotone(a: real, b: real, half: real)
    requires 0.0 <= a <= b && half > 0.0
    ensures a / half <= b / half
  {
    var qa := a / half;
    var qb := b / half;
    assert qa * half == a && qb * half == b;
    assert (qb - qa) * half == b - a;
  }

  /** The inclusive sector test shared by the three queries. */
  predicate InSector(p: IVec2, lo: IVec2, hi: IVec2)
  {
    lo.x <= p.x <= hi.x && lo.y <= p.y <= hi.y
  }

  /** The entries of a layout map whose cell lies in the sector. */
  function EntriesInSector<V>(m: map<IVec2, V>, lo: IVec2, hi: IVec2): (r: map<IVec2, V>)
    ensures forall p :: p in r <==> p in m && InSector(p, lo, hi)
    ensures forall p :: p in r ==> r[p] == m[p]
  {
    map p | p in m && InSector(p, lo, hi) :: m[p]
  }

  /** `get_buildings_in_sector`; the source's list of pairs in hash order is
      a map here. */
  function BuildingsInSector(l: CityLayout, lo: IVec2, hi: IVec2): (r: map<IVec2, BuildingSpec>)
    ensures forall p :: p in r <==> p in l.buildings && InSector(p, lo, hi)
    ensures forall p :: p in r ==> r[p] == l.buildings[p]
  {
    EntriesInSector(l.buildings, lo, hi)
  }

  /** `get_streets_in_sector` */
  function StreetsInSector(l: CityLayout, lo: IVec2, hi: IVec2): (r: map<IVec2, StreetSpec>)
    ensures forall p :: p in r <==> p in l.streets && InSector(p, lo, hi)
    ensures forall p :: p in r ==> r[p] == l.streets[p]
  {
    EntriesInSector(l.streets, lo, hi)
  }

  /** `get_intersections_in_sector` */
  function IntersectionsInSector(l: CityLayout, lo: IVec2, hi: IVec2): (r: map<IVec2, IntersectionSpec>)
    ensures forall p :: p in r <==> p in l.intersections && InSector(p, lo, hi)
    ensures forall p :: p in r ==> r[p] == l.intersections[p]
  {
    EntriesInSector(l.intersections, lo, hi)
  }

  /** Splitting a sector into two along x splits its entries: the two
      halves are disjoint and together give the whole sector. */
  lemma SectorSplit<V>(m: map<IVec2, V>, lo: IVec2, hi: IVec2, mid: int)
    requires lo.x <= mid < hi.x
    ensures var left := EntriesInSector(m, lo, IVec2(mid, hi.y));
      var right := EntriesInSector(m, IVec2(mid + 1, lo.y), hi);
      && left.Keys !! right.Keys
      && left + right == EntriesInSector(m, lo, hi)
  {
    var left := EntriesInSector(m, lo, IVec2(mid, hi.y));
    var right := EntriesInSector(m, IVec2(mid + 1, lo.y), hi);
    var whole := EntriesInSector(m, lo, hi);
    assert (left + right).Keys == whole.Keys;
  }

  /** An empty sector (lower corner past the upper one) holds nothing. */
  lemma EmptySector<V>(m: map<IVec2, V>, lo: IVec2, hi: IVec2)
    requires lo.x > hi.x || lo.y > hi.y
    ensures EntriesInSector(m, lo, hi) == map[]
  {
    assert EntriesInSector(m, lo, hi).Keys == {};
  }

  /** The three prefab categories `register_prefab` accepts. */
  predicate KnownCategory(category: string)
  {
    category == "building" || category == "street" || category == "intersection"
  }

  /** `CityPrefabs`: prefab names to ids per category, and the next id. */
  class CityPrefabs {
    var buildings: map<string, nat>
    var streets: map<string, nat>
    var intersections: map<string, nat>
    var nextId: nat

    /** Every registered id was handed out before the next one. */
    ghost predicate Valid()
      reads this
    {
      && (forall n :: n in buildings ==> buildings[n] < nextId)
      && (forall n :: n in streets ==> streets[n] < nextId)
      && (forall n :: n in intersections ==> intersections[n] < nextId)
    }

    /** `CityPrefabs::default`: empty, ids from 5000. */
    constructor ()
      ensures Valid()
      ensures buildings == map[] && streets == map[] && intersections == map[] && nextId == 5000
    {
      buildings := map[];
      streets := map[];
      intersections := map[];
      nextId := 5000;
    }

    /** `get_prefab_id`: the id registered under the name in the category,
        none for an unknown name or category. */
    function GetPrefabId(category: string, name: string): (id: Option<nat>)
      reads this
      ensures !KnownCategory(category) ==> id == None
      ensures category == "building" ==> (id.Some? <==> name in buildings)
      ensures category == "street" ==> (id.Some? <==> name in streets)
      ensures category == "intersection" ==> (id.Some? <==> name in intersections)
      ensures Valid() && id.Some? ==> id.value < nextId
    {
      if category == "building" then (if name in buildings then Some(buildings[name]) else None)
      else if category == "street" then (if name in streets then Some(streets[name]) else None)
      else if category == "intersection" then (if name in intersections then Some(intersections[name]) else None)
      else None
    }

    /** `register_prefab`: the next id is handed out and recorded under the
        name in the category (replacing an earlier registration of the
        name), and the next id advances; the other categories are
        untouched. An unknown category panics, so callers must name a known
        one. */
    method RegisterPrefab(category: string, name: string) returns (id: nat)
      requires Valid() && KnownCategory(category)
      modifies this
      ensures Valid()
      ensures id == old(nextId) && nextId == id + 1
      ensures GetPrefabId(category, name) == Some(id)
      ensures forall cat, n :: (cat != category || n != name) ==> GetPrefabId(cat, n) == old(GetPrefabId(cat, n))
    {
      id := nextId;
      nextId := nextId + 1;
      if category == "building" {
        buildings := buildings[name := id];
      } else if category == "street" {
        streets := streets[name := id];
      } else {
        intersections := intersections[name := id];
      }
    }
  }

  /** The registry as the city setup fills it: the first two building
      prefabs get 5000 and 5001, the first street prefab 5002, and each is
      found again under its category but not under another. */
  method PrefabExample() returns (residential: Option<nat>, commercial: Option<nat>, main: Option<nat>, wrong: Option<nat>)
    ensures residential == Some(5000) && commercial == Some(5001) && main == Some(5002) && wrong == None
  {
    var prefabs := new CityPrefabs();
    var a := prefabs.RegisterPrefab("building", "building_residential");
    var b := prefabs.RegisterPrefab("building", "building_commercial");
    var c := prefabs.RegisterPrefab("street", "street_main");
    residential := prefabs.GetPrefabId("building", "building_residential");
    commercial := prefabs.GetPrefabId("building", "building_commercial");
    main := prefabs.GetPrefabId("street", "street_main");
    wrong := prefabs.GetPrefabId("street", "building_residential");
  }

  /** The default centre: cell (50, 50) and cell (62, 66) (distance 20)
      are in it, cell (63, 66) is not. */
  lemma CityCenterExamples()
    ensures IsCityCenter(DefaultCityConfig(), IVec2(50, 50))
    ensures IsCityCenter(DefaultCityConfig(), IVec2(62, 66))
    ensures !IsCityCenter(DefaultCityConfig(), IVec2(63, 66))
  {
  }
}
