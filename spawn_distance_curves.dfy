/** Distance curves for spawn decisions: each entity type has a curve of
    knots (distance, probability), the spawn probability at a distance is
    read off the curve by linear interpolation between the two knots
    around it and held at the end values outside, and a simple distance
    test stands in for the occlusion query. Distances are given; the
    length of a position vector is not computed here. */
module SpawnDistanceCurves {
  import SpawnBudget

  /** `DistanceCurve` */
  datatype DistanceCurve = DistanceCurve(distances: seq<real>, probabilities: seq<real>)

  /** `DistanceCurveConfig` */
  datatype DistanceCurveConfig = DistanceCurveConfig(
    buildingCurve: DistanceCurve, vehicleCurve: DistanceCurve, npcCurve: DistanceCurve,
    treeCurve: DistanceCurve, particleCurve: DistanceCurve)

  /** A curve the interpolation can read without failing: a probability
      for every distance, and no two neighbouring knots at the same
      distance (the segment between them would divide by zero). */
  predicate Readable(c: DistanceCurve)
  {
    && |c.probabilities| >= |c.distances|
    && forall i :: 0 <= i < |c.distances| - 1 ==> c.distances[i] != c.distances[i + 1]
  }

  /** The curve gives no answer of its own: either list is empty. */
  predicate Blank(c: DistanceCurve)
  {
    |c.distances| == 0 || |c.probabilities| == 0
  }

  /** Every knot's probability lies in [0, 1]. */
  predicate ProbabilitiesInUnitRange(c: DistanceCurve)
  {
    forall k :: 0 <= k < |c.probabilities| ==> 0.0 <= c.probabilities[k] <= 1.0
  }

  /** The value at `x` on the straight line from (d0, p0) to (d1, p1). */
  function Segment(d0: real, d1: real, p0: real, p1: real, x: real): real
    requires d0 != d1
  {
    p0 + (x - d0) / (d1 - d0) * (p1 - p0)
  }

  /** At its ends the line takes the knots' values, and between them it
      stays between the two values. */
  lemma SegmentFacts(d0: real, d1: real, p0: real, p1: real, x: real)
    requires d0 < d1 && d0 <= x <= d1
    ensures x == d0 ==> Segment(d0, d1, p0, p1, x) == p0
    ensures x == d1 ==> Segment(d0, d1, p0, p1, x) == p1
    ensures p0 <= p1 ==> p0 <= Segment(d0, d1, p0, p1, x) <= p1
    ensures p1 <= p0 ==> p1 <= Segment(d0, d1, p0, p1, x) <= p0
  {
    var t := (x - d0) / (d1 - d0);
    UnitRatio(x - d0, d1 - d0);
    if x == d1 {
      DivSelf(d1 - d0);
      OneTimes(t, p1 - p0);
    }
    if p0 <= p1 {
      ScaledWithin(t, p1 - p0);
    } else {
      ScaledWithin(t, p0 - p1);
      assert t * (p1 - p0) == -(t * (p0 - p1));
    }
  }

  lemma DivSelf(a: real)
    requires a != 0.0
    ensures a / a == 1.0
  {}

  lemma OneTimes(t: real, w: real)
    requires t == 1.0
    ensures t * w == w
  {}

  lemma UnitRatio(a: real, b: real)
    requires 0.0 <= a <= b && b > 0.0
    ensures 0.0 <= a / b <= 1.0
  {
    var t := a / b;
    assert t * b == a;
    MulMono(t, 0.0, b);
    MulMono(1.0, t, b);
  }

  /** Multiplying by a positive factor keeps a strict order both ways. */
  lemma MulMono(u: real, v: real, q: real)
    requires q > 0.0
    ensures u < v <==> u * q < v * q
  {
    assert v * q - u * q == (v - u) * q;
    if u < v {
      assert (v - u) * q > 0.0;
    } else {
      assert (u - v) * q >= 0.0;
    }
  }

  /** Dividing by a positive amount keeps a strict bound. */
  lemma DivBelow(a: real, q: real, c: real)
    requires q > 0.0
    ensures a / q < c <==> a < c * q
  {
    var r := a / q;
    assert r * q == a;
    MulMono(r, c, q);
  }

  lemma ScaledWithin(t: real, w: real)
    requires 0.0 <= t <= 1.0 && w >= 0.0
    ensures 0.0 <= t * w <= w
  {
    assert (1.0 - t) * w >= 0.0;
  }

  /** The search loop from segment `i` on: the first segment whose ends
      enclose `x` gives the answer; past the last segment, a distance
      before the first knot takes the first probability and any other the
      last. */
  function CurveFrom(c: DistanceCurve, x: real, i: nat): real
    requires !Blank(c) && Readable(c) && i <= |c.distances| - 1
    decreases |c.distances| - 1 - i
  {
    if i == |c.distances| - 1 then
      if x < c.distances[0] then c.probabilities[0] else c.probabilities[|c.probabilities| - 1]
    else if x >= c.distances[i] && x <= c.distances[i + 1] then
      Segment(c.distances[i], c.distances[i + 1], c.probabilities[i], c.probabilities[i + 1], x)
    else CurveFrom(c, x, i + 1)
  }

  /** `interpolate_distance_curve`: 1 for a blank curve, otherwise the
      search from the first segment. */
  function CurveProbability(c: DistanceCurve, x: real): (p: real)
    requires Blank(c) || Readable(c)
    ensures Blank(c) ==> p == 1.0
  {
    if Blank(c) then 1.0 else CurveFrom(c, x, 0)
  }

  /** `interpolate_distance_curve`, scanning the segments in a loop. */
  method InterpolateDistanceCurve(c: DistanceCurve, x: real) returns (p: real)
    requires Blank(c) || Readable(c)
    ensures p == CurveProbability(c, x)
  {
    if |c.distances| == 0 || |c.probabilities| == 0 {
      return 1.0;
    }
    var i := 0;
    while i < |c.distances| - 1
      invariant 0 <= i <= |c.distances| - 1
      invariant CurveFrom(c, x, i) == CurveProbability(c, x)
    {
      if x >= c.distances[i] && x <= c.distances[i + 1] {
        var t := (x - c.distances[i]) / (c.distances[i + 1] - c.distances[i]);
        return c.probabilities[i] + t * (c.probabilities[i + 1] - c.probabilities[i]);
      }
      i := i + 1;
    }
    if x < c.distances[0] {
      p := c.probabilities[0];
    } else {
      p := c.probabilities[|c.probabilities| - 1];
    }
  }

  /** Knots in strictly increasing distance, one probability each. */
  ghost predicate WellFormed(c: DistanceCurve)
  {
    && |c.distances| == |c.probabilities| && |c.distances| > 0
    && forall i, j :: 0 <= i < j < |c.distances| ==> c.distances[i] < c.distances[j]
  }

  /** On an increasing curve no segment before the one ending at knot `k`
      encloses that knot's distance. */
  lemma {:induction false} SkipTo(c: DistanceCurve, x: real, i: nat, k: nat)
    requires WellFormed(c) && i <= k <= |c.distances| - 1
    requires forall j :: i < j <= k ==> x > c.distances[j]
    decreases k - i
    ensures CurveFrom(c, x, i) == CurveFrom(c, x, k)
  {
    if i < k {
      SkipTo(c, x, i + 1, k);
    }
  }

  /** The curve is exact at its knots. */
  lemma ExactAtKnots(c: DistanceCurve, k: nat)
    requires WellFormed(c) && k < |c.distances|
    ensures CurveProbability(c, c.distances[k]) == c.probabilities[k]
  {
    var d := c.distances;
    var x := d[k];
    if k == 0 {
      if |d| > 1 {
        SegmentFacts(d[0], d[1], c.probabilities[0], c.probabilities[1], x);
      }
    } else {
      SkipTo(c, x, 0, k - 1);
      SegmentFacts(d[k - 1], d[k], c.probabilities[k - 1], c.probabilities[k], x);
    }
  }

  /** Strictly inside or at the right end of segment `k`, the curve is the
      straight line between the segment's knots. */
  lemma LinearBetweenKnots(c: DistanceCurve, k: nat, x: real)
    requires WellFormed(c) && k + 1 < |c.distances|
    requires c.distances[k] < x <= c.distances[k + 1]
    ensures CurveProbability(c, x)
         == Segment(c.distances[k], c.distances[k + 1], c.probabilities[k], c.probabilities[k + 1], x)
  {
    SkipTo(c, x, 0, k);
  }

  /** Before the first knot the curve holds the first probability, and
      past the last it holds the last. */
  lemma ClampedOutside(c: DistanceCurve, x: real)
    requires WellFormed(c)
    ensures x < c.distances[0] ==> CurveProbability(c, x) == c.probabilities[0]
    ensures x > c.distances[|c.distances| - 1] ==> CurveProbability(c, x) == c.probabilities[|c.probabilities| - 1]
  {
    var n := |c.distances|;
    if x < c.distances[0] {
      NoSegmentBelow(c, x, 0);
    } else if x > c.distances[n - 1] {
      SkipTo(c, x, 0, n - 1);
    }
  }

  lemma {:induction false} NoSegmentBelow(c: DistanceCurve, x: real, i: nat)
    requires WellFormed(c) && i <= |c.distances| - 1 && x < c.distances[0]
    decreases |c.distances| - 1 - i
    ensures CurveFrom(c, x, i) == c.probabilities[0]
  {
    if i < |c.distances| - 1 {
      assert c.distances[0] <= c.distances[i];
      NoSegmentBelow(c, x, i + 1);
    }
  }

  /** A probability bound that holds at every knot holds everywhere on the
      curve, for any readable curve. */
  lemma {:induction false} CurveFromWithin(c: DistanceCurve, x: real, i: nat, lo: real, hi: real)
    requires !Blank(c) && Readable(c) && i <= |c.distances| - 1
    requires forall k :: 0 <= k < |c.probabilities| ==> lo <= c.probabilities[k] <= hi
    decreases |c.distances| - 1 - i
    ensures lo <= CurveFrom(c, x, i) <= hi
  {
    if i < |c.distances| - 1 {
      if x >= c.distances[i] && x <= c.distances[i + 1] {
        SegmentFacts(c.distances[i], c.distances[i + 1], c.probabilities[i], c.probabilities[i + 1], x);
      } else {
        CurveFromWithin(c, x, i + 1, lo, hi);
      }
    }
  }

  /** A curve of probabilities in [0, 1] gives a probability in [0, 1]. */
  lemma ProbabilityInUnitRange(c: DistanceCurve, x: real)
    requires Readable(c)
    requires ProbabilitiesInUnitRange(c)
    ensures 0.0 <= CurveProbability(c, x) <= 1.0
  {
    if !Blank(c) {
      CurveFromWithin(c, x, 0, 0.0, 1.0);
    }
  }

  /** The curve test: knots (0, 1), (100, 0.5), (200, 0); exact at the
      knots, 0.75 half way to the second, 0 past the end and 1 before the
      start. */
  lemma CurveExample()
    ensures var c := DistanceCurve([0.0, 100.0, 200.0], [1.0, 0.5, 0.0]);
      && CurveProbability(c, 0.0) == 1.0 && CurveProbability(c, 100.0) == 0.5
      && CurveProbability(c, 200.0) == 0.0 && CurveProbability(c, 50.0) == 0.75
      && CurveProbability(c, 300.0) == 0.0 && CurveProbability(c, -50.0) == 1.0
  {
    var c := DistanceCurve([0.0, 100.0, 200.0], [1.0, 0.5, 0.0]);
    assert WellFormed(c);
    ExactAtKnots(c, 0);
    ExactAtKnots(c, 1);
    ExactAtKnots(c, 2);
    ClampedOutside(c, 300.0);
    ClampedOutside(c, -50.0);
  }

  // ---------------------------------------------------------------------
  // Per entity type

  /** The curve an entity type uses. */
  function CurveFor(curves: DistanceCurveConfig, e: SpawnBudget.EntityType): (c: DistanceCurve)
    ensures e == SpawnBudget.Building ==> c == curves.buildingCurve
    ensures e == SpawnBudget.Vehicle ==> c == curves.vehicleCurve
    ensures e == SpawnBudget.Npc ==> c == curves.npcCurve
    ensures e == SpawnBudget.Tree ==> c == curves.treeCurve
    ensures e == SpawnBudget.Particle ==> c == curves.particleCurve
  {
    match e
    case Building => curves.buildingCurve
    case Vehicle => curves.vehicleCurve
    case Npc => curves.npcCurve
    case Tree => curves.treeCurve
    case Particle => curves.particleCurve
  }

  /** `calculate_distance_spawn_probability`: the entity type's own curve
      read at the distance: certain for a curve without knots, and a
      probability whenever the curve's own probabilities are. */
  function DistanceSpawnProbability(e: SpawnBudget.EntityType, x: real, curves: DistanceCurveConfig): (p: real)
    requires Blank(CurveFor(curves, e)) || Readable(CurveFor(curves, e))
    ensures Blank(CurveFor(curves, e)) ==> p == 1.0
    ensures ProbabilitiesInUnitRange(CurveFor(curves, e)) ==> 0.0 <= p <= 1.0
  {
    var c := CurveFor(curves, e);
    if Readable(c) && ProbabilitiesInUnitRange(c) then
      ProbabilityInUnitRange(c, x);
      CurveProbability(c, x)
    else
      CurveProbability(c, x)
  }

  /** `DistanceCurveConfig::default` */
  function DefaultCurves(): (curves: DistanceCurveConfig)
    ensures WellFormed(curves.buildingCurve) && WellFormed(curves.vehicleCurve) && WellFormed(curves.npcCurve)
    ensures WellFormed(curves.treeCurve) && WellFormed(curves.particleCurve)
  {
    DistanceCurveConfig(
      DistanceCurve([0.0, 100.0, 300.0, 500.0, 1000.0], [1.0, 0.9, 0.7, 0.3, 0.0]),
      DistanceCurve([0.0, 50.0, 150.0, 300.0, 500.0], [1.0, 0.8, 0.5, 0.2, 0.0]),
      DistanceCurve([0.0, 30.0, 100.0, 200.0, 400.0], [1.0, 0.7, 0.4, 0.1, 0.0]),
      DistanceCurve([0.0, 80.0, 200.0, 400.0, 800.0], [1.0, 0.9, 0.8, 0.5, 0.1]),
      DistanceCurve([0.0, 25.0, 75.0, 150.0, 300.0], [1.0, 0.6, 0.3, 0.1, 0.0]))
  }

  /** With the default curves every type spawns for sure at distance 0;
      a building has 0.95 at 50 m, 0.9 at 100 m and 0.12 at 800 m; an NPC
      has 0.4 at 100 m; past 800 m a tree keeps 0.1 while a vehicle has
      none past 500 m. */
  lemma DefaultCurveExamples()
    ensures forall e :: DistanceSpawnProbability(e, 0.0, DefaultCurves()) == 1.0
    ensures DistanceSpawnProbability(SpawnBudget.Building, 50.0, DefaultCurves()) == 0.95
    ensures DistanceSpawnProbability(SpawnBudget.Building, 100.0, DefaultCurves()) == 0.9
    ensures DistanceSpawnProbability(SpawnBudget.Building, 800.0, DefaultCurves()) == 0.12
    ensures DistanceSpawnProbability(SpawnBudget.Npc, 100.0, DefaultCurves()) == 0.4
    ensures DistanceSpawnProbability(SpawnBudget.Tree, 900.0, DefaultCurves()) == 0.1
    ensures DistanceSpawnProbability(SpawnBudget.Vehicle, 600.0, DefaultCurves()) == 0.0
  {
    var d := DefaultCurves();
    forall e ensures DistanceSpawnProbability(e, 0.0, d) == 1.0 {
      ExactAtKnots(CurveFor(d, e), 0);
    }
    ExactAtKnots(d.buildingCurve, 1);
    LinearBetweenKnots(d.buildingCurve, 0, 50.0);
    LinearBetweenKnots(d.buildingCurve, 3, 800.0);
    ExactAtKnots(d.npcCurve, 2);
    ClampedOutside(d.treeCurve, 900.0);
    ClampedOutside(d.vehicleCurve, 600.0);
  }

  // ---------------------------------------------------------------------
  // Occlusion stand-in

  /** `simulate_occlusion_test` on the distance from the camera: visible
      within the query distance, and beyond it while the falling
      visibility `1 - (d - q) / q` stays above 0.3. A query distance of
      zero makes that ratio infinite, so nothing beyond it is visible. */
  function LikelyVisible(distance: real, queryDistance: real): bool
  {
    if distance <= queryDistance then true
    else if queryDistance == 0.0 then false
    else 1.0 - (distance - queryDistance) / queryDistance > 0.3
  }

  /** For a positive query distance, a spawn is approved exactly when it
      is closer than 1.7 times that distance. */
  lemma VisibleIffWithinReach(distance: real, queryDistance: real)
    requires queryDistance > 0.0
    ensures LikelyVisible(distance, queryDistance) <==> distance < 1.7 * queryDistance
  {
    if distance > queryDistance {
      DivBelow(distance - queryDistance, queryDistance, 0.7);
    }
  }

  /** With the default query distance of 500 m, 800 m passes and 850 m
      does not. */
  lemma OcclusionExamples()
    ensures LikelyVisible(800.0, 500.0) && !LikelyVisible(850.0, 500.0)
  {
    VisibleIffWithinReach(800.0, 500.0);
    VisibleIffWithinReach(850.0, 500.0);
  }
}
