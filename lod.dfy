/** Render level of detail: an entity's levels sorted by switch distance,
    the level chosen for a camera distance (with hysteresis once a distance
    has been seen), change tracking and the cross-fade between the old and
    the new level. Meshes and materials are opaque handles, here naturals. */
module LevelOfDetail {
  import opened Common

  /** `LodLevel`: the distance up to which the level is used, its mesh and
      an optional material override. */
  datatype LodLevel = LodLevel(distance: real, mesh: nat, material: Option<nat>)

  function LevelDistance(l: LodLevel): real
  {
    l.distance
  }

  /** The highest index, or 0 for no levels (`len().saturating_sub(1)`). */
  function LastIndex(levels: seq<LodLevel>): nat
  {
    if levels == [] then 0 else |levels| - 1
  }

  /** The lookup loop from index `i` on: the first level whose distance is
      at least `d`, else the last level. */
  function SelectFrom(levels: seq<LodLevel>, d: real, i: nat): (r: nat)
    requires i <= |levels|
    ensures r <= LastIndex(levels)
    ensures i < |levels| ==> i <= r
    ensures forall j :: i <= j < r && j < |levels| ==> levels[j].distance < d
    ensures r < LastIndex(levels) ==> d <= levels[r].distance
    ensures (exists j :: i <= j < |levels| && d <= levels[j].distance) ==> d <= levels[r].distance
    decreases |levels| - i
  {
    if i == |levels| then LastIndex(levels)
    else if d <= levels[i].distance then i
    else SelectFrom(levels, d, i + 1)
  }

  /** `get_lod_for_distance_simple` as a function. */
  function SelectLod(levels: seq<LodLevel>, d: real): (r: nat)
    ensures r <= LastIndex(levels)
    ensures forall j :: 0 <= j < r ==> levels[j].distance < d
    ensures (exists j :: 0 <= j < |levels| && d <= levels[j].distance) ==> d <= levels[r].distance
    ensures (forall j :: 0 <= j < |levels| ==> levels[j].distance < d) ==> r == LastIndex(levels)
  {
    SelectFrom(levels, d, 0)
  }

  /** With levels sorted by distance, a farther camera never selects a
      more detailed level. */
  lemma {:induction false} SelectFromMonotone(levels: seq<LodLevel>, d1: real, d2: real, i: nat)
    requires SortedBy(levels, LevelDistance) && i <= |levels| && d1 <= d2
    ensures SelectFrom(levels, d1, i) <= SelectFrom(levels, d2, i)
    decreases |levels| - i
  {
    if i < |levels| && levels[i].distance < d1 {
      SelectFromMonotone(levels, d1, d2, i + 1);
    }
  }

  lemma SelectLodMonotone(levels: seq<LodLevel>, d1: real, d2: real)
    requires SortedBy(levels, LevelDistance) && d1 <= d2
    ensures SelectLod(levels, d1) <= SelectLod(levels, d2)
  {
    SelectFromMonotone(levels, d1, d2, 0);
  }

  /** The distance the hysteresis lookup uses: the plain distance on the
      first call (no distance seen, `last_distance == 0`), pushed outward
      when moving away and inward when moving closer. */
  function AdjustedDistance(lastDistance: real, distance: real, hysteresis: real): (a: real)
    ensures lastDistance == 0.0 ==> a == distance
    ensures lastDistance != 0.0 && distance > lastDistance ==> a == distance + hysteresis
    ensures lastDistance != 0.0 && distance <= lastDistance ==> a == distance - hysteresis
  {
    if lastDistance == 0.0 then distance
    else if distance > lastDistance then distance + hysteresis
    else distance - hysteresis
  }

  /** With sorted levels and a non-negative hysteresis, moving away never
      selects a more detailed level than the plain lookup, and moving closer
      never a less detailed one: the band between the two is where the
      current level is kept. */
  lemma HysteresisDirection(levels: seq<LodLevel>, lastDistance: real, distance: real, hysteresis: real)
    requires SortedBy(levels, LevelDistance) && hysteresis >= 0.0 && lastDistance != 0.0
    ensures distance > lastDistance ==>
      SelectLod(levels, distance) <= SelectLod(levels, AdjustedDistance(lastDistance, distance, hysteresis))
    ensures distance <= lastDistance ==>
      SelectLod(levels, AdjustedDistance(lastDistance, distance, hysteresis)) <= SelectLod(levels, distance)
  {
    var a := AdjustedDistance(lastDistance, distance, hysteresis);
    if distance > lastDistance {
      SelectLodMonotone(levels, distance, a);
    } else {
      SelectLodMonotone(levels, a, distance);
    }
  }

  /** `LodGroup` */
  class LodGroup {
    var levels: seq<LodLevel>
    var currentLod: nat
    var previousLod: nat
    var hysteresis: real
    var lastDistance: real
    var crossFadeFactor: real
    var crossFadeDuration: real

    /** Levels sorted by distance, both indices within them (or 0 for no
        levels), and the cross-fade factor at most 1. */
    ghost predicate Valid()
      reads this
    {
      && SortedBy(levels, LevelDistance)
      && currentLod <= LastIndex(levels) && previousLod <= LastIndex(levels)
      && crossFadeFactor <= 1.0
    }

    /** `LodGroup::new`: the levels sorted by distance (closest first),
        both indices 0, 8 m hysteresis and a 0.3 s cross-fade. */
    constructor (given: seq<LodLevel>)
      ensures Valid()
      ensures multiset(levels) == multiset(given) && |levels| == |given|
      ensures SortedBy(given, LevelDistance) ==> levels == given
      ensures currentLod == 0 && previousLod == 0 && lastDistance == 0.0 && crossFadeFactor == 0.0
      ensures hysteresis == 8.0 && crossFadeDuration == 0.3
    {
      levels := SortBy(given, LevelDistance);
      if SortedBy(given, LevelDistance) {
        SortBySorted(given, LevelDistance);
      }
      currentLod, previousLod := 0, 0;
      hysteresis := 8.0;
      lastDistance := 0.0;
      crossFadeFactor := 0.0;
      crossFadeDuration := 0.3;
    }

    /** `with_hysteresis` */
    method WithHysteresis(h: real)
      modifies this`hysteresis
      ensures hysteresis == h
    {
      hysteresis := h;
    }

    /** `with_cross_fade_duration` */
    method WithCrossFadeDuration(duration: real)
      modifies this`crossFadeDuration
      ensures crossFadeDuration == duration
    {
      crossFadeDuration := duration;
    }

    /** `get_lod_for_distance_simple`: the first level whose distance is at
        least `d`, else the last. */
    method LodForDistanceSimple(d: real) returns (index: nat)
      ensures index == SelectLod(levels, d)
    {
      var i := 0;
      while i < |levels|
        invariant 0 <= i <= |levels|
        invariant SelectFrom(levels, d, i) == SelectLod(levels, d)
      {
        if d <= levels[i].distance {
          return i;
        }
        i := i + 1;
      }
      index := LastIndex(levels);
    }

    /** `get_lod_for_distance`: the same lookup on the adjusted distance. */
    method LodForDistance(d: real) returns (index: nat)
      ensures index == SelectLod(levels, AdjustedDistance(lastDistance, d, hysteresis))
      ensures lastDistance == 0.0 ==> index == SelectLod(levels, d)
    {
      index := LodForDistanceSimple(AdjustedDistance(lastDistance, d, hysteresis));
    }

    /** `update_lod`: true exactly when the selected level differs from the
        current one; then the old level becomes the previous one and the
        cross-fade restarts. The distance is remembered either way. */
    method UpdateLod(d: real) returns (changed: bool)
      requires Valid()
      modifies this`currentLod, this`previousLod, this`crossFadeFactor, this`lastDistance
      ensures Valid()
      ensures var target := SelectLod(levels, AdjustedDistance(old(lastDistance), d, hysteresis));
        && (changed <==> target != old(currentLod))
        && currentLod == target
        && (changed ==> previousLod == old(currentLod) && crossFadeFactor == 0.0)
        && (!changed ==> previousLod == old(previousLod) && crossFadeFactor == old(crossFadeFactor))
      ensures lastDistance == d
    {
      var newLod := LodForDistance(d);
      changed := newLod != currentLod;
      if changed {
        previousLod := currentLod;
        currentLod := newLod;
        crossFadeFactor := 0.0;
      }
      lastDistance := d;
    }

    /** `is_cross_fading` */
    predicate IsCrossFading()
      reads this
    {
      currentLod != previousLod && crossFadeFactor < 1.0
    }

    /** `update_cross_fade`: while cross-fading, the factor advances by the
        elapsed fraction of the duration, never beyond 1. */
    method UpdateCrossFade(deltaTime: real)
      requires Valid() && crossFadeDuration > 0.0
      modifies this`crossFadeFactor
      ensures Valid()
      ensures old(IsCrossFading()) ==> crossFadeFactor == Min(old(crossFadeFactor) + deltaTime / crossFadeDuration, 1.0)
      ensures !old(IsCrossFading()) ==> crossFadeFactor == old(crossFadeFactor)
      ensures deltaTime >= 0.0 ==> crossFadeFactor >= old(crossFadeFactor)
    {
      if currentLod != previousLod && crossFadeFactor < 1.0 {
        crossFadeFactor := crossFadeFactor + deltaTime / crossFadeDuration;
        crossFadeFactor := Min(crossFadeFactor, 1.0);
      }
    }

    /** `current_level` */
    function CurrentLevel(): (l: Option<LodLevel>)
      reads this
      ensures l.Some? <==> currentLod < |levels|
      ensures l.Some? ==> l.value == levels[currentLod]
    {
      if currentLod < |levels| then Some(levels[currentLod]) else None
    }

    /** `get_batch_key`: the current level's mesh with its own material, or
        the base material when it has none; nothing without a level. */
    function BatchKey(baseMaterial: nat): (k: Option<(nat, nat)>)
      reads this
      ensures k.Some? <==> currentLod < |levels|
      ensures k.Some? ==> k.value.0 == levels[currentLod].mesh
      ensures k.Some? && levels[currentLod].material.None? ==> k.value.1 == baseMaterial
    {
      match CurrentLevel()
      case None => None
      case Some(level) =>
        Some((level.mesh, if level.material.Some? then level.material.value else baseMaterial))
    }
  }

  /** The hysteresis test: levels at 20 and 50 with 5 m hysteresis; 15
      selects level 0, 26 (moving away) level 1, 18 (moving closer) level 0
      and 22 (moving away) level 1. */
  method HysteresisExample() returns (a: nat, b: nat, c: nat, d: nat)
    ensures a == 0 && b == 1 && c == 0 && d == 1
  {
    var l0, l1 := LodLevel(20.0, 1, None), LodLevel(50.0, 2, None);
    assert SortedBy([l0, l1], LevelDistance);
    var g := new LodGroup([l0, l1]);
    g.WithHysteresis(5.0);
    var _ := g.UpdateLod(15.0);
    a := g.currentLod;
    var _ := g.UpdateLod(26.0);
    b := g.currentLod;
    var _ := g.UpdateLod(18.0);
    c := g.currentLod;
    var _ := g.UpdateLod(22.0);
    d := g.currentLod;
  }

  /** The change-tracking and cross-fade tests: the first update at 15 m
      changes nothing; 35 m switches from level 0 to 1 and starts the
      cross-fade, which with a 1 s duration reaches 0.3 after 0.3 s and
      completes after 0.7 s more. */
  method CrossFadeExample() returns (first: bool, second: bool, previous: nat, fadeMid: real, fadeEnd: real, fading: bool)
    ensures !first && second && previous == 0 && fadeMid == 0.3 && fadeEnd == 1.0 && !fading
  {
    var g;
    g, first, second := SwitchExample();
    previous := g.previousLod;
    g.UpdateCrossFade(0.3);
    fadeMid := g.crossFadeFactor;
    assert fadeMid == 0.3 by {
      assert 0.3 / 1.0 == 0.3;
    }
    g.UpdateCrossFade(0.7);
    fadeEnd := g.crossFadeFactor;
    assert fadeEnd == 1.0 by {
      assert 0.7 / 1.0 == 0.7;
    }
    fading := g.IsCrossFading();
  }

  /** The first half of the cross-fade example: a group with levels at 20
      and 50 m and a 1 s cross-fade, updated at 15 m and then at 35 m,
      has switched from level 0 to level 1 with the fade just started. */
  method SwitchExample() returns (g: LodGroup, first: bool, second: bool)
    ensures fresh(g) && g.Valid()
    ensures g.currentLod == 1 && g.previousLod == 0 && g.crossFadeFactor == 0.0 && g.crossFadeDuration == 1.0
    ensures !first && second
  {
    var l0, l1 := LodLevel(20.0, 1, None), LodLevel(50.0, 2, None);
    assert SortedBy([l0, l1], LevelDistance);
    CrossFadeSelections(l0, l1);
    g := new LodGroup([l0, l1]);
    g.WithCrossFadeDuration(1.0);
    first := g.UpdateLod(15.0);
    second := g.UpdateLod(35.0);
  }

  /** The levels the cross-fade example selects: 15 m from a fresh group
      is level 0, and 35 m after 15 m, with 8 m hysteresis, is level 1. */
  lemma CrossFadeSelections(l0: LodLevel, l1: LodLevel)
    requires l0 == LodLevel(20.0, 1, None) && l1 == LodLevel(50.0, 2, None)
    ensures SelectLod([l0, l1], AdjustedDistance(0.0, 15.0, 8.0)) == 0
    ensures SelectLod([l0, l1], AdjustedDistance(15.0, 35.0, 8.0)) == 1
  {
    assert SelectFrom([l0, l1], 43.0, 1) == 1;
  }

  /** The multiple-transitions test on the selection itself: levels at 10,
      30, 60 and 100 with 2 m hysteresis; moving out through 5, 25, 55 and
      95 m selects levels 0, 1, 2 and 3. */
  lemma TransitionsExample()
    ensures var ls := [LodLevel(10.0, 1, None), LodLevel(30.0, 2, None), LodLevel(60.0, 3, None), LodLevel(100.0, 4, None)];
      && SelectLod(ls, AdjustedDistance(0.0, 5.0, 2.0)) == 0
      && SelectLod(ls, AdjustedDistance(5.0, 25.0, 2.0)) == 1
      && SelectLod(ls, AdjustedDistance(25.0, 55.0, 2.0)) == 2
      && SelectLod(ls, AdjustedDistance(55.0, 95.0, 2.0)) == 3
  {
    var ls := [LodLevel(10.0, 1, None), LodLevel(30.0, 2, None), LodLevel(60.0, 3, None), LodLevel(100.0, 4, None)];
    assert SelectFrom(ls, 27.0, 1) == 1;
    assert SelectFrom(ls, 57.0, 2) == 2 && SelectFrom(ls, 57.0, 1) == 2;
    assert SelectFrom(ls, 97.0, 3) == 3 && SelectFrom(ls, 97.0, 2) == 3 && SelectFrom(ls, 97.0, 1) == 3;
  }
}
