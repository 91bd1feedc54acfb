/** The road entity map: which ECS entity holds each road and each
    intersection, so that meshes generated later can be attached to the
    right entity, with insertion, removal and failed-lookup statistics.
    Ids (`u32`) and entities are naturals; the statistics counters (`u64`)
    are unbounded. */
module RoadResources {
  import opened Common
  import RoadNetworks

  /** The mappings whose entity still exists. */
  function KeepExisting(m: map<nat, nat>, existing: set<nat>): (r: map<nat, nat>)
    ensures r.Keys <= m.Keys
    ensures forall k :: k in r <==> k in m && m[k] in existing
    ensures forall k :: k in r ==> r[k] == m[k]
  {
    map k | k in m && m[k] in existing :: m[k]
  }

  /** Cleaning up twice removes nothing more. */
  lemma KeepExistingIdempotent(m: map<nat, nat>, existing: set<nat>)
    ensures KeepExisting(KeepExisting(m, existing), existing) == KeepExisting(m, existing)
  {
  }

  /** When every entity exists, nothing is removed; when none does,
      everything is. */
  lemma KeepExistingExtremes(m: map<nat, nat>, existing: set<nat>)
    ensures m.Values <= existing ==> KeepExisting(m, existing) == m
    ensures existing == {} ==> KeepExisting(m, existing) == map[]
  {
    if m.Values <= existing {
      forall k | k in m ensures m[k] in existing {
        assert m[k] in m.Values;
      }
    }
  }

  /** Collecting the ids to remove (the first loop of the cleanup): every id
      whose entity is missing from `existing`, each once. */
  method StaleIds(m: map<nat, nat>, existing: set<nat>) returns (ids: seq<nat>)
    ensures RoadNetworks.NoDuplicates(ids)
    ensures forall k :: k in ids <==> k in m && m[k] !in existing
    ensures |ids| + |KeepExisting(m, existing)| == |m|
  {
    ids := [];
    var keys := m.Keys;
    ghost var kept: set<nat> := {};
    while keys != {}
      invariant keys <= m.Keys
      invariant RoadNetworks.NoDuplicates(ids)
      invariant forall k :: k in ids <==> k in m && k !in keys && m[k] !in existing
      invariant kept == (set k | k in m && k !in keys && m[k] in existing)
      invariant |ids| + |kept| + |keys| == |m|
      decreases keys
    {
      var k :| k in keys;
      if m[k] !in existing {
        ids := ids + [k];
      } else {
        kept := kept + {k};
      }
      keys := keys - {k};
    }
    assert kept == KeepExisting(m, existing).Keys;
  }

  /** `RoadEntityMap` with its `RoadEntityMapStats`. */
  class RoadEntityMap {
    var roadEntities: map<nat, nat>
    var intersectionEntities: map<nat, nat>
    var totalRoads: nat
    var totalIntersections: nat
    var insertions: nat
    var removals: nat
    var lookupFailures: nat

    /** The two totals are the sizes of the two maps. */
    ghost predicate Valid()
      reads this
    {
      totalRoads == |roadEntities| && totalIntersections == |intersectionEntities|
    }

    /** `new` (and `with_capacity`, whose capacities are not modelled). */
    constructor ()
      ensures Valid()
      ensures roadEntities == map[] && intersectionEntities == map[]
      ensures insertions == 0 && removals == 0 && lookupFailures == 0
    {
      roadEntities, intersectionEntities := map[], map[];
      totalRoads, totalIntersections := 0, 0;
      insertions, removals, lookupFailures := 0, 0, 0;
    }

    /** `insert_road`: the id now maps to the entity (replacing any earlier
        one); every call counts as an insertion. */
    method InsertRoad(id: nat, entity: nat)
      modifies this`roadEntities, this`totalRoads, this`insertions
      ensures roadEntities == old(roadEntities)[id := entity]
      ensures totalRoads == |roadEntities| && insertions == old(insertions) + 1
    {
      roadEntities := roadEntities[id := entity];
      totalRoads := |roadEntities|;
      insertions := insertions + 1;
    }

    /** `insert_intersection` */
    method InsertIntersection(id: nat, entity: nat)
      modifies this`intersectionEntities, this`totalIntersections, this`insertions
      ensures intersectionEntities == old(intersectionEntities)[id := entity]
      ensures totalIntersections == |intersectionEntities| && insertions == old(insertions) + 1
    {
      intersectionEntities := intersectionEntities[id := entity];
      totalIntersections := |intersectionEntities|;
      insertions := insertions + 1;
    }

    /** `get_road_entity`: the mapped entity, or none and one more failed
        lookup. */
    method GetRoadEntity(id: nat) returns (entity: Option<nat>)
      modifies this`lookupFailures
      ensures entity.Some? <==> ContainsRoad(id)
      ensures id in roadEntities ==> entity == Some(roadEntities[id]) && lookupFailures == old(lookupFailures)
      ensures id !in roadEntities ==> entity == None && lookupFailures == old(lookupFailures) + 1
    {
      if id in roadEntities {
        entity := Some(roadEntities[id]);
      } else {
        lookupFailures := lookupFailures + 1;
        entity := None;
      }
    }

    /** `get_intersection_entity` */
    method GetIntersectionEntity(id: nat) returns (entity: Option<nat>)
      modifies this`lookupFailures
      ensures entity.Some? <==> ContainsIntersection(id)
      ensures id in intersectionEntities ==>
        entity == Some(intersectionEntities[id]) && lookupFailures == old(lookupFailures)
      ensures id !in intersectionEntities ==> entity == None && lookupFailures == old(lookupFailures) + 1
    {
      if id in intersectionEntities {
        entity := Some(intersectionEntities[id]);
      } else {
        lookupFailures := lookupFailures + 1;
        entity := None;
      }
    }

    /** `remove_road`: a present id is removed, returned and counted; an
        absent one changes nothing. */
    method RemoveRoad(id: nat) returns (removed: Option<nat>)
      requires Valid()
      modifies this`roadEntities, this`totalRoads, this`removals
      ensures Valid()
      ensures id in old(roadEntities) ==>
        && removed == Some(old(roadEntities)[id])
        && roadEntities == old(roadEntities) - {id}
        && |roadEntities| == |old(roadEntities)| - 1
        && removals == old(removals) + 1
      ensures id !in old(roadEntities) ==>
        removed == None && roadEntities == old(roadEntities) && removals == old(removals)
    {
      if id in roadEntities {
        removed := Some(roadEntities[id]);
        roadEntities := roadEntities - {id};
        totalRoads := |roadEntities|;
        removals := removals + 1;
      } else {
        removed := None;
      }
    }

    /** `remove_intersection` */
    method RemoveIntersection(id: nat) returns (removed: Option<nat>)
      requires Valid()
      modifies this`intersectionEntities, this`totalIntersections, this`removals
      ensures Valid()
      ensures id in old(intersectionEntities) ==>
        && removed == Some(old(intersectionEntities)[id])
        && intersectionEntities == old(intersectionEntities) - {id}
        && |intersectionEntities| == |old(intersectionEntities)| - 1
        && removals == old(removals) + 1
      ensures id !in old(intersectionEntities) ==>
        removed == None && intersectionEntities == old(intersectionEntities) && removals == old(removals)
    {
      if id in intersectionEntities {
        removed := Some(intersectionEntities[id]);
        intersectionEntities := intersectionEntities - {id};
        totalIntersections := |intersectionEntities|;
        removals := removals + 1;
      } else {
        removed := None;
      }
    }

    /** `contains_road`: a tracked road means a non-zero road total. */
    function ContainsRoad(id: nat): (b: bool)
      reads this
      ensures Valid() && b ==> totalRoads > 0
    {
      id in roadEntities
    }

    /** `contains_intersection`: a tracked intersection means a non-zero
        intersection total. */
    function ContainsIntersection(id: nat): (b: bool)
      reads this
      ensures Valid() && b ==> totalIntersections > 0
    {
      id in intersectionEntities
    }

    /** `clear`: both maps emptied, their sizes added to the removals. */
    method Clear()
      modifies this`roadEntities, this`intersectionEntities, this`totalRoads, this`totalIntersections, this`removals
      ensures Valid()
      ensures roadEntities == map[] && intersectionEntities == map[]
      ensures removals == old(removals) + |old(roadEntities)| + |old(intersectionEntities)|
    {
      var removedRoads := |roadEntities|;
      var removedIntersections := |intersectionEntities|;
      roadEntities, intersectionEntities := map[], map[];
      totalRoads, totalIntersections := 0, 0;
      removals := removals + (removedRoads + removedIntersections);
    }

    /** `cleanup_invalid_entities_with_set` (and `cleanup_invalid_entities`,
        with the world's live entities as the set): exactly the mappings
        whose entity is not in the set are removed, each counted once. */
    method CleanupInvalidEntities(existing: set<nat>)
      requires Valid()
      modifies this`roadEntities, this`intersectionEntities, this`totalRoads, this`totalIntersections, this`removals
      ensures Valid()
      ensures roadEntities == KeepExisting(old(roadEntities), existing)
      ensures intersectionEntities == KeepExisting(old(intersectionEntities), existing)
      ensures removals == old(removals) + (|old(roadEntities)| - |roadEntities|)
                                        + (|old(intersectionEntities)| - |intersectionEntities|)
    {
      var roadsToRemove := StaleIds(roadEntities, existing);
      var intersectionsToRemove := StaleIds(intersectionEntities, existing);
      ghost var roads0 := roadEntities;
      RemoveRoads(roadsToRemove);
      assert roadEntities == KeepExisting(roads0, existing);
      ghost var intersections0 := intersectionEntities;
      RemoveIntersections(intersectionsToRemove);
      assert intersectionEntities == KeepExisting(intersections0, existing);
    }

    /** The second loop of the cleanup for roads: every listed id, all of
        them present and distinct, removed through `remove_road`. */
    method RemoveRoads(ids: seq<nat>)
      requires Valid()
      requires RoadNetworks.NoDuplicates(ids) && forall k :: k in ids ==> k in roadEntities
      modifies this`roadEntities, this`totalRoads, this`removals
      ensures Valid()
      ensures forall k :: k in roadEntities <==> k in old(roadEntities) && k !in ids
      ensures forall k :: k in roadEntities ==> roadEntities[k] == old(roadEntities)[k]
      ensures |roadEntities| + |ids| == |old(roadEntities)| && removals == old(removals) + |ids|
    {
      var i := 0;
      while i < |ids|
        invariant 0 <= i <= |ids|
        invariant Valid()
        invariant forall k :: k in roadEntities <==> k in old(roadEntities) && k !in ids[..i]
        invariant forall k :: k in roadEntities ==> roadEntities[k] == old(roadEntities)[k]
        invariant |roadEntities| + i == |old(roadEntities)|
        invariant removals == old(removals) + i
      {
        assert ids[i] !in ids[..i];
        assert ids[..i + 1] == ids[..i] + [ids[i]];
        var _ := RemoveRoad(ids[i]);
        i := i + 1;
      }
      assert ids[..i] == ids;
    }

    /** The same loop for intersections, through `remove_intersection`. */
    method RemoveIntersections(ids: seq<nat>)
      requires Valid()
      requires RoadNetworks.NoDuplicates(ids) && forall k :: k in ids ==> k in intersectionEntities
      modifies this`intersectionEntities, this`totalIntersections, this`removals
      ensures Valid()
      ensures forall k :: k in intersectionEntities <==> k in old(intersectionEntities) && k !in ids
      ensures forall k :: k in intersectionEntities ==> intersectionEntities[k] == old(intersectionEntities)[k]
      ensures |intersectionEntities| + |ids| == |old(intersectionEntities)| && removals == old(removals) + |ids|
    {
      var i := 0;
      while i < |ids|
        invariant 0 <= i <= |ids|
        invariant Valid()
        invariant forall k :: k in intersectionEntities <==> k in old(intersectionEntities) && k !in ids[..i]
        invariant forall k :: k in intersectionEntities ==> intersectionEntities[k] == old(intersectionEntities)[k]
        invariant |intersectionEntities| + i == |old(intersectionEntities)|
        invariant removals == old(removals) + i
      {
        assert ids[i] !in ids[..i];
        assert ids[..i + 1] == ids[..i] + [ids[i]];
        var _ := RemoveIntersection(ids[i]);
        i := i + 1;
      }
      assert ids[..i] == ids;
    }
  }

  /** The insertion, lookup and clearing tests: road 123 maps to entity 42,
      road 999 is a failed lookup; two roads and two intersections cleared
      count as four removals. */
  method MapExample() returns (found: Option<nat>, missing: Option<nat>, failures: nat, removed: nat)
    ensures found == Some(42) && missing == None && failures == 1 && removed == 4
  {
    found, missing, failures := LookupExample();
    removed := ClearExample();
  }

  /** The insertion and lookup half: road 123 maps to entity 42, and the
      lookup of road 999 fails and is counted. */
  method LookupExample() returns (found: Option<nat>, missing: Option<nat>, failures: nat)
    ensures found == Some(42) && missing == None && failures == 1
  {
    var m := new RoadEntityMap();
    m.InsertRoad(123, 42);
    found := m.GetRoadEntity(123);
    missing := m.GetRoadEntity(999);
    failures := m.lookupFailures;
  }

  /** The clearing half: two roads and two intersections cleared count as
      four removals. */
  method ClearExample() returns (removed: nat)
    ensures removed == 4
  {
    var c := new RoadEntityMap();
    c.InsertRoad(1, 10);
    c.InsertRoad(2, 20);
    c.InsertIntersection(10, 100);
    c.InsertIntersection(20, 200);
    assert c.roadEntities.Keys == {1, 2} && c.intersectionEntities.Keys == {10, 20};
    c.Clear();
    removed := c.removals;
  }

  /** The removal test: a removed road is returned once, counted once, and a
      second removal finds nothing. */
  method RemovalExample() returns (first: Option<nat>, second: Option<nat>, removals: nat, stillThere: bool)
    ensures first == Some(99) && second == None && removals == 1 && !stillThere
  {
    var m := new RoadEntityMap();
    m.InsertRoad(789, 99);
    first := m.RemoveRoad(789);
    removals := m.removals;
    stillThere := m.ContainsRoad(789);
    second := m.RemoveRoad(789);
  }
}
