/** The save-game format: serialisable copies of transforms and velocities,
    and the consistency check a save must pass before it is written or
    loaded. Floats are reals; the error messages are named by a datatype. */
module Persistence {
  import opened Common

  /** The newest save version this build reads and writes. */
  const SaveVersion: nat := 1
  /** No saved coordinate may exceed this magnitude. */
  const MaxPosition: real := 10000.0
  /** No saved linear velocity component may exceed this magnitude. */
  const MaxVelocity: real := 1000.0

  datatype Quat = Quat(x: real, y: real, z: real, w: real)

  /** Bevy's `Transform`. */
  datatype Transform = Transform(translation: Vec3, rotation: Quat, scale: Vec3)

  /** `SerializableTransform`: translation and scale as three-element arrays,
      the rotation as `[x, y, z, w]`. */
  datatype SaveTransform = SaveTransform(translation: seq<real>, rotation: seq<real>, scale: seq<real>)

  function ToArray(v: Vec3): (a: seq<real>)
    ensures |a| == 3
  {
    [v.x, v.y, v.z]
  }

  function FromArray(a: seq<real>): Vec3
    requires |a| == 3
  {
    Vec3(a[0], a[1], a[2])
  }

  /** A well-formed serialised transform has arrays of the right lengths. */
  predicate WellFormed(t: SaveTransform)
  {
    |t.translation| == 3 && |t.rotation| == 4 && |t.scale| == 3
  }

  /** `From<Transform> for SerializableTransform` */
  function SaveOfTransform(t: Transform): (s: SaveTransform)
    ensures WellFormed(s)
    ensures s.rotation == [t.rotation.x, t.rotation.y, t.rotation.z, t.rotation.w]
  {
    SaveTransform(ToArray(t.translation), [t.rotation.x, t.rotation.y, t.rotation.z, t.rotation.w], ToArray(t.scale))
  }

  /** `From<SerializableTransform> for Transform` */
  function TransformOfSave(s: SaveTransform): Transform
    requires WellFormed(s)
  {
    Transform(FromArray(s.translation), Quat(s.rotation[0], s.rotation[1], s.rotation[2], s.rotation[3]), FromArray(s.scale))
  }

  /** Saving and restoring a transform gives it back, and so does restoring
      and saving a well-formed serialised one. */
  lemma TransformRoundTrip(t: Transform, s: SaveTransform)
    ensures TransformOfSave(SaveOfTransform(t)) == t
    ensures WellFormed(s) ==> SaveOfTransform(TransformOfSave(s)) == s
  {
  }

  /** Rapier's `Velocity`. */
  datatype Velocity = Velocity(linvel: Vec3, angvel: Vec3)

  /** `SerializableVelocity` */
  datatype SaveVelocity = SaveVelocity(linear: seq<real>, angular: seq<real>)

  /** `From<Velocity> for SerializableVelocity` */
  function SaveOfVelocity(v: Velocity): (s: SaveVelocity)
    ensures |s.linear| == 3 && |s.angular| == 3
  {
    SaveVelocity(ToArray(v.linvel), ToArray(v.angvel))
  }

  /** `From<SerializableVelocity> for Velocity` */
  function VelocityOfSave(s: SaveVelocity): Velocity
    requires |s.linear| == 3 && |s.angular| == 3
  {
    Velocity(FromArray(s.linear), FromArray(s.angular))
  }

  /** Saving and restoring a velocity gives it back, and conversely. */
  lemma VelocityRoundTrip(v: Velocity, s: SaveVelocity)
    ensures VelocityOfSave(SaveOfVelocity(v)) == v
    ensures |s.linear| == 3 && |s.angular| == 3 ==> SaveOfVelocity(VelocityOfSave(s)) == s
  {
  }

  /** `PlayerState` */
  datatype PlayerState = Walking | Driving

  /** `SerializablePlayer`, on the fields the check reads. */
  datatype SavedPlayer = SavedPlayer(entityId: nat, position: Vec3, linearVelocity: Vec3, inVehicle: Option<nat>)

  /** `SerializableVehicle`, on the fields the check reads. */
  datatype SavedVehicle = SavedVehicle(entityId: nat, position: Vec3, linearVelocity: Vec3)

  /** `SaveGameState`, on the fields the check reads. */
  datatype SaveGameState = SaveGameState(
    version: nat, playerState: PlayerState, activeEntityId: Option<nat>,
    player: SavedPlayer, vehicles: seq<SavedVehicle>)

  /** The reasons a save is rejected, one per message of `validate`. */
  datatype SaveError =
    | VersionTooNew
    | ActiveEntityNotFound
    | WalkingInVehicle
    | DrivingWithoutVehicle
    | VehicleNotFound
    | InvalidPlayerPosition
    | InvalidPlayerVelocity
    | InvalidVehiclePosition
    | InvalidVehicleVelocity

  datatype Check = Pass | Fail(error: SaveError)

  /** Every component within the limit in magnitude. */
  predicate WithinBounds(v: Vec3, limit: real)
  {
    Abs(v.x) <= limit && Abs(v.y) <= limit && Abs(v.z) <= limit
  }

  /** Some saved vehicle has this id. */
  predicate HasVehicle(vehicles: seq<SavedVehicle>, id: nat)
  {
    exists i :: 0 <= i < |vehicles| && vehicles[i].entityId == id
  }

  /** `vehicles.iter().any(|v| v.entity_id == id)` */
  function AnyVehicle(vehicles: seq<SavedVehicle>, id: nat): (found: bool)
    ensures found <==> HasVehicle(vehicles, id)
  {
    if |vehicles| == 0 then false
    else if vehicles[0].entityId == id then true
    else
      var found := AnyVehicle(vehicles[1..], id);
      assert HasVehicle(vehicles, id) && vehicles[0].entityId != id ==> HasVehicle(vehicles[1..], id) by {
        if HasVehicle(vehicles, id) && vehicles[0].entityId != id {
          var i :| 0 <= i < |vehicles| && vehicles[i].entityId == id;
          assert vehicles[1..][i - 1].entityId == id;
        }
      }
      assert found ==> HasVehicle(vehicles, id) by {
        if found {
          var i :| 0 <= i < |vehicles[1..]| && vehicles[1..][i].entityId == id;
          assert vehicles[i + 1].entityId == id;
        }
      }
      found
  }

  /** The active entity, if any, is the player or a saved vehicle. */
  predicate ActiveFound(s: SaveGameState)
  {
    s.activeEntityId.Some? ==>
      s.player.entityId == s.activeEntityId.value || HasVehicle(s.vehicles, s.activeEntityId.value)
  }

  /** A walking player is in no vehicle; a driving player is in a vehicle
      that was saved. */
  predicate StateConsistent(s: SaveGameState)
  {
    match s.playerState
    case Walking => s.player.inVehicle.None?
    case Driving => s.player.inVehicle.Some? && HasVehicle(s.vehicles, s.player.inVehicle.value)
  }

  predicate VehicleInBounds(v: SavedVehicle)
  {
    WithinBounds(v.position, MaxPosition) && WithinBounds(v.linearVelocity, MaxVelocity)
  }

  /** The vehicle loop from index `i` on: the first vehicle out of bounds
      fails, its position checked before its velocity. */
  function CheckVehicles(vehicles: seq<SavedVehicle>, i: nat): (r: Check)
    requires i <= |vehicles|
    ensures r.Pass? <==> forall j :: i <= j < |vehicles| ==> VehicleInBounds(vehicles[j])
    ensures r.Fail? ==> r.error == InvalidVehiclePosition || r.error == InvalidVehicleVelocity
    ensures r == Fail(InvalidVehiclePosition) ==>
      exists k :: i <= k < |vehicles| && !WithinBounds(vehicles[k].position, MaxPosition)
    ensures r == Fail(InvalidVehicleVelocity) ==>
      exists k :: i <= k < |vehicles| && !WithinBounds(vehicles[k].linearVelocity, MaxVelocity)
    decreases |vehicles| - i
  {
    if i == |vehicles| then Pass
    else if !WithinBounds(vehicles[i].position, MaxPosition) then Fail(InvalidVehiclePosition)
    else if !WithinBounds(vehicles[i].linearVelocity, MaxVelocity) then Fail(InvalidVehicleVelocity)
    else CheckVehicles(vehicles, i + 1)
  }

  /** `SaveGameState::validate`: the checks in order — version, active
      entity, player state, player position, player velocity, then each
      vehicle — and the first that fails names the error. */
  function Validate(s: SaveGameState): (r: Check)
    ensures r.Pass? <==>
      && s.version <= SaveVersion && ActiveFound(s) && StateConsistent(s)
      && WithinBounds(s.player.position, MaxPosition) && WithinBounds(s.player.linearVelocity, MaxVelocity)
      && forall j :: 0 <= j < |s.vehicles| ==> VehicleInBounds(s.vehicles[j])
    ensures r == Fail(VersionTooNew) <==> s.version > SaveVersion
    ensures r == Fail(ActiveEntityNotFound) <==> s.version <= SaveVersion && !ActiveFound(s)
    ensures r == Fail(WalkingInVehicle) <==>
      s.version <= SaveVersion && ActiveFound(s) && s.playerState == Walking && s.player.inVehicle.Some?
    ensures r == Fail(DrivingWithoutVehicle) <==>
      s.version <= SaveVersion && ActiveFound(s) && s.playerState == Driving && s.player.inVehicle.None?
    ensures r == Fail(VehicleNotFound) <==>
      && s.version <= SaveVersion && ActiveFound(s) && s.playerState == Driving && s.player.inVehicle.Some?
      && !HasVehicle(s.vehicles, s.player.inVehicle.value)
  {
    if s.version > SaveVersion then Fail(VersionTooNew)
    else if s.activeEntityId.Some?
      && !(s.player.entityId == s.activeEntityId.value || AnyVehicle(s.vehicles, s.activeEntityId.value))
    then Fail(ActiveEntityNotFound)
    else if s.playerState == Walking && s.player.inVehicle.Some? then Fail(WalkingInVehicle)
    else if s.playerState == Driving && s.player.inVehicle.None? then Fail(DrivingWithoutVehicle)
    else if s.playerState == Driving && !AnyVehicle(s.vehicles, s.player.inVehicle.value) then Fail(VehicleNotFound)
    else if !WithinBounds(s.player.position, MaxPosition) then Fail(InvalidPlayerPosition)
    else if !WithinBounds(s.player.linearVelocity, MaxVelocity) then Fail(InvalidPlayerVelocity)
    else CheckVehicles(s.vehicles, 0)
  }

  /** What a save that passes guarantees to the loader: a driving player's
      vehicle is among the saved ones and a walking player is in none. */
  lemma ValidSaveIsConsistent(s: SaveGameState)
    requires Validate(s).Pass?
    ensures s.playerState == Driving ==>
      exists i :: 0 <= i < |s.vehicles| && s.vehicles[i].entityId == s.player.inVehicle.value
    ensures s.playerState == Walking ==> s.player.inVehicle == None
    ensures forall j :: 0 <= j < |s.vehicles| ==> Abs(s.vehicles[j].position.x) <= MaxPosition
  {
    assert forall j :: 0 <= j < |s.vehicles| ==> VehicleInBounds(s.vehicles[j]);
  }

  /** When the player walks and the active entity, if any, is the player,
      no check depends on the vehicles' ids, so dropping any one vehicle
      keeps a valid save valid. */
  lemma ValidUnderVehicleRemoval(s: SaveGameState, k: nat)
    requires Validate(s).Pass? && k < |s.vehicles|
    requires s.activeEntityId.Some? ==> s.activeEntityId.value == s.player.entityId
    requires s.playerState == Walking
    ensures Validate(s.(vehicles := s.vehicles[..k] + s.vehicles[k + 1..])).Pass?
  {
    var vs := s.vehicles[..k] + s.vehicles[k + 1..];
    forall j | 0 <= j < |vs|
      ensures VehicleInBounds(vs[j])
    {
      if j < k {
        assert vs[j] == s.vehicles[j];
      } else {
        assert vs[j] == s.vehicles[j + 1];
      }
    }
  }

  /** Example saves: a walking player at the origin with no active entity
      passes; the same save from version 2 is too new; driving vehicle 7
      passes only when vehicle 7 was saved; a player at x = 10001 is out of
      bounds. */
  lemma ValidationExamples()
    ensures var origin := Vec3(0.0, 0.0, 0.0);
      var walking := SaveGameState(1, Walking, None, SavedPlayer(1, origin, origin, None), []);
      && Validate(walking).Pass?
      && Validate(walking.(version := 2)) == Fail(VersionTooNew)
      && Validate(walking.(activeEntityId := Some(7))) == Fail(ActiveEntityNotFound)
      && Validate(walking.(playerState := Driving, player := walking.player.(inVehicle := Some(7)))) == Fail(VehicleNotFound)
      && Validate(walking.(playerState := Driving, player := walking.player.(inVehicle := Some(7)),
                           vehicles := [SavedVehicle(7, origin, origin)])).Pass?
      && Validate(walking.(player := walking.player.(position := Vec3(10001.0, 0.0, 0.0)))) == Fail(InvalidPlayerPosition)
  {
    var origin := Vec3(0.0, 0.0, 0.0);
    var vs := [SavedVehicle(7, origin, origin)];
    assert vs[0].entityId == 7;
    assert HasVehicle(vs, 7);
  }
}
