/** Gameplay actions, their categories, which contexts offer them, and the
    per-frame state of one action (pressed, edge flags, hold time, value). */
module InputActions {
  import opened Common
  import opened InputContexts

  datatype InputAction =
    // character movement
    | MoveForward | MoveBackward | TurnLeft | TurnRight | Sprint | Jump | Crouch
    // vehicle controls
    | Accelerate | Brake | SteerLeft | SteerRight | Handbrake | Turbo
    // aircraft controls
    | PitchUp | PitchDown | RollLeft | RollRight | YawLeft | YawRight | VerticalUp | VerticalDown | Afterburner
    // interaction
    | Interact | EnterVehicle | ExitVehicle
    // UI and meta
    | ToggleDebugInfo | TogglePhysicsDebug | EmergencyReset | SaveGame | LoadGame
    // camera
    | CameraToggle | CameraZoomIn | CameraZoomOut
    // context-specific
    | ContextPrimary | ContextSecondary | ContextTertiary

  datatype ActionCategory = Character | Vehicle | Aircraft | Interaction | Debug | Camera | Context

  /** `category` */
  function Category(a: InputAction): ActionCategory
  {
    match a
    case MoveForward | MoveBackward | TurnLeft | TurnRight | Sprint | Jump | Crouch => Character
    case Accelerate | Brake | SteerLeft | SteerRight | Handbrake | Turbo => Vehicle
    case PitchUp | PitchDown | RollLeft | RollRight | YawLeft | YawRight | VerticalUp | VerticalDown | Afterburner => Aircraft
    case Interact | EnterVehicle | ExitVehicle => Interaction
    case ToggleDebugInfo | TogglePhysicsDebug | EmergencyReset | SaveGame | LoadGame => Debug
    case CameraToggle | CameraZoomIn | CameraZoomOut => Camera
    case ContextPrimary | ContextSecondary | ContextTertiary => Context
  }

  /** Which categories a context offers: each movement context its own
      movement category plus interaction, debug, camera and context
      actions; the menu only debug and context actions. */
  predicate Offers(c: InputContext, cat: ActionCategory)
  {
    match c
    case Walking => cat == Character || cat == Interaction || cat == Debug || cat == Camera || cat == Context
    case Driving => cat == Vehicle || cat == Interaction || cat == Debug || cat == Camera || cat == Context
    case Flying => cat == Aircraft || cat == Interaction || cat == Debug || cat == Camera || cat == Context
    case Menu => cat == Debug || cat == Context
  }

  /** `is_available_in_context` */
  predicate IsAvailableInContext(a: InputAction, c: InputContext)
  {
    Offers(c, Category(a))
  }

  /** The categories that move a character, a vehicle or an aircraft. */
  predicate IsMovement(cat: ActionCategory)
  {
    cat == Character || cat == Vehicle || cat == Aircraft
  }

  /** The movement category each non-menu context is for. */
  function OwnMovement(c: InputContext): ActionCategory
    requires c != Menu
  {
    match c
    case Walking => Character
    case Driving => Vehicle
    case Flying => Aircraft
  }

  /** An action is offered in a non-menu context iff it is not a movement
      action of another context; in the menu iff it is a debug or a
      context action. */
  lemma AvailabilityByCategory(a: InputAction, c: InputContext)
    ensures c == Menu ==> (IsAvailableInContext(a, c) <==> Category(a) == Debug || Category(a) == Context)
    ensures c != Menu ==> (IsAvailableInContext(a, c) <==>
      Category(a) == OwnMovement(c) || !IsMovement(Category(a)))
  {
  }

  /** `disabled_actions` */
  function DisabledActions(c: InputContext): seq<InputAction>
  {
    match c
    case Walking => [Accelerate, Brake, SteerLeft, SteerRight, Handbrake, Turbo,
                     PitchUp, PitchDown, RollLeft, RollRight, YawLeft, YawRight, VerticalUp, VerticalDown, Afterburner]
    case Driving => [MoveForward, MoveBackward, TurnLeft, TurnRight, Sprint, Jump, Crouch,
                     PitchUp, PitchDown, RollLeft, RollRight, YawLeft, YawRight, VerticalUp, VerticalDown, Afterburner]
    case Flying => [MoveForward, MoveBackward, TurnLeft, TurnRight, Sprint, Jump, Crouch,
                    Accelerate, Brake, SteerLeft, SteerRight, Handbrake, Turbo]
    case Menu => [MoveForward, MoveBackward, TurnLeft, TurnRight, Sprint, Jump, Crouch,
                  Accelerate, Brake, SteerLeft, SteerRight, Handbrake, Turbo,
                  PitchUp, PitchDown, RollLeft, RollRight, YawLeft, YawRight, VerticalUp, VerticalDown, Afterburner]
  }

  /** `default_actions` */
  function DefaultActions(c: InputContext): seq<InputAction>
  {
    match c
    case Walking => [MoveForward, MoveBackward, TurnLeft, TurnRight, Sprint, Jump, Interact, EnterVehicle]
    case Driving => [Accelerate, Brake, SteerLeft, SteerRight, Handbrake, Turbo, ExitVehicle]
    case Flying => [PitchUp, PitchDown, RollLeft, RollRight, YawLeft, YawRight, VerticalUp, VerticalDown,
                    Afterburner, ExitVehicle]
    case Menu => [ContextPrimary, ContextSecondary, ContextTertiary]
  }

  /** The actions a context switches off: the movement actions it does
      not offer. */
  predicate Disables(c: InputContext, a: InputAction)
  {
    DisablesCategory(c, Category(a))
  }

  predicate DisablesCategory(c: InputContext, cat: ActionCategory)
  {
    IsMovement(cat) && !Offers(c, cat)
  }

  /** The members of each movement category. */
  lemma CharacterMembers(a: InputAction)
    requires Category(a) == Character
    ensures a == MoveForward || a == MoveBackward || a == TurnLeft || a == TurnRight || a == Sprint || a == Jump || a == Crouch
  {
  }

  lemma VehicleMembers(a: InputAction)
    requires Category(a) == Vehicle
    ensures a == Accelerate || a == Brake || a == SteerLeft || a == SteerRight || a == Handbrake || a == Turbo
  {
  }

  lemma AircraftMembers(a: InputAction)
    requires Category(a) == Aircraft
    ensures a == PitchUp || a == PitchDown || a == RollLeft || a == RollRight || a == YawLeft || a == YawRight
         || a == VerticalUp || a == VerticalDown || a == Afterburner
  {
  }

  /** Every listed action is a disabled one. */
  lemma ListedAreDisabled(c: InputContext)
    ensures forall k :: 0 <= k < |DisabledActions(c)| ==> Disables(c, DisabledActions(c)[k])
  {
  }

  /** Every disabled action is listed. */
  lemma DisabledAreListed(c: InputContext, a: InputAction)
    requires Disables(c, a)
    ensures a in DisabledActions(c)
  {
    var cat := Category(a);
    if cat == Character {
      CharacterListed(c, a);
    } else if cat == Vehicle {
      VehicleListed(c, a);
    } else {
      AircraftListed(c, a);
    }
  }

  lemma CharacterListed(c: InputContext, a: InputAction)
    requires Category(a) == Character && c != Walking
    ensures a in DisabledActions(c)
  {
    CharacterMembers(a);
  }

  lemma VehicleListed(c: InputContext, a: InputAction)
    requires Category(a) == Vehicle && c != Driving
    ensures a in DisabledActions(c)
  {
    VehicleMembers(a);
  }

  lemma AircraftListed(c: InputContext, a: InputAction)
    requires Category(a) == Aircraft && c != Flying
    ensures a in DisabledActions(c)
  {
    AircraftMembers(a);
  }

  /** The disabled list of every context lists exactly the movement actions
      it does not offer. */
  lemma DisabledListMeaning(c: InputContext, a: InputAction)
    ensures a in DisabledActions(c) <==> Disables(c, a)
  {
    ListedAreDisabled(c);
    if Disables(c, a) {
      DisabledAreListed(c, a);
    }
  }

  /** `disabled_actions().contains(action)`, for an action of category `cat`. */
  method IsListedDisabled(c: InputContext, a: InputAction, cat: ActionCategory) returns (listed: bool)
    requires cat == Category(a)
    ensures listed == DisablesCategory(c, cat)
  {
    DisabledListMeaning(c, a);
    listed := a in DisabledActions(c);
  }

  /** Every default action of a context is offered there. */
  lemma DefaultActionsAvailable(c: InputContext)
    ensures forall k :: 0 <= k < |DefaultActions(c)| ==> IsAvailableInContext(DefaultActions(c)[k], c)
  {
  }

  /** Index of the first context that offers category `cat`. */
  function FirstOffering(cs: seq<InputContext>, cat: ActionCategory): (r: Option<nat>)
    ensures r.Some? ==>
              && r.value < |cs| && Offers(cs[r.value], cat)
              && forall k :: 0 <= k < r.value ==> !Offers(cs[k], cat)
    ensures r.None? <==> forall k :: 0 <= k < |cs| ==> !Offers(cs[k], cat)
  {
    if cs == [] then None
    else if Offers(cs[0], cat) then Some(0)
    else match FirstOffering(cs[1..], cat)
      case None => None
      case Some(k) => Some(k + 1)
  }

  /** Some context outranks `c` and disables the actions of category `cat`. */
  ghost predicate OverriddenAbove(cs: seq<InputContext>, cat: ActionCategory, c: InputContext)
  {
    exists j :: 0 <= j < |cs| && Priority(cs[j]) > Priority(c) && DisablesCategory(cs[j], cat)
  }

  /** Reference meaning of `is_action_available`: the first context that
      offers the action decides, unless a context of higher priority
      disables it. */
  ghost predicate ActionAvailable(cs: seq<InputContext>, a: InputAction)
  {
    match FirstOffering(cs, Category(a))
    case None => false
    case Some(i) => !OverriddenAbove(cs, Category(a), cs[i])
  }

  /** `ContextStack::is_action_available` */
  method IsActionAvailable(stack: ContextStack, a: InputAction) returns (available: bool)
    ensures available == ActionAvailable(stack.contexts, a)
  {
    var cs := stack.contexts;
    var cat := Category(a);
    var i := 0;
    while i < |cs|
      invariant i <= |cs|
      invariant forall k :: 0 <= k < i ==> !Offers(cs[k], cat)
    {
      if Offers(cs[i], cat) {
        FirstOfferingAt(cs, cat, i);
        var blocked := DisabledByHigher(cs, a, cat, cs[i]);
        return !blocked;
      }
      i := i + 1;
    }
    return false;
  }

  /** The inner scan of `is_action_available`: does a context of higher
      priority than `c` list `a` as disabled? */
  method DisabledByHigher(cs: seq<InputContext>, a: InputAction, cat: ActionCategory, c: InputContext)
    returns (blocked: bool)
    requires cat == Category(a)
    ensures blocked == OverriddenAbove(cs, cat, c)
  {
    var j := 0;
    while j < |cs|
      invariant j <= |cs|
      invariant forall k :: 0 <= k < j ==> !(Priority(cs[k]) > Priority(c) && DisablesCategory(cs[k], cat))
    {
      var listed := IsListedDisabled(cs[j], a, cat);
      if Priority(cs[j]) > Priority(c) && listed {
        return true;
      }
      j := j + 1;
    }
    return false;
  }

  lemma {:induction false} FirstOfferingAt(cs: seq<InputContext>, cat: ActionCategory, i: nat)
    requires i < |cs| && Offers(cs[i], cat)
    requires forall k :: 0 <= k < i ==> !Offers(cs[k], cat)
    ensures FirstOffering(cs, cat) == Some(i)
  {
    if i > 0 {
      FirstOfferingAt(cs[1..], cat, i - 1);
    }
  }

  /** With a single context, an action is available iff that context
      offers it. */
  lemma SingleContextAvailability(c: InputContext, a: InputAction)
    ensures ActionAvailable([c], a) <==> IsAvailableInContext(a, c)
  {
    if Offers(c, Category(a)) {
      assert FirstOffering([c], Category(a)) == Some(0);
    }
  }

  /** With driving stacked over walking, the walking-only movement is
      blocked by driving's disabled list while the vehicle controls work. */
  lemma DrivingOverWalking()
    ensures !ActionAvailable([Driving, Walking], MoveForward)
    ensures ActionAvailable([Driving, Walking], Accelerate)
  {
    assert FirstOffering([Driving, Walking], Character) == Some(1);
    assert Priority([Driving, Walking][0]) > Priority(Walking) && DisablesCategory(Driving, Character);
    assert FirstOffering([Driving, Walking], Vehicle) == Some(0);
  }

  /** `ActionState`: the state of one action in one frame. */
  datatype ActionState = ActionState(pressed: bool, justPressed: bool, justReleased: bool,
                                     heldDuration: real, value: real)

  /** `value.clamp(lo, hi)` */
  function Clamp(v: real, lo: real, hi: real): (r: real)
    requires lo <= hi
    ensures lo <= r <= hi
    ensures lo <= v <= hi ==> r == v
  {
    if v < lo then lo else if v > hi then hi else v
  }

  /** `ActionState::default` */
  function DefaultState(): ActionState
  {
    ActionState(false, false, false, 0.0, 0.0)
  }

  /** `ActionState::pressed`: held, no edge, value clamped to [0,1]. */
  function PressedState(value: real): (s: ActionState)
    ensures s.pressed && !s.justPressed && !s.justReleased && 0.0 <= s.value <= 1.0
  {
    ActionState(true, false, false, 0.0, Clamp(value, 0.0, 1.0))
  }

  /** `ActionState::just_pressed` */
  function JustPressedState(value: real): (s: ActionState)
    ensures s.pressed && s.justPressed && !s.justReleased && 0.0 <= s.value <= 1.0
  {
    ActionState(true, true, false, 0.0, Clamp(value, 0.0, 1.0))
  }

  /** `ActionState::just_released` */
  function JustReleasedState(): (s: ActionState)
    ensures !s.pressed && !s.justPressed && s.justReleased && s.value == 0.0
  {
    ActionState(false, false, true, 0.0, 0.0)
  }

  /** `ActionState::update`: the state after one frame with the given input. */
  function Update(s: ActionState, pressed: bool, value: real, deltaTime: real): (r: ActionState)
    ensures r.pressed == pressed
    ensures r.justPressed <==> pressed && !s.pressed
    ensures r.justReleased <==> !pressed && s.pressed
    ensures pressed ==> 0.0 <= r.value <= 1.0 && (0.0 <= value <= 1.0 ==> r.value == value)
    ensures !pressed ==> r.value == 0.0
    ensures r.heldDuration == if pressed then s.heldDuration + deltaTime else 0.0
  {
    ActionState(pressed, pressed && !s.pressed, !pressed && s.pressed,
                if pressed then s.heldDuration + deltaTime else 0.0,
                if pressed then Clamp(value, 0.0, 1.0) else 0.0)
  }

  /** One frame of input: pressed or not, analog value, frame time. */
  datatype Frame = Frame(pressed: bool, value: real, deltaTime: real)

  /** The state after a run of frames. */
  function UpdateAll(s: ActionState, frames: seq<Frame>): ActionState
    decreases |frames|
  {
    if frames == [] then s
    else
      var f := frames[|frames| - 1];
      Update(UpdateAll(s, frames[..|frames| - 1]), f.pressed, f.value, f.deltaTime)
  }

  /** Total frame time of the frames after the last release. */
  function TrailingHeld(frames: seq<Frame>): real
    decreases |frames|
  {
    if frames == [] then 0.0
    else if !frames[|frames| - 1].pressed then 0.0
    else TrailingHeld(frames[..|frames| - 1]) + frames[|frames| - 1].deltaTime
  }

  /** Whether every frame was pressed. */
  predicate AllPressed(frames: seq<Frame>)
  {
    forall k :: 0 <= k < |frames| ==> frames[k].pressed
  }

  /** Hold time accumulates while the action is held and restarts from zero
      at a release: after any run of frames it is the earlier hold time (if
      the action was never released) plus the frame time since the last
      release. */
  lemma {:induction false} HeldDurationAccumulates(s: ActionState, frames: seq<Frame>)
    ensures UpdateAll(s, frames).heldDuration ==
      (if AllPressed(frames) then s.heldDuration else 0.0) + TrailingHeld(frames)
    decreases |frames|
  {
    if frames != [] {
      var init := frames[..|frames| - 1];
      HeldDurationAccumulates(s, init);
      if frames[|frames| - 1].pressed {
        if AllPressed(init) {
          assert AllPressed(frames);
        } else {
          var k :| 0 <= k < |init| && !init[k].pressed;
          assert !frames[k].pressed;
        }
      } else {
        assert !AllPressed(frames);
      }
      assert AllPressed(frames) ==> AllPressed(init) by {
        if AllPressed(frames) {
          forall k | 0 <= k < |init| ensures init[k].pressed {
            assert init[k] == frames[k];
          }
        }
      }
    }
  }

  /** The press, hold and release of the action-state test. */
  lemma PressHoldRelease()
    ensures var s1 := Update(DefaultState(), true, 1.0, 0.016);
      var s2 := Update(s1, true, 1.0, 0.016);
      var s3 := Update(s2, false, 0.0, 0.016);
      && s1.pressed && s1.justPressed && !s1.justReleased && s1.value == 1.0
      && s2.pressed && !s2.justPressed && !s2.justReleased && s2.heldDuration > 0.0
      && !s3.pressed && !s3.justPressed && s3.justReleased && s3.value == 0.0 && s3.heldDuration == 0.0
  {
  }

  /** `is_binary` */
  predicate IsBinary(s: ActionState)
  {
    s.value == 0.0 || s.value == 1.0
  }
}
