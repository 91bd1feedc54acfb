/** Device-independent input processing: raw device readings, the
    processor's timing metrics, the processing configuration and its
    validation, and the utility functions that smooth, dead-zone, convert
    and combine input values. */
module InputAbstractions {
  import opened Common
  import opened InputActions

  /** `InputDeviceType` */
  datatype InputDeviceType = Keyboard | Mouse | Gamepad | TouchScreen | VirtualDevice

  /** `supports_analog` */
  predicate SupportsAnalog(d: InputDeviceType)
  {
    d == Gamepad || d == TouchScreen
  }

  /** `input_range`: binary devices report [0,1], the others [-1,1]. */
  function InputRange(d: InputDeviceType): (r: (real, real))
    ensures r.0 < r.1 && r.1 == 1.0
    ensures SupportsAnalog(d) ==> r.0 == -1.0
    ensures r.0 == 0.0 <==> d == Keyboard || d == Mouse
  {
    match d
    case Keyboard => (0.0, 1.0)
    case Mouse => (0.0, 1.0)
    case Gamepad => (-1.0, 1.0)
    case TouchScreen => (-1.0, 1.0)
    case VirtualDevice => (-1.0, 1.0)
  }

  /** `RawInput` */
  datatype RawInput = RawInput(deviceType: InputDeviceType, inputId: string, value: real,
                               justPressed: bool, justReleased: bool, heldDuration: real)

  /** `RawInput::keyboard_key` */
  function KeyboardKey(key: string, pressed: bool): (r: RawInput)
    ensures r.deviceType == Keyboard && r.inputId == key
    ensures IsBinary(r) && (IsActive(r) <==> pressed)
  {
    RawInput(Keyboard, key, if pressed then 1.0 else 0.0, false, false, 0.0)
  }

  /** `RawInput::gamepad_axis`: the value clamped to [-1,1]. */
  function GamepadAxis(axis: string, value: real): (r: RawInput)
    ensures r.deviceType == Gamepad && r.inputId == axis
    ensures -1.0 <= r.value <= 1.0
    ensures -1.0 <= value <= 1.0 ==> r.value == value
  {
    RawInput(Gamepad, axis, Clamp(value, -1.0, 1.0), false, false, 0.0)
  }

  /** `RawInput::is_binary` */
  predicate IsBinary(r: RawInput)
  {
    r.value == 0.0 || r.value == 1.0
  }

  /** `RawInput::is_active`: magnitude above the 0.01 noise threshold. */
  predicate IsActive(r: RawInput)
  {
    Abs(r.value) > 0.01
  }

  /** Readings of both signs count as active once clear of the noise band,
      and every binary reading is active exactly when it is 1. */
  lemma ActiveReadings(r: RawInput)
    ensures IsActive(r) <==> r.value > 0.01 || r.value < -0.01
    ensures IsBinary(r) ==> (IsActive(r) <==> r.value == 1.0)
  {
  }

  /** The readings of the raw-input test. */
  lemma RawInputExamples()
    ensures IsBinary(KeyboardKey("Space", true)) && IsActive(KeyboardKey("Space", true))
    ensures !IsBinary(GamepadAxis("LeftStickX", 0.5)) && IsActive(GamepadAxis("LeftStickX", 0.5))
  {
  }

  /** `MAX_PROCESS_TIME_US` */
  const MaxProcessTimeUs: nat := 1000

  /** `ProcessorMetrics`: the timing of the latest processing pass and the
      largest processing time seen. */
  class ProcessorMetrics {
    var processTimeUs: nat
    var inputsProcessed: nat
    var eventsGenerated: nat
    var actionsUpdated: nat
    var maxProcessTimeUs: nat

    /** `ProcessorMetrics::default` */
    constructor ()
      ensures processTimeUs == 0 && inputsProcessed == 0 && eventsGenerated == 0
      ensures actionsUpdated == 0 && maxProcessTimeUs == 0
    {
      processTimeUs := 0;
      inputsProcessed := 0;
      eventsGenerated := 0;
      actionsUpdated := 0;
      maxProcessTimeUs := 0;
    }

    /** The latest time never exceeds the recorded maximum. */
    ghost predicate Valid()
      reads this
    {
      processTimeUs <= maxProcessTimeUs
    }

    /** `update`: the latest pass replaces the frame figures and the maximum
        becomes the larger of the old maximum and the new time. */
    method Update(processTime: nat, inputs: nat, events: nat, actions: nat)
      modifies this
      ensures processTimeUs == processTime && inputsProcessed == inputs
      ensures eventsGenerated == events && actionsUpdated == actions
      ensures maxProcessTimeUs >= old(maxProcessTimeUs) && maxProcessTimeUs >= processTime
      ensures maxProcessTimeUs == old(maxProcessTimeUs) || maxProcessTimeUs == processTime
      ensures Valid()
    {
      processTimeUs := processTime;
      inputsProcessed := inputs;
      eventsGenerated := events;
      actionsUpdated := actions;
      if processTime > maxProcessTimeUs {
        maxProcessTimeUs := processTime;
      }
    }

    /** `is_performance_ok`: the latest pass took at most 1 ms. */
    predicate IsPerformanceOk()
      reads this
    {
      processTimeUs <= MaxProcessTimeUs
    }
  }

  /** Whenever the worst pass so far was within 1 ms, so is the latest. */
  lemma WorstWithinBudget(metrics: ProcessorMetrics)
    requires metrics.Valid() && metrics.maxProcessTimeUs <= MaxProcessTimeUs
    ensures metrics.IsPerformanceOk()
  {
  }

  /** `InputConfig` */
  datatype InputConfig = InputConfig(
    enableSmoothing: bool,
    smoothingFactor: real,
    analogDeadzone: real,
    enablePrediction: bool,
    predictionTime: real,
    generateInactiveEvents: bool,
    performanceMonitoring: bool,
    debugLogging: bool)

  /** `InputConfig::default` */
  function DefaultConfig(): InputConfig
  {
    InputConfig(true, 0.1, 0.1, false, 0.033, false, true, false)
  }

  /** `InputConfig::performance_optimized` */
  function PerformanceOptimized(): InputConfig
  {
    InputConfig(false, 0.0, 0.05, false, 0.0, false, true, false)
  }

  /** `InputConfig::precision_optimized` */
  function PrecisionOptimized(): InputConfig
  {
    InputConfig(true, 0.05, 0.02, true, 0.016, true, true, false)
  }

  const SmoothingRangeMessage := "Smoothing factor must be between 0.0 and 1.0"
  const DeadzoneRangeMessage := "Analog deadzone must be between 0.0 and 1.0"
  const NegativePredictionMessage := "Prediction time cannot be negative"

  /** `InputConfig::validate` */
  function Validate(c: InputConfig): (r: Result<()>)
    ensures r.Ok? <==>
      0.0 <= c.smoothingFactor <= 1.0 && 0.0 <= c.analogDeadzone <= 1.0 && c.predictionTime >= 0.0
    ensures !(0.0 <= c.smoothingFactor <= 1.0) ==> r == Err(SmoothingRangeMessage)
    ensures 0.0 <= c.smoothingFactor <= 1.0 && !(0.0 <= c.analogDeadzone <= 1.0) ==>
      r == Err(DeadzoneRangeMessage)
  {
    if c.smoothingFactor < 0.0 || c.smoothingFactor > 1.0 then Err(SmoothingRangeMessage)
    else if c.analogDeadzone < 0.0 || c.analogDeadzone > 1.0 then Err(DeadzoneRangeMessage)
    else if c.predictionTime < 0.0 then Err(NegativePredictionMessage)
    else Ok(())
  }

  /** The three presets are valid, and the validation test's edits are not. */
  lemma PresetsAreValid()
    ensures Validate(DefaultConfig()).Ok?
    ensures Validate(PerformanceOptimized()).Ok?
    ensures Validate(PrecisionOptimized()).Ok?
    ensures Validate(DefaultConfig().(smoothingFactor := -0.1)) == Err(SmoothingRangeMessage)
    ensures Validate(DefaultConfig().(smoothingFactor := 0.5, analogDeadzone := 1.5)) == Err(DeadzoneRangeMessage)
  {
  }

  /** `utils::smooth_input` */
  function SmoothInput(current: real, target: real, smoothing: real, deltaTime: real): real
  {
    if smoothing <= 0.0 then target
    else
      var factor := 1.0 - Min(smoothing * deltaTime * 60.0, 1.0);
      current * factor + target * (1.0 - factor)
  }

  /** A weighted mean with weight `w` in [0,1] lies between its two ends. */
  lemma MixBetween(a: real, b: real, w: real)
    requires 0.0 <= w <= 1.0
    ensures a <= b ==> a <= a * w + b * (1.0 - w) <= b
    ensures b <= a ==> b <= a * w + b * (1.0 - w) <= a
  {
    assert a * w + b * (1.0 - w) - a == (b - a) * (1.0 - w);
    assert a * w + b * (1.0 - w) - b == (a - b) * w;
    if a <= b {
      NonnegProduct(b - a, 1.0 - w);
      NonnegProduct(b - a, w);
    } else {
      NonnegProduct(a - b, 1.0 - w);
      NonnegProduct(a - b, w);
    }
  }

  lemma NonnegProduct(x: real, y: real)
    requires x >= 0.0 && y >= 0.0
    ensures x * y >= 0.0
  {
  }

  /** With a non-negative frame time the smoothed value lies between the
      current and the target value, and no smoothing gives the target. */
  lemma SmoothInputBetween(current: real, target: real, smoothing: real, deltaTime: real)
    requires deltaTime >= 0.0
    ensures smoothing <= 0.0 ==> SmoothInput(current, target, smoothing, deltaTime) == target
    ensures current <= target ==>
      current <= SmoothInput(current, target, smoothing, deltaTime) <= target
    ensures target <= current ==>
      target <= SmoothInput(current, target, smoothing, deltaTime) <= current
  {
    if smoothing > 0.0 {
      var p := smoothing * deltaTime * 60.0;
      assert p >= 0.0 by {
        NonnegProduct(smoothing, deltaTime);
        NonnegProduct(smoothing * deltaTime, 60.0);
      }
      MixBetween(current, target, 1.0 - Min(p, 1.0));
    }
  }

  /** The smoothing test moves part of the way from 0.2 towards 0.8. */
  lemma SmoothingExample()
    ensures 0.2 < SmoothInput(0.2, 0.8, 0.5, 0.016) < 0.8
  {
  }

  /** `f32::signum` of a non-NaN value. */
  function Signum(x: real): (r: real)
    ensures r == 1.0 || r == -1.0
    ensures r * x == Abs(x)
  {
    if x < 0.0 then -1.0 else 1.0
  }

  /** `utils::apply_deadzone`. A dead zone of exactly 1 divides by zero. */
  function ApplyDeadzone(value: real, deadzone: real): (r: real)
    requires deadzone != 1.0
    ensures Abs(value) < deadzone ==> r == 0.0
    ensures -1.0 <= r <= 1.0
    ensures value > 0.0 ==> r >= 0.0
    ensures value < 0.0 ==> r <= 0.0
  {
    var magnitude := Abs(value);
    if magnitude < deadzone then 0.0
    else Signum(value) * Clamp((magnitude - deadzone) / (1.0 - deadzone), 0.0, 1.0)
  }

  lemma QuotientAtLeastOne(x: real, y: real)
    requires x >= y > 0.0
    ensures x / y >= 1.0
  {
  }

  lemma QuotientPositive(x: real, y: real)
    requires x > 0.0 && y > 0.0
    ensures x / y > 0.0
  {
  }

  /** With a dead zone in [0,1), a reading past the dead zone keeps its
      sign and is not zeroed, and a full deflection gives full output. */
  lemma DeadzonePassesSign(value: real, deadzone: real)
    requires 0.0 <= deadzone < 1.0
    ensures Abs(value) > deadzone && value > 0.0 ==> ApplyDeadzone(value, deadzone) > 0.0
    ensures Abs(value) > deadzone && value < 0.0 ==> ApplyDeadzone(value, deadzone) < 0.0
    ensures Abs(value) >= 1.0 ==> Abs(ApplyDeadzone(value, deadzone)) == 1.0
  {
    var magnitude := Abs(value);
    if magnitude > deadzone {
      QuotientPositive(magnitude - deadzone, 1.0 - deadzone);
    }
    if magnitude >= 1.0 {
      QuotientAtLeastOne(magnitude - deadzone, 1.0 - deadzone);
    }
  }

  /** The dead-zone test's readings. */
  lemma DeadzoneExamples()
    ensures ApplyDeadzone(0.05, 0.1) == 0.0
    ensures ApplyDeadzone(0.15, 0.1) > 0.0
    ensures ApplyDeadzone(-0.15, 0.1) < 0.0
  {
    DeadzonePassesSign(0.15, 0.1);
    DeadzonePassesSign(-0.15, 0.1);
  }

  /** `utils::raw_to_action_state`: pressed when the reading is active,
      edge flags against the previous frame, value the reading's magnitude. */
  function RawToActionState(raw: RawInput, previous: ActionState, deltaTime: real): (s: ActionState)
    ensures s.pressed == IsActive(raw)
    ensures s.justPressed <==> IsActive(raw) && !previous.pressed
    ensures s.justReleased <==> !IsActive(raw) && previous.pressed
    ensures s.value == Abs(raw.value)
  {
    var pressed := IsActive(raw);
    ActionState(pressed, pressed && !previous.pressed, !pressed && previous.pressed,
                if pressed then previous.heldDuration + deltaTime else 0.0,
                Abs(raw.value))
  }

  /** Converting a raw reading agrees with `ActionState::update` fed with
      its activity and magnitude, except that a released reading keeps its
      small residual magnitude where `update` reports 0. */
  lemma RawAgreesWithUpdate(raw: RawInput, previous: ActionState, deltaTime: real)
    ensures var s := RawToActionState(raw, previous, deltaTime);
      var u := Update(previous, IsActive(raw), Abs(raw.value), deltaTime);
      && s.pressed == u.pressed && s.justPressed == u.justPressed
      && s.justReleased == u.justReleased && s.heldDuration == u.heldDuration
      && (Abs(raw.value) <= 1.0 && IsActive(raw) ==> s.value == u.value)
      && (!IsActive(raw) ==> s.value <= 0.01)
  {
  }

  /** `fold(acc, f32::max)` over `s`. */
  function FoldMax(acc: real, s: seq<real>): (r: real)
    ensures r >= acc && forall k :: 0 <= k < |s| ==> r >= s[k]
    ensures r == acc || exists k :: 0 <= k < |s| && r == s[k]
    decreases |s|
  {
    if s == [] then acc
    else
      var r := FoldMax(Max(acc, s[0]), s[1..]);
      assert forall k :: 1 <= k < |s| ==> s[k] == s[1..][k - 1];
      r
  }

  function Values(states: seq<ActionState>): (vs: seq<real>)
    ensures |vs| == |states| && forall k :: 0 <= k < |states| ==> vs[k] == states[k].value
  {
    seq(|states|, k requires 0 <= k < |states| => states[k].value)
  }

  function HeldDurations(states: seq<ActionState>): (hs: seq<real>)
    ensures |hs| == |states| && forall k :: 0 <= k < |states| ==> hs[k] == states[k].heldDuration
  {
    seq(|states|, k requires 0 <= k < |states| => states[k].heldDuration)
  }

  predicate AnyPressed(states: seq<ActionState>)
  {
    exists k :: 0 <= k < |states| && states[k].pressed
  }

  predicate AnyJustPressed(states: seq<ActionState>)
  {
    exists k :: 0 <= k < |states| && states[k].justPressed
  }

  predicate AnyJustReleased(states: seq<ActionState>)
  {
    exists k :: 0 <= k < |states| && states[k].justReleased
  }

  /** `m` is the greatest of 0 and the values of `s`. */
  ghost predicate IsMaxFromZero(m: real, s: seq<real>)
  {
    m >= 0.0 && (forall k :: 0 <= k < |s| ==> m >= s[k]) && (m == 0.0 || exists k :: 0 <= k < |s| && m == s[k])
  }

  /** `utils::combine_action_states`: several bindings of one action. No
      bindings give the default state; otherwise the action is pressed or
      just pressed when any binding is, just released when some binding was
      released and none is held, and value and held duration are the
      greatest among the bindings (and 0). */
  function CombineActionStates(states: seq<ActionState>): (r: ActionState)
    ensures states == [] ==> r == DefaultState()
    ensures r.pressed == AnyPressed(states) && r.justPressed == AnyJustPressed(states)
    ensures r.justReleased == (!AnyPressed(states) && AnyJustReleased(states))
    ensures IsMaxFromZero(r.value, Values(states)) && IsMaxFromZero(r.heldDuration, HeldDurations(states))
  {
    if states == [] then DefaultState()
    else
      ActionState(
        AnyPressed(states),
        AnyJustPressed(states),
        !AnyPressed(states) && AnyJustReleased(states),
        FoldMax(0.0, HeldDurations(states)),
        FoldMax(0.0, Values(states)))
  }

  /** The combination spelled out binding by binding. */
  lemma CombineMeaning(states: seq<ActionState>)
    ensures var r := CombineActionStates(states);
      && (r.pressed <==> exists k :: 0 <= k < |states| && states[k].pressed)
      && (r.justReleased <==>
            (forall k :: 0 <= k < |states| ==> !states[k].pressed)
            && exists k :: 0 <= k < |states| && states[k].justReleased)
      && r.value >= 0.0 && (forall k :: 0 <= k < |states| ==> r.value >= states[k].value)
      && (r.value == 0.0 || exists k :: 0 <= k < |states| && r.value == states[k].value)
  {
    var r := CombineActionStates(states);
    if r.value != 0.0 {
      var k :| 0 <= k < |states| && r.value == Values(states)[k];
    }
  }

  /** The greatest of 0 and the values of `a + b` is the greatest of 0 and
      the two part maxima. */
  lemma MaxFromZeroSplits(a: seq<real>, b: seq<real>, ma: real, mb: real, m: real, r: real)
    requires IsMaxFromZero(ma, a) && IsMaxFromZero(mb, b)
    requires IsMaxFromZero(m, a + b) && IsMaxFromZero(r, [ma, mb])
    ensures m == r
  {
    var ab := a + b;
    assert forall k :: 0 <= k < |a| ==> ab[k] == a[k];
    assert forall k :: 0 <= k < |b| ==> ab[|a| + k] == b[k];
    assert m >= ma && m >= mb;
    assert r >= ma && r >= mb by {
      assert [ma, mb][0] == ma && [ma, mb][1] == mb;
    }
    assert r >= m by {
      if m != 0.0 {
        var k :| 0 <= k < |ab| && m == ab[k];
        if k < |a| { assert ab[k] == a[k]; } else { assert ab[k] == b[k - |a|]; }
      }
    }
    assert m >= r by {
      if r != 0.0 {
        var k :| 0 <= k < 2 && r == [ma, mb][k];
      }
    }
  }

  /** The three flag summaries of `a + b` are those of the two parts. */
  lemma AnySplits(a: seq<ActionState>, b: seq<ActionState>)
    ensures AnyPressed(a + b) == (AnyPressed(a) || AnyPressed(b))
    ensures AnyJustPressed(a + b) == (AnyJustPressed(a) || AnyJustPressed(b))
    ensures AnyJustReleased(a + b) == (AnyJustReleased(a) || AnyJustReleased(b))
  {
    var ab := a + b;
    assert forall k :: 0 <= k < |a| ==> ab[k] == a[k];
    assert forall k :: 0 <= k < |b| ==> ab[|a| + k] == b[k];
    assert forall k :: |a| <= k < |ab| ==> ab[k] == b[k - |a|];
  }

  lemma AnyPair(x: ActionState, y: ActionState)
    ensures AnyPressed([x, y]) == (x.pressed || y.pressed)
    ensures AnyJustPressed([x, y]) == (x.justPressed || y.justPressed)
    ensures AnyJustReleased([x, y]) == (x.justReleased || y.justReleased)
  {
    assert [x, y][0] == x && [x, y][1] == y;
  }

  /** Combining is compositional: the bindings may be combined in two parts
      and the two results combined again. */
  lemma CombineSplits(a: seq<ActionState>, b: seq<ActionState>)
    ensures CombineActionStates(a + b) == CombineActionStates([CombineActionStates(a), CombineActionStates(b)])
  {
    var ca, cb := CombineActionStates(a), CombineActionStates(b);
    var l, r := CombineActionStates(a + b), CombineActionStates([ca, cb]);
    AnySplits(a, b);
    AnyPair(ca, cb);
    ProjectionsSplit(a, b);
    ProjectionsPair(ca, cb);
    MaxFromZeroSplits(Values(a), Values(b), ca.value, cb.value, l.value, r.value);
    MaxFromZeroSplits(HeldDurations(a), HeldDurations(b), ca.heldDuration, cb.heldDuration, l.heldDuration, r.heldDuration);
  }

  lemma ProjectionsSplit(a: seq<ActionState>, b: seq<ActionState>)
    ensures Values(a + b) == Values(a) + Values(b)
    ensures HeldDurations(a + b) == HeldDurations(a) + HeldDurations(b)
  {
  }

  lemma ProjectionsPair(x: ActionState, y: ActionState)
    ensures Values([x, y]) == [x.value, y.value]
    ensures HeldDurations([x, y]) == [x.heldDuration, y.heldDuration]
  {
  }

  /** The combination test: one binding held, one just released. The code
      reports no release, because `just_released` requires every binding to
      be up. */
  lemma CombinationExample()
    ensures var c := CombineActionStates([ActionState(true, false, false, 1.0, 0.5),
                                          ActionState(false, false, true, 0.0, 0.0)]);
      c.pressed && !c.justReleased && c.value == 0.5 && c.heldDuration == 1.0
  {
    var s := [ActionState(true, false, false, 1.0, 0.5), ActionState(false, false, true, 0.0, 0.0)];
    var c := CombineActionStates(s);
    assert s[0].pressed;
    assert c.value == 0.5 by {
      assert c.value >= s[0].value;
    }
    assert c.heldDuration == 1.0 by {
      assert c.heldDuration >= s[0].heldDuration;
    }
  }
}
