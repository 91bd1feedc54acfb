/** The locomotion state machine of the character animation systems: the
    speed-driven state choice with hysteresis, the cross-fade duration of
    each state change and the playback speed of each state's clip. */
module LocomotionAnimation {
  import opened CharacterComponents

  /** Speed thresholds (`LocomotionThresholds`). */
  datatype Thresholds = Thresholds(idle: real, walk: real, run: real, sprint: real, hysteresis: real)

  function DefaultThresholds(): Thresholds
  {
    Thresholds(0.25, 0.8, 2.0, 3.5, 0.85)
  }

  /** Thresholds that increase and a hysteresis factor in [0,1], as the
      field documentation describes them. */
  predicate WellFormed(t: Thresholds)
  {
    0.0 <= t.idle <= t.walk <= t.run && 0.0 <= t.hysteresis <= 1.0
  }

  /** The four ground states; the others are airborne or turning. */
  predicate IsGround(l: Locomotion)
  {
    l == Idle || l == Walk || l == Run || l == Sprint
  }

  /** Position of a ground state on the speed scale. */
  function GroundRank(l: Locomotion): (r: nat)
    requires IsGround(l)
    ensures r < 4
  {
    match l
    case Idle => 0
    case Walk => 1
    case Run => 2
    case _ => 3
  }

  /** The three upper bounds of Idle, Walk and Run on the speed scale. */
  datatype Bands = Bands(idle: real, walk: real, run: real)

  /** The bounds a state is entered by: the thresholds themselves. */
  function Up(t: Thresholds): Bands
  {
    Bands(t.idle, t.walk, t.run)
  }

  /** The bounds a state is left downwards by: the thresholds scaled by
      the hysteresis factor. */
  function Down(t: Thresholds): Bands
  {
    Bands(t.idle * t.hysteresis, t.walk * t.hysteresis, t.run * t.hysteresis)
  }

  /** Reference classification without hysteresis: the band the speed falls in. */
  function PlainState(speed: real, b: Bands): Locomotion
  {
    if speed <= b.idle then Idle
    else if speed <= b.walk then Walk
    else if speed <= b.run then Run
    else Sprint
  }

  /** The state choice for given entry bounds `up` and exit bounds `down`. */
  function Classify(speed: real, current: Locomotion, up: Bands, down: Bands): (r: Locomotion)
    ensures IsGround(r)
  {
    match current
    case Idle =>
      if speed > up.idle then
        if speed <= up.walk then Walk
        else if speed <= up.run then Run
        else Sprint
      else Idle
    case Walk =>
      if speed <= down.idle then Idle
      else if speed > up.walk then
        if speed <= up.run then Run else Sprint
      else Walk
    case Run =>
      if speed <= down.walk then
        if speed <= down.idle then Idle else Walk
      else if speed > up.run then Sprint
      else Run
    case Sprint =>
      if speed <= down.run then
        if speed <= down.walk then
          if speed <= down.idle then Idle else Walk
        else Run
      else Sprint
    case Jump => PlainState(speed, up)
    case Fall => PlainState(speed, up)
    case Land => PlainState(speed, up)
    case Turn => PlainState(speed, up)
  }

  /** `calculate_locomotion_state`: a state is entered at the plain
      thresholds and left downwards at the thresholds times the hysteresis. */
  function CalculateLocomotionState(speed: real, current: Locomotion, t: Thresholds): (r: Locomotion)
    ensures IsGround(r)
  {
    Classify(speed, current, Up(t), Down(t))
  }

  /** From Idle the state stays Idle exactly when the speed is at most the
      idle threshold; otherwise it is the plain classification. */
  lemma IdleStaysIdle(speed: real, t: Thresholds)
    ensures CalculateLocomotionState(speed, Idle, t) == Idle <==> speed <= t.idle
    ensures CalculateLocomotionState(speed, Idle, t) == PlainState(speed, Up(t))
  {
  }

  /** Walk drops to Idle exactly at speeds up to the scaled idle threshold. */
  lemma WalkLeavesToIdle(speed: real, t: Thresholds)
    ensures CalculateLocomotionState(speed, Walk, t) == Idle <==> speed <= t.idle * t.hysteresis
  {
  }

  /** Sprint is kept exactly while the speed exceeds the scaled run threshold. */
  lemma SprintStaysSprint(speed: real, t: Thresholds)
    ensures CalculateLocomotionState(speed, Sprint, t) == Sprint <==> speed > t.run * t.hysteresis
  {
  }

  /** Jump, Fall, Land and Turn land on the plain classification. */
  lemma NonGroundUsesPlainThresholds(speed: real, current: Locomotion, t: Thresholds)
    requires !IsGround(current)
    ensures CalculateLocomotionState(speed, current, t) == PlainState(speed, Up(t))
  {
  }

  lemma ScaledBelow(x: real, h: real, xh: real)
    requires x >= 0.0 && 0.0 <= h <= 1.0 && xh == x * h
    ensures xh <= x
  {
    assert x - xh == x * (1.0 - h);
  }

  lemma ScaledMono(x: real, y: real, h: real, xh: real, yh: real)
    requires x <= y && h >= 0.0 && xh == x * h && yh == y * h
    ensures xh <= yh
  {
    assert yh - xh == (y - x) * h;
  }

  /** Entry and exit bounds that each increase, with every exit bound at or
      below its entry bound. */
  predicate Nested(up: Bands, down: Bands)
  {
    && up.idle <= up.walk <= up.run
    && down.idle <= down.walk <= down.run
    && down.idle <= up.idle && down.walk <= up.walk && down.run <= up.run
  }

  lemma WellFormedNested(t: Thresholds)
    requires WellFormed(t)
    ensures Nested(Up(t), Down(t))
  {
    var h := t.hysteresis;
    ScaledBelow(t.idle, h, Down(t).idle);
    ScaledBelow(t.walk, h, Down(t).walk);
    ScaledBelow(t.run, h, Down(t).run);
    ScaledMono(t.idle, t.walk, h, Down(t).idle, Down(t).walk);
    ScaledMono(t.walk, t.run, h, Down(t).walk, Down(t).run);
  }

  /** Upward moves follow the plain entry bounds, downward moves the plain
      classification by the exit bounds. */
  lemma ClassifyDirections(speed: real, current: Locomotion, up: Bands, down: Bands)
    requires Nested(up, down) && IsGround(current)
    ensures var r := Classify(speed, current, up, down);
      && (GroundRank(r) > GroundRank(current) ==> r == PlainState(speed, up))
      && (GroundRank(r) < GroundRank(current) ==> r == PlainState(speed, down))
  {
  }

  /** Hysteresis: from a ground state, moving to a faster state uses the plain
      thresholds and moving to a slower one uses the thresholds scaled by the
      hysteresis factor. */
  lemma HysteresisDirections(speed: real, current: Locomotion, t: Thresholds)
    requires WellFormed(t) && IsGround(current)
    ensures var r := CalculateLocomotionState(speed, current, t);
      && (GroundRank(r) > GroundRank(current) ==> r == PlainState(speed, Up(t)))
      && (GroundRank(r) < GroundRank(current) ==> r == PlainState(speed, Down(t)))
  {
    WellFormedNested(t);
    ClassifyDirections(speed, current, Up(t), Down(t));
  }

  /** The speeds at which a ground state, once chosen, is kept. */
  predicate InBand(speed: real, up: Bands, down: Bands, l: Locomotion)
  {
    match l
    case Idle => speed <= up.idle
    case Walk => down.idle < speed <= up.walk
    case Run => down.walk < speed <= up.run
    case Sprint => down.run < speed
    case _ => false
  }

  /** Every chosen state lies inside its band. */
  lemma ChoiceInBand(speed: real, current: Locomotion, up: Bands, down: Bands)
    requires Nested(up, down)
    ensures InBand(speed, up, down, Classify(speed, current, up, down))
  {
  }

  /** Inside its band a state maps to itself. */
  lemma BandKeepsState(speed: real, l: Locomotion, up: Bands, down: Bands)
    requires Nested(up, down) && InBand(speed, up, down, l)
    ensures Classify(speed, l, up, down) == l
  {
  }

  /** With well-formed thresholds the choice is stable: recomputing at the
      same speed from the chosen state keeps it. */
  lemma StateIsStable(speed: real, current: Locomotion, t: Thresholds)
    requires WellFormed(t)
    ensures var r := CalculateLocomotionState(speed, current, t);
      CalculateLocomotionState(speed, r, t) == r
  {
    WellFormedNested(t);
    ChoiceInBand(speed, current, Up(t), Down(t));
    BandKeepsState(speed, CalculateLocomotionState(speed, current, t), Up(t), Down(t));
  }

  /** What the code computes for the speeds of its own unit test under the
      default thresholds. */
  lemma DefaultThresholdExamples()
    ensures CalculateLocomotionState(1.5, Idle, DefaultThresholds()) == Run
    ensures CalculateLocomotionState(3.0, Walk, DefaultThresholds()) == Sprint
    ensures CalculateLocomotionState(9.0, Run, DefaultThresholds()) == Sprint
    ensures CalculateLocomotionState(1.8, Walk, DefaultThresholds()) == Run
    ensures CalculateLocomotionState(0.7, Walk, DefaultThresholds()) == Walk
  {
  }

  /** `calculate_transition_duration` */
  function TransitionDuration(from: Locomotion, to: Locomotion): (d: real)
    ensures 0.05 <= d <= 0.4
  {
    match (from, to)
    case (Idle, Walk) => 0.2
    case (Walk, Idle) => 0.2
    case (Walk, Run) => 0.15
    case (Run, Walk) => 0.15
    case (Run, Sprint) => 0.1
    case (Sprint, Run) => 0.1
    case (Idle, Run) => 0.3
    case (Run, Idle) => 0.3
    case (Idle, Sprint) => 0.4
    case (Sprint, Idle) => 0.4
    case (Walk, Sprint) => 0.25
    case (Sprint, Walk) => 0.25
    case _ =>
      if to == Jump || from == Jump then 0.1
      else if to == Fall || from == Fall then 0.05
      else if to == Land || from == Land then 0.2
      else if to == Turn || from == Turn then 0.15
      else 0.2
  }

  /** Every transition takes as long as the reverse one. */
  lemma TransitionDurationSymmetric(a: Locomotion, b: Locomotion)
    ensures TransitionDuration(a, b) == TransitionDuration(b, a)
  {
  }

  /** Staying in a ground state uses the 0.2 s default, and a wider jump
      between ground states takes longer than a narrower one it contains. */
  lemma TransitionDurationWidening(a: Locomotion, b: Locomotion, c: Locomotion)
    requires IsGround(a) && IsGround(b) && IsGround(c)
    requires GroundRank(a) < GroundRank(b) < GroundRank(c)
    ensures TransitionDuration(a, a) == 0.2
    ensures TransitionDuration(a, c) > TransitionDuration(a, b)
    ensures TransitionDuration(a, c) > TransitionDuration(b, c)
  {
  }

  /** `target_speed`: playback speed of each state's clip. */
  function TargetSpeed(l: Locomotion): (s: real)
    ensures 1.0 <= s <= 1.8
  {
    match l
    case Idle => 1.0
    case Walk => 1.0
    case Run => 1.5
    case Sprint => 1.8
    case Jump => 1.2
    case Fall => 1.0
    case Land => 1.0
    case Turn => 1.0
  }

  /** Faster ground states never play their clip slower. */
  lemma TargetSpeedMonotone(a: Locomotion, b: Locomotion)
    requires IsGround(a) && IsGround(b) && GroundRank(a) <= GroundRank(b)
    ensures TargetSpeed(a) <= TargetSpeed(b)
  {
  }
}
