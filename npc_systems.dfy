/** The NPC brain: the finite state machine that moves an NPC between idle,
    wandering and fleeing, the energy and stress dynamics, and the
    distance-based schedule that decides which NPCs think this frame under a
    per-frame budget. The component updates happen in place on the NPC and
    its state; random wander directions are parameters. */
module NpcSystems {
  import opened Common
  import opened NpcConfig

  /** At most this many NPC brains are updated per frame. */
  const MaxNpcsPerFrame: nat := 200

  /** `NpcBehaviorState`; Follow and Interact are reserved for future use. */
  datatype BehaviorState = Idle | Wander | Flee | Follow | Interact

  /** `f32::clamp`, which panics unless the bounds are ordered. */
  function Clamp(x: real, lo: real, hi: real): (r: real)
    requires lo <= hi
    ensures lo <= r <= hi
    ensures lo <= x <= hi ==> r == x
    ensures x < lo ==> r == lo
    ensures x > hi ==> r == hi
  {
    if x < lo then lo else if x > hi then hi else x
  }

  // ---------------------------------------------------------------------
  // Emotions

  /** The energy after `update_npc_emotions`: below the maximum it
      recovers at the recovery rate, capped at the maximum; at or above the
      maximum it is left alone. */
  function RecoveredEnergy(energy: real, levels: EnergyLevels, dt: real): real
  {
    if energy < levels.maxEnergy then Min(energy + levels.recoveryRate * dt, levels.maxEnergy)
    else energy
  }

  /** The stress after `update_npc_emotions`: while positive it decays at
      the recovery rate, floored at zero; otherwise it is left alone. */
  function RecoveredStress(stress: real, levels: StressLevels, dt: real): real
  {
    if stress > 0.0 then Max(stress - levels.recoveryRate * dt, 0.0)
    else stress
  }

  /** With a non-negative step and rates, recovery moves energy up towards
      the maximum and stress down towards zero, never past either, and a
      value already at its bound stays there. */
  lemma RecoveryBounds(energy: real, stress: real, e: Emotions, dt: real)
    requires dt >= 0.0 && e.energy.recoveryRate >= 0.0 && e.stress.recoveryRate >= 0.0
    ensures energy < e.energy.maxEnergy ==>
      energy <= RecoveredEnergy(energy, e.energy, dt) <= e.energy.maxEnergy
    ensures energy >= e.energy.maxEnergy ==> RecoveredEnergy(energy, e.energy, dt) == energy
    ensures stress > 0.0 ==> 0.0 <= RecoveredStress(stress, e.stress, dt) <= stress
    ensures stress <= 0.0 ==> RecoveredStress(stress, e.stress, dt) == stress
  {
    NonNegativeProduct(e.energy.recoveryRate, dt);
    NonNegativeProduct(e.stress.recoveryRate, dt);
  }

  lemma NonNegativeProduct(a: real, b: real)
    requires a >= 0.0 && b >= 0.0
    ensures a * b >= 0.0
  {
    if a > 0.0 && b > 0.0 {
      assert a * b > 0.0 * b;
    }
  }

  /** The emotion test: with the default levels and one second, energy 50
      rises to 65 and stress 60 falls to 55. */
  lemma EmotionExample()
    ensures RecoveredEnergy(50.0, DefaultEnergy(), 1.0) == 65.0
    ensures RecoveredStress(60.0, DefaultStress(), 1.0) == 55.0
  {
  }

  // ---------------------------------------------------------------------
  // State transitions

  /** The flee trigger: the player is within 10 m and stress exceeds the
      panic threshold. */
  predicate Panics(stress: real, distance: real, e: Emotions)
  {
    distance < 10.0 && stress > e.stress.panicThreshold
  }

  /** `evaluate_state_transition`: panic forces Flee from any state;
      otherwise Idle becomes Wander after 5 s or when energetic, Wander
      becomes Idle when tired or after 20 s, Flee becomes Idle once beyond
      50 m and calm, and the reserved states stay as they are. */
  function NextState(current: BehaviorState, energy: real, stress: real, duration: real,
                     distance: real, e: Emotions): (next: BehaviorState)
    ensures Panics(stress, distance, e) ==> next == Flee
    ensures !Panics(stress, distance, e) && current == Idle ==>
      (next == Wander <==> duration > 5.0 || energy > e.energy.energeticThreshold)
      && (next == Idle <==> !(duration > 5.0 || energy > e.energy.energeticThreshold))
    ensures !Panics(stress, distance, e) && current == Wander ==>
      (next == Idle <==> energy < e.energy.tiredThreshold || duration > 20.0)
      && (next == Wander <==> !(energy < e.energy.tiredThreshold || duration > 20.0))
    ensures !Panics(stress, distance, e) && current == Flee ==>
      (next == Idle <==> distance > 50.0 && stress < e.stress.calmThreshold)
      && (next == Flee <==> !(distance > 50.0 && stress < e.stress.calmThreshold))
    ensures !Panics(stress, distance, e) && (current == Follow || current == Interact) ==> next == current
  {
    if Panics(stress, distance, e) then Flee
    else match current
      case Idle => if duration > 5.0 || energy > e.energy.energeticThreshold then Wander else Idle
      case Wander => if energy < e.energy.tiredThreshold || duration > 20.0 then Idle else Wander
      case Flee => if distance > 50.0 && stress < e.stress.calmThreshold then Idle else Flee
      case _ => current
  }

  /** The machine never enters a reserved state, only ever reaches Flee by
      panicking or by staying, and a fleeing NPC only calms down to Idle. */
  lemma NextStateReachability(current: BehaviorState, energy: real, stress: real, duration: real,
                              distance: real, e: Emotions)
    ensures var next := NextState(current, energy, stress, duration, distance, e);
      && ((next == Follow || next == Interact) ==> next == current)
      && (next == Flee ==> Panics(stress, distance, e) || current == Flee)
      && (current == Flee ==> next == Flee || next == Idle)
  {
  }

  /** A fleeing NPC keeps fleeing while the player is within 50 m, however
      calm it has become. */
  lemma FleeHoldsNearby(energy: real, stress: real, duration: real, distance: real, e: Emotions)
    requires distance <= 50.0
    ensures NextState(Flee, energy, stress, duration, distance, e) == Flee
  {
  }

  /** The transition tests with the default NPC (energy 100, stress 0):
      idle for 6 s at 100 m wanders; with stress 80 at 5 m it flees. */
  lemma TransitionExamples()
    ensures NextState(Idle, 100.0, 0.0, 6.0, 100.0, DefaultEmotions()) == Wander
    ensures NextState(Idle, 100.0, 80.0, 6.0, 5.0, DefaultEmotions()) == Flee
  {
  }

  // ---------------------------------------------------------------------
  // Behaviour

  /** The energy change of `execute_state_behavior` before clamping: idling
      recovers at half the recovery rate, wandering drains at the drain
      rate, fleeing drains at twice the drain rate. */
  function BehaviorEnergy(current: BehaviorState, energy: real, levels: EnergyLevels, dt: real): real
  {
    match current
    case Idle => energy + levels.recoveryRate * dt * 0.5
    case Wander => energy - levels.drainRate * dt
    case Flee => energy - levels.drainRate * dt * 2.0
    case _ => energy
  }

  /** The stress change of `execute_state_behavior` before clamping: only
      fleeing builds stress, at the buildup rate. */
  function BehaviorStress(current: BehaviorState, stress: real, levels: StressLevels, dt: real): real
  {
    if current == Flee then stress + levels.buildupRate * dt else stress
  }

  /** With a non-negative step and rates, fleeing costs energy and adds
      stress, wandering costs energy and idling restores it. */
  lemma BehaviorDirection(current: BehaviorState, energy: real, stress: real, e: Emotions, dt: real)
    requires dt >= 0.0 && e.energy.recoveryRate >= 0.0 && e.energy.drainRate >= 0.0
    requires e.stress.buildupRate >= 0.0
    ensures current == Idle ==> BehaviorEnergy(current, energy, e.energy, dt) >= energy
    ensures current == Wander || current == Flee ==> BehaviorEnergy(current, energy, e.energy, dt) <= energy
    ensures current == Flee ==> BehaviorStress(current, stress, e.stress, dt) >= stress
    ensures current != Flee ==> BehaviorStress(current, stress, e.stress, dt) == stress
  {
    NonNegativeProduct(e.energy.recoveryRate, dt);
    NonNegativeProduct(e.energy.drainRate, dt);
    NonNegativeProduct(e.stress.buildupRate, dt);
  }

  /** The direction away from the player; `normalize_or_zero` is not
      applied, so only its direction matters. */
  function Away(npcPos: Vec3, playerPos: Vec3): Vec3
  {
    Vec3(npcPos.x - playerPos.x, npcPos.y - playerPos.y, npcPos.z - playerPos.z)
  }

  /** `NPC`: the fields the brain updates. */
  class Npc {
    var energy: real
    var stress: real
    var lastDecisionTime: real

    /** `NPC::default`: full energy, no stress. */
    constructor Default()
      ensures energy == 100.0 && stress == 0.0 && lastDecisionTime == 0.0
    {
      energy := 100.0;
      stress := 0.0;
      lastDecisionTime := 0.0;
    }
  }

  /** `NpcState` with its `StateData` inlined. */
  class NpcState {
    var current: BehaviorState
    var previous: BehaviorState
    var stateStartTime: real
    var stateDuration: real
    var targetPosition: Option<Vec3>
    var direction: Vec3
    var speedMultiplier: real
    var timer: real
    var maxDuration: real

    /** `NpcState::default`: idle from time zero with the default state data
        (unit speed, a 10 s limit). */
    constructor Default()
      ensures current == Idle && previous == Idle && stateStartTime == 0.0 && stateDuration == 0.0
      ensures targetPosition == None && direction == Vec3(0.0, 0.0, 0.0)
      ensures speedMultiplier == 1.0 && timer == 0.0 && maxDuration == 10.0
    {
      current := Idle;
      previous := Idle;
      stateStartTime := 0.0;
      stateDuration := 0.0;
      targetPosition := None;
      direction := Vec3(0.0, 0.0, 0.0);
      speedMultiplier := 1.0;
      timer := 0.0;
      maxDuration := 10.0;
    }
  }

  /** `LastUpdateFrame` */
  class LastUpdate {
    var frame: nat
    var time: real

    constructor ()
      ensures frame == 0 && time == 0.0
    {
      frame := 0;
      time := 0.0;
    }
  }

  /** The speed multiplier a state starts with. */
  function EntrySpeed(s: BehaviorState): real
  {
    match s
    case Idle => 0.0
    case Wander => 1.0
    case Flee => 2.0
    case _ => 1.0
  }

  /** The maximum duration a state starts with. */
  function EntryMaxDuration(s: BehaviorState): real
  {
    if s == Wander then 20.0 else 10.0
  }

  /** `update_npc_emotions` */
  method UpdateEmotions(npc: Npc, e: Emotions, dt: real)
    modifies npc`energy, npc`stress
    ensures npc.energy == RecoveredEnergy(old(npc.energy), e.energy, dt)
    ensures npc.stress == RecoveredStress(old(npc.stress), e.stress, dt)
  {
    if npc.energy < e.energy.maxEnergy {
      npc.energy := npc.energy + e.energy.recoveryRate * dt;
      npc.energy := Min(npc.energy, e.energy.maxEnergy);
    }
    if npc.stress > 0.0 {
      npc.stress := npc.stress - e.stress.recoveryRate * dt;
      npc.stress := Max(npc.stress, 0.0);
    }
  }

  /** `transition_to_state`: the old state becomes the previous one, the
      clock restarts at the current time, the state data is reset, and the
      new state's speed and time limit are set; a wander also picks the
      given random direction. */
  method TransitionToState(state: NpcState, next: BehaviorState, time: real, wanderDirection: Vec3)
    modifies state
    ensures state.previous == old(state.current) && state.current == next
    ensures state.stateStartTime == time && state.stateDuration == 0.0
    ensures state.speedMultiplier == EntrySpeed(next) && state.maxDuration == EntryMaxDuration(next)
    ensures state.timer == 0.0 && state.targetPosition == None
    ensures state.direction == (if next == Wander then wanderDirection else Vec3(0.0, 0.0, 0.0))
  {
    state.previous := state.current;
    state.current := next;
    state.stateStartTime := time;
    state.stateDuration := 0.0;
    state.targetPosition := None;
    state.direction := Vec3(0.0, 0.0, 0.0);
    state.speedMultiplier := 1.0;
    state.timer := 0.0;
    state.maxDuration := 10.0;
    match next {
      case Idle =>
        state.speedMultiplier := 0.0;
        state.maxDuration := 10.0;
      case Wander =>
        state.speedMultiplier := 1.0;
        state.maxDuration := 20.0;
        state.direction := wanderDirection;
      case Flee =>
        state.speedMultiplier := 2.0;
        state.maxDuration := 10.0;
      case _ =>
    }
  }

  /** `execute_state_behavior`: the state's energy and stress change, then
      both are clamped to [0, max]; a wanderer's timer runs and past 3 s
      restarts with a new direction; a fleeing NPC turns away from the
      player. The clamp panics unless both maxima are non-negative. */
  method ExecuteStateBehavior(npc: Npc, state: NpcState, e: Emotions,
                              playerPos: Vec3, npcPos: Vec3, dt: real, wanderDirection: Vec3)
    requires e.energy.maxEnergy >= 0.0 && e.stress.maxStress >= 0.0
    modifies npc`energy, npc`stress, state`timer, state`direction
    ensures npc.energy == Clamp(BehaviorEnergy(state.current, old(npc.energy), e.energy, dt), 0.0, e.energy.maxEnergy)
    ensures npc.stress == Clamp(BehaviorStress(state.current, old(npc.stress), e.stress, dt), 0.0, e.stress.maxStress)
    ensures 0.0 <= npc.energy <= e.energy.maxEnergy && 0.0 <= npc.stress <= e.stress.maxStress
    ensures state.current == Wander ==>
      if old(state.timer) + dt > 3.0 then state.timer == 0.0 && state.direction == wanderDirection
      else state.timer == old(state.timer) + dt && state.direction == old(state.direction)
    ensures state.current == Flee ==> state.direction == Away(npcPos, playerPos) && state.timer == old(state.timer)
    ensures state.current != Wander && state.current != Flee ==>
      state.timer == old(state.timer) && state.direction == old(state.direction)
  {
    npc.energy := Clamp(BehaviorEnergy(state.current, npc.energy, e.energy, dt), 0.0, e.energy.maxEnergy);
    npc.stress := Clamp(BehaviorStress(state.current, npc.stress, e.stress, dt), 0.0, e.stress.maxStress);
    match state.current {
      case Wander =>
        state.timer := state.timer + dt;
        if state.timer > 3.0 {
          state.timer := 0.0;
          state.direction := wanderDirection;
        }
      case Flee =>
        state.direction := Away(npcPos, playerPos);
      case _ =>
    }
  }

  /** `process_npc_brain`: the update is stamped, the state clock advances,
      emotions recover, the machine takes its transition (restarting the
      state on a change) and the resulting state's behaviour runs. Energy
      and stress end within their ranges, whatever they were before. */
  method ProcessNpcBrain(npc: Npc, state: NpcState, last: LastUpdate, e: Emotions,
                         playerPos: Vec3, npcPos: Vec3, distance: real,
                         frame: nat, time: real, dt: real, wanderDirection: Vec3)
    requires e.energy.maxEnergy >= 0.0 && e.stress.maxStress >= 0.0
    modifies npc, state, last
    ensures last.frame == frame && last.time == time && npc.lastDecisionTime == time
    ensures var next := NextState(old(state.current),
                                  RecoveredEnergy(old(npc.energy), e.energy, dt),
                                  RecoveredStress(old(npc.stress), e.stress, dt),
                                  old(state.stateDuration) + dt, distance, e);
      && state.current == next
      && (next != old(state.current) ==>
            state.previous == old(state.current) && state.stateStartTime == time && state.stateDuration == 0.0)
      && (next == old(state.current) ==>
            state.previous == old(state.previous) && state.stateDuration == old(state.stateDuration) + dt)
    ensures npc.energy == Clamp(BehaviorEnergy(state.current, RecoveredEnergy(old(npc.energy), e.energy, dt), e.energy, dt),
                                0.0, e.energy.maxEnergy)
    ensures npc.stress == Clamp(BehaviorStress(state.current, RecoveredStress(old(npc.stress), e.stress, dt), e.stress, dt),
                                0.0, e.stress.maxStress)
    ensures 0.0 <= npc.energy <= e.energy.maxEnergy && 0.0 <= npc.stress <= e.stress.maxStress
  {
    last.frame := frame;
    last.time := time;
    state.stateDuration := state.stateDuration + dt;
    UpdateEmotions(npc, e, dt);
    var next := NextState(state.current, npc.energy, npc.stress, state.stateDuration, distance, e);
    if next != state.current {
      TransitionToState(state, next, time, wanderDirection);
    }
    ExecuteStateBehavior(npc, state, e, playerPos, npcPos, dt, wanderDirection);
    npc.lastDecisionTime := time;
  }

  /** The first brain update of a default NPC standing 5 m from the player
      at stress 80 makes it flee: stress recovers to 79.5 over a tenth of a
      second, still above panic, and fleeing builds it to 80.5. */
  method PanicExample() returns (current: BehaviorState, previous: BehaviorState, stress: real, energy: real)
    ensures current == Flee && previous == Idle
    ensures stress == 80.5 && energy == 99.0
  {
    var npc := new Npc.Default();
    npc.stress := 80.0;
    var state := new NpcState.Default();
    var last := new LastUpdate();
    var origin := Vec3(0.0, 0.0, 0.0);
    ProcessNpcBrain(npc, state, last, DefaultEmotions(), origin, Vec3(5.0, 0.0, 0.0), 5.0, 1, 1.0, 0.1, origin);
    current := state.current;
    previous := state.previous;
    stress := npc.stress;
    energy := npc.energy;
  }

  // ---------------------------------------------------------------------
  // Scheduling

  /** `should_process_npc` */
  predicate ShouldProcessNpc(framesSinceUpdate: nat, frameInterval: nat)
  {
    framesSinceUpdate >= frameInterval
  }

  /** The frame counter after one frame of the brain system: incremented,
      then reset to zero when the NPC is processed. */
  function NextFrames(frames: nat, interval: nat): nat
  {
    if ShouldProcessNpc(frames + 1, interval) then 0 else frames + 1
  }

  /** Starting from a reset counter and never cut by the budget, an NPC is
      processed on exactly every `interval`-th frame: after k frames with
      k below the interval the counter reads k, and at the interval it is
      processed. */
  lemma {:induction false} ProcessedEveryInterval(interval: nat, k: nat)
    requires interval >= 1 && k < interval
    ensures Iterate(0, interval, k) == k
    ensures k + 1 == interval ==> ShouldProcessNpc(Iterate(0, interval, k) + 1, interval)
    ensures k + 1 < interval ==> !ShouldProcessNpc(Iterate(0, interval, k) + 1, interval)
  {
    if k > 0 {
      ProcessedEveryInterval(interval, k - 1);
    }
  }

  /** The counter after k frames. */
  function Iterate(frames: nat, interval: nat, k: nat): nat
  {
    if k == 0 then frames else NextFrames(Iterate(frames, interval, k - 1), interval)
  }

  /** The number of processed NPCs in a frame. */
  function CountTrue(s: seq<bool>): (n: nat)
    ensures n <= |s|
  {
    if |s| == 0 then 0 else CountTrue(s[..|s| - 1]) + (if s[|s| - 1] then 1 else 0)
  }

  lemma CountTrueSnoc(s: seq<bool>, b: bool)
    ensures CountTrue(s + [b]) == CountTrue(s) + (if b then 1 else 0)
  {
    assert (s + [b])[..|s|] == s;
  }

  /** How many categories in a sequence fall at rank k. */
  function CountRank(cats: seq<DistanceCategory>, k: nat): (n: nat)
    ensures n <= |cats|
  {
    if |cats| == 0 then 0 else CountRank(cats[..|cats| - 1], k) + (if Rank(cats[|cats| - 1]) == k then 1 else 0)
  }

  lemma CountRankSnoc(cats: seq<DistanceCategory>, cat: DistanceCategory)
    ensures forall k :: CountRank(cats + [cat], k) == CountRank(cats, k) + (if Rank(cat) == k then 1 else 0)
  {
    assert (cats + [cat])[..|cats|] == cats;
  }

  /** The category counts over all ranks add up to the number of NPCs. */
  lemma {:induction false} CountRanksPartition(cats: seq<DistanceCategory>)
    ensures CountRank(cats, 0) + CountRank(cats, 1) + CountRank(cats, 2) == |cats|
  {
    if |cats| > 0 {
      CountRanksPartition(cats[..|cats| - 1]);
    }
  }

  /** One NPC's outcome in a frame: processed exactly when its advanced
      counter reaches its category's interval, and the counter advanced
      or reset accordingly. */
  predicate NpcScheduled(distance: real, frames: nat, c: UpdateIntervals, processed: bool, newFrames: nat)
  {
    var interval := FrameInterval(FromDistance(distance, c));
    processed == ShouldProcessNpc(frames + 1, interval) && newFrames == NextFrames(frames, interval)
  }

  /** The scheduling loop of `npc_brain_system` over the NPCs in query
      order, given each NPC's distance to the player and its frames since
      the last update. Until the budget of `MaxNpcsPerFrame` processed NPCs
      is reached, each NPC is classified and counted, its counter advances,
      and it is processed (counter reset) when the counter reaches its
      category's frame interval; the NPCs after the budget is reached are
      not looked at. `visited` is how many were looked at, `flags` which of
      those were processed, `byDistance` the per-category counts. */
  method ScheduleFrame(distances: seq<real>, frames: seq<nat>, c: UpdateIntervals)
    returns (newFrames: seq<nat>, flags: seq<bool>, byDistance: seq<nat>, processed: nat, visited: nat)
    requires |distances| == |frames|
    ensures visited <= |frames| && |newFrames| == |frames| && |flags| == visited && |byDistance| == 3
    ensures processed == CountTrue(flags) && processed <= MaxNpcsPerFrame
    ensures visited < |frames| ==> processed == MaxNpcsPerFrame
    ensures forall i :: 0 <= i < visited ==> NpcScheduled(distances[i], frames[i], c, flags[i], newFrames[i])
    ensures forall i :: visited <= i < |frames| ==> newFrames[i] == frames[i]
    ensures var cats := seq(visited, i requires 0 <= i < visited && i < |distances| => FromDistance(distances[i], c));
      forall k :: 0 <= k < 3 ==> byDistance[k] == CountRank(cats, k)
  {
    newFrames := frames;
    flags := [];
    processed := 0;
    visited := 0;
    var cats: seq<DistanceCategory> := [];
    byDistance := [0, 0, 0];
    while visited < |frames|
      invariant ScheduledSoFar(distances, frames, c, visited, newFrames, flags, cats, byDistance, processed)
      invariant processed <= MaxNpcsPerFrame
      decreases |frames| - visited
    {
      if processed >= MaxNpcsPerFrame {
        break;
      }
      var cat, due, next := VisitNpc(distances[visited], frames[visited], c);
      ScheduledStep(distances, frames, c, visited, newFrames, flags, cats, byDistance, processed, cat, due, next);
      byDistance := byDistance[Rank(cat) := byDistance[Rank(cat)] + 1];
      newFrames := newFrames[visited := next];
      if due {
        processed := processed + 1;
      }
      flags := flags + [due];
      cats := cats + [cat];
      visited := visited + 1;
    }
    assert cats == seq(visited, i requires 0 <= i < visited && i < |distances| => FromDistance(distances[i], c));
  }

  /** What the scheduling loop has done once `visited` NPCs were looked
      at: their categories, outcomes and counts, the rest untouched. */
  ghost predicate ScheduledSoFar(distances: seq<real>, frames: seq<nat>, c: UpdateIntervals, visited: nat,
                                 newFrames: seq<nat>, flags: seq<bool>, cats: seq<DistanceCategory>,
                                 byDistance: seq<nat>, processed: nat)
  {
    && |distances| == |frames| && visited <= |frames| && |newFrames| == |frames|
    && |flags| == visited && |cats| == visited && |byDistance| == 3
    && processed == CountTrue(flags)
    && (forall i :: 0 <= i < visited ==> cats[i] == FromDistance(distances[i], c))
    && (forall i :: 0 <= i < visited ==> NpcScheduled(distances[i], frames[i], c, flags[i], newFrames[i]))
    && (forall i :: visited <= i < |frames| ==> newFrames[i] == frames[i])
    && (forall k :: 0 <= k < 3 ==> byDistance[k] == CountRank(cats, k))
  }

  /** Looking at one more NPC keeps `ScheduledSoFar`. */
  lemma ScheduledStep(distances: seq<real>, frames: seq<nat>, c: UpdateIntervals, visited: nat,
                      newFrames: seq<nat>, flags: seq<bool>, cats: seq<DistanceCategory>,
                      byDistance: seq<nat>, processed: nat, cat: DistanceCategory, due: bool, next: nat)
    requires ScheduledSoFar(distances, frames, c, visited, newFrames, flags, cats, byDistance, processed)
    requires visited < |frames|
    requires cat == FromDistance(distances[visited], c) && NpcScheduled(distances[visited], frames[visited], c, due, next)
    ensures ScheduledSoFar(distances, frames, c, visited + 1, newFrames[visited := next], flags + [due], cats + [cat],
                           byDistance[Rank(cat) := byDistance[Rank(cat)] + 1], processed + (if due then 1 else 0))
  {
    CountTrueSnoc(flags, due);
    CountRankSnoc(cats, cat);
  }

  /** One NPC in the loop: classified by distance, its counter advanced,
      and processed (counter reset) when the counter reaches the
      category's interval. */
  method VisitNpc(distance: real, frames: nat, c: UpdateIntervals) returns (cat: DistanceCategory, due: bool, next: nat)
    ensures cat == FromDistance(distance, c) && NpcScheduled(distance, frames, c, due, next)
  {
    cat := FromDistance(distance, c);
    var interval := FrameInterval(cat);
    var count := frames + 1;
    due := ShouldProcessNpc(count, interval);
    if due {
      next := 0;
    } else {
      next := count;
    }
  }

  /** `NpcMetrics`: the rolling update rate. */
  class NpcMetrics {
    var frameCounter: nat
    var accumulatedUpdates: nat
    var npcsUpdatedThisFrame: nat
    var updatesPerSecond: real

    constructor ()
      ensures frameCounter == 0 && accumulatedUpdates == 0 && npcsUpdatedThisFrame == 0 && updatesPerSecond == 0.0
    {
      frameCounter := 0;
      accumulatedUpdates := 0;
      npcsUpdatedThisFrame := 0;
      updatesPerSecond := 0.0;
    }

    /** `npc_metrics_system`: the frame counter advances and this frame's
        updates accumulate; every 60th frame the accumulated count over 60
        becomes the rate and the accumulator restarts. */
    method Tick()
      modifies this`frameCounter, this`accumulatedUpdates, this`updatesPerSecond
      ensures frameCounter == old(frameCounter) + 1
      ensures frameCounter % 60 == 0 ==>
        accumulatedUpdates == 0
        && updatesPerSecond == (old(accumulatedUpdates) + npcsUpdatedThisFrame) as real / 60.0
      ensures frameCounter % 60 != 0 ==>
        accumulatedUpdates == old(accumulatedUpdates) + npcsUpdatedThisFrame
        && updatesPerSecond == old(updatesPerSecond)
    {
      frameCounter := frameCounter + 1;
      accumulatedUpdates := accumulatedUpdates + npcsUpdatedThisFrame;
      if frameCounter % 60 == 0 {
        updatesPerSecond := accumulatedUpdates as real / 60.0;
        accumulatedUpdates := 0;
      }
    }
  }
}
