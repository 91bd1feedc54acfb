/** The NPC behaviour configuration: the emotion thresholds and rates, and
    the distance bands that decide how often an NPC is updated. Floats are
    reals. */
module NpcConfig {

  /** `EnergyLevelsConfig` */
  datatype EnergyLevels = EnergyLevels(
    maxEnergy: real, restingThreshold: real, tiredThreshold: real,
    energeticThreshold: real, drainRate: real, recoveryRate: real)

  /** `StressLevelsConfig` */
  datatype StressLevels = StressLevels(
    maxStress: real, calmThreshold: real, stressedThreshold: real,
    panicThreshold: real, buildupRate: real, recoveryRate: real)

  /** The emotion part of `NpcBehaviorConfig`. */
  datatype Emotions = Emotions(energy: EnergyLevels, stress: StressLevels)

  /** `EnergyLevelsConfig::default`: a 100-point scale with the resting,
      tired and energetic thresholds in increasing order. */
  function DefaultEnergy(): (e: EnergyLevels)
    ensures e.maxEnergy == 100.0
    ensures 0.0 < e.restingThreshold < e.tiredThreshold < e.energeticThreshold < e.maxEnergy
    ensures e.drainRate == 5.0 && e.recoveryRate == 15.0
  {
    EnergyLevels(100.0, 20.0, 30.0, 80.0, 5.0, 15.0)
  }

  /** `StressLevelsConfig::default`: a 100-point scale with the calm,
      stressed and panic thresholds in increasing order. */
  function DefaultStress(): (s: StressLevels)
    ensures s.maxStress == 100.0
    ensures 0.0 < s.calmThreshold < s.stressedThreshold < s.panicThreshold < s.maxStress
    ensures s.buildupRate == 10.0 && s.recoveryRate == 5.0
  {
    StressLevels(100.0, 30.0, 40.0, 70.0, 10.0, 5.0)
  }

  function DefaultEmotions(): Emotions
  {
    Emotions(DefaultEnergy(), DefaultStress())
  }

  /** `UpdateIntervalsConfig` */
  datatype UpdateIntervals = UpdateIntervals(
    closeDistance: real, farDistance: real,
    closeInterval: real, mediumInterval: real, farInterval: real)

  /** `UpdateIntervalsConfig::default`: close below 50 m, far from 150 m,
      with intervals that lengthen with the distance. */
  function DefaultIntervals(): (c: UpdateIntervals)
    ensures c.closeDistance == 50.0 && c.farDistance == 150.0
    ensures 0.0 < c.closeInterval < c.mediumInterval < c.farInterval == 1.0
  {
    UpdateIntervals(50.0, 150.0, 0.0167, 0.25, 1.0)
  }

  datatype DistanceCategory = Close | Medium | Far

  /** `DistanceCategory::from_distance`: closer than the close distance is
      Close, else closer than the far distance is Medium, else Far. */
  function FromDistance(distance: real, c: UpdateIntervals): (cat: DistanceCategory)
    ensures cat == Close <==> distance < c.closeDistance
    ensures cat == Medium <==> c.closeDistance <= distance < c.farDistance
    ensures cat == Far <==> distance >= c.closeDistance && distance >= c.farDistance
  {
    if distance < c.closeDistance then Close
    else if distance < c.farDistance then Medium
    else Far
  }

  /** The position of a category from near to far. */
  function Rank(cat: DistanceCategory): nat
  {
    match cat
    case Close => 0
    case Medium => 1
    case Far => 2
  }

  /** `frame_interval`: every frame, every 15 frames, every 60 frames; the
      farther the category, the longer the interval. */
  function FrameInterval(cat: DistanceCategory): (frames: nat)
    ensures frames >= 1
    ensures cat == Close <==> frames == 1
  {
    match cat
    case Close => 1
    case Medium => 15
    case Far => 60
  }

  /** The farther of two categories has the strictly longer frame interval. */
  lemma FrameIntervalMonotone(a: DistanceCategory, b: DistanceCategory)
    ensures Rank(a) < Rank(b) <==> FrameInterval(a) < FrameInterval(b)
  {
  }

  /** `update_interval`: the configured interval of the category. */
  function UpdateInterval(cat: DistanceCategory, c: UpdateIntervals): (seconds: real)
    ensures cat == Close ==> seconds == c.closeInterval
    ensures cat == Medium ==> seconds == c.mediumInterval
    ensures cat == Far ==> seconds == c.farInterval
  {
    match cat
    case Close => c.closeInterval
    case Medium => c.mediumInterval
    case Far => c.farInterval
  }

  /** A farther NPC never falls in a nearer category, and so is never
      updated more often. */
  lemma CategoryMonotone(d1: real, d2: real, c: UpdateIntervals)
    requires d1 <= d2
    ensures Rank(FromDistance(d1, c)) <= Rank(FromDistance(d2, c))
    ensures FrameInterval(FromDistance(d1, c)) <= FrameInterval(FromDistance(d2, c))
  {
  }

  /** With the defaults every category is reachable, and the update
      interval in seconds grows with the distance as well. */
  lemma DefaultIntervalsMonotone(d1: real, d2: real)
    requires d1 <= d2
    ensures var c := DefaultIntervals();
      UpdateInterval(FromDistance(d1, c), c) <= UpdateInterval(FromDistance(d2, c), c)
    ensures var c := DefaultIntervals();
      FromDistance(0.0, c) == Close && FromDistance(50.0, c) == Medium && FromDistance(150.0, c) == Far
  {
  }

  /** The classification and interval tests: 25 m is Close, 75 m Medium,
      200 m Far, with frame intervals 1, 15 and 60. */
  lemma ClassificationExamples()
    ensures var c := DefaultIntervals();
      FromDistance(25.0, c) == Close && FromDistance(75.0, c) == Medium && FromDistance(200.0, c) == Far
    ensures FrameInterval(Close) == 1 && FrameInterval(Medium) == 15 && FrameInterval(Far) == 60
  {
  }
}
