/** The integrated performance system: running per-subsystem timing
    metrics against budgets, the load-driven optimisation adjustments, the
    overall score, the recommendations and the validation of the frame
    target. The clock that stamps adjustments is a parameter (`now`, in
    seconds). */
module PerformanceIntegration {
  import opened Common

  /** The eight tracked subsystems, in the order the source lists them. */
  datatype Subsystem =
    | DistanceCache | BatchProcessing | NpcSystem | WorldStreaming
    | TransformSync | GpuCulling | LodSystem | VehiclePhysics

  function AllSubsystems(): (all: seq<Subsystem>)
    ensures |all| == 8
  {
    [DistanceCache, BatchProcessing, NpcSystem, WorldStreaming,
     TransformSync, GpuCulling, LodSystem, VehiclePhysics]
  }

  function Name(s: Subsystem): string
  {
    match s
    case DistanceCache => "distance_cache"
    case BatchProcessing => "batch_processing"
    case NpcSystem => "npc_system"
    case WorldStreaming => "world_streaming"
    case TransformSync => "transform_sync"
    case GpuCulling => "gpu_culling"
    case LodSystem => "lod_system"
    case VehiclePhysics => "vehicle_physics"
  }

  /** The subsystem a name selects; any other name selects none. */
  function SubsystemNamed(name: string): (r: Option<Subsystem>)
    ensures r.Some? ==> Name(r.value) == name
  {
    if name == "distance_cache" then Some(DistanceCache)
    else if name == "batch_processing" then Some(BatchProcessing)
    else if name == "npc_system" then Some(NpcSystem)
    else if name == "world_streaming" then Some(WorldStreaming)
    else if name == "transform_sync" then Some(TransformSync)
    else if name == "gpu_culling" then Some(GpuCulling)
    else if name == "lod_system" then Some(LodSystem)
    else if name == "vehicle_physics" then Some(VehiclePhysics)
    else None
  }

  /** Every subsystem is selected by its own name, and names are never
      empty. */
  lemma NamesRoundTrip(s: Subsystem)
    ensures SubsystemNamed(Name(s)) == Some(s)
    ensures Name(s) != ""
  {}

  // ---------------------------------------------------------------------
  // Configuration and budgets

  /** `PerformanceBudgets` */
  datatype PerformanceBudgets = PerformanceBudgets(
    transformBudgetMs: real, physicsBudgetMs: real, lodBudgetMs: real,
    renderingBudgetMs: real, audioBudgetMs: real, aiBudgetMs: real)

  /** The parts of `PerformanceStrikeConfig` this system reads. */
  datatype StrikeConfig = StrikeConfig(targetFrameTimeMs: real, budgets: PerformanceBudgets)

  /** `PerformanceStrikeConfig::default()` */
  function DefaultConfig(): (c: StrikeConfig)
    ensures Usable(c)
  {
    StrikeConfig(3.0, PerformanceBudgets(0.75, 0.5, 0.4, 1.0, 0.2, 0.15))
  }

  /** A configuration the load and ratio divisions can use: a positive
      frame target and positive budgets. */
  predicate Usable(c: StrikeConfig)
  {
    && c.targetFrameTimeMs > 0.0
    && c.budgets.transformBudgetMs > 0.0 && c.budgets.physicsBudgetMs > 0.0
    && c.budgets.lodBudgetMs > 0.0 && c.budgets.aiBudgetMs > 0.0
  }

  /** A subsystem's budget: four fixed values and four from the
      configuration. */
  function Budget(c: StrikeConfig, s: Subsystem): (b: real)
    ensures Usable(c) ==> b > 0.0
  {
    match s
    case DistanceCache => 0.1
    case BatchProcessing => 0.5
    case NpcSystem => c.budgets.aiBudgetMs
    case WorldStreaming => 0.5
    case TransformSync => c.budgets.transformBudgetMs
    case GpuCulling => 0.3
    case LodSystem => c.budgets.lodBudgetMs
    case VehiclePhysics => c.budgets.physicsBudgetMs
  }

  /** `get_budget_for_subsystem`: by name, 0.2 for an unknown name. */
  function BudgetForName(c: StrikeConfig, name: string): (b: real)
    ensures SubsystemNamed(name).Some? ==> b == Budget(c, SubsystemNamed(name).value)
    ensures SubsystemNamed(name).None? ==> b == 0.2
  {
    match SubsystemNamed(name)
    case None => 0.2
    case Some(s) => Budget(c, s)
  }

  /** The budget test: with the default configuration transform sync has
      0.75 ms and the LOD system 0.4 ms. */
  lemma BudgetExamples()
    ensures BudgetForName(DefaultConfig(), "transform_sync") == 0.75
    ensures BudgetForName(DefaultConfig(), "lod_system") == 0.4
    ensures BudgetForName(DefaultConfig(), "audio") == 0.2
  {}

  // ---------------------------------------------------------------------
  // Running metrics of one subsystem

  /** `OptimizationLevel` */
  datatype OptimizationLevel = Conservative | Balanced | Aggressive | Maximum

  /** `SubsystemMetrics` */
  datatype SubsystemMetrics = SubsystemMetrics(
    averageTimeMs: real, maxTimeMs: real, minTimeMs: real,
    samples: nat, budgetViolations: nat, optimizationLevel: OptimizationLevel)

  /** `SubsystemMetrics::default()`: all zero, balanced. */
  function DefaultMetrics(): (m: SubsystemMetrics)
    ensures m.samples == 0 && m.budgetViolations == 0
  {
    SubsystemMetrics(0.0, 0.0, 0.0, 0, 0, Balanced)
  }

  /** One sample folded into the metrics: one more sample, the mean
      updated incrementally, the maximum raised, the minimum taken from
      the sample when it is still zero and lowered otherwise, and one
      more violation when the sample exceeds the budget. */
  function Updated(m: SubsystemMetrics, time: real, budget: real): (r: SubsystemMetrics)
    ensures r.samples == m.samples + 1
    ensures r.budgetViolations == m.budgetViolations + (if time > budget then 1 else 0)
    ensures r.maxTimeMs >= m.maxTimeMs && r.maxTimeMs >= time
    ensures r.optimizationLevel == m.optimizationLevel
  {
    var n := m.samples + 1;
    SubsystemMetrics(
      (m.averageTimeMs * ((n - 1) as real) + time) / (n as real),
      Max(m.maxTimeMs, time),
      if m.minTimeMs == 0.0 then time else Min(m.minTimeMs, time),
      n,
      m.budgetViolations + (if time > budget then 1 else 0),
      m.optimizationLevel)
  }

  /** The metrics after folding in a sequence of samples in order. */
  function Replay(m: SubsystemMetrics, times: seq<real>, budget: real): SubsystemMetrics
  {
    if times == [] then m
    else Updated(Replay(m, times[..|times| - 1], budget), times[|times| - 1], budget)
  }

  /** How many samples exceed the budget. */
  function CountOver(times: seq<real>, budget: real): (k: nat)
    ensures k <= |times|
  {
    if times == [] then 0
    else CountOver(times[..|times| - 1], budget) + (if times[|times| - 1] > budget then 1 else 0)
  }

  /** From the default metrics, the sample count is the number of samples
      and the violation count the number of samples over budget. */
  lemma {:induction false} ReplayCounts(times: seq<real>, budget: real)
    ensures Replay(DefaultMetrics(), times, budget).samples == |times|
    ensures Replay(DefaultMetrics(), times, budget).budgetViolations == CountOver(times, budget)
  {
    if times != [] {
      ReplayCounts(times[..|times| - 1], budget);
    }
  }

  /** Mean × count: the sum of the samples the metrics stand for. */
  function Total(m: SubsystemMetrics): real
  {
    m.averageTimeMs * (m.samples as real)
  }

  /** The incremental mean keeps mean × count equal to the sum of the
      samples. */
  lemma {:induction false} ReplayTotal(times: seq<real>, budget: real)
    ensures Total(Replay(DefaultMetrics(), times, budget)) == Sum(times)
  {
    if times != [] {
      var init, t := times[..|times| - 1], times[|times| - 1];
      var prev := Replay(DefaultMetrics(), init, budget);
      ReplayTotal(init, budget);
      UpdatedTotal(prev, t, budget);
      assert times == init + [t];
      SumAppend(init, t);
    }
  }

  /** One update adds the sample to mean × count. */
  lemma UpdatedTotal(m: SubsystemMetrics, time: real, budget: real)
    ensures Total(Updated(m, time, budget)) == Total(m) + time
  {
    var n := (m.samples + 1) as real;
    var x := m.averageTimeMs * (m.samples as real) + time;
    assert x / n * n == x;
  }

  /** From the default metrics, the running mean of a non-empty sample is
      its arithmetic mean. */
  lemma MeanOfReplay(times: seq<real>, budget: real)
    requires times != []
    ensures Replay(DefaultMetrics(), times, budget).averageTimeMs == Sum(times) / (|times| as real)
  {
    var m := Replay(DefaultMetrics(), times, budget);
    ReplayTotal(times, budget);
    ReplayCounts(times, budget);
    QuotientOfProduct(m.averageTimeMs, m.samples as real, Sum(times));
  }

  lemma QuotientOfProduct(a: real, n: real, s: real)
    requires n > 0.0 && a * n == s
    ensures a == s / n
  {
  }

  /** The maximum is never below a sample and is either a sample or the
      initial zero. */
  lemma {:induction false} MaxOfReplay(times: seq<real>, budget: real)
    ensures var m := Replay(DefaultMetrics(), times, budget);
      && (forall i :: 0 <= i < |times| ==> times[i] <= m.maxTimeMs)
      && (m.maxTimeMs == 0.0 || m.maxTimeMs in times)
  {
    if times != [] {
      var init := times[..|times| - 1];
      MaxOfReplay(init, budget);
      assert forall i :: 0 <= i < |init| ==> init[i] == times[i];
    }
  }

  /** For positive samples the minimum is the least sample (a zero
      minimum is read as "no sample yet"). */
  lemma {:induction false} MinOfReplay(times: seq<real>, budget: real)
    requires forall i :: 0 <= i < |times| ==> times[i] > 0.0
    ensures var m := Replay(DefaultMetrics(), times, budget);
      && (times == [] ==> m.minTimeMs == 0.0)
      && (times != [] ==> m.minTimeMs in times && forall i :: 0 <= i < |times| ==> m.minTimeMs <= times[i])
  {
    if times != [] {
      var init := times[..|times| - 1];
      assert forall i :: 0 <= i < |init| ==> init[i] == times[i];
      MinOfReplay(init, budget);
      if init != [] {
        var p := Replay(DefaultMetrics(), init, budget).minTimeMs;
        var pi :| 0 <= pi < |init| && init[pi] == p;
        assert p > 0.0;
      }
    }
  }

  /** The metrics test: 0.5 ms then 1.0 ms give a mean of 0.75 over two
      samples. */
  lemma UpdateExample()
    ensures Updated(DefaultMetrics(), 0.5, 0.75).averageTimeMs == 0.5
    ensures Updated(Updated(DefaultMetrics(), 0.5, 0.75), 1.0, 0.75).averageTimeMs == 0.75
    ensures Updated(Updated(DefaultMetrics(), 0.5, 0.75), 1.0, 0.75).samples == 2
    ensures Updated(Updated(DefaultMetrics(), 0.5, 0.75), 1.0, 0.75).budgetViolations == 1
  {}

  // ---------------------------------------------------------------------
  // All subsystems

  /** `SubsystemPerformance` */
  datatype SubsystemPerformance = SubsystemPerformance(
    distanceCache: SubsystemMetrics, batchProcessing: SubsystemMetrics,
    npcSystem: SubsystemMetrics, worldStreaming: SubsystemMetrics,
    transformSync: SubsystemMetrics, gpuCulling: SubsystemMetrics,
    lodSystem: SubsystemMetrics, vehiclePhysics: SubsystemMetrics)

  function DefaultPerformance(): SubsystemPerformance
  {
    var d := DefaultMetrics();
    SubsystemPerformance(d, d, d, d, d, d, d, d)
  }

  function Get(p: SubsystemPerformance, s: Subsystem): SubsystemMetrics
  {
    match s
    case DistanceCache => p.distanceCache
    case BatchProcessing => p.batchProcessing
    case NpcSystem => p.npcSystem
    case WorldStreaming => p.worldStreaming
    case TransformSync => p.transformSync
    case GpuCulling => p.gpuCulling
    case LodSystem => p.lodSystem
    case VehiclePhysics => p.vehiclePhysics
  }

  /** The performance with one subsystem's metrics replaced; the others
      keep theirs. */
  function Set(p: SubsystemPerformance, s: Subsystem, m: SubsystemMetrics): (r: SubsystemPerformance)
    ensures Get(r, s) == m
    ensures forall t :: t != s ==> Get(r, t) == Get(p, t)
  {
    match s
    case DistanceCache => p.(distanceCache := m)
    case BatchProcessing => p.(batchProcessing := m)
    case NpcSystem => p.(npcSystem := m)
    case WorldStreaming => p.(worldStreaming := m)
    case TransformSync => p.(transformSync := m)
    case GpuCulling => p.(gpuCulling := m)
    case LodSystem => p.(lodSystem := m)
    case VehiclePhysics => p.(vehiclePhysics := m)
  }

  /** The summed mean times of all subsystems. */
  function TotalTime(p: SubsystemPerformance): real
  {
    p.distanceCache.averageTimeMs + p.batchProcessing.averageTimeMs
      + p.npcSystem.averageTimeMs + p.worldStreaming.averageTimeMs
      + p.transformSync.averageTimeMs + p.gpuCulling.averageTimeMs
      + p.lodSystem.averageTimeMs + p.vehiclePhysics.averageTimeMs
  }

  /** Each subsystem's mean time over its budget, in list order. */
  function Ratios(p: SubsystemPerformance, c: StrikeConfig): (rs: seq<real>)
    requires Usable(c)
    ensures |rs| == 8
    ensures forall i :: 0 <= i < 8 ==> rs[i] == Get(p, AllSubsystems()[i]).averageTimeMs / Budget(c, AllSubsystems()[i])
  {
    seq(8, i requires 0 <= i < 8 => Get(p, AllSubsystems()[i]).averageTimeMs / Budget(c, AllSubsystems()[i]))
  }

  // ---------------------------------------------------------------------
  // The worst subsystem

  /** The scan for the greatest ratio from position `i`: a ratio strictly
      above the best so far replaces it; -1 stands for none. */
  function WorstFrom(ratios: seq<real>, i: nat, worstRatio: real, worst: int): int
    requires i <= |ratios|
    decreases |ratios| - i
  {
    if i == |ratios| then worst
    else if ratios[i] > worstRatio then WorstFrom(ratios, i + 1, ratios[i], i)
    else WorstFrom(ratios, i + 1, worstRatio, worst)
  }

  /** What the scan knows after the first `i` ratios. */
  ghost predicate Scanned(ratios: seq<real>, i: nat, worstRatio: real, worst: int)
    requires i <= |ratios|
  {
    || (worst == -1 && worstRatio == 0.0 && forall j :: 0 <= j < i ==> ratios[j] <= 0.0)
    || (&& 0 <= worst < i && worstRatio == ratios[worst] && worstRatio > 0.0
        && (forall j :: 0 <= j < i ==> ratios[j] <= worstRatio)
        && (forall j :: 0 <= j < worst ==> ratios[j] < worstRatio))
  }

  lemma {:induction false} WorstFromScanned(ratios: seq<real>, i: nat, worstRatio: real, worst: int)
    requires i <= |ratios| && Scanned(ratios, i, worstRatio, worst)
    decreases |ratios| - i
    ensures var k := WorstFrom(ratios, i, worstRatio, worst);
      || (k == -1 && forall j :: 0 <= j < |ratios| ==> ratios[j] <= 0.0)
      || (&& 0 <= k < |ratios| && ratios[k] > 0.0
          && (forall j :: 0 <= j < |ratios| ==> ratios[j] <= ratios[k])
          && (forall j :: 0 <= j < k ==> ratios[j] < ratios[k]))
  {
    if i < |ratios| {
      if ratios[i] > worstRatio {
        assert Scanned(ratios, i + 1, ratios[i], i);
        WorstFromScanned(ratios, i + 1, ratios[i], i);
      } else {
        assert Scanned(ratios, i + 1, worstRatio, worst);
        WorstFromScanned(ratios, i + 1, worstRatio, worst);
      }
    }
  }

  /** The name the scan ends on: empty when no ratio is positive. */
  function WorstName(p: SubsystemPerformance, c: StrikeConfig): string
    requires Usable(c)
  {
    var k := WorstFrom(Ratios(p, c), 0, 0.0, -1);
    if 0 <= k < 8 then Name(AllSubsystems()[k]) else ""
  }

  /** The worst subsystem is the first one with the greatest positive
      ratio of mean time to budget; there is none exactly when no ratio
      is positive. */
  lemma WorstIsFirstGreatest(p: SubsystemPerformance, c: StrikeConfig)
    requires Usable(c)
    ensures var rs := Ratios(p, c);
      && (WorstName(p, c) == "" <==> forall j :: 0 <= j < 8 ==> rs[j] <= 0.0)
      && (WorstName(p, c) != "" ==>
            (exists k :: && 0 <= k < 8 && WorstName(p, c) == Name(AllSubsystems()[k])
                         && rs[k] > 0.0 && (forall j :: 0 <= j < 8 ==> rs[j] <= rs[k])
                         && (forall j :: 0 <= j < k ==> rs[j] < rs[k])))
  {
    var rs := Ratios(p, c);
    assert Scanned(rs, 0, 0.0, -1);
    WorstFromScanned(rs, 0, 0.0, -1);
    var k := WorstFrom(rs, 0, 0.0, -1);
    if 0 <= k < 8 {
      NamesRoundTrip(AllSubsystems()[k]);
    }
  }

  // ---------------------------------------------------------------------
  // Adjustments

  /** `AdjustmentType` */
  datatype AdjustmentType = SchedulerFrequency | BatchSize | CacheSize | QualityLevel | ParallelismLevel

  /** `OptimizationAdjustment`, stamped with the clock in seconds. */
  datatype Adjustment = Adjustment(
    timestamp: real, subsystem: string, adjustmentType: AdjustmentType,
    oldValue: real, newValue: real, performanceImpact: real)

  /** The adjustment an overload applies to the worst subsystem: only
      transform sync, the LOD system and the NPC system have one. */
  function EscalationFor(worst: string, now: real): (r: Option<Adjustment>)
    ensures r.Some? ==> r.value.subsystem == worst && r.value.timestamp == now
    ensures r.Some? <==> worst in {"transform_sync", "lod_system", "npc_system"}
  {
    if worst == "transform_sync" then Some(Adjustment(now, worst, ParallelismLevel, 0.5, 1.0, 0.2))
    else if worst == "lod_system" then Some(Adjustment(now, worst, SchedulerFrequency, 2.0, 4.0, 0.15))
    else if worst == "npc_system" then Some(Adjustment(now, worst, BatchSize, 200.0, 100.0, 0.1))
    else None
  }

  /** The reversal of an adjustment: same subsystem and kind, the values
      swapped and the impact negated. */
  function Reverted(a: Adjustment, now: real): (r: Adjustment)
    ensures r.subsystem == a.subsystem && r.adjustmentType == a.adjustmentType
    ensures r.oldValue == a.newValue && r.newValue == a.oldValue
    ensures r.performanceImpact == -a.performanceImpact && r.timestamp == now
  {
    Adjustment(now, a.subsystem, a.adjustmentType, a.newValue, a.oldValue, -a.performanceImpact)
  }

  /** Reverting a reversal restores the original values. */
  lemma RevertTwiceRestores(a: Adjustment, t1: real, t2: real)
    ensures Reverted(Reverted(a, t1), t2) == a.(timestamp := t2)
  {}

  /** The reversal a light load applies: the last adjustment, when more
      than five whole seconds old. */
  function RelaxationFor(adjustments: seq<Adjustment>, now: real): (r: Option<Adjustment>)
    ensures r.Some? ==> adjustments != [] && r.value == Reverted(adjustments[|adjustments| - 1], now)
    ensures r.Some? <==> adjustments != [] && (now - adjustments[|adjustments| - 1].timestamp).Floor > 5
  {
    if adjustments == [] then None
    else
      var last := adjustments[|adjustments| - 1];
      if (now - last.timestamp).Floor > 5 then Some(Reverted(last, now)) else None
  }

  /** The load of the summed mean times against the frame target. */
  function Load(p: SubsystemPerformance, c: StrikeConfig): real
    requires Usable(c)
  {
    TotalTime(p) / c.targetFrameTimeMs
  }

  /** The adjustment one optimisation pass records, if any: an overload
      escalates on the worst subsystem, a load below the target load
      relaxes the last adjustment, anything between changes nothing. */
  function PassAdjustment(p: SubsystemPerformance, c: StrikeConfig, targetLoad: real,
                          adjustments: seq<Adjustment>, now: real): Option<Adjustment>
    requires Usable(c)
  {
    if Load(p, c) > 1.0 then EscalationFor(WorstName(p, c), now)
    else if Load(p, c) < targetLoad then RelaxationFor(adjustments, now)
    else None
  }

  /** An overloaded frame is exactly one whose summed mean times exceed
      the frame target; it only ever escalates. */
  lemma OverloadIffOverTarget(p: SubsystemPerformance, c: StrikeConfig, targetLoad: real,
                              adjustments: seq<Adjustment>, now: real)
    requires Usable(c)
    ensures Load(p, c) > 1.0 <==> TotalTime(p) > c.targetFrameTimeMs
    ensures Load(p, c) > 1.0 ==> PassAdjustment(p, c, targetLoad, adjustments, now) == EscalationFor(WorstName(p, c), now)
  {
    var q := TotalTime(p) / c.targetFrameTimeMs;
    assert q * c.targetFrameTimeMs == TotalTime(p);
    MulOrder(q, 1.0, c.targetFrameTimeMs);
  }

  /** Multiplying by a positive factor keeps a strict order both ways. */
  lemma MulOrder(u: real, v: real, q: real)
    requires q > 0.0
    ensures u < v <==> u * q < v * q
  {
    assert v * q - u * q == (v - u) * q;
    if u < v {
      assert (v - u) * q > 0.0;
    } else {
      assert (u - v) * q >= 0.0;
    }
  }

  // ---------------------------------------------------------------------
  // Score, recommendations and validation

  /** `calculate_overall_performance`: the frame target over the summed
      mean times, capped at 1; with no time recorded the quotient is
      infinite and the cap gives 1. */
  function OverallPerformance(p: SubsystemPerformance, c: StrikeConfig): (score: real)
    ensures score <= 1.0
    ensures TotalTime(p) == 0.0 ==> score == 1.0
  {
    if TotalTime(p) == 0.0 then 1.0 else Min(c.targetFrameTimeMs / TotalTime(p), 1.0)
  }

  /** For positive times, the score is 1 exactly when the frame target is
      met, and otherwise the fraction of the time the target allows. */
  lemma ScoreIsOneIffTargetMet(p: SubsystemPerformance, c: StrikeConfig)
    requires Usable(c) && TotalTime(p) > 0.0
    ensures OverallPerformance(p, c) == 1.0 <==> TotalTime(p) <= c.targetFrameTimeMs
    ensures TotalTime(p) > c.targetFrameTimeMs
      ==> OverallPerformance(p, c) * TotalTime(p) == c.targetFrameTimeMs
  {
    var t := TotalTime(p);
    var q := c.targetFrameTimeMs / t;
    assert q * t == c.targetFrameTimeMs;
    MulOrder(q, 1.0, t);
    MulOrder(1.0, q, t);
  }

  const ParallelTransformAdvice := "Enable parallel transform synchronization"
  const LodFrequencyAdvice := "Reduce LOD update frequency to every 4th frame"
  const NpcDistanceAdvice := "Increase NPC update distances and reduce batch size"
  const HopSlotMapAdvice := "Switch to HopSlotMap-based distance cache"

  /** `generate_recommendations`: one piece of advice for each of transform
      sync, the LOD system and the NPC system over its budget, and for the
      distance cache over 0.1 ms, in that order. */
  function Recommendations(p: SubsystemPerformance, c: StrikeConfig): (r: seq<string>)
    ensures |r| <= 4
    ensures ParallelTransformAdvice in r <==> p.transformSync.averageTimeMs > c.budgets.transformBudgetMs
    ensures LodFrequencyAdvice in r <==> p.lodSystem.averageTimeMs > c.budgets.lodBudgetMs
    ensures NpcDistanceAdvice in r <==> p.npcSystem.averageTimeMs > c.budgets.aiBudgetMs
    ensures HopSlotMapAdvice in r <==> p.distanceCache.averageTimeMs > 0.1
  {
    (if p.transformSync.averageTimeMs > c.budgets.transformBudgetMs then [ParallelTransformAdvice] else [])
      + (if p.lodSystem.averageTimeMs > c.budgets.lodBudgetMs then [LodFrequencyAdvice] else [])
      + (if p.npcSystem.averageTimeMs > c.budgets.aiBudgetMs then [NpcDistanceAdvice] else [])
      + (if p.distanceCache.averageTimeMs > 0.1 then [HopSlotMapAdvice] else [])
  }

  /** With nothing recorded under the default configuration the score is
      1 and there is no advice (the report test's expectation of some
      advice does not hold for this code). */
  lemma DefaultReport()
    ensures OverallPerformance(DefaultPerformance(), DefaultConfig()) == 1.0
    ensures Recommendations(DefaultPerformance(), DefaultConfig()) == []
  {}

  /** `PerformanceReport` */
  datatype PerformanceReport = PerformanceReport(
    overallPerformance: real, subsystemPerformance: SubsystemPerformance,
    adjustments: seq<Adjustment>, recommendations: seq<string>)

  /** `SubsystemValidation` */
  datatype SubsystemValidation = SubsystemValidation(name: string, actualTime: real, budget: real, passed: bool)

  /** `ValidationResult` */
  datatype ValidationResult = ValidationResult(
    overallTargetMet: bool, actualFrameTime: real, targetFrameTime: real,
    subsystemValidations: seq<SubsystemValidation>)

  function Check(s: Subsystem, p: SubsystemPerformance, c: StrikeConfig): (v: SubsystemValidation)
    ensures v.name == Name(s) && v.actualTime == Get(p, s).averageTimeMs && v.budget == Budget(c, s)
    ensures v.passed <==> v.actualTime <= v.budget
  {
    SubsystemValidation(Name(s), Get(p, s).averageTimeMs, Budget(c, s), Get(p, s).averageTimeMs <= Budget(c, s))
  }

  /** `validate_integrated_performance`: the frame target is met when the
      summed mean times are within it, and transform sync, the LOD system,
      the NPC system and vehicle physics are each checked against their
      configured budgets, in that order. */
  function ValidateIntegratedPerformance(p: SubsystemPerformance, c: StrikeConfig): (v: ValidationResult)
    ensures v.overallTargetMet <==> TotalTime(p) <= c.targetFrameTimeMs
    ensures v.actualFrameTime == TotalTime(p) && v.targetFrameTime == c.targetFrameTimeMs
    ensures |v.subsystemValidations| == 4
    ensures forall i :: 0 <= i < 4 ==> v.subsystemValidations[i] == Check([TransformSync, LodSystem, NpcSystem, VehiclePhysics][i], p, c)
  {
    ValidationResult(TotalTime(p) <= c.targetFrameTimeMs, TotalTime(p), c.targetFrameTimeMs,
      [Check(TransformSync, p, c), Check(LodSystem, p, c), Check(NpcSystem, p, c), Check(VehiclePhysics, p, c)])
  }

  /** A failed subsystem check of transform sync, the LOD system or the NPC
      system always comes with that subsystem's advice. */
  lemma FailedCheckHasAdvice(p: SubsystemPerformance, c: StrikeConfig)
    ensures var v := ValidateIntegratedPerformance(p, c).subsystemValidations;
      && (!v[0].passed ==> ParallelTransformAdvice in Recommendations(p, c))
      && (!v[1].passed ==> LodFrequencyAdvice in Recommendations(p, c))
      && (!v[2].passed ==> NpcDistanceAdvice in Recommendations(p, c))
  {
    var v := ValidateIntegratedPerformance(p, c).subsystemValidations;
    assert v[0] == Check(TransformSync, p, c);
    assert v[1] == Check(LodSystem, p, c);
    assert v[2] == Check(NpcSystem, p, c);
  }

  // ---------------------------------------------------------------------
  // The system

  /** `IntegratedPerformanceSystem` */
  class IntegratedPerformanceSystem {
    var config: StrikeConfig
    var subsystems: SubsystemPerformance
    var adaptiveOptimization: bool
    var currentLoad: real
    var targetLoad: real
    var adjustments: seq<Adjustment>

    predicate Valid()
      reads this
    {
      Usable(config)
    }

    /** `IntegratedPerformanceSystem::new`: adaptive optimisation on, a
        target load of 0.8, no samples and no adjustments. */
    constructor (c: StrikeConfig)
      requires Usable(c)
      ensures Valid()
      ensures config == c && subsystems == DefaultPerformance()
      ensures adaptiveOptimization && currentLoad == 0.0 && targetLoad == 0.8 && adjustments == []
    {
      config := c;
      subsystems := DefaultPerformance();
      adaptiveOptimization := true;
      currentLoad := 0.0;
      targetLoad := 0.8;
      adjustments := [];
    }

    /** `IntegratedPerformanceSystem::default()`: the default configuration
        with adaptive optimisation off. */
    constructor Default()
      ensures Valid()
      ensures config == DefaultConfig() && subsystems == DefaultPerformance()
      ensures !adaptiveOptimization && currentLoad == 0.0 && targetLoad == 0.0 && adjustments == []
    {
      config := DefaultConfig();
      subsystems := DefaultPerformance();
      adaptiveOptimization := false;
      currentLoad := 0.0;
      targetLoad := 0.0;
      adjustments := [];
    }

    /** `update_subsystem_metrics`: an unknown name changes nothing; a
        known one folds the sample into that subsystem's metrics against
        its budget and leaves the others alone. */
    method UpdateSubsystemMetrics(name: string, time: real)
      modifies this
      ensures SubsystemNamed(name).None? ==> subsystems == old(subsystems)
      ensures SubsystemNamed(name).Some? ==>
        var s := SubsystemNamed(name).value;
        subsystems == Set(old(subsystems), s, Updated(Get(old(subsystems), s), time, Budget(config, s)))
      ensures config == old(config) && adjustments == old(adjustments)
      ensures adaptiveOptimization == old(adaptiveOptimization)
      ensures currentLoad == old(currentLoad) && targetLoad == old(targetLoad)
    {
      var budget := BudgetForName(config, name);
      var selected := SubsystemNamed(name);
      if selected.None? {
        return;
      }
      var s := selected.value;
      subsystems := Set(subsystems, s, Updated(Get(subsystems, s), time, budget));
    }

    /** `find_worst_performing_subsystem`, scanning the subsystems in
        order. */
    method FindWorstPerformingSubsystem() returns (worst: string)
      requires Valid()
      ensures worst == WorstName(subsystems, config)
    {
      var all := AllSubsystems();
      ghost var rs := Ratios(subsystems, config);
      var worstRatio := 0.0;
      worst := "";
      ghost var k := -1;
      var i := 0;
      while i < 8
        invariant 0 <= i <= 8 && -1 <= k < i
        invariant WorstFrom(rs, i, worstRatio, k) == WorstFrom(rs, 0, 0.0, -1)
        invariant worst == if k == -1 then "" else Name(all[k])
      {
        var s := all[i];
        var ratio := Get(subsystems, s).averageTimeMs / Budget(config, s);
        if ratio > worstRatio {
          worstRatio := ratio;
          worst := Name(s);
          k := i;
        }
        i := i + 1;
      }
    }

    /** `record_adjustment`: appends one stamped adjustment. */
    method RecordAdjustment(subsystem: string, kind: AdjustmentType, oldValue: real, newValue: real,
                            impact: real, now: real)
      modifies this
      ensures adjustments == old(adjustments) + [Adjustment(now, subsystem, kind, oldValue, newValue, impact)]
      ensures config == old(config) && subsystems == old(subsystems)
      ensures adaptiveOptimization == old(adaptiveOptimization)
      ensures currentLoad == old(currentLoad) && targetLoad == old(targetLoad)
    {
      adjustments := adjustments + [Adjustment(now, subsystem, kind, oldValue, newValue, impact)];
    }

    /** `adaptive_optimization`: when enabled, records the load and the
        pass's adjustment, if any; when disabled, changes nothing. */
    method AdaptiveOptimization(now: real)
      requires Valid()
      modifies this
      ensures Valid()
      ensures !old(adaptiveOptimization) ==> currentLoad == old(currentLoad) && adjustments == old(adjustments)
      ensures old(adaptiveOptimization) ==> currentLoad == Load(subsystems, config)
      ensures old(adaptiveOptimization) ==>
        var a := PassAdjustment(subsystems, config, targetLoad, old(adjustments), now);
        adjustments == old(adjustments) + (if a.Some? then [a.value] else [])
      ensures config == old(config) && subsystems == old(subsystems)
      ensures adaptiveOptimization == old(adaptiveOptimization) && targetLoad == old(targetLoad)
    {
      if !adaptiveOptimization {
        return;
      }
      currentLoad := TotalTime(subsystems) / config.targetFrameTimeMs;
      if currentLoad > 1.0 {
        var worst := FindWorstPerformingSubsystem();
        if worst == "transform_sync" {
          RecordAdjustment("transform_sync", ParallelismLevel, 0.5, 1.0, 0.2, now);
        } else if worst == "lod_system" {
          RecordAdjustment("lod_system", SchedulerFrequency, 2.0, 4.0, 0.15, now);
        } else if worst == "npc_system" {
          RecordAdjustment("npc_system", BatchSize, 200.0, 100.0, 0.1, now);
        }
      } else if currentLoad < targetLoad {
        if adjustments != [] {
          var last := adjustments[|adjustments| - 1];
          if (now - last.timestamp).Floor > 5 {
            RecordAdjustment(last.subsystem, last.adjustmentType, last.newValue, last.oldValue,
              -last.performanceImpact, now);
          }
        }
      }
    }

    /** `get_performance_report` */
    function GetPerformanceReport(): (r: PerformanceReport)
      reads this
      ensures r.overallPerformance == OverallPerformance(subsystems, config) && r.overallPerformance <= 1.0
      ensures r.subsystemPerformance == subsystems && r.adjustments == adjustments
      ensures r.recommendations == Recommendations(subsystems, config)
    {
      PerformanceReport(OverallPerformance(subsystems, config), subsystems, adjustments,
        Recommendations(subsystems, config))
    }
  }

  /** An optimisation pass adds at most one adjustment, and a pass in an
      overloaded frame adds one exactly when the worst subsystem is
      transform sync, the LOD system or the NPC system. */
  lemma PassAddsAtMostOne(p: SubsystemPerformance, c: StrikeConfig, targetLoad: real,
                          adjustments: seq<Adjustment>, now: real)
    requires Usable(c) && TotalTime(p) > c.targetFrameTimeMs
    ensures PassAdjustment(p, c, targetLoad, adjustments, now).Some?
      <==> WorstName(p, c) in {"transform_sync", "lod_system", "npc_system"}
  {
    OverloadIffOverTarget(p, c, targetLoad, adjustments, now);
  }
}
