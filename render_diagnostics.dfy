/** The renderer's performance diagnostics: one frame's metrics are judged
    against fixed budgets (good, warning or critical, and per metric
    within budget or not), a sample records the frame, its budget
    warnings and a bounded history, and the history is averaged. Counters
    are naturals; times and memory are reals. */
module RenderDiagnostics {

  // ---------------------------------------------------------------------
  // Budgets (`PerformanceBudgets`)

  const MaxDrawCalls: nat := 1000
  const AlarmDrawCalls: nat := 1200
  const MaxInstanceCount: nat := 75000
  const MaxTotalEntities: nat := 1200
  const MaxActiveLights: nat := 200
  const MaxSectorsLoaded: nat := 200
  const MaxAverageUpdateTimeMs: real := 8.0
  const MaxGpuCullingTimeMs: real := 0.25

  /** Warnings kept by `add_warning`, and frames kept in the history. */
  const WarningCap: nat := 100
  const HistoryCap: nat := 60

  /** `FrameMetrics`, without its timestamp. */
  datatype FrameMetrics = FrameMetrics(
    drawCalls: nat, instanceCount: nat, totalEntities: nat, activePointLights: nat,
    spawnQueueLength: nat, despawnQueueLength: nat, updateTimeMs: real,
    gpuCullingTimeMs: real, sectorsLoaded: nat, memoryUsageMb: real)

  /** `FrameMetrics::default`: every metric zero. */
  function DefaultFrame(): (f: FrameMetrics)
    ensures f.drawCalls == 0 && f.instanceCount == 0 && f.totalEntities == 0 && f.activePointLights == 0
    ensures f.spawnQueueLength == 0 && f.despawnQueueLength == 0 && f.sectorsLoaded == 0
    ensures f.updateTimeMs == 0.0 && f.gpuCullingTimeMs == 0.0 && f.memoryUsageMb == 0.0
  {
    FrameMetrics(0, 0, 0, 0, 0, 0, 0.0, 0.0, 0, 0.0)
  }

  /** `PerformanceWarning` */
  datatype PerformanceWarning =
    | DrawCallsBudgetExceeded(current: nat, budget: nat)
    | InstanceCountBudgetExceeded(current: nat, budget: nat)
    | ActiveLightsLimitExceeded(current: nat, limit: nat)
    | UpdateTimeExceeded(currentMs: real, targetMs: real)
    | GpuCullingTimeExceeded(currentMs: real, targetMs: real)
    | MemoryUsageHigh(currentMb: real, warningMb: real)
    | QueueLengthHigh(queueType: string, current: nat, warning: nat)

  /** `PerformanceStatus` */
  datatype PerformanceStatus = Good | Warning | Critical

  /** How bad a status is, from good to critical. */
  function Severity(s: PerformanceStatus): nat
  {
    match s
    case Good => 0
    case Warning => 1
    case Critical => 2
  }

  // ---------------------------------------------------------------------
  // Status and budgets

  /** A frame over an alarm threshold: draw calls above 1200, more than
      200 lights, or an update slower than twice the 8 ms target. */
  predicate IsCritical(f: FrameMetrics)
  {
    f.drawCalls > AlarmDrawCalls || f.activePointLights > MaxActiveLights
    || f.updateTimeMs > MaxAverageUpdateTimeMs * 2.0
  }

  /** A frame over one of the four budgets the status watches. */
  predicate OverBudget(f: FrameMetrics)
  {
    f.drawCalls > MaxDrawCalls || f.instanceCount > MaxInstanceCount
    || f.updateTimeMs > MaxAverageUpdateTimeMs || f.gpuCullingTimeMs > MaxGpuCullingTimeMs
  }

  /** `get_status` on the current frame: critical thresholds are checked
      first, then the budgets. */
  function Status(f: FrameMetrics): (s: PerformanceStatus)
    ensures s == Critical <==> IsCritical(f)
    ensures s == Warning <==> !IsCritical(f) && OverBudget(f)
    ensures s == Good <==> !IsCritical(f) && !OverBudget(f)
  {
    if f.drawCalls > AlarmDrawCalls then Critical
    else if f.activePointLights > MaxActiveLights then Critical
    else if f.updateTimeMs > MaxAverageUpdateTimeMs * 2.0 then Critical
    else if f.drawCalls > MaxDrawCalls || f.instanceCount > MaxInstanceCount
         || f.updateTimeMs > MaxAverageUpdateTimeMs || f.gpuCullingTimeMs > MaxGpuCullingTimeMs then Warning
    else Good
  }

  /** Every metric of `g` at least as high as in `f`. */
  predicate Dominates(g: FrameMetrics, f: FrameMetrics)
  {
    && g.drawCalls >= f.drawCalls && g.instanceCount >= f.instanceCount
    && g.activePointLights >= f.activePointLights && g.updateTimeMs >= f.updateTimeMs
    && g.gpuCullingTimeMs >= f.gpuCullingTimeMs
  }

  /** A frame that is worse in every metric never has a better status. */
  lemma StatusMonotone(f: FrameMetrics, g: FrameMetrics)
    requires Dominates(g, f)
    ensures Severity(Status(f)) <= Severity(Status(g))
  {
  }

  /** The metric names `is_within_budget` knows. */
  predicate KnownMetric(metric: string)
  {
    metric in {"draw_calls", "instance_count", "total_entities", "active_point_lights",
               "sectors_loaded", "update_time_ms", "gpu_culling_time_ms"}
  }

  /** `is_within_budget` on the current frame: the named metric is at most
      its budget, and any other name counts as within budget. */
  function IsWithinBudget(f: FrameMetrics, metric: string): (ok: bool)
    ensures !KnownMetric(metric) ==> ok
  {
    if metric == "draw_calls" then f.drawCalls <= MaxDrawCalls
    else if metric == "instance_count" then f.instanceCount <= MaxInstanceCount
    else if metric == "total_entities" then f.totalEntities <= MaxTotalEntities
    else if metric == "active_point_lights" then f.activePointLights <= MaxActiveLights
    else if metric == "sectors_loaded" then f.sectorsLoaded <= MaxSectorsLoaded
    else if metric == "update_time_ms" then f.updateTimeMs <= MaxAverageUpdateTimeMs
    else if metric == "gpu_culling_time_ms" then f.gpuCullingTimeMs <= MaxGpuCullingTimeMs
    else true
  }

  /** The status is good exactly when the four watched metrics are within
      budget and the lights are within their hard limit; a metric out of
      budget among those four means at least a warning. */
  lemma GoodIffWithinBudgets(f: FrameMetrics)
    ensures Status(f) == Good <==>
      && IsWithinBudget(f, "draw_calls") && IsWithinBudget(f, "instance_count")
      && IsWithinBudget(f, "update_time_ms") && IsWithinBudget(f, "gpu_culling_time_ms")
      && IsWithinBudget(f, "active_point_lights")
  {
  }

  /** `get_metric_color` as red, green and blue: green for a metric within
      budget, otherwise green, yellow or red by the frame's status. */
  function MetricColor(f: FrameMetrics, metric: string): (c: (real, real, real))
    ensures IsWithinBudget(f, metric) ==> c == (0.0, 1.0, 0.0)
    ensures c == (1.0, 0.0, 0.0) <==> !IsWithinBudget(f, metric) && Status(f) == Critical
    ensures c == (1.0, 1.0, 0.0) <==> !IsWithinBudget(f, metric) && Status(f) == Warning
  {
    if IsWithinBudget(f, metric) then (0.0, 1.0, 0.0)
    else match Status(f)
      case Good => (0.0, 1.0, 0.0)
      case Warning => (1.0, 1.0, 0.0)
      case Critical => (1.0, 0.0, 0.0)
  }

  /** The status tests: 800 draw calls, 50000 instances, 6 ms and 150
      lights are good; 1100, 80000, 10 ms and 50 lights a warning; 1300
      draw calls, 250 lights and 20 ms critical. */
  lemma StatusExamples()
    ensures Status(DefaultFrame().(drawCalls := 800, instanceCount := 50000, updateTimeMs := 6.0, activePointLights := 150)) == Good
    ensures var f := DefaultFrame().(drawCalls := 1100, instanceCount := 80000, updateTimeMs := 10.0, activePointLights := 50);
      && Status(f) == Warning
      && !IsWithinBudget(f, "draw_calls") && !IsWithinBudget(f, "instance_count")
      && !IsWithinBudget(f, "update_time_ms") && IsWithinBudget(f, "active_point_lights")
    ensures Status(DefaultFrame().(drawCalls := 1300, activePointLights := 250, updateTimeMs := 20.0)) == Critical
  {
  }

  // ---------------------------------------------------------------------
  // Warnings

  /** `add_warning` on the list: the warning is appended and, when that
      makes more than 100, the oldest is dropped. */
  function AfterWarning(ws: seq<PerformanceWarning>, w: PerformanceWarning): (r: seq<PerformanceWarning>)
    ensures |r| > 0 && r[|r| - 1] == w
    ensures |ws| <= WarningCap ==> |r| <= WarningCap
    ensures |ws| < WarningCap ==> r == ws + [w]
    ensures |ws| >= WarningCap ==> r == ws[1..] + [w]
  {
    var added := ws + [w];
    if |added| > WarningCap then added[1..] else added
  }

  /** The last `k` entries (all of them when there are no more). */
  function Latest<T>(s: seq<T>, k: nat): (r: seq<T>)
    ensures |r| == if |s| <= k then |s| else k
  {
    if |s| <= k then s else s[|s| - k..]
  }

  /** Adding several warnings one by one. */
  function AfterWarnings(ws: seq<PerformanceWarning>, added: seq<PerformanceWarning>): seq<PerformanceWarning>
    decreases |added|
  {
    if |added| == 0 then ws else AfterWarnings(AfterWarning(ws, added[0]), added[1..])
  }

  lemma LatestOfLatest<T>(a: seq<T>, b: seq<T>, k: nat)
    ensures Latest(Latest(a, k) + b, k) == Latest(a + b, k)
  {
    if |a| > k {
      var a' := a[|a| - k..];
      if |a' + b| > k {
        assert (a' + b)[|a' + b| - k..] == (a + b)[|a + b| - k..];
      } else {
        assert b == [];
        assert a + b == a;
        assert a' + b == a';
      }
    }
  }

  /** From a list within the cap, adding warnings one by one keeps exactly
      the latest 100 of all of them, in order. */
  lemma {:induction false} AfterWarningsKeepsLatest(ws: seq<PerformanceWarning>, added: seq<PerformanceWarning>)
    requires |ws| <= WarningCap
    decreases |added|
    ensures AfterWarnings(ws, added) == Latest(ws + added, WarningCap)
  {
    if |added| == 0 {
      assert ws + added == ws;
    } else {
      var ws' := AfterWarning(ws, added[0]);
      assert ws' == Latest(ws + [added[0]], WarningCap);
      AfterWarningsKeepsLatest(ws', added[1..]);
      LatestOfLatest(ws + [added[0]], added[1..], WarningCap);
      assert ws + [added[0]] + added[1..] == ws + added;
    }
  }

  /** The warnings a sampled frame raises, in the order they are checked:
      draw calls, instances, lights, update time, culling time. */
  function BudgetWarnings(f: FrameMetrics): (ws: seq<PerformanceWarning>)
    ensures |ws| <= 5
    ensures ws == [] <==> !OverBudget(f) && f.activePointLights <= MaxActiveLights
  {
    Raised(f.drawCalls > MaxDrawCalls, DrawCallsBudgetExceeded(f.drawCalls, MaxDrawCalls))
    + Raised(f.instanceCount > MaxInstanceCount, InstanceCountBudgetExceeded(f.instanceCount, MaxInstanceCount))
    + Raised(f.activePointLights > MaxActiveLights, ActiveLightsLimitExceeded(f.activePointLights, MaxActiveLights))
    + Raised(f.updateTimeMs > MaxAverageUpdateTimeMs, UpdateTimeExceeded(f.updateTimeMs, MaxAverageUpdateTimeMs))
    + Raised(f.gpuCullingTimeMs > MaxGpuCullingTimeMs, GpuCullingTimeExceeded(f.gpuCullingTimeMs, MaxGpuCullingTimeMs))
  }

  /** The warning when its check fails, else nothing. */
  function Raised(exceeded: bool, w: PerformanceWarning): (ws: seq<PerformanceWarning>)
    ensures |ws| <= 1
  {
    if exceeded then [w] else []
  }

  /** A sampled frame raises no warning exactly when its status is good. */
  lemma NoWarningsIffGood(f: FrameMetrics)
    ensures BudgetWarnings(f) == [] <==> Status(f) == Good
  {
  }

  // ---------------------------------------------------------------------
  // History and averages

  /** The history after a sample: the frame appended and, past 60 frames,
      the oldest dropped. */
  function AfterSample(h: seq<FrameMetrics>, f: FrameMetrics): (r: seq<FrameMetrics>)
    ensures |r| > 0 && r[|r| - 1] == f
    ensures |h| <= HistoryCap ==> |r| <= HistoryCap
    ensures r == Latest(h + [f], if |h| <= HistoryCap then HistoryCap else |h|)
  {
    var added := h + [f];
    if |added| > HistoryCap then added[1..] else added
  }

  /** The metrics of two frames added field by field. */
  function Add(a: FrameMetrics, b: FrameMetrics): FrameMetrics
  {
    FrameMetrics(a.drawCalls + b.drawCalls, a.instanceCount + b.instanceCount, a.totalEntities + b.totalEntities,
                 a.activePointLights + b.activePointLights, a.spawnQueueLength + b.spawnQueueLength,
                 a.despawnQueueLength + b.despawnQueueLength, a.updateTimeMs + b.updateTimeMs,
                 a.gpuCullingTimeMs + b.gpuCullingTimeMs, a.sectorsLoaded + b.sectorsLoaded,
                 a.memoryUsageMb + b.memoryUsageMb)
  }

  /** The field-by-field totals of a run of frames, summed front to back. */
  function Totals(h: seq<FrameMetrics>): FrameMetrics
    decreases |h|
  {
    if |h| == 0 then DefaultFrame() else Add(Totals(h[..|h| - 1]), h[|h| - 1])
  }

  /** The totals over `n` frames: counts divided down to a whole number,
      times and memory divided exactly. */
  function Divide(t: FrameMetrics, n: nat): FrameMetrics
    requires n > 0
  {
    FrameMetrics(t.drawCalls / n, t.instanceCount / n, t.totalEntities / n, t.activePointLights / n,
                 t.spawnQueueLength / n, t.despawnQueueLength / n, t.updateTimeMs / n as real,
                 t.gpuCullingTimeMs / n as real, t.sectorsLoaded / n, t.memoryUsageMb / n as real)
  }

  /** `calculate_averages`: the current frame when there is no history,
      otherwise the history's totals over its length. */
  function Averages(h: seq<FrameMetrics>, current: FrameMetrics): (a: FrameMetrics)
    ensures |h| == 0 ==> a == current
  {
    if |h| == 0 then current else Divide(Totals(h), |h|)
  }

  /** `n` copies of one frame's metrics. */
  function Times(f: FrameMetrics, n: nat): FrameMetrics
  {
    FrameMetrics(n * f.drawCalls, n * f.instanceCount, n * f.totalEntities, n * f.activePointLights,
                 n * f.spawnQueueLength, n * f.despawnQueueLength, n as real * f.updateTimeMs,
                 n as real * f.gpuCullingTimeMs, n * f.sectorsLoaded, n as real * f.memoryUsageMb)
  }

  lemma TimesStep(f: FrameMetrics, n: nat)
    ensures Add(Times(f, n), f) == Times(f, n + 1)
  {
  }

  /** The totals of a history of identical frames are that many copies. */
  lemma {:induction false} TotalsOfSame(h: seq<FrameMetrics>, f: FrameMetrics)
    requires forall i :: 0 <= i < |h| ==> h[i] == f
    decreases |h|
    ensures Totals(h) == Times(f, |h|)
  {
    if |h| > 0 {
      TotalsOfSame(h[..|h| - 1], f);
      TimesStep(f, |h| - 1);
    }
  }

  lemma MulAtLeast(n: int, k: int)
    requires n > 0 && k >= 1
    ensures n * k >= n
  {
  }

  lemma MulDiv(n: nat, x: nat)
    requires n > 0
    ensures n * x / n == x
  {
    var q := n * x / n;
    var r := n * x % n;
    assert n * q + r == n * x;
    assert n * (x - q) == r;
    if x - q >= 1 {
      MulAtLeast(n, x - q);
    } else if q - x >= 1 {
      MulAtLeast(n, q - x);
    }
  }

  lemma DivideTimes(f: FrameMetrics, n: nat)
    requires n > 0
    ensures Divide(Times(f, n), n) == f
  {
    DivideTimesCounts(f, n);
    DivideTimesReals(f, n);
  }

  /** The whole-number fields of `n` copies over `n`. */
  lemma DivideTimesCounts(f: FrameMetrics, n: nat)
    requires n > 0
    ensures var d := Divide(Times(f, n), n);
      && d.drawCalls == f.drawCalls && d.instanceCount == f.instanceCount && d.totalEntities == f.totalEntities
      && d.activePointLights == f.activePointLights && d.spawnQueueLength == f.spawnQueueLength
      && d.despawnQueueLength == f.despawnQueueLength && d.sectorsLoaded == f.sectorsLoaded
  {
    MulDiv(n, f.drawCalls);
    MulDiv(n, f.instanceCount);
    MulDiv(n, f.totalEntities);
    MulDiv(n, f.activePointLights);
    MulDiv(n, f.spawnQueueLength);
    MulDiv(n, f.despawnQueueLength);
    MulDiv(n, f.sectorsLoaded);
  }

  /** The real fields of `n` copies over `n`. */
  lemma DivideTimesReals(f: FrameMetrics, n: nat)
    requires n > 0
    ensures var d := Divide(Times(f, n), n);
      d.updateTimeMs == f.updateTimeMs && d.gpuCullingTimeMs == f.gpuCullingTimeMs && d.memoryUsageMb == f.memoryUsageMb
  {
    var m := n as real;
    RealMulDiv(m, f.updateTimeMs);
    RealMulDiv(m, f.gpuCullingTimeMs);
    RealMulDiv(m, f.memoryUsageMb);
  }

  lemma RealMulDiv(m: real, a: real)
    requires m != 0.0
    ensures m * a / m == a
  {
  }

  /** A history of identical frames averages to that frame. */
  lemma AveragesOfSame(h: seq<FrameMetrics>, f: FrameMetrics, current: FrameMetrics)
    requires |h| > 0 && forall i :: 0 <= i < |h| ==> h[i] == f
    ensures Averages(h, current) == f
  {
    TotalsOfSame(h, f);
    DivideTimes(f, |h|);
  }

  /** The totals of a run of frames whose update times are all at most
      `bound` are at most `n` times the bound. */
  lemma {:induction false} TotalUpdateTimeBound(h: seq<FrameMetrics>, bound: real)
    requires forall i :: 0 <= i < |h| ==> h[i].updateTimeMs <= bound
    decreases |h|
    ensures Totals(h).updateTimeMs <= |h| as real * bound
  {
    if |h| > 0 {
      TotalUpdateTimeBound(h[..|h| - 1], bound);
    }
  }

  /** If every frame in the history is within the update-time budget, so
      is the average. */
  lemma AverageUpdateTimeWithinBudget(h: seq<FrameMetrics>, current: FrameMetrics)
    requires |h| > 0 && forall i :: 0 <= i < |h| ==> h[i].updateTimeMs <= MaxAverageUpdateTimeMs
    ensures Averages(h, current).updateTimeMs <= MaxAverageUpdateTimeMs
  {
    TotalUpdateTimeBound(h, MaxAverageUpdateTimeMs);
    var n := |h| as real;
    var t := Totals(h).updateTimeMs;
    assert t / n <= MaxAverageUpdateTimeMs by {
      assert t <= n * MaxAverageUpdateTimeMs;
    }
  }

  // ---------------------------------------------------------------------
  // The diagnostics resource

  /** `PerformanceDiagnostics`, without its frame-start instant. */
  class PerformanceDiagnostics {
    var currentFrame: FrameMetrics
    var history: seq<FrameMetrics>
    var warnings: seq<PerformanceWarning>
    var hardLimitsEnabled: bool

    /** The history and the warnings stay within their caps. */
    predicate Valid()
      reads this
    {
      |history| <= HistoryCap && |warnings| <= WarningCap
    }

    /** `PerformanceDiagnostics::default`: a zero frame, no history, no
        warnings, hard limits off. */
    constructor ()
      ensures Valid()
      ensures currentFrame == DefaultFrame() && history == [] && warnings == [] && !hardLimitsEnabled
    {
      currentFrame := DefaultFrame();
      history := [];
      warnings := [];
      hardLimitsEnabled := false;
    }

    /** `add_warning` */
    method AddWarning(w: PerformanceWarning)
      modifies this
      ensures warnings == AfterWarning(old(warnings), w)
      ensures currentFrame == old(currentFrame) && history == old(history)
      ensures hardLimitsEnabled == old(hardLimitsEnabled)
    {
      warnings := warnings + [w];
      if |warnings| > WarningCap {
        warnings := warnings[1..];
      }
    }

    /** `get_status` */
    function GetStatus(): (s: PerformanceStatus)
      reads this
      ensures s == Status(currentFrame)
    {
      Status(currentFrame)
    }

    /** `calculate_averages`, summing the history in a loop. */
    method CalculateAverages() returns (avg: FrameMetrics)
      ensures avg == Averages(history, currentFrame)
    {
      if |history| == 0 {
        return currentFrame;
      }
      var total := DefaultFrame();
      var i := 0;
      while i < |history|
        invariant 0 <= i <= |history|
        invariant total == Totals(history[..i])
      {
        assert history[..i + 1][..i] == history[..i];
        total := Add(total, history[i]);
        i := i + 1;
      }
      assert history[..i] == history;
      avg := Divide(total, |history|);
    }

    /** The warning checks of `sample_performance_metrics`: the list is
        cleared and each exceeded budget adds its warning, in order. */
    method RaiseBudgetWarnings(f: FrameMetrics)
      modifies this
      ensures warnings == BudgetWarnings(f)
      ensures currentFrame == old(currentFrame) && history == old(history)
      ensures hardLimitsEnabled == old(hardLimitsEnabled)
    {
      warnings := [];
      RaiseIf(f.drawCalls > MaxDrawCalls, DrawCallsBudgetExceeded(f.drawCalls, MaxDrawCalls));
      ghost var w1 := warnings;
      assert w1 == Raised(f.drawCalls > MaxDrawCalls, DrawCallsBudgetExceeded(f.drawCalls, MaxDrawCalls));
      RaiseIf(f.instanceCount > MaxInstanceCount, InstanceCountBudgetExceeded(f.instanceCount, MaxInstanceCount));
      ghost var w2 := warnings;
      RaiseIf(f.activePointLights > MaxActiveLights, ActiveLightsLimitExceeded(f.activePointLights, MaxActiveLights));
      ghost var w3 := warnings;
      RaiseIf(f.updateTimeMs > MaxAverageUpdateTimeMs, UpdateTimeExceeded(f.updateTimeMs, MaxAverageUpdateTimeMs));
      ghost var w4 := warnings;
      RaiseIf(f.gpuCullingTimeMs > MaxGpuCullingTimeMs, GpuCullingTimeExceeded(f.gpuCullingTimeMs, MaxGpuCullingTimeMs));
      assert warnings == w4 + Raised(f.gpuCullingTimeMs > MaxGpuCullingTimeMs, GpuCullingTimeExceeded(f.gpuCullingTimeMs, MaxGpuCullingTimeMs));
    }

    /** One budget check of `sample_performance_metrics`: when it fails,
        its warning is added; with fewer warnings than the cap, none is
        dropped. */
    method RaiseIf(exceeded: bool, w: PerformanceWarning)
      requires |warnings| < WarningCap
      modifies this
      ensures warnings == old(warnings) + Raised(exceeded, w)
      ensures currentFrame == old(currentFrame) && history == old(history)
      ensures hardLimitsEnabled == old(hardLimitsEnabled)
    {
      if exceeded {
        AddWarning(w);
      }
    }

    /** The bookkeeping of `sample_performance_metrics` for one sampled
        frame: the frame's budget warnings replace the old ones, the frame
        joins the bounded history and becomes the current frame. */
    method RecordSample(f: FrameMetrics)
      requires Valid()
      modifies this
      ensures Valid()
      ensures warnings == BudgetWarnings(f)
      ensures history == AfterSample(old(history), f)
      ensures currentFrame == f && hardLimitsEnabled == old(hardLimitsEnabled)
    {
      RaiseBudgetWarnings(f);
      history := history + [f];
      if |history| > HistoryCap {
        history := history[1..];
      }
      currentFrame := f;
    }
  }

  /** The history-tracking test: after 70 samples the history holds the
      latest 60 frames. */
  lemma {:induction false} HistoryFillsToCap(h: seq<FrameMetrics>, frames: seq<FrameMetrics>)
    requires |h| <= HistoryCap
    decreases |frames|
    ensures |Samples(h, frames)| == if |h| + |frames| <= HistoryCap then |h| + |frames| else HistoryCap
    ensures Samples(h, frames) == Latest(h + frames, HistoryCap)
  {
    if |frames| > 0 {
      var h' := AfterSample(h, frames[0]);
      HistoryFillsToCap(h', frames[1..]);
      LatestOfLatest(h + [frames[0]], frames[1..], HistoryCap);
      assert h + [frames[0]] + frames[1..] == h + frames;
    } else {
      assert h + frames == h;
    }
  }

  /** The history after sampling several frames one by one. */
  function Samples(h: seq<FrameMetrics>, frames: seq<FrameMetrics>): seq<FrameMetrics>
    decreases |frames|
  {
    if |frames| == 0 then h else Samples(AfterSample(h, frames[0]), frames[1..])
  }
}
