/** The engine's benchmark suite: the statistics of one benchmark's timing
    sample, the regression check of subsystem medians against fixed
    baselines, and the validation of every target. Taking the timings
    (running the workloads under a clock) is outside the model: a timing
    sample arrives as a sequence of milliseconds. */
module PerformanceBenchmarks {
  import opened Common
  import BenchmarkReport

  /** `BenchmarkResult`; the standard deviation is kept as its square, the
      variance, and an improvement ratio over a zero median (infinite in
      the source) is `None`. */
  datatype BenchmarkResult = BenchmarkResult(
    name: string,
    averageTimeMs: real,
    medianTimeMs: real,
    p95TimeMs: real,
    p99TimeMs: real,
    minTimeMs: real,
    maxTimeMs: real,
    varianceMs: real,
    samples: nat,
    targetTimeMs: real,
    targetMet: bool,
    improvementRatio: Option<real>)

  /** `BenchmarkResult::default()`: everything zero, target not met. */
  function DefaultResult(): (r: BenchmarkResult)
    ensures r.samples == 0 && !r.targetMet
  {
    BenchmarkResult("", 0.0, 0.0, 0.0, 0.0, 0.0, 0.0, 0.0, 0, 0.0, false, Some(0.0))
  }

  /** `RegressionTestResult` */
  datatype RegressionTestResult = RegressionTestResult(
    name: string,
    baselineTimeMs: real,
    currentTimeMs: real,
    regressionPercent: real,
    thresholdPercent: real,
    passed: bool)

  /** `BenchmarkConfig::default().target_frame_time_ms` */
  const TargetFrameTimeMs: real := 3.0

  /** The regression threshold, in percent. */
  const RegressionThresholdPercent: real := 10.0

  // ---------------------------------------------------------------------
  // Statistics of one sample

  /** The square of a number is never negative. */
  function Square(x: real): (r: real)
    ensures r >= 0.0
  {
    if x >= 0.0 then x * x else (-x) * (-x)
  }

  /** The squared deviations of a sample from a value. */
  function SquaredDeviations(times: seq<real>, mean: real): (sq: seq<real>)
    ensures |sq| == |times|
    ensures forall i :: 0 <= i < |sq| ==> sq[i] >= 0.0
  {
    if times == [] then []
    else [Square(times[0] - mean)] + SquaredDeviations(times[1..], mean)
  }

  lemma {:induction false} SumNonNegative(s: seq<real>)
    requires forall i :: 0 <= i < |s| ==> s[i] >= 0.0
    ensures Sum(s) >= 0.0
  {
    if s != [] {
      assert forall i :: 0 <= i < |s[1..]| ==> s[1..][i] == s[i + 1];
      SumNonNegative(s[1..]);
    }
  }

  /** The arithmetic mean of a non-empty sample. */
  function Mean(times: seq<real>): real
    requires times != []
  {
    Sum(times) / (|times| as real)
  }

  /** The mean squared deviation from the mean; never negative. */
  function Variance(times: seq<real>): (v: real)
    requires times != []
    ensures v >= 0.0
  {
    SumNonNegative(SquaredDeviations(times, Mean(times)));
    Sum(SquaredDeviations(times, Mean(times))) / (|times| as real)
  }

  /** The element of the sorted sample at `n / 2`. */
  function Median(times: seq<real>): real
    requires times != []
  {
    Sorted(times)[|times| / 2]
  }

  /** The element of the sorted sample at `int(n * p)`, for p in (0, 1). */
  function Percentile(times: seq<real>, p: real): real
    requires times != [] && 0.0 < p < 1.0
  {
    var n := |times|;
    var i := BenchmarkReport.PercentileIndex(n, p);
    assert 0 <= i < n by {
      assert (i as real) <= (n as real) * p < n as real;
    }
    Sorted(times)[i]
  }

  /** `target / median`, absent for a zero median. */
  function ImprovementRatio(target: real, median: real): (r: Option<real>)
    ensures r.None? <==> median == 0.0
    ensures r.Some? ==> r.value * median == target
  {
    if median == 0.0 then None
    else
      var q := target / median;
      assert q * median == target;
      Some(q)
  }

  /** `calculate_benchmark_result`: the statistics of a non-empty sample
      (the source indexes the sorted copy, so an empty sample panics). */
  function CalculateBenchmarkResult(name: string, times: seq<real>, targetTime: real): (r: BenchmarkResult)
    requires times != []
    ensures r.name == name && r.samples == |times| && r.targetTimeMs == targetTime
    ensures r.averageTimeMs == Mean(times) && r.medianTimeMs == Median(times)
    ensures r.p95TimeMs == Percentile(times, 0.95) && r.p99TimeMs == Percentile(times, 0.99)
    ensures r.minTimeMs == Sorted(times)[0] && r.maxTimeMs == Sorted(times)[|times| - 1]
    ensures r.targetMet <==> r.medianTimeMs <= targetTime
    ensures r.varianceMs >= 0.0
    ensures r.improvementRatio.None? <==> r.medianTimeMs == 0.0
  {
    var sorted := Sorted(times);
    BenchmarkResult(
      name, Mean(times), Median(times), Percentile(times, 0.95), Percentile(times, 0.99),
      sorted[0], sorted[|times| - 1], Variance(times), |times|, targetTime,
      Median(times) <= targetTime, ImprovementRatio(targetTime, Median(times)))
  }

  /** The order statistics of a sample are ordered min <= median <= p95
      <= p99 <= max and are values of the sample. */
  lemma OrderStatisticsOrdered(times: seq<real>)
    requires times != []
    ensures var s := Sorted(times);
      && s[0] <= Median(times) <= Percentile(times, 0.95) <= Percentile(times, 0.99) <= s[|times| - 1]
      && Median(times) in times && Percentile(times, 0.95) in times && Percentile(times, 0.99) in times
  {
    var n := |times|;
    var i95, i99 := BenchmarkReport.PercentileIndex(n, 0.95), BenchmarkReport.PercentileIndex(n, 0.99);
    OrderIndices(n);
    SortedMonotone(times, 0, n / 2);
    SortedMonotone(times, n / 2, i95);
    SortedMonotone(times, i95, i99);
    SortedMonotone(times, i99, n - 1);
  }

  /** The median index lies at or below the 95th percentile index, which
      lies at or below the 99th, inside the sample. */
  lemma OrderIndices(n: nat)
    requires n >= 1
    ensures 0 <= n / 2 <= BenchmarkReport.PercentileIndex(n, 0.95)
    ensures BenchmarkReport.PercentileIndex(n, 0.95) <= BenchmarkReport.PercentileIndex(n, 0.99) < n
  {
    BenchmarkReport.PercentileIndicesInBounds(n);
    assert ((n / 2) as real) <= (n as real) * 0.95;
  }

  /** Later entries of the sorted copy are no smaller, and every entry is
      a value of the sample. */
  lemma SortedMonotone(times: seq<real>, i: nat, j: nat)
    requires i <= j < |times|
    ensures Sorted(times)[i] <= Sorted(times)[j]
    ensures Sorted(times)[i] in times && Sorted(times)[j] in times
  {
    var s := Sorted(times);
    assert s[i] in multiset(s) && s[j] in multiset(s);
  }

  /** The result's order statistics are ordered min <= median <= p95 <=
      p99 <= max and are values of the sample. */
  lemma BenchmarkResultOrdered(name: string, times: seq<real>, targetTime: real)
    requires times != []
    ensures var r := CalculateBenchmarkResult(name, times, targetTime);
      && r.minTimeMs <= r.medianTimeMs <= r.p95TimeMs <= r.p99TimeMs <= r.maxTimeMs
      && r.medianTimeMs in times && r.p95TimeMs in times && r.p99TimeMs in times
  {
    OrderStatisticsOrdered(times);
  }

  /** The extremes are the sample's least and greatest values, and the
      mean lies between them. */
  lemma BenchmarkResultExtremes(name: string, times: seq<real>, targetTime: real)
    requires times != []
    ensures var r := CalculateBenchmarkResult(name, times, targetTime);
      && r.minTimeMs == SeqMin(times) && r.maxTimeMs == SeqMax(times)
      && r.minTimeMs <= r.averageTimeMs <= r.maxTimeMs
  {
    SortedEnds(times);
    BenchmarkReport.MeanOfSample(times);
  }

  /** The unit test's sample 1..5 against a 3 ms target: mean 3, median 3,
      target met. */
  lemma ResultExample()
    ensures var r := CalculateBenchmarkResult("test", [1.0, 2.0, 3.0, 4.0, 5.0], 3.0);
      r.averageTimeMs == 3.0 && r.medianTimeMs == 3.0 && r.targetTimeMs == 3.0 && r.targetMet
  {
    FiveSampleStats([1.0, 2.0, 3.0, 4.0, 5.0]);
  }

  lemma FiveSampleStats(t: seq<real>)
    requires t == [1.0, 2.0, 3.0, 4.0, 5.0]
    ensures Mean(t) == 3.0 && Median(t) == 3.0
  {
    MedianOfFive(t);
    MeanOfFive(t);
  }

  lemma MedianOfFive(t: seq<real>)
    requires |t| == 5 && t[0] == 1.0 && t[1] == 2.0 && t[2] == 3.0 && t[3] == 4.0 && t[4] == 5.0
    ensures Median(t) == 3.0
  {
    FiveAscending(t);
    MedianOfSortedSample(t);
  }

  lemma FiveAscending(t: seq<real>)
    requires |t| == 5 && t[0] == 1.0 && t[1] == 2.0 && t[2] == 3.0 && t[3] == 4.0 && t[4] == 5.0
    ensures SortedBy(t, Id)
  {
    assert forall i :: 0 <= i < |t| ==> t[i] == (i + 1) as real;
  }

  /** An ascending sample is its own sorted copy, so the median is its
      middle element. */
  lemma MedianOfSortedSample(t: seq<real>)
    requires t != [] && SortedBy(t, Id)
    ensures Median(t) == t[|t| / 2]
  {
    SortBySorted(t, Id);
  }

  lemma MeanOfFive(t: seq<real>)
    requires t == [1.0, 2.0, 3.0, 4.0, 5.0]
    ensures Mean(t) == 3.0
  {
    assert Sum([5.0]) == 5.0;
    assert [4.0, 5.0][1..] == [5.0];
    assert Sum([4.0, 5.0]) == 9.0;
    assert [3.0, 4.0, 5.0][1..] == [4.0, 5.0];
    assert Sum([3.0, 4.0, 5.0]) == 12.0;
    assert [2.0, 3.0, 4.0, 5.0][1..] == [3.0, 4.0, 5.0];
    assert Sum([2.0, 3.0, 4.0, 5.0]) == 14.0;
    assert t[1..] == [2.0, 3.0, 4.0, 5.0];
    assert Sum(t) == 15.0;
  }

  // ---------------------------------------------------------------------
  // Regressions

  /** The regression of a current median against its baseline, in
      percent; it passes at or below the threshold. */
  function RegressionOf(name: string, baseline: real, current: real): (r: RegressionTestResult)
    requires baseline != 0.0
    ensures r.name == name && r.baselineTimeMs == baseline && r.currentTimeMs == current
    ensures r.thresholdPercent == RegressionThresholdPercent
    ensures r.passed <==> r.regressionPercent <= RegressionThresholdPercent
  {
    var percent := (current - baseline) / baseline * 100.0;
    RegressionTestResult(name, baseline, current, percent, RegressionThresholdPercent,
      percent <= RegressionThresholdPercent)
  }

  /** For a positive baseline the check passes exactly when the current
      median is at most 10% above it. */
  lemma RegressionPassesIffWithinTenPercent(name: string, baseline: real, current: real)
    requires baseline > 0.0
    ensures RegressionOf(name, baseline, current).passed <==> current <= 1.1 * baseline
  {
    var q := (current - baseline) / baseline;
    assert q * baseline == current - baseline;
    if q <= 0.1 {
      assert (0.1 - q) * baseline >= 0.0;
    } else {
      assert (q - 0.1) * baseline > 0.0;
    }
  }

  /** The test's record: 1.0 ms to 1.05 ms is a 5% regression, which
      passes. */
  lemma RegressionExample()
    ensures RegressionOf("test", 1.0, 1.05).regressionPercent == 5.0
    ensures RegressionOf("test", 1.0, 1.05).passed
  {}

  /** The baseline medians the current results are compared with. */
  function Baselines(): (bs: seq<(string, real)>)
    ensures forall i :: 0 <= i < |bs| ==> bs[i].1 > 0.0
  {
    [("distance_cache", 0.08), ("transform_sync", 0.70), ("lod_system", 0.35),
     ("npc_system", 0.12), ("world_streaming", 0.45), ("gpu_culling", 0.25),
     ("vehicle_physics", 0.40), ("batch_processing", 0.45), ("full_integration", 2.80)]
  }

  /** The regression records for the baselines in order, one for each
      baseline whose benchmark has a result, compared on its median. */
  function Regressions(bs: seq<(string, real)>, subsystems: map<string, BenchmarkResult>): seq<RegressionTestResult>
    requires forall i :: 0 <= i < |bs| ==> bs[i].1 > 0.0
  {
    if bs == [] then []
    else
      var last := bs[|bs| - 1];
      Regressions(bs[..|bs| - 1], subsystems)
        + (if last.0 in subsystems then [RegressionOf(last.0, last.1, subsystems[last.0].medianTimeMs)] else [])
  }

  /** Every record belongs to a benchmark with a result and compares that
      result's median; there is at most one per baseline, and a baseline
      with a result always gets one. */
  lemma {:induction false} RegressionsFacts(bs: seq<(string, real)>, subsystems: map<string, BenchmarkResult>)
    requires forall i :: 0 <= i < |bs| ==> bs[i].1 > 0.0
    ensures var rs := Regressions(bs, subsystems);
      && |rs| <= |bs|
      && (forall r :: r in rs ==> r.name in subsystems && r.currentTimeMs == subsystems[r.name].medianTimeMs)
      && (forall i :: 0 <= i < |bs| && bs[i].0 in subsystems ==> exists r :: r in rs && r.name == bs[i].0)
  {
    if bs != [] {
      var init := bs[..|bs| - 1];
      RegressionsFacts(init, subsystems);
      var rs := Regressions(bs, subsystems);
      var ri := Regressions(init, subsystems);
      forall i | 0 <= i < |bs| && bs[i].0 in subsystems ensures exists r :: r in rs && r.name == bs[i].0 {
        if i < |bs| - 1 {
          assert init[i] == bs[i];
          var r :| r in ri && r.name == bs[i].0;
          assert r in rs;
        } else {
          assert rs[|rs| - 1].name == bs[i].0;
        }
      }
    }
  }

  /** The regression check passes for every benchmark, when each passes. */
  predicate TargetsMet(overall: BenchmarkResult, subsystems: map<string, BenchmarkResult>, regression: seq<RegressionTestResult>)
  {
    && overall.targetMet
    && (forall k :: k in subsystems ==> subsystems[k].targetMet)
    && (forall i :: 0 <= i < |regression| ==> regression[i].passed)
  }

  // ---------------------------------------------------------------------
  // The suite's state

  /** `PerformanceBenchmarks`: the overall result, the per-subsystem
      results, the regression records and the validation verdict. */
  class PerformanceBenchmarkSuite {
    var targetFrameTimeMs: real
    var overall: BenchmarkResult
    var subsystems: map<string, BenchmarkResult>
    var regression: seq<RegressionTestResult>
    var overallPassed: bool

    /** `PerformanceBenchmarks::new` */
    constructor ()
      ensures targetFrameTimeMs == TargetFrameTimeMs
      ensures overall == DefaultResult() && subsystems == map[] && regression == []
      ensures !overallPassed
    {
      targetFrameTimeMs := TargetFrameTimeMs;
      overall := DefaultResult();
      subsystems := map[];
      regression := [];
      overallPassed := false;
    }

    /** A subsystem benchmark's closing step: its sample's statistics
        are stored under its name. */
    method RecordSubsystemResult(name: string, times: seq<real>, targetTime: real)
      requires times != []
      modifies this
      ensures subsystems == old(subsystems)[name := CalculateBenchmarkResult(name, times, targetTime)]
      ensures overall == old(overall) && regression == old(regression)
      ensures targetFrameTimeMs == old(targetFrameTimeMs) && overallPassed == old(overallPassed)
    {
      subsystems := subsystems[name := CalculateBenchmarkResult(name, times, targetTime)];
    }

    /** The full-integration benchmark's closing step: its sample's
        statistics against the frame-time target become the overall
        result. */
    method RecordOverallResult(times: seq<real>)
      requires times != []
      modifies this
      ensures overall == CalculateBenchmarkResult("full_integration", times, targetFrameTimeMs)
      ensures subsystems == old(subsystems) && regression == old(regression)
      ensures targetFrameTimeMs == old(targetFrameTimeMs) && overallPassed == old(overallPassed)
    {
      overall := CalculateBenchmarkResult("full_integration", times, targetFrameTimeMs);
    }

    /** `run_regression_tests`: one record per baseline with a result,
        appended in baseline order. */
    method RunRegressionTests()
      modifies this
      ensures regression == old(regression) + Regressions(Baselines(), subsystems)
      ensures subsystems == old(subsystems) && overall == old(overall)
      ensures targetFrameTimeMs == old(targetFrameTimeMs) && overallPassed == old(overallPassed)
    {
      var bs := Baselines();
      var i := 0;
      while i < |bs|
        invariant 0 <= i <= |bs|
        invariant regression == old(regression) + Regressions(bs[..i], subsystems)
        invariant subsystems == old(subsystems) && overall == old(overall)
        invariant targetFrameTimeMs == old(targetFrameTimeMs) && overallPassed == old(overallPassed)
      {
        var name := bs[i].0;
        var baseline := bs[i].1;
        assert bs[..i + 1][..i] == bs[..i];
        if name in subsystems {
          regression := regression + [RegressionOf(name, baseline, subsystems[name].medianTimeMs)];
        }
        i := i + 1;
      }
      assert bs[..i] == bs;
    }

    /** `validate_targets`: true exactly when the overall result, every
        subsystem result and every regression record pass; the verdict
        is also stored. */
    method ValidateTargets() returns (allPassed: bool)
      modifies this
      ensures allPassed == TargetsMet(overall, subsystems, regression)
      ensures overallPassed == allPassed
      ensures subsystems == old(subsystems) && overall == old(overall) && regression == old(regression)
      ensures targetFrameTimeMs == old(targetFrameTimeMs)
    {
      allPassed := overall.targetMet;
      var pending := subsystems.Keys;
      while pending != {}
        invariant pending <= subsystems.Keys
        invariant allPassed == (overall.targetMet
          && forall k :: k in subsystems && k !in pending ==> subsystems[k].targetMet)
        decreases pending
      {
        var k :| k in pending;
        if !subsystems[k].targetMet {
          allPassed := false;
        }
        pending := pending - {k};
      }
      var i := 0;
      while i < |regression|
        invariant 0 <= i <= |regression|
        invariant allPassed == (overall.targetMet
          && (forall k :: k in subsystems ==> subsystems[k].targetMet)
          && forall j :: 0 <= j < i ==> regression[j].passed)
      {
        if !regression[i].passed {
          allPassed := false;
        }
        i := i + 1;
      }
      overallPassed := allPassed;
    }
  }

  /** The validation test: a subsystem at 0.5 ms of 1 ms and an overall
      result at 2 ms of 3 ms, with no regression records, validate. */
  lemma ValidationExample()
    ensures var sub := DefaultResult().(name := "test", medianTimeMs := 0.5, targetTimeMs := 1.0, targetMet := true);
      var all := DefaultResult().(name := "overall", medianTimeMs := 2.0, targetTimeMs := 3.0, targetMet := true);
      TargetsMet(all, map["test" := sub], [])
  {}
}
