/** The benchmark report generator: per-record frame-time statistics,
    the tiered assessment against fixed budgets, and the summary that lists
    only the records with frame samples. Text formatting, file discovery and
    JSON parsing are outside the model; a loaded file arrives as an already
    parsed record or as a parse failure. */
module BenchmarkReport {
  import opened Common

  /** The keys of a record's `metrics` object; a missing key is `None`. */
  datatype Metrics = Metrics(
    frameTimes: Option<seq<real>>,
    gpuCullingTimeMs: Option<real>,
    batchProcessingTimeMs: Option<real>,
    lodUpdateTimeMs: Option<real>,
    streamingTimeMs: Option<real>,
    visibleInstances: Option<int>,
    culledInstances: Option<int>,
    batchCount: Option<int>,
    memoryUsageMb: Option<real>)

  /** One loaded `benchmark_*.json` document, tagged with its file name. */
  datatype BenchmarkRecord = BenchmarkRecord(scene: Option<string>, metrics: Option<Metrics>, file: string)

  datatype Analysis = Analysis(
    avgFrameTimeMs: real,
    minFrameTimeMs: real,
    maxFrameTimeMs: real,
    p95FrameTimeMs: real,
    p99FrameTimeMs: real,
    avgFps: real,
    minFps: real,
    frameCount: nat,
    gpuCullingTimeMs: real,
    batchProcessingTimeMs: real,
    lodUpdateTimeMs: real,
    streamingTimeMs: real,
    visibleInstances: int,
    culledInstances: int,
    batchCount: int,
    memoryUsageMb: real)

  function GetOr<T>(o: Option<T>, d: T): T
  {
    match o
    case Some(v) => v
    case None => d
  }

  function FrameTimes(r: BenchmarkRecord): seq<real>
  {
    match r.metrics
    case None => []
    case Some(m) => GetOr(m.frameTimes, [])
  }

  /** `int(n * p)` for a non-negative product: truncation is the floor. */
  function PercentileIndex(n: nat, p: real): int
  {
    ((n as real) * p).Floor
  }

  /** Both percentile indices stay inside a non-empty sample, and the 95th
      never lies above the 99th. */
  lemma PercentileIndicesInBounds(n: nat)
    requires n >= 1
    ensures 0 <= PercentileIndex(n, 0.95) <= PercentileIndex(n, 0.99) < n
  {
    var i95, i99 := PercentileIndex(n, 0.95), PercentileIndex(n, 0.99);
    assert (i95 as real) <= (n as real) * 0.95 < (n as real) * 0.99;
    assert (n as real) * 0.99 < (i99 + 1) as real;
    assert (i99 as real) <= (n as real) * 0.99 < n as real;
  }

  /** `1000 / t` guarded against a zero denominator. */
  function FpsOf(t: real): (fps: real)
    ensures t > 0.0 ==> fps > 0.0
  {
    if t > 0.0 then 1000.0 / t else 0.0
  }

  /** The frame-time statistics of a non-empty sample. */
  datatype FrameStats = FrameStats(avg: real, min: real, max: real, p95: real, p99: real)

  function ComputeFrameStats(times: seq<real>): FrameStats
    requires times != []
  {
    var n := |times|;
    var sorted := Sorted(times);
    PercentileIndicesInBounds(n);
    FrameStats(Sum(times) / (n as real), SeqMin(times), SeqMax(times),
      sorted[PercentileIndex(n, 0.95)], sorted[PercentileIndex(n, 0.99)])
  }

  /** A mean of values bounded by `lo` and `hi` is bounded by them too. */
  lemma MeanBetween(sum: real, n: real, lo: real, hi: real)
    requires n > 0.0 && n * lo <= sum <= n * hi
    ensures lo <= sum / n <= hi
  {
    var q := sum / n;
    assert q * n == sum;
  }

  lemma MeanOfSample(times: seq<real>)
    requires times != []
    ensures SeqMin(times) <= Sum(times) / (|times| as real) <= SeqMax(times)
  {
    SeqMinIsLeast(times);
    SeqMaxIsGreatest(times);
    SumBounds(times, SeqMin(times), SeqMax(times));
    MeanBetween(Sum(times), |times| as real, SeqMin(times), SeqMax(times));
  }

  /** The order statistics are consistent: min <= p95 <= p99 <= max, and
      the mean lies between min and max. */
  lemma FrameStatsOrdered(times: seq<real>)
    requires times != []
    ensures var st := ComputeFrameStats(times);
      st.min <= st.p95 <= st.p99 <= st.max && st.min <= st.avg <= st.max
  {
    var n := |times|;
    var s := Sorted(times);
    PercentileIndicesInBounds(n);
    var i95, i99 := PercentileIndex(n, 0.95), PercentileIndex(n, 0.99);
    SortedEnds(times);
    assert s[0] <= s[i95] <= s[i99] <= s[n - 1];
    MeanOfSample(times);
  }

  /** The p95 and p99 values are the sorted sample at `int(0.95 n)` and
      `int(0.99 n)`; with ten samples both indices are 9, so both are the
      maximum (the sample 10, 12, ..., 28 gives 28). */
  lemma TenSamplePercentiles(times: seq<real>)
    requires |times| == 10
    ensures ComputeFrameStats(times).p95 == SeqMax(times)
    ensures ComputeFrameStats(times).p99 == SeqMax(times)
  {
    assert PercentileIndex(10, 0.95) == 9 by {
      assert (9 as real) <= 9.5 < (10 as real);
    }
    assert PercentileIndex(10, 0.99) == 9 by {
      assert (9 as real) <= 9.9 < (10 as real);
    }
    SortedEnds(times);
  }

  /** `analyze_performance`: `None` stands for the empty dictionary. */
  function Analyze(r: BenchmarkRecord): (a: Option<Analysis>)
    ensures a.None? <==> FrameTimes(r) == []
    ensures a.Some? ==> a.value.frameCount == |FrameTimes(r)|
  {
    var times := FrameTimes(r);
    if times == [] then None
    else
      var m := r.metrics.value;
      var st := ComputeFrameStats(times);
      Some(Analysis(st.avg, st.min, st.max, st.p95, st.p99, FpsOf(st.avg), FpsOf(st.max), |times|,
        GetOr(m.gpuCullingTimeMs, 0.0), GetOr(m.batchProcessingTimeMs, 0.0),
        GetOr(m.lodUpdateTimeMs, 0.0), GetOr(m.streamingTimeMs, 0.0),
        GetOr(m.visibleInstances, 0), GetOr(m.culledInstances, 0),
        GetOr(m.batchCount, 0), GetOr(m.memoryUsageMb, 0.0)))
  }

  lemma ReciprocalAntitone(x: real, y: real)
    requires 0.0 < x <= y
    ensures 1000.0 / y <= 1000.0 / x
  {
    var a, b := 1000.0 / x, 1000.0 / y;
    assert a * x == 1000.0 && b * y == 1000.0;
    if b > a {
      assert b * y >= b * x > a * x;
    }
  }

  /** The analysis carries the sample's statistics, whose order statistics
      are consistent. */
  lemma AnalysisOrdered(r: BenchmarkRecord)
    requires FrameTimes(r) != []
    ensures var a := Analyze(r).value;
      a.minFrameTimeMs <= a.p95FrameTimeMs <= a.p99FrameTimeMs <= a.maxFrameTimeMs
      && a.minFrameTimeMs <= a.avgFrameTimeMs <= a.maxFrameTimeMs
      && a.minFrameTimeMs == SeqMin(FrameTimes(r)) && a.maxFrameTimeMs == SeqMax(FrameTimes(r))
  {
    FrameStatsOrdered(FrameTimes(r));
  }

  /** The FPS figures are 1000/avg (or 0) and 1000/max (or 0), so the
      minimum FPS never exceeds the average. */
  lemma AnalysisFps(r: BenchmarkRecord)
    requires FrameTimes(r) != []
    ensures Analyze(r).value.avgFps == FpsOf(Analyze(r).value.avgFrameTimeMs)
    ensures Analyze(r).value.minFps == FpsOf(Analyze(r).value.maxFrameTimeMs)
    ensures Analyze(r).value.avgFrameTimeMs > 0.0 ==> Analyze(r).value.minFps <= Analyze(r).value.avgFps
  {
    var st := ComputeFrameStats(FrameTimes(r));
    FrameStatsOrdered(FrameTimes(r));
    if st.avg > 0.0 {
      ReciprocalAntitone(st.avg, st.max);
    }
  }

  /** FPS is the reciprocal of the frame time in seconds, and 0 for a
      non-positive frame time. */
  lemma FpsOfInverse(t: real)
    ensures t > 0.0 ==> FpsOf(t) * t == 1000.0
    ensures t <= 0.0 ==> FpsOf(t) == 0.0
  {
  }

  /** Missing subsystem keys read as zero. */
  lemma MissingKeysDefaultToZero(r: BenchmarkRecord)
    requires FrameTimes(r) != []
    requires r.metrics.value.gpuCullingTimeMs == None && r.metrics.value.batchProcessingTimeMs == None
    requires r.metrics.value.lodUpdateTimeMs == None && r.metrics.value.streamingTimeMs == None
    ensures var a := Analyze(r).value;
      a.gpuCullingTimeMs == 0.0 && a.batchProcessingTimeMs == 0.0
      && a.lodUpdateTimeMs == 0.0 && a.streamingTimeMs == 0.0
  {
  }

  // ---------------------------------------------------------------------
  // Assessment

  /** The ten fixed targets of `generate_report`. */
  datatype Targets = Targets(
    targetFps: real, warningFps: real, criticalFps: real,
    targetFrameTimeMs: real, warningFrameTimeMs: real, criticalFrameTimeMs: real,
    gpuCullingBudgetMs: real, batchProcessingBudgetMs: real,
    lodUpdateBudgetMs: real, streamingBudgetMs: real)

  const DefaultTargets := Targets(60.0, 30.0, 15.0, 16.67, 33.33, 66.67, 0.25, 2.5, 1.0, 1.5)

  datatype Tier = Excellent | Acceptable | Poor

  /** Lower rank is better. */
  function TierRank(t: Tier): nat
  {
    match t
    case Excellent => 0
    case Acceptable => 1
    case Poor => 2
  }

  function FrameTimeTier(avg: real, t: Targets): Tier
  {
    if avg <= t.targetFrameTimeMs then Excellent
    else if avg <= t.warningFrameTimeMs then Acceptable
    else Poor
  }

  function FpsTier(fps: real, t: Targets): Tier
  {
    if fps >= t.targetFps then Excellent
    else if fps >= t.warningFps then Acceptable
    else Poor
  }

  /** A subsystem time is within budget iff it does not exceed it. */
  function WithinBudget(time: real, budget: real): bool
  {
    time <= budget
  }

  datatype Assessment = Assessment(
    frameTime: Tier, fps: Tier,
    gpuCullingOk: bool, batchProcessingOk: bool, lodUpdatesOk: bool, streamingOk: bool)

  function Assess(a: Analysis, t: Targets): Assessment
  {
    Assessment(FrameTimeTier(a.avgFrameTimeMs, t), FpsTier(a.avgFps, t),
      WithinBudget(a.gpuCullingTimeMs, t.gpuCullingBudgetMs),
      WithinBudget(a.batchProcessingTimeMs, t.batchProcessingBudgetMs),
      WithinBudget(a.lodUpdateTimeMs, t.lodUpdateBudgetMs),
      WithinBudget(a.streamingTimeMs, t.streamingBudgetMs))
  }

  /** The printed line of each check, in the fixed order of the report. */
  function AssessmentLines(s: Assessment): (lines: seq<string>)
    ensures |lines| == 6
  {
    [ match s.frameTime
      case Excellent => "✓ Frame time: EXCELLENT"
      case Acceptable => "⚠ Frame time: ACCEPTABLE"
      case Poor => "✗ Frame time: POOR",
      match s.fps
      case Excellent => "✓ FPS: EXCELLENT"
      case Acceptable => "⚠ FPS: ACCEPTABLE"
      case Poor => "✗ FPS: POOR",
      if s.gpuCullingOk then "✓ GPU Culling: WITHIN BUDGET" else "✗ GPU Culling: OVER BUDGET",
      if s.batchProcessingOk then "✓ Batch Processing: WITHIN BUDGET" else "✗ Batch Processing: OVER BUDGET",
      if s.lodUpdatesOk then "✓ LOD Updates: WITHIN BUDGET" else "✗ LOD Updates: OVER BUDGET",
      if s.streamingOk then "✓ Streaming: WITHIN BUDGET" else "✗ Streaming: OVER BUDGET" ]
  }

  /** The frame-time tier against the default targets, stated by its
      thresholds in both directions. */
  lemma FrameTimeTierThresholds(avg: real)
    ensures FrameTimeTier(avg, DefaultTargets) == Excellent <==> avg <= 16.67
    ensures FrameTimeTier(avg, DefaultTargets) == Acceptable <==> 16.67 < avg <= 33.33
    ensures FrameTimeTier(avg, DefaultTargets) == Poor <==> 33.33 < avg
  {
  }

  lemma FpsTierThresholds(fps: real)
    ensures FpsTier(fps, DefaultTargets) == Excellent <==> fps >= 60.0
    ensures FpsTier(fps, DefaultTargets) == Acceptable <==> 30.0 <= fps < 60.0
    ensures FpsTier(fps, DefaultTargets) == Poor <==> fps < 30.0
  {
  }

  /** A slower average frame never earns a better frame-time tier, and a
      lower FPS never earns a better FPS tier (for ordered targets). */
  lemma TiersMonotone(x: real, y: real, t: Targets)
    requires t.targetFrameTimeMs <= t.warningFrameTimeMs && t.warningFps <= t.targetFps
    requires x <= y
    ensures TierRank(FrameTimeTier(x, t)) <= TierRank(FrameTimeTier(y, t))
    ensures TierRank(FpsTier(y, t)) <= TierRank(FpsTier(x, t))
  {
  }

  /** Two scenes at 10 ms and 50 ms mean frame time are labelled differently. */
  lemma TenAndFiftyMsDiffer()
    ensures FrameTimeTier(10.0, DefaultTargets) == Excellent
    ensures FrameTimeTier(50.0, DefaultTargets) == Poor
    ensures AssessmentLines(Assessment(Excellent, Excellent, true, true, true, true))[0]
         != AssessmentLines(Assessment(Poor, Poor, true, true, true, true))[0]
  {
  }

  // ---------------------------------------------------------------------
  // Report and summary

  /** A summary entry `{scene, file, analysis}`. */
  datatype SummaryEntry = SummaryEntry(scene: string, file: string, analysis: Analysis)

  function SceneName(r: BenchmarkRecord): string
  {
    GetOr(r.scene, "unknown")
  }

  /** The entries of `save_summary`: one per record with frame samples, in
      load order. */
  function SummaryEntries(records: seq<BenchmarkRecord>): (es: seq<SummaryEntry>)
    ensures |es| <= |records|
  {
    if records == [] then []
    else
      var r := records[0];
      var rest := SummaryEntries(records[1..]);
      match Analyze(r)
      case None => rest
      case Some(a) => [SummaryEntry(SceneName(r), r.file, a)] + rest
  }

  /** How many records carry frame samples. */
  function CountAnalyzable(records: seq<BenchmarkRecord>): nat
  {
    if records == [] then 0
    else (if FrameTimes(records[0]) != [] then 1 else 0) + CountAnalyzable(records[1..])
  }

  /** An entry for every analyzable record and for no other. */
  lemma {:induction false} SummaryCountsAnalyzable(records: seq<BenchmarkRecord>)
    ensures |SummaryEntries(records)| == CountAnalyzable(records)
  {
    if records != [] {
      SummaryCountsAnalyzable(records[1..]);
    }
  }

  /** Records without samples contribute nothing: appending one leaves the
      summary unchanged, and the summary of a concatenation is the
      concatenation of summaries (so load order is kept). */
  lemma {:induction false} SummaryConcat(a: seq<BenchmarkRecord>, b: seq<BenchmarkRecord>)
    ensures SummaryEntries(a + b) == SummaryEntries(a) + SummaryEntries(b)
  {
    if a == [] {
      assert a + b == b;
    } else {
      assert (a + b)[1..] == a[1..] + b;
      SummaryConcat(a[1..], b);
    }
  }

  lemma SummaryStep(records: seq<BenchmarkRecord>, i: nat)
    requires i < |records|
    ensures SummaryEntries(records[..i + 1]) == SummaryEntries(records[..i]) +
      match Analyze(records[i])
      case None => []
      case Some(a) => [SummaryEntry(SceneName(records[i]), records[i].file, a)]
  {
    SummaryConcat(records[..i], [records[i]]);
    assert records[..i + 1] == records[..i] + [records[i]];
    assert [records[i]][1..] == [];
  }

  datatype Summary = Summary(resultsDir: string, benchmarkCount: nat, benchmarks: seq<SummaryEntry>)

  /** The summary document without its timestamp: `benchmark_count` counts
      every loaded record, `benchmarks` only the analyzable ones. As a pure
      function it gives the same document for the same records. */
  method BuildSummary(resultsDir: string, records: seq<BenchmarkRecord>) returns (s: Summary)
    ensures s.resultsDir == resultsDir && s.benchmarkCount == |records|
    ensures s.benchmarks == SummaryEntries(records)
  {
    var entries: seq<SummaryEntry> := [];
    for i := 0 to |records|
      invariant entries == SummaryEntries(records[..i])
    {
      var r := records[i];
      var a := Analyze(r);
      SummaryStep(records, i);
      if a.Some? {
        entries := entries + [SummaryEntry(SceneName(r), r.file, a.value)];
      }
    }
    assert records[..|records|] == records;
    s := Summary(resultsDir, |records|, entries);
  }

  /** A scene block of the printed report, before text formatting. */
  datatype SceneBlock = SceneBlock(scene: string, file: string, analysis: Analysis, assessment: Assessment)

  datatype Report = NoResults | Blocks(blocks: seq<SceneBlock>)

  /** `generate_report`: the "no results" notice for an empty collection,
      else one block per analyzable record, in load order. */
  function GenerateReport(records: seq<BenchmarkRecord>, t: Targets): (rep: Report)
    ensures rep.NoResults? <==> records == []
  {
    if records == [] then NoResults
    else Blocks(seq(|SummaryEntries(records)|, k requires 0 <= k < |SummaryEntries(records)| =>
      var e := SummaryEntries(records)[k];
      SceneBlock(e.scene, e.file, e.analysis, Assess(e.analysis, t))))
  }

  /** The report and the summary describe the same scenes in the same order. */
  lemma ReportMatchesSummary(records: seq<BenchmarkRecord>, t: Targets)
    requires records != []
    ensures var rep := GenerateReport(records, t);
      |rep.blocks| == |SummaryEntries(records)|
      && forall k :: 0 <= k < |rep.blocks| ==>
           rep.blocks[k].scene == SummaryEntries(records)[k].scene
           && rep.blocks[k].analysis == SummaryEntries(records)[k].analysis
  {
  }

  // ---------------------------------------------------------------------
  // Loading

  /** What reading one matched file produced. */
  datatype LoadOutcome = Parsed(scene: Option<string>, metrics: Option<Metrics>) | ParseError(message: string)

  /** The records that loading appends: the parsed files, tagged with their
      names, in listing order. */
  function LoadedRecords(files: seq<(string, LoadOutcome)>): seq<BenchmarkRecord>
  {
    if files == [] then []
    else
      var rest := LoadedRecords(files[1..]);
      match files[0].1
      case Parsed(scene, metrics) => [BenchmarkRecord(scene, metrics, files[0].0)] + rest
      case ParseError(_) => rest
  }

  /** The names of the files whose parse failed, in listing order. */
  function FailedFiles(files: seq<(string, LoadOutcome)>): seq<string>
  {
    if files == [] then []
    else if files[0].1.ParseError? then [files[0].0] + FailedFiles(files[1..])
    else FailedFiles(files[1..])
  }

  /** Every file is either loaded or reported, never both and never lost. */
  lemma {:induction false} LoadAccountsForEveryFile(files: seq<(string, LoadOutcome)>)
    ensures |LoadedRecords(files)| + |FailedFiles(files)| == |files|
  {
    if files != [] {
      LoadAccountsForEveryFile(files[1..]);
    }
  }

  lemma {:induction false} LoadConcat(a: seq<(string, LoadOutcome)>, b: seq<(string, LoadOutcome)>)
    ensures LoadedRecords(a + b) == LoadedRecords(a) + LoadedRecords(b)
  {
    if a == [] {
      assert a + b == b;
    } else {
      assert (a + b)[1..] == a[1..] + b;
      assert (a + b)[0] == a[0];
      LoadConcat(a[1..], b);
    }
  }

  lemma {:induction false} FailedConcat(a: seq<(string, LoadOutcome)>, b: seq<(string, LoadOutcome)>)
    ensures FailedFiles(a + b) == FailedFiles(a) + FailedFiles(b)
  {
    if a == [] {
      assert a + b == b;
    } else {
      assert (a + b)[1..] == a[1..] + b;
      assert (a + b)[0] == a[0];
      FailedConcat(a[1..], b);
      if a[0].1.ParseError? {
        assert FailedFiles(a + b) == [a[0].0] + FailedFiles(a[1..] + b);
        assert FailedFiles(a) == [a[0].0] + FailedFiles(a[1..]);
      } else {
        assert FailedFiles(a + b) == FailedFiles(a[1..] + b);
      }
    }
  }

  class BenchmarkAnalyzer {
    const resultsDir: string
    var results: seq<BenchmarkRecord>

    constructor (dir: string)
      ensures resultsDir == dir && results == []
    {
      resultsDir := dir;
      results := [];
    }

    /** `load_results` over the matched files in listing order: parsed files
        are appended tagged with their name; a failure is reported and the
        file skipped. Returns the names of the files that failed. */
    method LoadResults(files: seq<(string, LoadOutcome)>) returns (errors: seq<string>)
      modifies this
      ensures results == old(results) + LoadedRecords(files)
      ensures errors == FailedFiles(files)
    {
      errors := [];
      for i := 0 to |files|
        invariant results == old(results) + LoadedRecords(files[..i])
        invariant errors == FailedFiles(files[..i])
      {
        LoadConcat(files[..i], [files[i]]);
        FailedConcat(files[..i], [files[i]]);
        assert files[..i + 1] == files[..i] + [files[i]];
        var (name, outcome) := files[i];
        match outcome
        case Parsed(scene, metrics) =>
          results := results + [BenchmarkRecord(scene, metrics, name)];
        case ParseError(_) =>
          errors := errors + [name];
      }
      assert files[..|files|] == files;
    }
  }
}
