/** The main-thread side of asynchronous chunk generation: jobs wait in a
    queue ordered by priority, at most a fixed number run at once, and
    finished results update the generation diagnostics. The background
    work itself and the entities the commands spawn are outside the model:
    an entity id is a parameter, and the results the background threads
    leave behind are handed in. */
module AsyncGeneration {
  import opened Common

  /** `WorldCoord` */
  datatype WorldCoord = WorldCoord(x: int, z: int, level: nat)

  /** `ContentLayers` */
  datatype ContentLayers = ContentLayers(
    terrain: bool, roads: bool, buildings: bool, vegetation: bool,
    vehicles: bool, npcs: bool, water: bool, details: bool)

  /** `GenerationJob` */
  datatype GenerationJob = GenerationJob(coord: WorldCoord, generationSeed: nat, priority: real, contentLayers: ContentLayers)

  /** `ChunkGenerationResult`, with the entities as ids. */
  datatype ChunkGenerationResult = ChunkGenerationResult(
    coord: WorldCoord, entities: seq<nat>, contentLayers: ContentLayers,
    generationTime: real, error: Option<string>)

  // ---------------------------------------------------------------------
  // The priority queue

  /** Priorities never increase along the queue. */
  ghost predicate SortedByPriority(q: seq<GenerationJob>)
  {
    forall i, j :: 0 <= i < j < |q| ==> q[i].priority >= q[j].priority
  }

  /** The insertion point: the first job with a strictly lower priority,
      or the end of the queue. */
  function InsertPosition(q: seq<GenerationJob>, priority: real): (pos: nat)
    ensures pos <= |q|
    ensures forall i :: 0 <= i < pos ==> q[i].priority >= priority
    ensures pos < |q| ==> q[pos].priority < priority
  {
    if |q| == 0 then 0
    else if q[0].priority < priority then 0
    else 1 + InsertPosition(q[1..], priority)
  }

  /** The scan of `queue_chunk_generation`: the first job of strictly
      lower priority, or the end of the queue. */
  method FindInsertPosition(q: seq<GenerationJob>, priority: real) returns (pos: nat)
    ensures pos == InsertPosition(q, priority)
  {
    pos := 0;
    while pos < |q| && !(q[pos].priority < priority)
      invariant 0 <= pos <= |q|
      invariant InsertPosition(q[pos..], priority) + pos == InsertPosition(q, priority)
    {
      assert q[pos..][1..] == q[pos + 1..];
      pos := pos + 1;
    }
  }

  /** The queue after `queue_chunk_generation`. */
  function Enqueue(q: seq<GenerationJob>, job: GenerationJob): (r: seq<GenerationJob>)
    ensures |r| == |q| + 1
    ensures multiset(r) == multiset(q) + multiset{job}
  {
    var pos := InsertPosition(q, job.priority);
    assert q == q[..pos] + q[pos..];
    q[..pos] + [job] + q[pos..]
  }

  /** Inserting keeps the queue ordered by priority. */
  lemma EnqueueKeepsSorted(q: seq<GenerationJob>, job: GenerationJob)
    requires SortedByPriority(q)
    ensures SortedByPriority(Enqueue(q, job))
  {
    var pos := InsertPosition(q, job.priority);
    var r := Enqueue(q, job);
    forall i, j | 0 <= i < j < |r| ensures r[i].priority >= r[j].priority {
      if j < pos {
        assert r[i] == q[i] && r[j] == q[j];
      } else if j == pos {
        assert r[i] == q[i];
      } else if i < pos {
        assert r[i] == q[i] && r[j] == q[j - 1];
      } else if i == pos {
        assert r[j] == q[j - 1] && q[pos].priority < job.priority;
        assert q[pos].priority >= q[j - 1].priority || j - 1 == pos;
      } else {
        assert r[i] == q[i - 1] && r[j] == q[j - 1];
      }
    }
  }

  /** In an ordered queue the new job goes after every job with the same
      or a higher priority and before every job with a lower one, so jobs
      of equal priority leave in the order they came. */
  lemma EnqueueFifo(q: seq<GenerationJob>, job: GenerationJob, k: nat)
    requires SortedByPriority(q) && k < |q|
    ensures var pos := InsertPosition(q, job.priority);
      && (q[k].priority >= job.priority ==> k < pos)
      && (q[k].priority < job.priority ==> k >= pos)
  {
  }

  /** The job that comes first leaves first. */
  lemma EnqueueExample(a: GenerationJob, b: GenerationJob)
    requires a.priority == 1.0 && b.priority == 2.0
    ensures Enqueue(Enqueue([], a), b) == [b, a]
  {
  }

  // ---------------------------------------------------------------------
  // Diagnostics

  /** `GenerationDiagnostics` */
  datatype GenerationDiagnostics = GenerationDiagnostics(
    totalChunksGenerated: nat, totalGenerationTime: real, averageGenerationTime: real,
    peakConcurrentTasks: nat, failedGenerations: nat, queueSize: nat, activeTaskCount: nat)

  /** The average is the total time over the chunks counted. */
  predicate AverageKept(d: GenerationDiagnostics)
  {
    d.averageGenerationTime * (d.totalChunksGenerated as real) == d.totalGenerationTime
  }

  /** One result counted: one more chunk, its time added, the average
      recomputed, and one more failure if it carries an error. */
  function CountResult(d: GenerationDiagnostics, r: ChunkGenerationResult): (e: GenerationDiagnostics)
    ensures e.totalChunksGenerated == d.totalChunksGenerated + 1
    ensures e.totalGenerationTime == d.totalGenerationTime + r.generationTime
    ensures AverageKept(e)
    ensures e.failedGenerations == d.failedGenerations + (if r.error.Some? then 1 else 0)
  {
    var total := d.totalChunksGenerated + 1;
    var time := d.totalGenerationTime + r.generationTime;
    d.(totalChunksGenerated := total, totalGenerationTime := time,
       averageGenerationTime := time / total as real,
       failedGenerations := d.failedGenerations + (if r.error.Some? then 1 else 0))
  }

  /** The loop of `process_completed_results` from result `i` on: each
      result is counted and its coordinate leaves the active tasks. */
  function ProcessFrom(d: GenerationDiagnostics, active: map<WorldCoord, nat>,
                       results: seq<ChunkGenerationResult>, i: nat): (GenerationDiagnostics, map<WorldCoord, nat>)
    requires i <= |results|
    decreases |results| - i
  {
    if i == |results| then (d, active)
    else ProcessFrom(CountResult(d, results[i]), active - {results[i].coord}, results, i + 1)
  }

  /** One turn of the loop: processing from `i` is counting result `i`
      and then processing from `i + 1`. */
  lemma ProcessFromStep(d: GenerationDiagnostics, active: map<WorldCoord, nat>,
                        results: seq<ChunkGenerationResult>, i: nat)
    requires i < |results|
    ensures ProcessFrom(d, active, results, i)
         == ProcessFrom(CountResult(d, results[i]), active - {results[i].coord}, results, i + 1)
  {
  }

  /** The sum of the results' times from `i` on, and their errors. */
  function TimeFrom(results: seq<ChunkGenerationResult>, i: nat): real
    requires i <= |results|
    decreases |results| - i
  {
    if i == |results| then 0.0 else results[i].generationTime + TimeFrom(results, i + 1)
  }

  function FailuresFrom(results: seq<ChunkGenerationResult>, i: nat): nat
    requires i <= |results|
    decreases |results| - i
  {
    if i == |results| then 0 else (if results[i].error.Some? then 1 else 0) + FailuresFrom(results, i + 1)
  }

  /** Processing results from `i` counts each one, adds its time and its
      failure, keeps the average equal to the total time over the count
      once something was counted, and removes exactly those results'
      coordinates from the active tasks. */
  lemma {:induction false} ProcessFromEffect(d: GenerationDiagnostics, active: map<WorldCoord, nat>,
                                             results: seq<ChunkGenerationResult>, i: nat)
    requires i <= |results|
    decreases |results| - i
    ensures var (e, a) := ProcessFrom(d, active, results, i);
      && e.totalChunksGenerated == d.totalChunksGenerated + (|results| - i)
      && e.totalGenerationTime == d.totalGenerationTime + TimeFrom(results, i)
      && e.failedGenerations == d.failedGenerations + FailuresFrom(results, i)
      && (i < |results| ==> AverageKept(e))
      && (i == |results| ==> e == d)
      && e.peakConcurrentTasks == d.peakConcurrentTasks && e.queueSize == d.queueSize
      && (forall c :: c in a <==> c in active && forall k :: i <= k < |results| ==> results[k].coord != c)
      && (forall c :: c in a ==> a[c] == active[c])
  {
    if i < |results| {
      ProcessFromEffect(CountResult(d, results[i]), active - {results[i].coord}, results, i + 1);
    }
  }

  /** Processing keeps the peak and queue size, keeps the peak at or
      above the remaining active count, and keeps the average equal to
      the total time over the chunks counted. */
  lemma ProcessKeepsCounts(d: GenerationDiagnostics, active: map<WorldCoord, nat>, results: seq<ChunkGenerationResult>)
    requires d.peakConcurrentTasks >= |active|
    requires AverageKept(d)
    ensures var (e, a) := ProcessFrom(d, active, results, 0);
      && e.peakConcurrentTasks == d.peakConcurrentTasks && e.queueSize == d.queueSize
      && e.peakConcurrentTasks >= |a| && |a| <= |active|
      && AverageKept(e)
  {
    var (e, a) := ProcessFrom(d, active, results, 0);
    ProcessFromEffect(d, active, results, 0);
    assert a.Keys <= active.Keys;
    PeakAboveRemaining(active, a, d.peakConcurrentTasks);
    PeakAboveRemaining(active, a, |active|);
  }

  // ---------------------------------------------------------------------
  // The manager

  /** `AsyncGenerationManager`, without the shared result buffer (the
      drained results are handed to `ProcessCompletedResults`). */
  class AsyncGenerationManager {
    var generationQueue: seq<GenerationJob>
    var activeTasks: map<WorldCoord, nat>
    var maxConcurrentTasks: nat
    var diagnostics: GenerationDiagnostics

    /** The queue is ordered by priority, no more tasks run than the limit,
        the recorded counts match the queue and the active tasks, the peak
        is at least the active count, and the average is the total time
        over the chunks counted. */
    ghost predicate Valid()
      reads this
    {
      && SortedByPriority(generationQueue)
      && |activeTasks| <= maxConcurrentTasks
      && diagnostics.queueSize == |generationQueue|
      && diagnostics.activeTaskCount == |activeTasks|
      && diagnostics.peakConcurrentTasks >= diagnostics.activeTaskCount
      && AverageKept(diagnostics)
    }

    /** `AsyncGenerationManager::default`: nothing queued or running, at
        most four tasks at once, all diagnostics zero. */
    constructor ()
      ensures Valid()
      ensures generationQueue == [] && activeTasks == map[] && maxConcurrentTasks == 4
      ensures diagnostics == GenerationDiagnostics(0, 0.0, 0.0, 0, 0, 0, 0)
    {
      generationQueue := [];
      activeTasks := map[];
      maxConcurrentTasks := 4;
      diagnostics := GenerationDiagnostics(0, 0.0, 0.0, 0, 0, 0, 0);
    }

    /** `queue_chunk_generation`: the job is inserted before the first job
        of strictly lower priority, found by scanning, and the queue size
        is recorded. */
    method QueueChunkGeneration(job: GenerationJob)
      requires Valid()
      modifies this
      ensures Valid()
      ensures generationQueue == Enqueue(old(generationQueue), job)
      ensures diagnostics == old(diagnostics).(queueSize := |generationQueue|)
      ensures activeTasks == old(activeTasks) && maxConcurrentTasks == old(maxConcurrentTasks)
    {
      var pos := FindInsertPosition(generationQueue, job.priority);
      EnqueueKeepsSorted(generationQueue, job);
      generationQueue := generationQueue[..pos] + [job] + generationQueue[pos..];
      diagnostics := diagnostics.(queueSize := |generationQueue|);
    }

    /** `try_start_next_task`: nothing starts when the running tasks are at
        the limit or the queue is empty; otherwise the front job leaves
        the queue and runs as task `entity`, and the counts and the peak
        are updated. */
    method TryStartNextTask(entity: nat) returns (started: bool)
      requires Valid()
      modifies this
      ensures Valid()
      ensures started <==> |old(activeTasks)| < maxConcurrentTasks && old(generationQueue) != []
      ensures !started ==> generationQueue == old(generationQueue) && activeTasks == old(activeTasks)
                           && diagnostics == old(diagnostics)
      ensures started ==>
        && generationQueue == old(generationQueue)[1..]
        && activeTasks == old(activeTasks)[old(generationQueue)[0].coord := entity]
        && diagnostics == old(diagnostics).(queueSize := |generationQueue|, activeTaskCount := |activeTasks|,
                                            peakConcurrentTasks := if old(diagnostics).peakConcurrentTasks >= |activeTasks|
                                                                   then old(diagnostics).peakConcurrentTasks else |activeTasks|)
      ensures maxConcurrentTasks == old(maxConcurrentTasks)
    {
      if |activeTasks| >= maxConcurrentTasks {
        return false;
      }
      if generationQueue == [] {
        return false;
      }
      var job := generationQueue[0];
      generationQueue := generationQueue[1..];
      StartChunkGeneration(job, entity);
      diagnostics := diagnostics.(queueSize := |generationQueue|);
      started := true;
    }

    /** `start_chunk_generation` on the main thread: the job's coordinate
        is recorded as running under `entity`, and the count and peak are
        updated. */
    method StartChunkGeneration(job: GenerationJob, entity: nat)
      modifies this
      ensures activeTasks == old(activeTasks)[job.coord := entity]
      ensures diagnostics == old(diagnostics).(activeTaskCount := |activeTasks|,
                                               peakConcurrentTasks := if old(diagnostics).peakConcurrentTasks >= |activeTasks|
                                                                      then old(diagnostics).peakConcurrentTasks else |activeTasks|)
      ensures generationQueue == old(generationQueue) && maxConcurrentTasks == old(maxConcurrentTasks)
    {
      activeTasks := activeTasks[job.coord := entity];
      var peak := diagnostics.peakConcurrentTasks;
      if |activeTasks| > peak {
        peak := |activeTasks|;
      }
      diagnostics := diagnostics.(activeTaskCount := |activeTasks|, peakConcurrentTasks := peak);
    }

    /** The start loop of the generation system: tasks start, with ids from
        `firstEntity` on, until the limit is reached or the queue runs
        out. The jobs started are the front `count` jobs of the queue, in
        order, and each runs under its own id. */
    method StartAvailableTasks(firstEntity: nat) returns (count: nat)
      requires Valid()
      modifies this
      ensures Valid()
      ensures |activeTasks| == maxConcurrentTasks || generationQueue == []
      ensures count <= |old(generationQueue)| && generationQueue == old(generationQueue)[count..]
      ensures activeTasks == Started(old(activeTasks), old(generationQueue)[..count], firstEntity)
      ensures activeTasks.Keys == old(activeTasks).Keys + Coords(old(generationQueue)[..count])
      ensures forall k :: 0 <= k < count ==> old(generationQueue)[k].coord in activeTasks
      ensures maxConcurrentTasks == old(maxConcurrentTasks)
    {
      count := 0;
      var started := true;
      while started
        invariant Valid() && maxConcurrentTasks == old(maxConcurrentTasks)
        invariant count <= |old(generationQueue)| && generationQueue == old(generationQueue)[count..]
        invariant activeTasks == Started(old(activeTasks), old(generationQueue)[..count], firstEntity)
        invariant !started ==> |activeTasks| == maxConcurrentTasks || generationQueue == []
        decreases |generationQueue|, started
      {
        ghost var before := activeTasks;
        started := TryStartNextTask(firstEntity + count);
        if started {
          assert old(generationQueue)[..count + 1][..count] == old(generationQueue)[..count];
          assert old(generationQueue)[count..][1..] == old(generationQueue)[count + 1..];
          count := count + 1;
        }
      }
      StartedPrefix(old(activeTasks), old(generationQueue), count, firstEntity);
    }

    /** `process_completed_results`: each drained result is counted and its
        task leaves the active set; the active count is then recorded and
        the results are returned. */
    method ProcessCompletedResults(results: seq<ChunkGenerationResult>) returns (completed: seq<ChunkGenerationResult>)
      requires Valid()
      modifies this
      ensures Valid()
      ensures completed == results
      ensures var (d, a) := ProcessFrom(old(diagnostics), old(activeTasks), results, 0);
        activeTasks == a && diagnostics == d.(activeTaskCount := |a|)
      ensures generationQueue == old(generationQueue) && maxConcurrentTasks == old(maxConcurrentTasks)
    {
      var i := 0;
      while i < |results|
        invariant 0 <= i <= |results|
        invariant ProcessFrom(diagnostics, activeTasks, results, i) == ProcessFrom(old(diagnostics), old(activeTasks), results, 0)
        invariant generationQueue == old(generationQueue) && maxConcurrentTasks == old(maxConcurrentTasks)
      {
        ProcessFromStep(diagnostics, activeTasks, results, i);
        CountCompleted(results[i]);
        i := i + 1;
      }
      assert ProcessFrom(diagnostics, activeTasks, results, i) == (diagnostics, activeTasks);
      ProcessKeepsCounts(old(diagnostics), old(activeTasks), results);
      diagnostics := diagnostics.(activeTaskCount := |activeTasks|);
      completed := results;
    }

    /** One drained result: counted, and its task no longer active. */
    method CountCompleted(r: ChunkGenerationResult)
      modifies this`diagnostics, this`activeTasks
      ensures diagnostics == CountResult(old(diagnostics), r)
      ensures activeTasks == old(activeTasks) - {r.coord}
    {
      diagnostics := CountResult(diagnostics, r);
      activeTasks := activeTasks - {r.coord};
    }

    /** `cleanup_stalled_tasks`: the source finds no stalled task (it keeps
        no start times), so only the active count is recorded again. */
    method CleanupStalledTasks()
      requires Valid()
      modifies this
      ensures Valid()
      ensures activeTasks == old(activeTasks) && generationQueue == old(generationQueue)
      ensures diagnostics == old(diagnostics).(activeTaskCount := |activeTasks|)
    {
      diagnostics := diagnostics.(activeTaskCount := |activeTasks|);
    }
  }

  /** The active tasks after starting `jobs` in turn, the k-th under the
      id `firstEntity + k`; a coordinate already running is re-bound. */
  function Started(active: map<WorldCoord, nat>, jobs: seq<GenerationJob>, firstEntity: nat): map<WorldCoord, nat>
  {
    if jobs == [] then active
    else Started(active, jobs[..|jobs| - 1], firstEntity)[jobs[|jobs| - 1].coord := firstEntity + |jobs| - 1]
  }

  /** The coordinates of some jobs. */
  function Coords(jobs: seq<GenerationJob>): set<WorldCoord>
  {
    set k | 0 <= k < |jobs| :: jobs[k].coord
  }

  /** Starting jobs makes exactly their coordinates active besides those
      already running, leaves every other running task alone, and the
      last job started gets the last id. */
  lemma {:induction false} StartedTasks(active: map<WorldCoord, nat>, jobs: seq<GenerationJob>, firstEntity: nat)
    ensures Started(active, jobs, firstEntity).Keys == active.Keys + Coords(jobs)
    ensures forall c :: c in active && c !in Coords(jobs) ==> Started(active, jobs, firstEntity)[c] == active[c]
    ensures jobs != [] ==> Started(active, jobs, firstEntity)[jobs[|jobs| - 1].coord] == firstEntity + |jobs| - 1
  {
    if jobs != [] {
      var n := |jobs| - 1;
      var init := jobs[..n];
      StartedTasks(active, init, firstEntity);
      assert Coords(jobs) == Coords(init) + {jobs[n].coord} by {
        forall c | c in Coords(jobs) ensures c in Coords(init) + {jobs[n].coord} {
          var k :| 0 <= k < |jobs| && jobs[k].coord == c;
          if k < n {
            assert init[k].coord == c;
          }
        }
        forall c | c in Coords(init) ensures c in Coords(jobs) {
          var k :| 0 <= k < |init| && init[k].coord == c;
          assert jobs[k].coord == c;
        }
      }
    }
  }

  /** Starting the front `count` jobs of a queue makes each of their
      coordinates active. */
  lemma StartedPrefix(active: map<WorldCoord, nat>, q: seq<GenerationJob>, count: nat, firstEntity: nat)
    requires count <= |q|
    ensures Started(active, q[..count], firstEntity).Keys == active.Keys + Coords(q[..count])
    ensures forall k :: 0 <= k < count ==> q[k].coord in Started(active, q[..count], firstEntity)
  {
    StartedTasks(active, q[..count], firstEntity);
    forall k | 0 <= k < count
      ensures q[k].coord in Coords(q[..count])
    {
      assert q[..count][k] == q[k];
    }
  }

  /** Removing tasks never raises the count above an earlier peak. */
  lemma PeakAboveRemaining(before: map<WorldCoord, nat>, after: map<WorldCoord, nat>, peak: nat)
    requires after.Keys <= before.Keys && peak >= |before|
    ensures peak >= |after|
  {
    assert |after.Keys| <= |before.Keys| by {
      SubsetCard(after.Keys, before.Keys);
    }
  }

  lemma SubsetCard<T>(a: set<T>, b: set<T>)
    requires a <= b
    ensures |a| <= |b|
  {
    assert b == a + (b - a);
  }
}
