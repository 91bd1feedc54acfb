# Amp engine logic kernels, modelled in Dafny

This project models the self-contained logic of the Amp game engine, an
open-world engine built on Bevy, together with its benchmark report script.
Each modelled source file becomes one Dafny module in one file:

- `BenchmarkReport` in benchmark_report.dfy: scripts/generate_benchmark_report.py
- `InputContexts` in input_context.dfy: crates/amp_core/src/input/context.rs
- `InputActions` in input_actions.dfy: crates/amp_core/src/input/actions.rs
- `InputAbstractions` in input_abstractions.dfy: crates/amp_core/src/input/abstractions.rs
- `InputEvents` in input_events.dfy: crates/amp_core/src/input/events.rs
- `DistanceCaching` in distance_cache.dfy: crates/amp_math/src/spatial.rs
- `Quadtree` in quadtree.dfy: crates/amp_math/src/spatial/quadtree.rs
- `MemoryPools` in memory.dfy: crates/amp_engine/src/memory.rs
- `WorldStreaming` in world_streaming.dfy: crates/amp_engine/src/world_streaming.rs
- `AsyncGeneration` in async_generation.dfy: crates/amp_engine/src/world_streaming/async_generation.rs
- `SpawnDistanceCurves` in spawn_distance_curves.dfy: crates/amp_engine/src/spawn_budget/gpu_integration.rs
- `PerformanceBenchmarks` in performance_benchmarks.dfy: crates/amp_engine/src/performance_benchmarks.rs
- `PerformanceIntegration` in performance_integration.dfy: crates/amp_engine/src/performance_integration.rs
- `PhysicsTiming` in physics_time.dfy: crates/amp_physics/src/time.rs
- `ConfigValidation` in config_validation.dfy: crates/config_core/src/validation.rs
- `AudioConfigs` in audio_config.dfy: crates/config_core/src/audio.rs
- `LevelOfDetail` in lod.dfy: crates/amp_render/src/lod.rs
- `GpuCullingIntegration` in gpu_culling_integration.dfy: crates/amp_render/src/gpu_culling_integration.rs
- `RenderDiagnostics` in render_diagnostics.dfy: crates/amp_render/src/diagnostics.rs
- `Vegetation` in vegetation.dfy: crates/amp_render/src/vegetation/components.rs
- `RoadNetworks` in road_network.dfy: crates/amp_gameplay/src/road/network.rs
- `RoadResources` in road_resources.dfy: crates/amp_gameplay/src/road/resources.rs
- `CityResources` in city_resources.dfy: crates/amp_gameplay/src/city/resources.rs
- `CityLayouts` in city_layout.dfy: crates/amp_gameplay/src/city/layout.rs (generation)
- `CityLayoutCsv` in city_layout_csv.dfy: crates/amp_gameplay/src/city/layout.rs (CSV export and import)
- `NpcConfig` in npc_config.dfy: crates/amp_gameplay/src/npc/config.rs
- `NpcSystems` in npc_systems.dfy: crates/amp_gameplay/src/npc/systems.rs
- `Persistence` in persistence.dfy: crates/amp_gameplay/src/persistence/serializable.rs
- `SpawnBudget` in spawn_budget_policy.dfy: crates/amp_gameplay/src/spawn_budget_policy.rs
- `CharacterComponents` in character_components.dfy: crates/amp_gameplay/src/character/components.rs
- `LocomotionAnimation` in animation.dfy: crates/amp_gameplay/src/character/systems/animation.rs
- `Common` in common.dfy: shared helpers: options, sums, sorting, minimum and maximum

Floating-point quantities are real numbers; state the source changes in
place (pools, queues, caches, batches, streamers) is held in classes whose
methods name what they may change in their `modifies` clauses and state
in their `ensures` what each changed part becomes, and loops in the source are methods
proved against the functions that specify them. Lemmas state the
properties the code promises: bounds, orderings, round trips, invariants
kept by each operation and the examples of the source's tests.

## Model

| member | source | states |
|---|---|---|
| BenchmarkReport.PercentileIndicesInBounds | scripts/generate_benchmark_report.py:48-53 | for a non-empty sample both indices int(0.95n) and int(0.99n) lie in [0, n), and the p95 index never exceeds the p99 index, so the indexing never fails |
| BenchmarkReport.FpsOf | scripts/generate_benchmark_report.py:56-57 | the FPS of a positive frame time is positive (a non-positive one gives 0) |
| BenchmarkReport.FpsOfInverse | scripts/generate_benchmark_report.py:56-57 | FPS times the frame time is exactly 1000 for a positive frame time, and FPS is 0 otherwise |
| BenchmarkReport.MeanOfSample | scripts/generate_benchmark_report.py:43-45 | the average frame time lies between the minimum and the maximum of the sample |
| BenchmarkReport.FrameStatsOrdered | scripts/generate_benchmark_report.py:43-53 | min <= p95 <= p99 <= max and min <= avg <= max |
| BenchmarkReport.TenSamplePercentiles | scripts/generate_benchmark_report.py:48-53 | with ten samples both percentile indices are 9, so p95 and p99 are both the maximum |
| BenchmarkReport.Analyze | scripts/generate_benchmark_report.py:34-76 | a record without frame samples gives the empty analysis, and only such a record; otherwise frame_count is the sample count |
| BenchmarkReport.AnalysisOrdered | scripts/generate_benchmark_report.py:43-67 | the analysis of a record with samples carries order statistics with min <= p95 <= p99 <= max and min <= avg <= max |
| BenchmarkReport.AnalysisFps | scripts/generate_benchmark_report.py:56-57 | avg_fps is the FPS of the mean frame time and min_fps that of the maximum, so min_fps <= avg_fps |
| BenchmarkReport.ReciprocalAntitone | scripts/generate_benchmark_report.py:56-57 | a longer positive frame time never gives a higher FPS |
| BenchmarkReport.MissingKeysDefaultToZero | scripts/generate_benchmark_report.py:68-75 | subsystem timings absent from the metrics read as 0 in the analysis |
| BenchmarkReport.AssessmentLines | scripts/generate_benchmark_report.py:155-206 | the assessment prints exactly six lines, frame time, FPS, GPU culling, batch processing, LOD and streaming, in that order |
| BenchmarkReport.FrameTimeTierThresholds | scripts/generate_benchmark_report.py:159-166 | against the default targets: EXCELLENT iff avg <= 16.67, ACCEPTABLE iff 16.67 < avg <= 33.33, POOR iff avg > 33.33 |
| BenchmarkReport.FpsTierThresholds | scripts/generate_benchmark_report.py:168-175 | EXCELLENT iff fps >= 60, ACCEPTABLE iff 30 <= fps < 60, POOR iff fps < 30 |
| BenchmarkReport.TiersMonotone | scripts/generate_benchmark_report.py:159-175 | for ordered targets a slower frame never earns a better frame-time tier and a lower FPS never a better FPS tier |
| BenchmarkReport.TenAndFiftyMsDiffer | scripts/generate_benchmark_report.py:159-166 | 10 ms is EXCELLENT and 50 ms is POOR, and their first assessment lines differ |
| BenchmarkReport.SummaryEntries | scripts/generate_benchmark_report.py:217-224 | the summary never holds more entries than there are records |
| BenchmarkReport.SummaryCountsAnalyzable | scripts/generate_benchmark_report.py:217-224 | one summary entry per record with frame samples, and none for the others |
| BenchmarkReport.SummaryConcat | scripts/generate_benchmark_report.py:217-224 | the entries of a concatenation of records are the entries of each part, in order |
| BenchmarkReport.SummaryStep | scripts/generate_benchmark_report.py:217-224 | one more record adds its entry (when it has samples) at the end, and nothing otherwise |
| BenchmarkReport.BuildSummary | scripts/generate_benchmark_report.py:208-230 | benchmark_count counts every loaded record while benchmarks holds only the analyzable ones, in load order |
| BenchmarkReport.GenerateReport | scripts/generate_benchmark_report.py:78-153 | the "no results" notice iff there are no records |
| BenchmarkReport.ReportMatchesSummary | scripts/generate_benchmark_report.py:105-153 | the report has one block per summary entry, for the same scene and analysis, in the same order |
| BenchmarkReport.LoadAccountsForEveryFile | scripts/generate_benchmark_report.py:24-32 | every matched file is either loaded or reported as an error, never both and never lost |
| BenchmarkReport.LoadConcat | scripts/generate_benchmark_report.py:24-32 | loading a concatenation of files loads each part in turn |
| BenchmarkReport.FailedConcat | scripts/generate_benchmark_report.py:24-32 | the failures of a concatenation are the failures of each part, in order |
| BenchmarkReport.BenchmarkAnalyzer.constructor | scripts/generate_benchmark_report.py:15-18 | a new analyzer has the given directory and no results |
| BenchmarkReport.BenchmarkAnalyzer.LoadResults | scripts/generate_benchmark_report.py:20-32 | the loaded records are appended after the existing ones, tagged with their file names, and the failed files are returned |
| InputContexts.Priority | crates/amp_core/src/input/context.rs:33-40 | every priority is at most 100 |
| InputContexts.PriorityOrder | crates/amp_core/src/input/context.rs:301-305 | Menu > Flying > Driving > Walking, so two contexts share a priority iff they are equal |
| InputContexts.ConcurrencyRules | crates/amp_core/src/input/context.rs:43-56 | the relation is symmetric; Menu goes with nothing, Walking with every non-menu context, Driving and Flying exclude each other; in full, allowed iff neither is Menu and one is Walking or they are equal |
| InputContexts.FirstIncompatible | crates/amp_core/src/input/context.rs:211-218 | the index of the first active context the newcomer may not run beside, and none iff it may run beside all |
| InputContexts.InsertPos | crates/amp_core/src/input/context.rs:221-225 | the insertion point lies after every context of at least the newcomer's priority and before the first of lower priority |
| InputContexts.InsertAt | crates/amp_core/src/input/context.rs:227 | insertion adds exactly the newcomer, at that position |
| InputContexts.InsertKeepsPriorityOrder | crates/amp_core/src/input/context.rs:220-227 | inserting at the insertion point keeps the stack in non-increasing priority |
| InputContexts.Find | crates/amp_core/src/input/context.rs:232 | the index of the first occurrence, and none iff the context is absent |
| InputContexts.RemoveKeepsPriorityOrder | crates/amp_core/src/input/context.rs:233 | removing one context keeps the stack in priority order |
| InputContexts.ContextStack.Default | crates/amp_core/src/input/context.rs:192-198 | the default stack is Walking alone |
| InputContexts.ContextStack.constructor | crates/amp_core/src/input/context.rs:202-206 | the new stack holds exactly the primary context |
| InputContexts.ContextStack.PushContext | crates/amp_core/src/input/context.rs:209-228 | an incompatible context is refused, naming the first active context that refuses it, and the stack is unchanged; otherwise it is inserted at the priority position; the stack stays non-empty and ordered |
| InputContexts.ContextStack.PopContext | crates/amp_core/src/input/context.rs:231-243 | false iff the context is absent, with the stack unchanged; otherwise its first occurrence is removed, an empty stack falls back to Walking, and the order is kept |
| InputContexts.ContextStack.ActiveContext | crates/amp_core/src/input/context.rs:246-251 | the active context is the first one, and it has the highest priority on the stack |
| InputContexts.ContextStack.HasContext | crates/amp_core/src/input/context.rs:258-261 | the active context is always held, and in an ordered stack no held context has a higher priority than the active one |
| InputContexts.ContextStack.SetContext | crates/amp_core/src/input/context.rs:283-286 | the stack is exactly the given context |
| InputContexts.ContextStack.Reset | crates/amp_core/src/input/context.rs:289-292 | the stack is Walking alone |
| InputContexts.FirstIncompatibleAt | crates/amp_core/src/input/context.rs:211-218 | the refusing context found by the loop is the first one |
| InputContexts.InsertPosAt | crates/amp_core/src/input/context.rs:221-225 | the position found by the scan is the insertion point |
| InputContexts.FindAt | crates/amp_core/src/input/context.rs:232 | the index found by the scan is the first occurrence |
| InputContexts.MenuIsExclusive | crates/amp_core/src/input/context.rs:43-46 | Menu can never join a non-empty stack, and nothing can join a stack holding Menu |
| InputContexts.PushedActive | crates/amp_core/src/input/context.rs:220-227 | a pushed context becomes active iff it outranks (or equals) the previously active one |
| InputContexts.StackExample | crates/amp_core/src/input/context.rs:315-329 | Driving pushed onto Walking becomes active, Flying is then refused by Driving, and Driving is found first when popped |
| InputActions.AvailabilityByCategory | crates/amp_core/src/input/actions.rs:156-189 | in Menu exactly the debug and context actions are offered; in another context exactly the actions that are not movement of a different context |
| InputActions.CharacterMembers | crates/amp_core/src/input/actions.rs:112-150 | the character category holds the seven walking movements |
| InputActions.VehicleMembers | crates/amp_core/src/input/actions.rs:112-150 | the vehicle category holds the six driving controls |
| InputActions.AircraftMembers | crates/amp_core/src/input/actions.rs:112-150 | the aircraft category holds the six flight controls |
| InputActions.ListedAreDisabled | crates/amp_core/src/input/context.rs:59-139 | every action of a context's disabled list is a movement action of another context |
| InputActions.DisabledAreListed | crates/amp_core/src/input/context.rs:59-139 | every movement action of another context is in the disabled list |
| InputActions.CharacterListed | crates/amp_core/src/input/context.rs:59-139 | every character movement is disabled outside Walking |
| InputActions.VehicleListed | crates/amp_core/src/input/context.rs:59-139 | every vehicle control is disabled outside Driving |
| InputActions.AircraftListed | crates/amp_core/src/input/context.rs:59-139 | every flight control is disabled outside Flying |
| InputActions.DisabledListMeaning | crates/amp_core/src/input/context.rs:59-139 | an action is on a context's disabled list iff it is a movement action of another context |
| InputActions.IsListedDisabled | crates/amp_core/src/input/context.rs:272-273 | the list lookup answers whether the context disables the action's category |
| InputActions.DefaultActionsAvailable | crates/amp_core/src/input/context.rs:142-182 | every default action of a context is offered in that context |
| InputActions.FirstOffering | crates/amp_core/src/input/context.rs:267-268 | the first context on the stack that offers the action, and none iff no context does |
| InputActions.IsActionAvailable | crates/amp_core/src/input/context.rs:264-280 | available iff some context offers the action and no context of higher priority than the first such one disables it |
| InputActions.DisabledByHigher | crates/amp_core/src/input/context.rs:270-276 | the inner scan answers whether a context of higher priority disables the action |
| InputActions.FirstOfferingAt | crates/amp_core/src/input/context.rs:266-268 | the context found by the outer scan is the first one offering the action |
| InputActions.SingleContextAvailability | crates/amp_core/src/input/context.rs:264-280 | with one context, an action is available iff that context offers it |
| InputActions.DrivingOverWalking | crates/amp_core/src/input/context.rs:264-280 | with Driving over Walking, MoveForward is blocked by Driving's disabled list and Accelerate is available |
| InputActions.Clamp | crates/amp_core/src/input/actions.rs:287 | the result lies in [lo, hi] and equals the value when it is already inside |
| InputActions.PressedState | crates/amp_core/src/input/actions.rs:248-256 | held, no edges, value within [0, 1] |
| InputActions.JustPressedState | crates/amp_core/src/input/actions.rs:259-267 | held with the pressed edge, value within [0, 1] |
| InputActions.JustReleasedState | crates/amp_core/src/input/actions.rs:270-278 | not held, with the released edge and value 0 |
| InputActions.Update | crates/amp_core/src/input/actions.rs:281-295 | just_pressed iff pressed and not before; just_released iff released now and held before; value in [0, 1] while pressed and 0 otherwise; held time grows by the frame time while pressed and resets to 0 otherwise |
| InputActions.HeldDurationAccumulates | crates/amp_core/src/input/actions.rs:289-293 | after any run of frames the held time is the frame time since the last release, plus the earlier held time if there was no release |
| InputActions.PressHoldRelease | crates/amp_core/src/input/actions.rs:338-361 | press, hold and release give the edges, values and held times the action-state test expects |
| InputAbstractions.InputRange | crates/amp_core/src/input/abstractions.rs:58-64 | every range ends at 1; analog devices start at -1; it starts at 0 iff the device is a keyboard or a mouse |
| InputAbstractions.KeyboardKey | crates/amp_core/src/input/abstractions.rs:124-133 | a keyboard reading with the given key, binary, and active iff pressed |
| InputAbstractions.GamepadAxis | crates/amp_core/src/input/abstractions.rs:136-145 | a gamepad reading with the given axis, its value clamped to [-1, 1] and unchanged when already inside |
| InputAbstractions.ActiveReadings | crates/amp_core/src/input/abstractions.rs:148-156 | active iff the reading is beyond 0.01 in either direction; a binary reading is active iff it is 1 |
| InputAbstractions.RawInputExamples | crates/amp_core/src/input/abstractions.rs:375-387 | the pressed Space key is binary and active; the half-deflected stick is active and not binary |
| InputAbstractions.ProcessorMetrics.constructor | crates/amp_core/src/input/abstractions.rs:179-191 | every figure starts at zero |
| InputAbstractions.ProcessorMetrics.Update | crates/amp_core/src/input/abstractions.rs:195-201 | the frame figures are replaced and the maximum becomes the larger of the old maximum and the new time |
| InputAbstractions.WorstWithinBudget | crates/amp_core/src/input/abstractions.rs:203-207 | whenever the worst pass so far was within the 1 ms budget, is_performance_ok holds for the latest pass |
| InputAbstractions.Validate | crates/amp_core/src/input/abstractions.rs:276-291 | Ok iff smoothing and dead zone lie in [0, 1] and the prediction time is non-negative; otherwise the first failing check's message |
| InputAbstractions.PresetsAreValid | crates/amp_core/src/input/abstractions.rs:231-274 | the default, performance and precision presets validate; the validation test's two edits fail with the smoothing and the dead-zone message |
| InputAbstractions.MixBetween | crates/amp_core/src/input/abstractions.rs:303-304 | a weighted mean with weight in [0, 1] lies between its two ends |
| InputAbstractions.NonnegProduct | crates/amp_core/src/input/abstractions.rs:303 | a smoothing factor and frame time that are non-negative give a non-negative product |
| InputAbstractions.SmoothInputBetween | crates/amp_core/src/input/abstractions.rs:298-305 | no smoothing gives the target; otherwise the smoothed value lies between the current and the target value |
| InputAbstractions.SmoothingExample | crates/amp_core/src/input/abstractions.rs:403-411 | smoothing from 0.2 towards 0.8 lands strictly between them |
| InputAbstractions.Signum | crates/amp_core/src/input/abstractions.rs:313 | the sign is 1 or -1, and the sign times the value is its magnitude |
| InputAbstractions.ApplyDeadzone | crates/amp_core/src/input/abstractions.rs:308-318 | a reading inside the dead zone gives 0; the output lies in [-1, 1] and keeps the reading's sign |
| InputAbstractions.QuotientAtLeastOne | crates/amp_core/src/input/abstractions.rs:314-315 | a full deflection past the dead zone normalises to at least 1 |
| InputAbstractions.QuotientPositive | crates/amp_core/src/input/abstractions.rs:314-315 | a reading past the dead zone normalises to a positive amount |
| InputAbstractions.DeadzonePassesSign | crates/amp_core/src/input/abstractions.rs:308-318 | with a dead zone in [0, 1), a reading past it is not zeroed and keeps its sign, and a full deflection gives full output |
| InputAbstractions.DeadzoneExamples | crates/amp_core/src/input/abstractions.rs:414-419 | 0.05 is zeroed, 0.15 gives a positive and -0.15 a negative output under a 0.1 dead zone |
| InputAbstractions.RawToActionState | crates/amp_core/src/input/abstractions.rs:320-342 | pressed iff the reading is active; edges against the previous pressed flag; value the reading's magnitude; held time grows while active and resets otherwise |
| InputAbstractions.RawAgreesWithUpdate | crates/amp_core/src/input/abstractions.rs:320-342 | conversion agrees with ActionState::update on flags and held time, and on the value for an active reading in range; a released reading keeps a residue of at most 0.01 |
| InputAbstractions.FoldMax | crates/amp_core/src/input/abstractions.rs:356-357 | the fold is at least the start and every value, and equals the start or one of the values |
| InputAbstractions.Values | crates/amp_core/src/input/abstractions.rs:356 | the value of each binding, in order |
| InputAbstractions.HeldDurations | crates/amp_core/src/input/abstractions.rs:357 | the held time of each binding, in order |
| InputAbstractions.CombineActionStates | crates/amp_core/src/input/abstractions.rs:345-359 | no bindings give the default state; pressed and just_pressed if any binding is; just_released iff none is pressed and one was just released; value and held time are the greatest of 0 and the bindings' |
| InputAbstractions.CombineMeaning | crates/amp_core/src/input/abstractions.rs:345-359 | the combination spelled out per binding: pressed iff some binding is, released iff all are up and one was just released, value the largest of 0 and the bindings' values |
| InputAbstractions.MaxFromZeroSplits | crates/amp_core/src/input/abstractions.rs:356-357 | the greatest of 0 and the values of two parts is the greatest of the two part maxima |
| InputAbstractions.AnySplits | crates/amp_core/src/input/abstractions.rs:350-354 | each "any" flag over two parts is the disjunction of the flags of the parts |
| InputAbstractions.AnyPair | crates/amp_core/src/input/abstractions.rs:350-354 | each "any" flag over two bindings is the disjunction of their flags |
| InputAbstractions.CombineSplits | crates/amp_core/src/input/abstractions.rs:345-359 | combining is compositional: combining two parts and then the two results gives the combination of the whole |
| InputAbstractions.ProjectionsSplit | crates/amp_core/src/input/abstractions.rs:356-357 | the values and held times of two parts are those of each part, concatenated |
| InputAbstractions.ProjectionsPair | crates/amp_core/src/input/abstractions.rs:356-357 | the values and held times of two bindings are theirs, in order |
| InputAbstractions.CombinationExample | crates/amp_core/src/input/abstractions.rs:421-440 | one held and one just released binding combine to pressed, value 0.5, held 1.0 and no release (the test expects a release) |
| InputEvents.NewInputEvent | crates/amp_core/src/input/events.rs:26-39 | a new event has no source and carries the given state and timestamp |
| InputEvents.EventFlags | crates/amp_core/src/input/events.rs:58-71 | is_pressed, is_released and is_active read the state's edge and level flags: for a state whose edges agree with its level, a press event is active, a release event is not, and no event is both |
| InputEvents.DescriptionsDistinct | crates/amp_core/src/input/events.rs:118-128 | distinct context-change reasons have distinct descriptions |
| InputEvents.Status | crates/amp_core/src/input/events.rs:205-213 | Critical iff process time > 2000 us, Warning iff in (1000, 2000], Good iff <= 1000 |
| InputEvents.GoodPerformanceIsGoodStatus | crates/amp_core/src/input/events.rs:195-213 | good performance implies the Good status; with Good status it holds iff the average is <= 500 us |
| InputEvents.StatusMonotone | crates/amp_core/src/input/events.rs:205-213 | a longer frame time never gives a better status |
| InputEvents.InputEventBatch.IsEmpty | crates/amp_core/src/input/events.rs:256-269 | empty iff the total of the four list lengths is zero |
| InputEvents.InputEventBatch.AddInputEvent | crates/amp_core/src/input/events.rs:235-238 | appends the event at the end of its list; the total grows by one |
| InputEvents.InputEventBatch.Clear | crates/amp_core/src/input/events.rs:272-277 | every list is empty afterwards and the total is zero |
| InputEvents.KeepInRange | crates/amp_core/src/input/events.rs:280-312 | keeps exactly the events with start <= timestamp <= end, with their multiplicities |
| InputEvents.KeepInRangeAppend | crates/amp_core/src/input/events.rs:280-312 | the filter of a concatenation is the concatenation of the filters, so order is kept |
| InputEvents.KeepInRangeIdempotent | crates/amp_core/src/input/events.rs:280-312 | filtering twice with the same range is filtering once |
| InputEvents.InputEventBatch.FilterByTimeRange | crates/amp_core/src/input/events.rs:280-312 | a fresh batch whose four lists are the in-range filters of this batch's lists |
| InputEvents.FilterExample | crates/amp_core/src/input/events.rs:380-410 | the test's events at 1.0, 2.5, 4.0 filtered to [2.0, 3.0] leave only the one at 2.5 |
| InputEvents.InputEventBatch.constructor | crates/amp_core/src/input/events.rs:230-233 | all four lists empty, total zero |
| InputEvents.InputEventBatch.AddContextEvent | crates/amp_core/src/input/events.rs:240-243 | appends the event at the end of its list; the total grows by one |
| InputEvents.InputEventBatch.AddConfigEvent | crates/amp_core/src/input/events.rs:245-248 | appends the event at the end of its list; the total grows by one |
| InputEvents.InputEventBatch.AddSystemEvent | crates/amp_core/src/input/events.rs:250-253 | appends the event at the end of its list; the total grows by one |
| InputEvents.KeepInRangeAll | crates/amp_core/src/input/events.rs:280-312 | a range covering every timestamp keeps the whole list |
| DistanceCaching.ValidWindow | crates/amp_math/src/spatial.rs:94-96 | an entry is valid iff the saturating age current - frame is below the TTL: from its own frame up to frame + ttl exclusive |
| DistanceCaching.ValidityExample | crates/amp_math/src/spatial.rs:350-363 | stored at frame 100 with TTL 5: valid at 104, invalid at 106 |
| DistanceCaching.KeepValid | crates/amp_math/src/spatial.rs:220-229 | keeps exactly the entries valid at the frame, unchanged |
| DistanceCaching.HitRate | crates/amp_math/src/spatial.rs:232-245 | hits / (hits + misses) lies in [0, 1] and is 0 with no lookups |
| DistanceCaching.DistanceCache.FindOldestEntry | crates/amp_math/src/spatial.rs:274-279 | None iff the cache is empty; otherwise a key whose frame is minimal |
| DistanceCaching.DistanceCache.EvictOldest | crates/amp_math/src/spatial.rs:266-271 | removes one oldest entry and counts it, or does nothing on an empty cache |
| DistanceCaching.DistanceCache.InsertCachedDistance | crates/amp_math/src/spatial.rs:202-217 | evicts one oldest entry only when full and the id is new, then stores the entry; the size stays within the capacity |
| DistanceCaching.DistanceCache.GetOrComputeDistance | crates/amp_math/src/spatial.rs:174-199 | a valid, accurate entry is a hit returning its distance, with nothing else changed; otherwise a miss storing and returning the computed distance, every other entry kept except one oldest entry, which goes (and counts as an eviction) only when the cache was full and the id new; hits + misses grows by exactly one |
| DistanceCaching.DistanceCache.CleanupExpired | crates/amp_math/src/spatial.rs:220-229 | exactly the valid entries remain and the number removed is added to evictions |
| DistanceCaching.DistanceCache.Stats | crates/amp_math/src/spatial.rs:232-245 | reports the counters, the size and the capacity; the hit rate is in [0, 1] and 0 with no lookups |
| DistanceCaching.DistanceCache.Clear | crates/amp_math/src/spatial.rs:248-253 | no entries, all counters zero, hit rate 0 |
| DistanceCaching.DistanceCache.constructor | crates/amp_math/src/spatial.rs:138-162 | an empty cache with the given capacity and lifetime and zero counters |
| DistanceCaching.HitRateExample | crates/amp_math/src/spatial.rs:497-512 | one hit in two lookups reports a hit rate of one half |
| Quadtree.CellSize | crates/amp_math/src/spatial/quadtree.rs:27-31 | every level's cell edge is positive (10 km, 2 km, 400 m, 100 m, 25 m) |
| Quadtree.StreamingRadius | crates/amp_math/src/spatial/quadtree.rs:81-89 | each level streams further than one cell of that level |
| Quadtree.LevelsChain | crates/amp_math/src/spatial/quadtree.rs:92-111 | the parent and child levels are inverse steps of one chain |
| Quadtree.CentreRoundTrip | crates/amp_math/src/spatial/quadtree.rs:47-78 | converting a coordinate to its centre and back returns the coordinate |
| Quadtree.FromWorldPosExample | crates/amp_math/src/spatial/quadtree.rs:363-370 | (1200, -800) lies in local chunk (3, -2) |
| Quadtree.ToWorldPosExample | crates/amp_math/src/spatial/quadtree.rs:373-380 | local chunk (2, -1) is centred at (1000, -200) |
| Quadtree.Parent | crates/amp_math/src/spatial/quadtree.rs:92-101 | a macro region has no parent; every other parent is one level coarser |
| Quadtree.ParentAgreesOnNonNegative | crates/amp_math/src/spatial/quadtree.rs:92-101 | for non-negative coordinates the truncating parent equals the floor parent |
| Quadtree.ParentExample | crates/amp_math/src/spatial/quadtree.rs:383-395 | local chunk (8, 12) lies in region (1, 2) |
| Quadtree.ChildrenCount | crates/amp_math/src/spatial/quadtree.rs:103-126 | 25 children for Macro and Region, 16 for Local and Detail, none for Micro |
| Quadtree.ChildrenAreParentsInverse | crates/amp_math/src/spatial/quadtree.rs:92-126 | w is among c's children iff c is w's parent, for every coordinate |
| Quadtree.ParentAsWrittenMissesNegativeChildren | crates/amp_math/src/spatial/quadtree.rs:92-101 | local chunk (-4, 0) is a child of region (-1, 0) but its truncating parent is region (0, 0) |
| Quadtree.ChildrenExample | crates/amp_math/src/spatial/quadtree.rs:383-395 | region (1, 2) has 25 children, local chunk (8, 12) among them |
| Quadtree.GetChildren | crates/amp_math/src/spatial/quadtree.rs:103-126 | the nested loops produce exactly the children, row by row |
| Quadtree.BoundsMatchConversion | crates/amp_math/src/spatial/quadtree.rs:138-164 | a node's half-open square holds exactly the points that convert to its coordinate |
| Quadtree.QuadtreeNode.constructor | crates/amp_math/src/spatial/quadtree.rs:138-158 | a new node has its cell's bounds and no entities |
| Quadtree.QuadtreeNode.Insert | crates/amp_math/src/spatial/quadtree.rs:167-190 | a point outside is refused; otherwise the entity is appended |
| Quadtree.HierarchicalQuadtree.constructor | crates/amp_math/src/spatial/quadtree.rs:236-241 | no nodes, depth 5 |
| Quadtree.HierarchicalQuadtree.EnsureNode | crates/amp_math/src/spatial/quadtree.rs:244-248 | the node exists afterwards, created empty only if missing; a second call changes nothing |
| Quadtree.HierarchicalQuadtree.InsertEntity | crates/amp_math/src/spatial/quadtree.rs:251-255 | the entity is appended to the node of the cell holding the position, and no other node changes |
| Quadtree.HierarchicalQuadtree.RemoveNode | crates/amp_math/src/spatial/quadtree.rs:328-330 | the node is gone and its entities are returned if it existed |
| Quadtree.HierarchicalQuadtree.GetNodeCounts | crates/amp_math/src/spatial/quadtree.rs:333-341 | a level appears iff a node of that level exists, with the number of such nodes |
| Quadtree.AtLevelAdd | crates/amp_math/src/spatial/quadtree.rs:333-341 | a new node adds one to its own level's count and leaves other levels alone |
| MemoryPools.NextPowerOfTwo | crates/amp_engine/src/memory.rs:181 | the least power of two not below n |
| MemoryPools.PowerOfTwoFixed | crates/amp_engine/src/memory.rs:181 | a power of two is its own next power of two |
| MemoryPools.BucketCapacity | crates/amp_engine/src/memory.rs:174-197 | 64 for 0; the next power of two up to 1024; above, a page multiple within one page of the request; never below the request |
| MemoryPools.RoundUpBounds | crates/amp_engine/src/memory.rs:190-191 | rounding up gives the least multiple of the page count not below the request |
| MemoryPools.BucketIdempotent | crates/amp_engine/src/memory.rs:156-197 | a bucket's capacity maps to the same bucket, so a returned vector lands where it came from |
| MemoryPools.BucketExamples | crates/amp_engine/src/memory.rs:455-470 | 0, 100, 500 and 5000 bytes give 64, 128, 512 and 8192 |
| MemoryPools.GenerationCounter.FetchAdd | crates/amp_engine/src/memory.rs:32 | returns the counter and advances it by one |
| MemoryPools.FixedVecPool.constructor | crates/amp_engine/src/memory.rs:100-117 | no buckets, every counter zero |
| MemoryPools.FixedVecPool.Get | crates/amp_engine/src/memory.rs:123-151 | a reuse pops the bucket's front entry and counts a reuse; otherwise an allocation of the bucket capacity bumps allocations, active, total and raises the peak to cover active |
| MemoryPools.FixedVecPool.ReturnVec | crates/amp_engine/src/memory.rs:156-169 | a cleared entry joins the back of its bucket with a fresh generation; active drops by one, saturating |
| MemoryPools.FixedVecPool.ResetFrame | crates/amp_engine/src/memory.rs:200-203 | only the two frame counters are zeroed |
| MemoryPools.FixedVecPool.Stats | crates/amp_engine/src/memory.rs:206-215 | the counters as stored, bucket count = number of buckets, active <= peak <= total |
| MemoryPools.ReuseScenario | crates/amp_engine/src/memory.rs:436-452 | get, return and get again: one allocation, one reuse, a different generation |
| MemoryPools.ScopedArena.Alloc | crates/amp_engine/src/memory.rs:323-327 | the vector the pool's `get` hands out is appended to the arena's vectors; as in `get`, it is the front of its bucket (a reuse, one more frame reuse, other counters and the generation kept) or a new vector of the bucket's capacity stamped with the next generation (one more allocation, active and total count, peak raised if needed) |
| MemoryPools.GlobalMemoryPools.ResetFrame | crates/amp_engine/src/memory.rs:370-375 | all three pools' frame counters zeroed and the frame count advanced; only those counters may change, so the pools' buckets and other counters are kept and the pools stay valid |
| MemoryPools.GenerationCounter.constructor | crates/amp_engine/src/memory.rs:32 | the global generation starts at 1 |
| MemoryPools.ScopedArena.constructor | crates/amp_engine/src/memory.rs:313-320 | a fresh, empty pool and no active vectors |
| MemoryPools.GlobalMemoryPools.constructor | crates/amp_engine/src/memory.rs:356-366 | three fresh, distinct, valid pools for bytes, u32 and f32 elements, each without buckets and with every counter zero, and a frame count of zero |
| WorldStreaming.Ceil | crates/amp_engine/src/world_streaming.rs:398 | the ceiling is the least integer at or above its argument |
| WorldStreaming.FloorScaled | crates/amp_engine/src/world_streaming.rs:20-25 | floor(v / size) * size <= v < (floor(v / size) + 1) * size for a positive size |
| WorldStreaming.SectorContainsPosition | crates/amp_engine/src/world_streaming.rs:20-30 | a position lies in the square of the sector from_world_position gives it |
| WorldStreaming.SectorOfCorner | crates/amp_engine/src/world_streaming.rs:20-30 | from_world_position of a sector's to_world_position corner is that sector |
| WorldStreaming.OwnSectorInView | crates/amp_engine/src/world_streaming.rs:379-394 | with 64 m sectors and a 512 m view radius, the player's own sector is always in view (for heights within 400 m) |
| WorldStreaming.SquareBound | crates/amp_engine/src/world_streaming.rs:384-393 | a coordinate within [-b, b] has a square at most b squared |
| WorldStreaming.LodForMonotone | crates/amp_engine/src/world_streaming.rs:465-471 | a farther sector never gets a finer LOD level (LOD0 within 128 m, LOD1 within 256 m, impostor beyond) |
| WorldStreaming.MoveLod | crates/amp_engine/src/world_streaming.rs:473-495 | an unchanged level leaves the counters alone; otherwise the old bin loses one (saturating), the new bin gains one, the third bin is unchanged, and the total is kept when the old bin was not empty |
| WorldStreaming.MoveLodAndBack | crates/amp_engine/src/world_streaming.rs:473-495 | moving a sector to another level and back restores the counters when its old bin was not empty |
| WorldStreaming.IndexOf | crates/amp_engine/src/world_streaming.rs:120-121 | no index iff the entity is absent; otherwise the index of its first occurrence |
| WorldStreaming.RemoveAtMultiset | crates/amp_engine/src/world_streaming.rs:122 | removing index i drops exactly that one element |
| WorldStreaming.AddThenRemove | crates/amp_engine/src/world_streaming.rs:106-125 | adding an entity and removing it again leaves the same entities, as a multiset |
| WorldStreaming.RemoveUnique | crates/amp_engine/src/world_streaming.rs:120-125 | an entity present once is gone after remove_entity |
| WorldStreaming.AppendUnique | crates/amp_engine/src/world_streaming.rs:312-316 | appending a key not in a duplicate-free queue keeps it duplicate-free |
| WorldStreaming.ChunkData.constructor | crates/amp_engine/src/world_streaming.rs:88-97 | a new chunk has its key, no entities, count 0, NotLoaded, no content generated |
| WorldStreaming.ChunkData.AddEntity | crates/amp_engine/src/world_streaming.rs:106-109 | the entity is appended and the count grows by one; the count keeps matching the list |
| WorldStreaming.ChunkData.RemoveEntity | crates/amp_engine/src/world_streaming.rs:120-125 | an absent entity changes nothing; otherwise its first occurrence is removed and the count drops by one (saturating) |
| WorldStreaming.ChunkData.CanAddEntity | crates/amp_engine/src/world_streaming.rs:127-129 | while the count matches the list, there is room for one more entity exactly when the list is below the limit |
| WorldStreaming.EntityLimitScenario | crates/amp_engine/src/world_streaming.rs:904-921 | a new chunk has room under a limit of 100, and none after 100 entities are added |
| WorldStreaming.SectorData.constructor | crates/amp_engine/src/world_streaming.rs:156-165 | a new sector has its id, no entities, count 0, NotLoaded and LOD0, so it is due to spawn and not to despawn |
| WorldStreaming.SectorData.AddEntity | crates/amp_engine/src/world_streaming.rs:174-177 | the entity is appended and the count grows by one |
| WorldStreaming.SectorData.SetLodLevel | crates/amp_engine/src/world_streaming.rs:179-181 | the level is set and nothing else changes |
| WorldStreaming.SectorData.ShouldSpawn | crates/amp_engine/src/world_streaming.rs:183-185 | a sector due to spawn is neither loaded nor loading, so never also due to despawn |
| WorldStreaming.SectorData.ShouldDespawn | crates/amp_engine/src/world_streaming.rs:187-189 | a sector due to despawn is neither unloaded nor unloading, so never also due to spawn |
| WorldStreaming.WorldStreamer.constructor | crates/amp_engine/src/world_streaming.rs:249-269 | empty maps and queues, the player at the origin, the configured chunk settings, 64 m sectors and a 512 m view radius |
| WorldStreaming.WorldStreamer.QueueChunkLoad | crates/amp_engine/src/world_streaming.rs:312-316 | the key is appended iff it is neither loaded nor queued; afterwards it is loaded or queued; the queue stays duplicate-free |
| WorldStreaming.WorldStreamer.QueueChunkUnload | crates/amp_engine/src/world_streaming.rs:319-323 | the key is appended iff it is loaded and not queued; a loaded key ends up queued |
| WorldStreaming.WorldStreamer.MarkChunkLoaded | crates/amp_engine/src/world_streaming.rs:345-359 | the chunk (existing record or a new one) becomes Loaded with exactly the given entities and count; a reused record keeps its generated-content flag, a new one has none; every other chunk record is unchanged; the stats count one load and its entities |
| WorldStreaming.WorldStreamer.MarkChunkUnloaded | crates/amp_engine/src/world_streaming.rs:362-367 | the key leaves the map; if it was loaded, the stats count one unload and its entities as despawned, else they are unchanged |
| WorldStreaming.WorldStreamer.UpdateStats | crates/amp_engine/src/world_streaming.rs:370-374 | the average moves halfway to the new time and the peak becomes the larger of the old peak and the new time |
| WorldStreaming.WorldStreamer.NeededSectors | crates/amp_engine/src/world_streaming.rs:396-410 | exactly the sectors of the ceil(view / size) box around the player's sector that are in view, each once |
| WorldStreaming.WorldStreamer.QueueSectorSpawn | crates/amp_engine/src/world_streaming.rs:413-417 | the sector is appended iff it is neither loaded nor queued; afterwards it is loaded or queued |
| WorldStreaming.WorldStreamer.QueueSectorDespawn | crates/amp_engine/src/world_streaming.rs:420-424 | the sector is appended iff it is loaded and not queued; a loaded sector ends up queued |
| WorldStreaming.WorldStreamer.MarkSectorLoaded | crates/amp_engine/src/world_streaming.rs:428-439 | a new Loaded LOD0 record with exactly the given entities replaces any old one, due to despawn and not to spawn; the stats count one load, its entities spawned and in the world |
| WorldStreaming.WorldStreamer.MarkSectorUnloaded | crates/amp_engine/src/world_streaming.rs:442-451 | the sector leaves the map; if it was loaded, the stats count one unload, its entities despawned and removed from the world total (saturating) |
| WorldStreaming.WorldStreamer.UpdateSectorLod | crates/amp_engine/src/world_streaming.rs:454-500 | a loaded sector takes the level its distance calls for and the LOD counters move as MoveLod says; other sectors and an absent id change nothing |
| WorldStreaming.WorldStreamer.UpdateMemoryUsage | crates/amp_engine/src/world_streaming.rs:504-508 | memory is 0.001 MB per entity in the world plus 0.0001 MB per loaded sector |
| AsyncGeneration.InsertPosition | crates/amp_engine/src/world_streaming/async_generation.rs:131-135 | the insertion point is the first job of strictly lower priority, or the end; every job before it has at least the new priority |
| AsyncGeneration.Enqueue | crates/amp_engine/src/world_streaming/async_generation.rs:129-139 | the queue grows by one and holds the old jobs plus the new one |
| AsyncGeneration.EnqueueKeepsSorted | crates/amp_engine/src/world_streaming/async_generation.rs:129-139 | inserting keeps the queue ordered by non-increasing priority |
| AsyncGeneration.EnqueueFifo | crates/amp_engine/src/world_streaming/async_generation.rs:129-139 | in an ordered queue the new job lands after every job of equal or higher priority and before every job of lower priority, so equal priorities keep arrival order |
| AsyncGeneration.EnqueueExample | crates/amp_engine/src/world_streaming/async_generation.rs:397-421 | queueing priority 1 then priority 2 puts the priority-2 job first |
| AsyncGeneration.CountResult | crates/amp_engine/src/world_streaming/async_generation.rs:224-232 | one result adds one chunk, its time and a failure if it has an error, and the average times the count equals the total time |
| AsyncGeneration.ProcessFromEffect | crates/amp_engine/src/world_streaming/async_generation.rs:224-238 | processing counts every result, adds their times and failures, keeps the average equal to the total time over the count, and removes exactly the results' coordinates from the active tasks |
| AsyncGeneration.AsyncGenerationManager.constructor | crates/amp_engine/src/world_streaming/async_generation.rs:115-125 | an empty queue and no active tasks, at most four concurrent tasks, zero diagnostics |
| AsyncGeneration.FindInsertPosition | crates/amp_engine/src/world_streaming/async_generation.rs:131-134 | the scan stops at the first job of strictly lower priority, or at the end: every job before it has at least the new priority |
| AsyncGeneration.AsyncGenerationManager.QueueChunkGeneration | crates/amp_engine/src/world_streaming/async_generation.rs:129-139 | the job is inserted at the priority position, the queue size equals the queue length, the queue stays ordered, and nothing else changes |
| AsyncGeneration.AsyncGenerationManager.TryStartNextTask | crates/amp_engine/src/world_streaming/async_generation.rs:142-154 | a task starts exactly when fewer tasks than the limit are running and the queue is not empty; it then takes the front job and records the count and peak, otherwise nothing changes |
| AsyncGeneration.AsyncGenerationManager.StartChunkGeneration | crates/amp_engine/src/world_streaming/async_generation.rs:157-210 | the job's coordinate runs under the given entity; the active count is recorded and the peak rises to it |
| AsyncGeneration.AsyncGenerationManager.StartAvailableTasks | crates/amp_engine/src/world_streaming/async_generation.rs:339-342 | the front `count` jobs leave the queue in order, each coordinate becomes active under its own id and nothing else is added; afterwards the running tasks are at the limit or the queue is empty, never above the limit |
| AsyncGeneration.StartedTasks | crates/amp_engine/src/world_streaming/async_generation.rs:339-342 | starting jobs makes exactly their coordinates active besides those already running, leaves other running tasks alone, and the last job started holds the last id |
| AsyncGeneration.AsyncGenerationManager.ProcessCompletedResults | crates/amp_engine/src/world_streaming/async_generation.rs:213-242 | the state becomes the specified processing of the results, the active count is recorded, and the results are returned |
| AsyncGeneration.AsyncGenerationManager.CleanupStalledTasks | crates/amp_engine/src/world_streaming/async_generation.rs:245-268 | no task is removed; only the active count is recorded |
| AsyncGeneration.PeakAboveRemaining | crates/amp_engine/src/world_streaming/async_generation.rs:206-240 | removing tasks never lifts the active count above an earlier peak |
| SpawnDistanceCurves.CurveProbability | crates/amp_engine/src/spawn_budget/gpu_integration.rs:159-162 | a curve with no distances or no probabilities gives probability 1 |
| SpawnDistanceCurves.InterpolateDistanceCurve | crates/amp_engine/src/spawn_budget/gpu_integration.rs:159-179 | the segment-scanning loop returns exactly the curve's value at the distance (first enclosing segment, else first or last probability) |
| SpawnDistanceCurves.SegmentFacts | crates/amp_engine/src/spawn_budget/gpu_integration.rs:165-171 | linear interpolation on a segment takes the knot values at its ends and stays between them |
| SpawnDistanceCurves.ExactAtKnots | crates/amp_engine/src/spawn_budget/gpu_integration.rs:159-179 | on an increasing curve the value at every knot's distance is that knot's probability |
| SpawnDistanceCurves.LinearBetweenKnots | crates/amp_engine/src/spawn_budget/gpu_integration.rs:165-171 | on an increasing curve, a distance in (d[k], d[k+1]] gets the straight line between knots k and k+1 |
| SpawnDistanceCurves.ClampedOutside | crates/amp_engine/src/spawn_budget/gpu_integration.rs:174-178 | before the first knot the first probability, past the last knot the last probability |
| SpawnDistanceCurves.ProbabilityInUnitRange | crates/amp_engine/src/spawn_budget/gpu_integration.rs:159-179 | a curve whose probabilities lie in [0, 1] yields a value in [0, 1] at every distance |
| SpawnDistanceCurves.CurveExample | crates/amp_engine/src/spawn_budget/gpu_integration.rs:237-255 | the curve (0,1),(100,0.5),(200,0): exact at knots, 0.75 at 50, 0 at 300, 1 at -50 |
| SpawnDistanceCurves.CurveFor | crates/amp_engine/src/spawn_budget/gpu_integration.rs:147-153 | each entity type reads its own curve |
| SpawnDistanceCurves.DistanceSpawnProbability | crates/amp_engine/src/spawn_budget/gpu_integration.rs:142-156 | the spawn probability is the entity type's curve read at the distance: 1 for a curve without knots, and within [0, 1] whenever that curve's probabilities are |
| SpawnDistanceCurves.DefaultCurves | crates/amp_engine/src/spawn_budget/mod.rs:160-185 | the five default curves are increasing with one probability per knot |
| SpawnDistanceCurves.DefaultCurveExamples | crates/amp_engine/src/spawn_budget/gpu_integration.rs:268-280 | with the default curves: probability 1 at 0 m for every type; building 0.95 at 50 m and 0.12 at 800 m; tree 0.1 and vehicle 0 beyond their last knots |
| SpawnDistanceCurves.VisibleIffWithinReach | crates/amp_engine/src/spawn_budget/gpu_integration.rs:88-105 | for a positive query distance q, the occlusion stand-in approves exactly the distances below 1.7·q |
| SpawnDistanceCurves.OcclusionExamples | crates/amp_engine/src/spawn_budget/gpu_integration.rs:93-104 | with q = 500: 800 m approved, 850 m rejected |
| PerformanceBenchmarks.DefaultResult | crates/amp_engine/src/performance_benchmarks.rs:101-128 | the default result has no samples and does not meet its target |
| PerformanceBenchmarks.Variance | crates/amp_engine/src/performance_benchmarks.rs:774-776 | the mean squared deviation from the mean is never negative |
| PerformanceBenchmarks.ImprovementRatio | crates/amp_engine/src/performance_benchmarks.rs:790 | the ratio is absent exactly for a zero median, and otherwise ratio × median = target |
| PerformanceBenchmarks.CalculateBenchmarkResult | crates/amp_engine/src/performance_benchmarks.rs:758-793 | the result carries the name, the sample count and the target; mean, median (sorted[n/2]), p95/p99 (sorted[floor(n·p)]), min and max of the sample; the target is met exactly when the median is within it; variance not negative |
| PerformanceBenchmarks.OrderIndices | crates/amp_engine/src/performance_benchmarks.rs:768-770 | for a non-empty sample n/2 <= floor(0.95 n) <= floor(0.99 n) < n, so every index is in bounds |
| PerformanceBenchmarks.OrderStatisticsOrdered | crates/amp_engine/src/performance_benchmarks.rs:764-772 | min <= median <= p95 <= p99 <= max, and the median and percentiles are values of the sample |
| PerformanceBenchmarks.BenchmarkResultOrdered | crates/amp_engine/src/performance_benchmarks.rs:758-793 | the result's order statistics are ordered and drawn from the sample |
| PerformanceBenchmarks.BenchmarkResultExtremes | crates/amp_engine/src/performance_benchmarks.rs:767-772 | the result's min and max are the sample's least and greatest values and the mean lies between them |
| PerformanceBenchmarks.ResultExample | crates/amp_engine/src/performance_benchmarks.rs:928-938 | the sample 1..5 against 3 ms: mean 3, median 3, target met |
| PerformanceBenchmarks.RegressionOf | crates/amp_engine/src/performance_benchmarks.rs:709-721 | the record keeps name, baseline and current median, has the 10% threshold, and passes exactly when the regression percentage is within it |
| PerformanceBenchmarks.RegressionPassesIffWithinTenPercent | crates/amp_engine/src/performance_benchmarks.rs:710-720 | for a positive baseline the check passes exactly when current <= 1.1 × baseline |
| PerformanceBenchmarks.RegressionExample | crates/amp_engine/src/performance_benchmarks.rs:969-980 | 1.0 ms to 1.05 ms is a 5% regression and passes |
| PerformanceBenchmarks.Baselines | crates/amp_engine/src/performance_benchmarks.rs:696-706 | every baseline median is positive |
| PerformanceBenchmarks.RegressionsFacts | crates/amp_engine/src/performance_benchmarks.rs:708-723 | at most one record per baseline; every record names a benchmark with a result and compares its median; every baseline with a result gets a record |
| PerformanceBenchmarks.PerformanceBenchmarkSuite.constructor | crates/amp_engine/src/performance_benchmarks.rs:256-263 | the suite starts with the 3 ms frame target, a default overall result, no subsystem results, no regression records, not validated |
| PerformanceBenchmarks.PerformanceBenchmarkSuite.RecordSubsystemResult | crates/amp_engine/src/performance_benchmarks.rs:342-346 | a subsystem benchmark stores its sample's result under its name; nothing else changes |
| PerformanceBenchmarks.PerformanceBenchmarkSuite.RecordOverallResult | crates/amp_engine/src/performance_benchmarks.rs:651-656 | the full-integration sample against the frame target becomes the overall result; nothing else changes |
| PerformanceBenchmarks.PerformanceBenchmarkSuite.RunRegressionTests | crates/amp_engine/src/performance_benchmarks.rs:692-726 | the records for the baselines with results are appended in baseline order; nothing else changes |
| PerformanceBenchmarks.PerformanceBenchmarkSuite.ValidateTargets | crates/amp_engine/src/performance_benchmarks.rs:795-855 | returns and stores true exactly when the overall result, every subsystem result and every regression record pass |
| PerformanceBenchmarks.ValidationExample | crates/amp_engine/src/performance_benchmarks.rs:941-966 | a subsystem at 0.5 of 1 ms and an overall 2 of 3 ms, both met, validate |
| PerformanceIntegration.SubsystemNamed | crates/amp_engine/src/performance_integration.rs:148-158 | a name selects the subsystem it names, and any other name selects none |
| PerformanceIntegration.NamesRoundTrip | crates/amp_engine/src/performance_integration.rs:148-158 | every subsystem is selected by its own name, which is not empty |
| PerformanceIntegration.DefaultConfig | crates/amp_engine/src/performance_strike.rs:56-97 | the default frame target (3 ms) and configured budgets are positive |
| PerformanceIntegration.Budget | crates/amp_engine/src/performance_integration.rs:178-190 | each subsystem's budget is positive under a positive configuration |
| PerformanceIntegration.BudgetForName | crates/amp_engine/src/performance_integration.rs:178-190 | a known name gets its subsystem's budget, an unknown name 0.2 |
| PerformanceIntegration.BudgetExamples | crates/amp_engine/src/performance_integration.rs:665-675 | default budgets: transform sync 0.75 ms, LOD 0.4 ms, unknown 0.2 ms |
| PerformanceIntegration.DefaultMetrics | crates/amp_engine/src/performance_integration.rs:62-70 | fresh metrics have no samples and no violations |
| PerformanceIntegration.Updated | crates/amp_engine/src/performance_integration.rs:160-174 | one sample adds one to the count, one violation exactly when over budget, and never lowers the maximum below the old maximum or the sample |
| PerformanceIntegration.ReplayCounts | crates/amp_engine/src/performance_integration.rs:160-174 | after a sequence of samples the count is their number and the violations the number over budget |
| PerformanceIntegration.ReplayTotal | crates/amp_engine/src/performance_integration.rs:161-163 | the incremental mean keeps mean × count equal to the sum of the samples |
| PerformanceIntegration.UpdatedTotal | crates/amp_engine/src/performance_integration.rs:161-163 | one update adds the sample to mean × count |
| PerformanceIntegration.MeanOfReplay | crates/amp_engine/src/performance_integration.rs:161-163 | the running mean of a non-empty sequence is its arithmetic mean |
| PerformanceIntegration.MaxOfReplay | crates/amp_engine/src/performance_integration.rs:164 | the maximum is at least every sample and is a sample or the initial zero |
| PerformanceIntegration.MinOfReplay | crates/amp_engine/src/performance_integration.rs:165-169 | for positive samples the minimum is zero before any sample and afterwards the least sample |
| PerformanceIntegration.UpdateExample | crates/amp_engine/src/performance_integration.rs:651-662 | 0.5 ms then 1.0 ms give mean 0.5, then 0.75 over two samples |
| PerformanceIntegration.Set | crates/amp_engine/src/performance_integration.rs:148-158 | replacing one subsystem's metrics leaves every other subsystem's metrics as they were |
| PerformanceIntegration.Ratios | crates/amp_engine/src/performance_integration.rs:286-289 | each subsystem's ratio is its mean time over its budget, in list order |
| PerformanceIntegration.WorstFromScanned | crates/amp_engine/src/performance_integration.rs:271-297 | the scan ends on no index when no ratio is positive, else on the first index of the greatest positive ratio |
| PerformanceIntegration.WorstIsFirstGreatest | crates/amp_engine/src/performance_integration.rs:271-297 | the worst subsystem is empty exactly when no ratio is positive, and otherwise names the first subsystem with the greatest ratio |
| PerformanceIntegration.EscalationFor | crates/amp_engine/src/performance_integration.rs:218-246 | an overload adjusts the worst subsystem only when it is transform sync, the LOD system or the NPC system |
| PerformanceIntegration.Reverted | crates/amp_engine/src/performance_integration.rs:255-264 | a reversal keeps subsystem and kind, swaps old and new values and negates the impact |
| PerformanceIntegration.RevertTwiceRestores | crates/amp_engine/src/performance_integration.rs:255-264 | reverting a reversal restores the original values |
| PerformanceIntegration.RelaxationFor | crates/amp_engine/src/performance_integration.rs:249-268 | a light load reverts the last adjustment exactly when there is one more than five whole seconds old |
| PerformanceIntegration.OverloadIffOverTarget | crates/amp_engine/src/performance_integration.rs:199-214 | the load exceeds 1 exactly when the summed mean times exceed the frame target, and then the pass escalates |
| PerformanceIntegration.PassAddsAtMostOne | crates/amp_engine/src/performance_integration.rs:207-246 | in an overloaded frame a pass adds an adjustment exactly when the worst subsystem is one of the three adjustable ones |
| PerformanceIntegration.OverallPerformance | crates/amp_engine/src/performance_integration.rs:331-342 | the score never exceeds 1, and is 1 with no time recorded |
| PerformanceIntegration.ScoreIsOneIffTargetMet | crates/amp_engine/src/performance_integration.rs:331-342 | for positive time the score is 1 exactly when the frame target is met, and otherwise score × time = target |
| PerformanceIntegration.Recommendations | crates/amp_engine/src/performance_integration.rs:345-371 | each advice appears exactly when its subsystem exceeds its budget (distance cache: 0.1 ms), at most four |
| PerformanceIntegration.DefaultReport | crates/amp_engine/src/performance_integration.rs:697-703 | with nothing recorded the score is 1 and the advice list is empty |
| PerformanceIntegration.Check | crates/amp_engine/src/performance_integration.rs:556-585 | a subsystem check records name, mean time and budget and passes exactly when the time is within the budget |
| PerformanceIntegration.ValidateIntegratedPerformance | crates/amp_engine/src/performance_integration.rs:537-589 | the frame target is met exactly when the summed mean times are within it; four checks in the order transform sync, LOD, NPC, vehicle physics |
| PerformanceIntegration.FailedCheckHasAdvice | crates/amp_engine/src/performance_integration.rs:345-371 | a failed transform, LOD or NPC check always comes with that subsystem's advice |
| PerformanceIntegration.IntegratedPerformanceSystem.constructor | crates/amp_engine/src/performance_integration.rs:130-142 | a new system has adaptive optimisation on, target load 0.8, default metrics and no adjustments |
| PerformanceIntegration.IntegratedPerformanceSystem.Default | crates/amp_engine/src/performance_integration.rs:117-126 | the default system uses the default configuration with adaptive optimisation off |
| PerformanceIntegration.IntegratedPerformanceSystem.UpdateSubsystemMetrics | crates/amp_engine/src/performance_integration.rs:145-175 | an unknown name changes nothing; a known one folds the sample into that subsystem against its budget, others unchanged |
| PerformanceIntegration.IntegratedPerformanceSystem.FindWorstPerformingSubsystem | crates/amp_engine/src/performance_integration.rs:271-297 | the scanning loop returns the worst subsystem's name as specified |
| PerformanceIntegration.IntegratedPerformanceSystem.RecordAdjustment | crates/amp_engine/src/performance_integration.rs:300-318 | exactly one stamped adjustment is appended; nothing else changes |
| PerformanceIntegration.IntegratedPerformanceSystem.AdaptiveOptimization | crates/amp_engine/src/performance_integration.rs:193-268 | disabled: nothing changes; enabled: the load is recorded and the pass's adjustment, if any, is appended |
| PerformanceIntegration.IntegratedPerformanceSystem.GetPerformanceReport | crates/amp_engine/src/performance_integration.rs:321-328 | the report carries the score (at most 1), the metrics, the adjustments and the recommendations |
| PhysicsTiming.Clamp01 | crates/amp_physics/src/time.rs:62 | the result lies in [0, 1], equals the input inside it and the nearer end outside |
| PhysicsTiming.CastToU32 | crates/amp_physics/src/time.rs:86 | the float-to-u32 cast: 0 for negatives, the whole part below it, saturated at the u32 maximum |
| PhysicsTiming.StepsFor | crates/amp_physics/src/time.rs:86-87 | at most max_steps, and 0 until a whole timestep has accumulated |
| PhysicsTiming.StepsForPositive | crates/amp_physics/src/time.rs:67-88 | with a positive limit, some step is needed iff the accumulator has reached one timestep |
| PhysicsTiming.StepsForAfterConsume | crates/amp_physics/src/time.rs:72-88 | consuming one timestep leaves exactly one step fewer needed while the limit does not cap the count |
| PhysicsTiming.PhysicsTime.Default | crates/amp_physics/src/time.rs:32-44 | 60 Hz, four steps per frame, enabled, everything else zero |
| PhysicsTiming.PhysicsTime.WithRate | crates/amp_physics/src/time.rs:48-53 | the default with timestep 1/rate |
| PhysicsTiming.PhysicsTime.Update | crates/amp_physics/src/time.rs:56-64 | only when enabled: the delta is accumulated and alpha is the accumulated fraction of a timestep clamped to [0, 1]; disabled changes nothing |
| PhysicsTiming.PhysicsTime.ConsumeStep | crates/amp_physics/src/time.rs:72-78 | a due step moves one timestep from the accumulator to the total and counts it; otherwise nothing changes; accumulator plus total is conserved |
| PhysicsTiming.PhysicsTime.StepsNeeded | crates/amp_physics/src/time.rs:81-88 | at most max_steps, 0 when disabled, and positive iff should_step (for a positive limit) |
| PhysicsTiming.PhysicsTime.Reset | crates/amp_physics/src/time.rs:91-96 | accumulator, total time, step count and alpha zero; timestep, limit and enabled kept |
| PhysicsTiming.ClockExample | crates/amp_physics/src/time.rs:176-225 | at 60 Hz: 0.016 s gives a positive alpha; a timestep plus 1 ms is one step and leaves 1 ms once consumed; ten timesteps are capped at four |
| PhysicsTiming.DisabledExample | crates/amp_physics/src/time.rs:228-238 | a disabled clock does not accumulate and needs no step |
| ConfigValidation.ValidateAudio | crates/config_core/src/validation.rs:63-102 | Ok iff all six volumes are in [0, 1]; the first bad volume in declaration order is named |
| ConfigValidation.AudioValidationExamples | crates/config_core/src/validation.rs:177-199 | the default passes; master 1.5 and engine -0.1 fail, each named |
| ConfigValidation.MergeKeepsValidity | crates/config_core/src/validation.rs:63-102 | merging two valid audio configurations gives a valid one |
| ConfigValidation.DefaultVehicle | crates/config_core/src/vehicle.rs:25-116 | the default vehicle has four wheels |
| ConfigValidation.ValidateWheels | crates/config_core/src/validation.rs:135-148 | Ok iff every wheel from the index on has radius > 0 and grip >= 0; an error names the first bad wheel, radius checked before grip |
| ConfigValidation.ValidateVehicle | crates/config_core/src/validation.rs:105-151 | Ok iff max rpm > 0, max power > 0, 0 <= idle < max rpm, mass > 0 and every wheel passes; engine checks first, then mass, then wheels |
| ConfigValidation.VehicleValidationExamples | crates/config_core/src/validation.rs:201-228 | the default passes; max rpm -100, mass 0, idle above max, wheel radius -1 and grip -0.5 each fail with their own error |
| AudioConfigs.Pick | crates/config_core/src/audio.rs:58-62 | one field of a merge: the override's value exactly when it differs from the default, else the base's |
| AudioConfigs.PickLaws | crates/config_core/src/audio.rs:52-91 | a field merge is associative, leaves the base under a default override, returns the override over a default base, and is idempotent |
| AudioConfigs.DefaultEngineAudio | crates/config_core/src/audio.rs:111-121 | the default minimum, base and maximum engine volumes are ordered |
| AudioConfigs.DefaultVehicleAudio | crates/config_core/src/audio.rs:174-184 | engine sound and tire screech are on by default |
| AudioConfigs.DefaultAudio | crates/config_core/src/audio.rs:34-47 | master volume 1.0, every other default volume within [0, 1], nested configurations at their defaults |
| AudioConfigs.MergeFieldwise | crates/config_core/src/audio.rs:52-91 | volumes, nested engine fields and vehicle flags each come from the override iff it differs from the default |
| AudioConfigs.MergeIdentities | crates/config_core/src/audio.rs:52-91 | merging with a default override returns the base; merging over a default base returns the override; self-merge is the identity |
| AudioConfigs.MergeAssociative | crates/config_core/src/audio.rs:52-91 | layered merges may be grouped either way, nested merges included |
| AudioConfigs.MergeExample | crates/config_core/src/audio.rs:345-362 | the merge test gives master 0.8, music 0.4 and engine 0.6 |
| LevelOfDetail.SelectFrom | crates/amp_render/src/lod.rs:127-133 | the lookup from an index: the first level whose distance is at least d, every earlier one closer; else the last index |
| LevelOfDetail.SelectLod | crates/amp_render/src/lod.rs:126-134 | the first index whose distance is >= d; the last index (0 for none) when no level reaches d |
| LevelOfDetail.SelectFromMonotone | crates/amp_render/src/lod.rs:126-134 | with sorted levels a larger distance never selects a lower index |
| LevelOfDetail.SelectLodMonotone | crates/amp_render/src/lod.rs:126-134 | with sorted levels a farther camera never selects a more detailed level |
| LevelOfDetail.AdjustedDistance | crates/amp_render/src/lod.rs:104-114 | no hysteresis while last_distance is 0; plus hysteresis when moving away, minus when moving closer |
| LevelOfDetail.HysteresisDirection | crates/amp_render/src/lod.rs:104-123 | moving away selects no more detailed a level than the plain lookup; moving closer no less detailed |
| LevelOfDetail.LodGroup.constructor | crates/amp_render/src/lod.rs:76-89 | levels a sorted permutation of the input (the input itself when already sorted), indices 0, hysteresis 8, cross-fade 0.3 s |
| LevelOfDetail.LodGroup.WithHysteresis | crates/amp_render/src/lod.rs:92-95 | sets the hysteresis |
| LevelOfDetail.LodGroup.WithCrossFadeDuration | crates/amp_render/src/lod.rs:98-101 | sets the cross-fade duration |
| LevelOfDetail.LodGroup.LodForDistanceSimple | crates/amp_render/src/lod.rs:126-134 | the loop returns SelectLod of the distance |
| LevelOfDetail.LodGroup.LodForDistance | crates/amp_render/src/lod.rs:104-123 | SelectLod of the adjusted distance; the plain lookup on the first call |
| LevelOfDetail.LodGroup.UpdateLod | crates/amp_render/src/lod.rs:137-149 | returns true iff the selected level differs from the current one; then previous := old current and the fade restarts at 0; the distance is remembered |
| LevelOfDetail.LodGroup.UpdateCrossFade | crates/amp_render/src/lod.rs:152-157 | while cross-fading the factor advances by delta/duration, capped at 1; otherwise unchanged |
| LevelOfDetail.LodGroup.CurrentLevel | crates/amp_render/src/lod.rs:160-162 | the current level when the index is in range, else none |
| LevelOfDetail.LodGroup.BatchKey | crates/amp_render/src/lod.rs:175-180 | the current level's mesh with its material override or else the base material |
| LevelOfDetail.HysteresisExample | crates/amp_render/src/lod/tests.rs:57-83 | with 5 m hysteresis, 15, 26, 18 and 22 m select levels 0, 1, 0 and 1 |
| LevelOfDetail.CrossFadeExample | crates/amp_render/src/lod/tests.rs:86-132 | the first update does not change the level; 35 m switches 0 to 1; the fade goes 0.3, then 1 and stops |
| LevelOfDetail.TransitionsExample | crates/amp_render/src/lod/tests.rs:198-226 | with 2 m hysteresis, 5, 25, 55 and 95 m select levels 0 to 3 |
| Common.SortBySorted | crates/amp_render/src/lod.rs:76-78 | sorting levels already in distance order leaves them as given |
| GpuCullingIntegration.PackRoundTrip | crates/amp_render/src/gpu_culling_integration.rs:35-48 | a word packed with bit 0 and a level below 4 in bits 1-2 decodes to visible at that level; 0 decodes to hidden at level 0 |
| GpuCullingIntegration.VisibleCount | crates/amp_render/src/gpu_culling_integration.rs:53 | the count of words with bit 0 set is at most the number of words |
| GpuCullingIntegration.VisibleCountAppend | crates/amp_render/src/gpu_culling_integration.rs:53 | counting distributes over concatenation |
| GpuCullingIntegration.VisibleCountExtremes | crates/amp_render/src/gpu_culling_integration.rs:51-53 | the count equals the length iff all are visible, and is 0 iff none is |
| GpuCullingIntegration.GpuCullingResults.IsVisible | crates/amp_render/src/gpu_culling_integration.rs:35-40 | bit 0 of the word; false beyond the data |
| GpuCullingIntegration.GpuCullingResults.GetLodLevel | crates/amp_render/src/gpu_culling_integration.rs:43-48 | bits 1-2 of the word, below 4; 0 beyond the data |
| GpuCullingIntegration.GpuCullingResults.UpdateStats | crates/amp_render/src/gpu_culling_integration.rs:51-64 | total = number of words, visible = count of bit-0 words <= total |
| GpuCullingIntegration.GpuCullingResults.Clear | crates/amp_render/src/gpu_culling_integration.rs:67-77 | no data, both counts zero |
| GpuCullingIntegration.GpuCullingResults.RunGpuCullingCompute | crates/amp_render/src/gpu_culling_integration.rs:139-203 | cleared, then one simulated word per instance and updated counts |
| GpuCullingIntegration.SimulatedDecodes | crates/amp_render/src/gpu_culling_integration.rs:171-199 | each simulated word decodes to the visibility and level of detail chosen for it |
| GpuCullingIntegration.DecodeExample | crates/amp_render/src/gpu_culling_integration.rs:370-383 | words 1, 0, 5 are visible, hidden, visible at levels 0, 0, 2 |
| GpuCullingIntegration.StatsExample | crates/amp_render/src/gpu_culling_integration.rs:386-398 | of 1, 0, 1, 0, 1 three are visible |
| GpuCullingIntegration.ApplyGpuCullingResults | crates/amp_render/src/gpu_culling_integration.rs:81-135 | with non-empty results every flag becomes its result bit and visible + culled = instances; otherwise flags untouched |
| GpuCullingIntegration.CullingEfficiency | crates/amp_render/src/gpu_culling_integration.rs:317-323 | 0 for an empty batch, else 1 - visible/original, within [0, 1] |
| GpuCullingIntegration.EfficiencyExample | crates/amp_render/src/gpu_culling_integration.rs:401-414 | 60 of 100 visible is 0.4; an empty batch is 0 |
| GpuCullingIntegration.SimulatedVisibleCount | crates/amp_render/src/gpu_culling_integration.rs:257 | seven tenths rounded down never exceeds the original |
| GpuCullingIntegration.SpawnedBatchesShrink | crates/amp_render/src/gpu_culling_integration.rs:244-284 | every spawned batch has 0 < visible <= original |
| GpuCullingIntegration.QueueConserves | crates/amp_render/src/gpu_culling_integration.rs:244-284 | queued plus culled instances equal all instances; nothing culled without results |
| GpuCullingIntegration.QueueGpuCulledBatches | crates/amp_render/src/gpu_culling_integration.rs:228-288 | spawns the spec's batches and totals queued, culled, opaque and alpha |
| GpuCullingIntegration.QueueBatch | crates/amp_render/src/gpu_culling_integration.rs:244-283 | one batch of the loop: what it spawns, the instances it makes visible and culls, and whether it is opaque or alpha |
| GpuCullingIntegration.LodBits | crates/amp_render/src/gpu_culling_integration.rs:43-48 | the level of detail read from a result word is below 4 |
| GpuCullingIntegration.SimulatedLod | crates/amp_render/src/gpu_culling_integration.rs:184-193 | the stand-in's level of detail is below 4 |
| GpuCullingIntegration.QueuedCount | crates/amp_render/src/gpu_culling_integration.rs:228-260 | a batch never queues more instances than it holds |
| RenderDiagnostics.DefaultFrame | crates/amp_render/src/diagnostics.rs:190-206 | a default frame has every metric zero |
| RenderDiagnostics.Status | crates/amp_render/src/diagnostics.rs:249-275 | critical exactly when draw calls exceed 1200, lights exceed 200 or the update exceeds 16 ms; otherwise a warning exactly when draw calls, instances, update time or culling time exceed their budgets; otherwise good |
| RenderDiagnostics.StatusMonotone | crates/amp_render/src/diagnostics.rs:249-275 | a frame at least as high in every watched metric never has a less severe status |
| RenderDiagnostics.IsWithinBudget | crates/amp_render/src/diagnostics.rs:315-340 | any metric name other than the seven known ones counts as within budget |
| RenderDiagnostics.GoodIffWithinBudgets | crates/amp_render/src/diagnostics.rs:249-340 | the status is good exactly when draw calls, instances, update time, culling time and lights are each within budget |
| RenderDiagnostics.MetricColor | crates/amp_render/src/diagnostics.rs:343-353 | a metric within budget is green; an out-of-budget metric is red exactly when the status is critical and yellow exactly when it is a warning |
| RenderDiagnostics.StatusExamples | crates/amp_render/src/diagnostics/tests.rs:96-177 | the test frames give good, warning with the stated per-metric budget results, and critical |
| RenderDiagnostics.AfterWarning | crates/amp_render/src/diagnostics.rs:239-246 | the new warning is last; below the cap it is simply appended, at the cap the oldest is dropped, so a list within 100 stays within 100 |
| RenderDiagnostics.AfterWarningsKeepsLatest | crates/amp_render/src/diagnostics.rs:239-246 | from a list within the cap, adding warnings one by one keeps exactly the latest 100 in order |
| RenderDiagnostics.BudgetWarnings | crates/amp_render/src/diagnostics.rs:401-437 | a frame raises at most five warnings, and none exactly when no budget is exceeded and the lights are within their limit |
| RenderDiagnostics.NoWarningsIffGood | crates/amp_render/src/diagnostics.rs:401-437 | a sampled frame raises no warning exactly when its status is good |
| RenderDiagnostics.AfterSample | crates/amp_render/src/diagnostics.rs:439-443 | the sampled frame is last, and a history within 60 frames stays within 60, keeping the latest |
| RenderDiagnostics.Averages | crates/amp_render/src/diagnostics.rs:278-281 | an empty history averages to the current frame |
| RenderDiagnostics.AveragesOfSame | crates/amp_render/src/diagnostics.rs:278-312 | a history of identical frames averages to that frame |
| RenderDiagnostics.AverageUpdateTimeWithinBudget | crates/amp_render/src/diagnostics.rs:278-312 | if every frame in the history is within the update-time budget, so is the average |
| RenderDiagnostics.HistoryFillsToCap | crates/amp_render/src/diagnostics.rs:439-443 | sampling frames one by one into a history within the cap keeps exactly the latest 60, so 70 samples leave 60 |
| RenderDiagnostics.PerformanceDiagnostics.constructor | crates/amp_render/src/diagnostics.rs:141-151 | a zero current frame, no history, no warnings and hard limits off |
| RenderDiagnostics.PerformanceDiagnostics.AddWarning | crates/amp_render/src/diagnostics.rs:239-246 | the list becomes the capped append and nothing else changes |
| RenderDiagnostics.PerformanceDiagnostics.GetStatus | crates/amp_render/src/diagnostics.rs:249-275 | the status of the current frame |
| RenderDiagnostics.PerformanceDiagnostics.CalculateAverages | crates/amp_render/src/diagnostics.rs:278-312 | the loop's result is the specified average |
| RenderDiagnostics.PerformanceDiagnostics.RaiseBudgetWarnings | crates/amp_render/src/diagnostics.rs:401-437 | the warning list is replaced by the frame's budget warnings in check order |
| RenderDiagnostics.PerformanceDiagnostics.RaiseIf | crates/amp_render/src/diagnostics.rs:404-410 | one budget check appends its warning exactly when the budget is exceeded |
| RenderDiagnostics.PerformanceDiagnostics.RecordSample | crates/amp_render/src/diagnostics.rs:401-446 | the warnings become the frame's budget warnings, the history takes the capped append, the frame becomes current, and the caps still hold |
| Vegetation.DetailFor | crates/amp_render/src/vegetation/components.rs:51-62 | Full exactly below 50 m, Medium exactly in [50, 150), Billboard exactly in [150, 300), Culled from 300 m |
| Vegetation.DetailMonotone | crates/amp_render/src/vegetation/components.rs:56-61 | a farther plant is never drawn in more detail |
| Vegetation.MeshForLevel | crates/amp_render/src/vegetation/components.rs:101-108 | each drawn level's own mesh |
| Vegetation.VisibleIffMesh | crates/amp_render/src/vegetation/components.rs:64-108 | a level has a mesh exactly when it is visible (not Culled), and a plant is visible exactly when closer than 300 m |
| Vegetation.VegetationLod.constructor | crates/amp_render/src/vegetation/components.rs:30-43 | full detail at distance and frame zero |
| Vegetation.VegetationLod.FromDistance | crates/amp_render/src/vegetation/components.rs:45-49 | the level for the distance, at frame zero |
| Vegetation.VegetationLod.UpdateFromDistance | crates/amp_render/src/vegetation/components.rs:51-62 | distance and frame recorded, level follows the distance |
| Vegetation.VisibleWithin300 | crates/amp_render/src/vegetation/components.rs:64-66 | once the level follows the distance, should_be_visible holds exactly when the plant is closer than 300 m |
| Vegetation.GpuResources.constructor | crates/amp_render/src/vegetation/components.rs:191-207 | no handles, no memory, not allocated, no cleanup needed |
| Vegetation.GpuResources.AllocateResources | crates/amp_render/src/vegetation/components.rs:210-230 | handles and size recorded; cleanup needed exactly when some handle was given |
| Vegetation.GpuResources.MarkCleaned | crates/amp_render/src/vegetation/components.rs:225-244 | all handles dropped, memory zero, not allocated, no cleanup needed |
| Vegetation.MemoryTracker.constructor | crates/amp_render/src/vegetation/components.rs:280-289 | all counters zero |
| Vegetation.MemoryTracker.AllocateMemory | crates/amp_render/src/vegetation/components.rs:293-297 | usage grows by the bytes, one more instance, peak raised to the usage; the peak stays at least the usage |
| Vegetation.MemoryTracker.DeallocateMemory | crates/amp_render/src/vegetation/components.rs:300-304 | usage and instances drop saturating at zero, peak kept, one more cleanup; the peak stays at least the usage |
| Vegetation.MemoryTracker.MemoryUsagePercentage | crates/amp_render/src/vegetation/components.rs:307-317 | usage as a percentage of 512 MiB, below 100 exactly when within budget, zero exactly when nothing is used |
| Vegetation.TrackerExample | crates/amp_render/src/vegetation/gpu_cleanup_tests.rs:34-79 | 1 MiB and 2 MiB then freeing 1 MiB leave 2 MiB, one instance, peak 3 MiB, one cleanup; 256 MiB is 50 % and within budget, 556 MiB is over |
| Vegetation.CleanupExample | crates/amp_render/src/vegetation/gpu_cleanup_tests.rs:82-97 | allocating handles needs cleanup, marking cleaned needs none and frees the memory |
| Vegetation.DistanceExamples | crates/amp_render/src/vegetation/gpu_cleanup_tests.rs:139-147 | 250 m is a billboard and 100 m medium detail, both visible |
| RoadNetworks.Width | crates/amp_gameplay/src/road/components.rs:42-49 | every road type has a positive width |
| RoadNetworks.Radius | crates/amp_gameplay/src/road/components.rs:120-127 | every intersection type has a positive radius |
| RoadNetworks.MaxConnections | crates/amp_gameplay/src/road/components.rs:130-137 | between 2 and 4 roads; 4 for a cross, 3 for a T-junction |
| RoadNetworks.NewRoad | crates/amp_gameplay/src/road/network.rs:26-56 | a new road carries its id and has no connections |
| RoadNetworks.ConnectTo | crates/amp_gameplay/src/road/network.rs:91-95 | afterwards the road lists the id; the set of connections grows by exactly that id and stays duplicate-free |
| RoadNetworks.ConnectToIdempotent | crates/amp_gameplay/src/road/network.rs:91-95 | connecting twice is connecting once |
| RoadNetworks.NewIntersection | crates/amp_gameplay/src/road/network.rs:137-150 | the radius comes from the type and the roads are kept as given |
| RoadNetworks.ConnectRoad | crates/amp_gameplay/src/road/network.rs:153-159 | a new road is appended only while there is room; a duplicate or a full intersection is unchanged |
| RoadNetworks.ConnectRoadKeepsLimits | crates/amp_gameplay/src/road/network.rs:153-164 | connecting keeps the count within the maximum and the list duplicate-free |
| RoadNetworks.CrossFillsAtFour | crates/amp_gameplay/src/road/network.rs:153-159 | a cross never holds more than four roads, whatever is offered |
| RoadNetworks.IntersectionExample | crates/amp_gameplay/src/road/network.rs:575-587 | a cross of roads 1-4 has radius 20 and no room left |
| RoadNetworks.RoadNetwork.constructor | crates/amp_gameplay/src/road/network.rs:184-195 | empty maps and cache, ids from 0 |
| RoadNetworks.RoadNetwork.AddSplineRoad | crates/amp_gameplay/src/road/network.rs:266-274 | the id handed out is the next id, unused so far; the counter moves on by one |
| RoadNetworks.RoadNetwork.AddRoad | crates/amp_gameplay/src/road/network.rs:238-246 | as AddSplineRoad, for a straight road |
| RoadNetworks.RoadNetwork.AddCurvedRoad | crates/amp_gameplay/src/road/network.rs:249-263 | as AddSplineRoad, for a road through one control point |
| RoadNetworks.RoadNetwork.ConnectRoads | crates/amp_gameplay/src/road/network.rs:277-284 | each existing road of the pair lists the other; no other connection is added or lost |
| RoadNetworks.RoadNetwork.AddIntersection | crates/amp_gameplay/src/road/network.rs:287-299 | stored under the next intersection id, which was unused |
| RoadNetworks.RoadNetwork.AddSideStreetPair | crates/amp_gameplay/src/road/network.rs:358-371 | two side streets with consecutive fresh ids |
| RoadNetworks.RoadNetwork.AddSpawnTrunkRoads | crates/amp_gameplay/src/road/network.rs:324-349 | two highways and a main street with consecutive fresh ids |
| RoadNetworks.RoadNetwork.AddSpawnHighways | crates/amp_gameplay/src/road/network.rs:324-342 | the two curved highways get consecutive fresh ids and the highway type |
| RoadNetworks.RoadNetwork.GenerateSpawnChunkRoads | crates/amp_gameplay/src/road/network.rs:320-380 | 19 roads with consecutive fresh ids: 2 highways, 1 main street, 16 side streets |
| RoadNetworks.RoadNetwork.AddSpawnCell | crates/amp_gameplay/src/road/network.rs:353-371 | each outer cell of the 3 x 3 grid adds two side streets with fresh ids, the centre cell none |
| RoadNetworks.RoadNetwork.GenerateRegularChunkRoads | crates/amp_gameplay/src/road/network.rs:383-452 | a main-street chunk gets exactly one main street; any other at most four side streets |
| RoadNetworks.RoadNetwork.SideStreetAt | crates/amp_gameplay/src/road/network.rs:424-446 | one cell of a regular chunk adds a side street with a fresh id exactly when its density draw is below the road density, and nothing otherwise |
| RoadNetworks.RoadNetwork.GenerateChunkRoads | crates/amp_gameplay/src/road/network.rs:302-317 | a generated chunk yields nothing and changes nothing; otherwise it is recorded and its roads added, 19 for chunk (0, 0) |
| RoadNetworks.RoadNetwork.ClearCache | crates/amp_gameplay/src/road/network.rs:497-500 | the chunk cache is empty |
| RoadNetworks.RoadNetwork.Reset | crates/amp_gameplay/src/road/network.rs:503-510 | all maps and the cache empty, both id counters 0 |
| RoadNetworks.RoadNetwork.Stats | crates/amp_gameplay/src/road/network.rs:513-528 | the map and cache sizes, and per road type in use the number of roads of that type |
| RoadNetworks.CountRoadTypes | crates/amp_gameplay/src/road/network.rs:516-519 | the counting loop records every road type in use and, for each, the number of roads of that type |
| RoadNetworks.AddedAppend | crates/amp_gameplay/src/road/network.rs:320-380 | two runs of additions with consecutive ids make one run |
| RoadNetworks.OfTypeAdd | crates/amp_gameplay/src/road/network.rs:516-519 | one more road adds one to its own type's count only |
| RoadNetworks.NetworkExample | crates/amp_gameplay/src/road/network.rs:559-608 | the first two roads get ids 0 and 1 and, once connected, list each other |
| RoadResources.KeepExisting | crates/amp_gameplay/src/road/resources.rs:211-230 | the mappings kept are exactly those whose entity is in the set, with their entities unchanged |
| RoadResources.KeepExistingIdempotent | crates/amp_gameplay/src/road/resources.rs:211-248 | a second cleanup with the same set removes nothing |
| RoadResources.KeepExistingExtremes | crates/amp_gameplay/src/road/resources.rs:211-248 | nothing is removed when every entity exists, everything when none does |
| RoadResources.StaleIds | crates/amp_gameplay/src/road/resources.rs:215-230 | the ids collected are exactly those whose entity is missing, each once, and with the kept ones they account for the whole map |
| RoadResources.RoadEntityMap.constructor | crates/amp_gameplay/src/road/resources.rs:40-55 | empty maps and zero statistics |
| RoadResources.RoadEntityMap.InsertRoad | crates/amp_gameplay/src/road/resources.rs:58-64 | the id maps to the entity, total_roads is the map size, one more insertion |
| RoadResources.RoadEntityMap.InsertIntersection | crates/amp_gameplay/src/road/resources.rs:67-73 | as InsertRoad, for intersections |
| RoadResources.RoadEntityMap.GetRoadEntity | crates/amp_gameplay/src/road/resources.rs:76-88 | an entity exactly when contains_road holds: the mapped entity if present; otherwise none and one more failed lookup |
| RoadResources.RoadEntityMap.GetIntersectionEntity | crates/amp_gameplay/src/road/resources.rs:91-106 | as GetRoadEntity, for intersections |
| RoadResources.RoadEntityMap.ContainsRoad | crates/amp_gameplay/src/road/resources.rs:130-133 | a tracked road means a non-zero road total |
| RoadResources.RoadEntityMap.ContainsIntersection | crates/amp_gameplay/src/road/resources.rs:135-138 | a tracked intersection means a non-zero intersection total |
| RoadResources.RoadEntityMap.RemoveRoad | crates/amp_gameplay/src/road/resources.rs:109-117 | a present id is removed and returned, and removals grows by one; an absent id changes nothing |
| RoadResources.RoadEntityMap.RemoveIntersection | crates/amp_gameplay/src/road/resources.rs:120-128 | as RemoveRoad, for intersections |
| RoadResources.RoadEntityMap.Clear | crates/amp_gameplay/src/road/resources.rs:156-171 | both maps empty, both totals 0, removals grows by the two old sizes |
| RoadResources.RoadEntityMap.CleanupInvalidEntities | crates/amp_gameplay/src/road/resources.rs:174-248 | exactly the mappings whose entity is not in the set are removed, and removals grows by their number |
| RoadResources.RoadEntityMap.RemoveRoads | crates/amp_gameplay/src/road/resources.rs:233-239 | every listed road removed through remove_road, each counted once, nothing else touched |
| RoadResources.RoadEntityMap.RemoveIntersections | crates/amp_gameplay/src/road/resources.rs:241-247 | as RemoveRoads, for intersections |
| RoadResources.MapExample | crates/amp_gameplay/src/road/resources.rs:274-364 | road 123 maps to 42, road 999 is one failed lookup; clearing two roads and two intersections counts four removals |
| RoadResources.RemovalExample | crates/amp_gameplay/src/road/resources.rs:310-327 | a removed road comes back once, counts one removal, and a second removal finds nothing |
| CityResources.EmptyLayout | crates/amp_gameplay/src/city/resources.rs:110-119 | the default layout has all four maps empty |
| CityResources.DefaultCityConfig | crates/amp_gameplay/src/city/resources.rs:92-108 | the default is a 100 by 100 grid of 20 m tiles, seed 42, intersections every 5 tiles, centre (50, 50) with radius 20, a density within [0, 1] and non-empty height and size ranges |
| CityResources.NewCityConfig | crates/amp_gameplay/src/city/resources.rs:190-196 | only the grid size and tile size differ from the default |
| CityResources.WorldToGrid | crates/amp_gameplay/src/city/resources.rs:208-213 | both coordinates of the result lie in the i32 range |
| CityResources.GridWorldRoundTrip | crates/amp_gameplay/src/city/resources.rs:199-213 | converting an i32 cell to the world and back gives the cell, for any non-zero tile size |
| CityResources.CityCenterIffWithinRadius | crates/amp_gameplay/src/city/resources.rs:216-219 | the squared-distance test used is the source's distance test: a cell is in the centre exactly when its distance is at most the radius |
| CityResources.GetBuildingHeight | crates/amp_gameplay/src/city/resources.rs:222-233 | a centre building is twice its base plus 30 m; elsewhere a non-negative base grows by at most half |
| CityResources.CenterIsTallest | crates/amp_gameplay/src/city/resources.rs:222-233 | for the same base height, a centre building is taller than any building outside the centre |
| CityResources.HeightFallsWithDistance | crates/amp_gameplay/src/city/resources.rs:222-233 | outside the centre, for the same base height, a building farther from the centre is never taller |
| CityResources.BuildingsInSector | crates/amp_gameplay/src/city/resources.rs:123-139 | holds exactly the buildings whose cell lies in the inclusive sector, with their specs |
| CityResources.StreetsInSector | crates/amp_gameplay/src/city/resources.rs:141-157 | holds exactly the streets whose cell lies in the inclusive sector, with their specs |
| CityResources.IntersectionsInSector | crates/amp_gameplay/src/city/resources.rs:159-175 | holds exactly the intersections whose cell lies in the inclusive sector, with their specs |
| CityResources.SectorSplit | crates/amp_gameplay/src/city/resources.rs:123-175 | splitting a sector along x splits its entries into two disjoint parts whose union is the whole |
| CityResources.EmptySector | crates/amp_gameplay/src/city/resources.rs:123-175 | a sector whose lower corner lies past its upper one holds nothing |
| CityResources.CityPrefabs.constructor | crates/amp_gameplay/src/city/resources.rs:177-186 | the registry starts empty, with ids from 5000 |
| CityResources.CityPrefabs.GetPrefabId | crates/amp_gameplay/src/city/resources.rs:253-260 | an unknown category has no id; in a known one a name has an id exactly when it was registered, and every id is below the next one |
| CityResources.CityPrefabs.RegisterPrefab | crates/amp_gameplay/src/city/resources.rs:238-251 | the next id is handed out and recorded under the name in its category; every other lookup is unchanged |
| CityResources.PrefabExample | crates/amp_gameplay/src/city/resources.rs:238-260 | two building prefabs and a street prefab get 5000, 5001 and 5002; a name under the wrong category is not found |
| CityResources.CityCenterExamples | crates/amp_gameplay/src/city/resources.rs:216-219 | with the defaults, cells (50, 50) and (62, 66) are in the centre and (63, 66) is not |
| CityResources.Round | crates/amp_gameplay/src/city/resources.rs:199-214 | the rounded value is within one half of the input |
| CityResources.CastI32 | crates/amp_gameplay/src/city/resources.rs:208-214 | the cast saturates to the i32 range and keeps every value inside it |
| CityResources.GridToWorld | crates/amp_gameplay/src/city/resources.rs:199-206 | a cell maps to a point on the ground plane, y = 0 |
| CityResources.EntriesInSector | crates/amp_gameplay/src/city/resources.rs:123-175 | exactly the entries whose cell lies in the sector, with their values |
| CityLayouts.StreetPhaseAt | crates/amp_gameplay/src/city/layout.rs:43-101 | after the street grid, every main column or row cell is a main street, along x on a main row and along z otherwise; a free side-column cell is a side street; every other cell is unchanged |
| CityLayouts.GenerateStreetGrid | crates/amp_gameplay/src/city/layout.rs:43-101 | the method builds exactly the street phase, column loop, row loop and side-street loop in the source's order |
| CityLayouts.IntersectionPhaseAt | crates/amp_gameplay/src/city/layout.rs:104-122 | after the intersection pass, every crossing of a main column and a main row is a four-way intersection, with traffic lights exactly in the city centre, and every other cell is unchanged |
| CityLayouts.GenerateIntersections | crates/amp_gameplay/src/city/layout.rs:104-122 | the nested loop builds exactly the intersection phase |
| CityLayouts.LcgOutput | crates/amp_gameplay/src/city/layout.rs:130-133 | each draw is below 32768 |
| CityLayouts.Fraction | crates/amp_gameplay/src/city/layout.rs:145 | a draw over 32768 lies in [0, 1) |
| CityLayouts.LcgExample | crates/amp_gameplay/src/city/layout.rs:130-133 | from seed 42 the 64-bit wrapping step gives state 46347652635 and draw 19081 |
| CityLayouts.DetermineBuildingType | crates/amp_gameplay/src/city/layout.rs:187-207 | skyscrapers only in the centre and industry only outside it; commercial in the centre and residential outside exactly on rolls up to 40 and 50; infrastructure exactly from 91 or 96 |
| CityLayouts.PrefabNamesDistinct | crates/amp_gameplay/src/city/layout.rs:210-219 | different building types get different prefab names |
| CityLayouts.PlaceAt | crates/amp_gameplay/src/city/layout.rs:137-181 | placing at one cell never touches streets or intersections |
| CityLayouts.LerpWithin | crates/amp_gameplay/src/city/layout.rs:154-169 | a fraction in [0, 1) of the way through a non-empty range stays in it |
| CityLayouts.PlaceAtCell | crates/amp_gameplay/src/city/layout.rs:137-181 | one cell's step builds only on that cell when it was free, with a generated building |
| CityLayouts.BuildingPhaseAt | crates/amp_gameplay/src/city/layout.rs:125-184 | after the building pass, occupied cells are unchanged and every new building is on a free in-grid cell, with its type's prefab, no rotation, a square footprint within the size range and skyscrapers only in the centre |
| CityLayouts.PlaceBuilding | crates/amp_gameplay/src/city/layout.rs:137-181 | the loop body draws from the generator exactly as the one-cell step says |
| CityLayouts.GenerateBuildings | crates/amp_gameplay/src/city/layout.rs:125-184 | the nested loop builds exactly the building phase from the configured seed |
| CityLayouts.ParkPhaseAt | crates/amp_gameplay/src/city/layout.rs:222-239 | after the park pass, a free cell in a 3 by 3 block at (10 + 20i, 10 + 20j) is a park and every other cell is unchanged |
| CityLayouts.GenerateParks | crates/amp_gameplay/src/city/layout.rs:222-239 | the four nested loops build exactly the park phase |
| CityLayouts.LayoutAt | crates/amp_gameplay/src/city/layout.rs:24-40 | in a generated layout every crossing is an intersection, other street cells are streets, intersections and streets lie only on crossings and street cells, buildings only on free in-grid cells as generated, parks only on park blocks off the streets, every tile is in the grid or a park, and none is empty or water |
| CityLayouts.GenerateLayout | crates/amp_gameplay/src/city/layout.rs:24-40 | the four passes in order build exactly the specified layout |
| CityLayouts.StreetPhase | crates/amp_gameplay/src/city/layout.rs:43-101 | laying streets leaves the buildings and intersections as they were |
| CityLayouts.IntersectionPhase | crates/amp_gameplay/src/city/layout.rs:104-122 | placing intersections leaves the buildings and streets as they were |
| CityLayouts.LcgNext | crates/amp_gameplay/src/city/layout.rs:130-133 | a generator step stays below the 2^32 modulus, the wrap-around of u32 |
| CityLayouts.PrefabName | crates/amp_gameplay/src/city/layout.rs:210-219 | every prefab name starts with "building_" and has a type name after it |
| CityLayouts.BuildingPhase | crates/amp_gameplay/src/city/layout.rs:125-184 | placing buildings leaves the streets and intersections as they were |
| CityLayouts.ParkPhase | crates/amp_gameplay/src/city/layout.rs:222-239 | placing parks leaves the buildings, streets and intersections as they were |
| CityLayoutCsv.Split | crates/amp_gameplay/src/city/layout.rs:313 | a split has at least one field and no field holds the separator |
| CityLayoutCsv.SplitJoin | crates/amp_gameplay/src/city/layout.rs:294-313 | splitting a line joined from comma-free fields gives back the fields |
| CityLayoutCsv.JoinSplit | crates/amp_gameplay/src/city/layout.rs:313 | joining the fields of a split gives back the line |
| CityLayoutCsv.ParseI32 | crates/amp_gameplay/src/city/layout.rs:318-323 | a parsed integer lies in the i32 range |
| CityLayoutCsv.IntRoundTrip | crates/amp_gameplay/src/city/layout.rs:296-323 | every i32 printed in decimal parses back to itself |
| CityLayoutCsv.ParseExamples | crates/amp_gameplay/src/city/layout.rs:318-323 | "42", "-7" and "+5" parse; "", "-" and "1a" do not |
| CityLayoutCsv.TileRoundTrip | crates/amp_gameplay/src/city/layout.rs:296-334 | the exported tile name of every tile parses back to that tile |
| CityLayoutCsv.ExportShape | crates/amp_gameplay/src/city/layout.rs:247-302 | the export has the header and exactly one line per cell, the line of cell (x, z) at position 1 + z * width + x |
| CityLayoutCsv.ExportToCsv | crates/amp_gameplay/src/city/layout.rs:247-302 | the loops produce exactly the header and the row-by-row lines |
| CityLayoutCsv.ExportRowLines | crates/amp_gameplay/src/city/layout.rs:255-300 | the inner loop appends exactly the lines of one row, x ascending |
| CityLayoutCsv.LineCheck | crates/amp_gameplay/src/city/layout.rs:313-323 | a line fails with its 1-based number when it has fewer than seven fields, then on a bad x, then on a bad z |
| CityLayoutCsv.ImportFromCsv | crates/amp_gameplay/src/city/layout.rs:305-390 | the loop with its early returns computes exactly the specified import |
| CityLayoutCsv.ImportLineFails | crates/amp_gameplay/src/city/layout.rs:313-323 | a line fails exactly when the line check finds an error, with that error, whatever was read before |
| CityLayoutCsv.FirstBad | crates/amp_gameplay/src/city/layout.rs:308-323 | there is no first error exactly when every data line passes the line check |
| CityLayoutCsv.ImportFailsAtFirstBadLine | crates/amp_gameplay/src/city/layout.rs:305-390 | an import fails exactly when some data line is bad, with the first bad line's error |
| CityLayoutCsv.ImportIgnoresHeader | crates/amp_gameplay/src/city/layout.rs:309-311 | the first line does not affect the result |
| CityLayoutCsv.ImportHasNoEmptyTiles | crates/amp_gameplay/src/city/layout.rs:336-338 | an imported layout holds no empty tile |
| CityLayoutCsv.LineRoundTrip | crates/amp_gameplay/src/city/layout.rs:247-390 | reading back a cell's exported line restores its tile, prefab and sizes, with the defaults for building type, street kind and traffic lights; it needs i32 coordinates, comma-free prefab names and a float printer that the parser inverts |
| CityLayoutCsv.ImportBuildingExample | crates/amp_gameplay/src/city/layout.rs:305-390 | a header and a building line give one building at (3, 4) with the parsed height and default sizes for fields that do not parse |
| CityLayoutCsv.ImportShortLineExample | crates/amp_gameplay/src/city/layout.rs:313-316 | a line with three fields fails as an invalid line 2 |
| CityLayoutCsv.ImportBadXExample | crates/amp_gameplay/src/city/layout.rs:318-320 | a line whose x is "a" fails as an invalid x on line 2 |
| NpcConfig.DefaultEnergy | crates/amp_gameplay/src/npc/config.rs:133-144 | a 100-point energy scale with resting, tired and energetic thresholds in increasing order, drain 5 and recovery 15 |
| NpcConfig.DefaultStress | crates/amp_gameplay/src/npc/config.rs:157-168 | a 100-point stress scale with calm, stressed and panic thresholds in increasing order, buildup 10 and recovery 5 |
| NpcConfig.DefaultIntervals | crates/amp_gameplay/src/npc/config.rs:266-276 | close below 50 m and far from 150 m, with update intervals that lengthen with the distance |
| NpcConfig.FromDistance | crates/amp_gameplay/src/npc/config.rs:288-296 | Close exactly below the close distance, Medium exactly between the close and far distances, Far otherwise |
| NpcConfig.FrameInterval | crates/amp_gameplay/src/npc/config.rs:299-305 | at least one frame, and exactly one for Close NPCs |
| NpcConfig.FrameIntervalMonotone | crates/amp_gameplay/src/npc/config.rs:299-305 | a farther category has a strictly longer frame interval, and only then |
| NpcConfig.UpdateInterval | crates/amp_gameplay/src/npc/config.rs:308-314 | each category's configured interval in seconds |
| NpcConfig.CategoryMonotone | crates/amp_gameplay/src/npc/config.rs:288-305 | a farther NPC never falls in a nearer category and is never updated more often |
| NpcConfig.DefaultIntervalsMonotone | crates/amp_gameplay/src/npc/config.rs:266-314 | with the defaults every category is reachable and the interval in seconds grows with distance |
| NpcConfig.ClassificationExamples | crates/amp_gameplay/src/npc/systems.rs:350-375 | 25, 75 and 200 m are Close, Medium and Far, with frame intervals 1, 15 and 60 |
| NpcSystems.Clamp | crates/amp_gameplay/src/npc/systems.rs:302-307 | the value within ordered bounds, or the bound it passed |
| NpcSystems.RecoveryBounds | crates/amp_gameplay/src/npc/systems.rs:161-173 | recovery raises energy toward the maximum and lowers stress toward zero without passing either, and leaves values at their bound alone |
| NpcSystems.EmotionExample | crates/amp_gameplay/src/npc/systems.rs:396-409 | one second of recovery takes energy 50 above 50 and stress 60 below 60 |
| NpcSystems.NextState | crates/amp_gameplay/src/npc/systems.rs:176-222 | panic within 10 m forces Flee; Idle to Wander iff over 5 s or energetic; Wander to Idle iff tired or over 20 s; Flee to Idle iff beyond 50 m and calm; reserved states stay |
| NpcSystems.NextStateReachability | crates/amp_gameplay/src/npc/systems.rs:176-222 | no reserved state is entered, Flee is reached only by panic or by staying, and Flee only leads to Idle |
| NpcSystems.FleeHoldsNearby | crates/amp_gameplay/src/npc/systems.rs:212-219 | a fleeing NPC keeps fleeing while the player is within 50 m |
| NpcSystems.TransitionExamples | crates/amp_gameplay/src/npc/systems.rs:377-394 | an idle default NPC wanders after 6 s and flees at 5 m with stress 80 |
| NpcSystems.BehaviorDirection | crates/amp_gameplay/src/npc/systems.rs:268-299 | idling restores energy, wandering and fleeing cost it, and only fleeing builds stress |
| NpcSystems.Npc.Default | crates/amp_gameplay/src/npc/components.rs:35-50 | full energy and no stress |
| NpcSystems.NpcState.Default | crates/amp_gameplay/src/npc/components.rs:87-97 | idle from time zero with the default state data |
| NpcSystems.UpdateEmotions | crates/amp_gameplay/src/npc/systems.rs:161-173 | energy and stress become their recovered values |
| NpcSystems.TransitionToState | crates/amp_gameplay/src/npc/systems.rs:225-257 | the old state becomes the previous one, the clock restarts, and the new state's speed, time limit and direction are set |
| NpcSystems.ExecuteStateBehavior | crates/amp_gameplay/src/npc/systems.rs:260-308 | each state's energy and stress change, clamped to [0, max]; the wander timer and direction; fleeing turns away from the player |
| NpcSystems.ProcessNpcBrain | crates/amp_gameplay/src/npc/systems.rs:116-158 | the update is stamped, the state follows the transition function on the recovered emotions, and energy and stress end within their ranges |
| NpcSystems.PanicExample | crates/amp_gameplay/src/npc/systems.rs:116-158 | a default NPC at 5 m with stress 80 flees after one update, leaving Idle |
| NpcSystems.ProcessedEveryInterval | crates/amp_gameplay/src/npc/systems.rs:77-97 | from a reset counter an NPC is processed exactly on every interval-th frame |
| NpcSystems.CountRanksPartition | crates/amp_gameplay/src/npc/systems.rs:66-71 | the per-category counts add up to the number of NPCs counted |
| NpcSystems.ScheduleFrame | crates/amp_gameplay/src/npc/systems.rs:46-100 | NPCs are visited in order until 200 are processed; each visited one is counted by category, its counter advances and resets exactly when it reaches the category's interval; the rest are untouched |
| NpcSystems.NpcMetrics.Tick | crates/amp_gameplay/src/npc/systems.rs:311-338 | the frame counter advances; every 60th frame the accumulated updates over 60 become the rate and the accumulator restarts |
| Persistence.SaveOfTransform | crates/amp_gameplay/src/persistence/serializable.rs:23-36 | a well-formed save with the rotation as [x, y, z, w] |
| Persistence.TransformRoundTrip | crates/amp_gameplay/src/persistence/serializable.rs:23-51 | saving then restoring a transform gives it back, and restoring then saving a well-formed save gives it back |
| Persistence.SaveOfVelocity | crates/amp_gameplay/src/persistence/serializable.rs:60-67 | three-element linear and angular arrays |
| Persistence.VelocityRoundTrip | crates/amp_gameplay/src/persistence/serializable.rs:60-76 | saving then restoring a velocity gives it back, and conversely |
| Persistence.AnyVehicle | crates/amp_gameplay/src/persistence/serializable.rs:461 | true exactly when some saved vehicle has the id |
| Persistence.CheckVehicles | crates/amp_gameplay/src/persistence/serializable.rs:509-526 | passes exactly when every vehicle's position is within 10000 and velocity within 1000 per component; a failure names position or velocity of an offending vehicle |
| Persistence.Validate | crates/amp_gameplay/src/persistence/serializable.rs:449-529 | passes exactly when the version is at most 1, the active entity is the player or a saved vehicle, walking means no vehicle and driving a saved vehicle, and all positions and velocities are in bounds; each earlier guard's failure is the error returned |
| Persistence.ValidSaveIsConsistent | crates/amp_gameplay/src/persistence/serializable.rs:467-526 | a passing save's driven vehicle is among the saved ones, a walking player is in none, and every vehicle is in bounds |
| Persistence.ValidUnderVehicleRemoval | crates/amp_gameplay/src/persistence/serializable.rs:449-529 | for a walking player who is the active entity, dropping a vehicle keeps the save valid |
| Persistence.ValidationExamples | crates/amp_gameplay/src/persistence/serializable.rs:449-529 | a walking save at the origin passes; version 2, an unknown active id, driving an unsaved vehicle and x = 10001 each fail with their own error; driving a saved vehicle passes |
| SpawnBudget.WithSpawn | crates/amp_gameplay/src/spawn_budget_policy.rs:413-423 | a spawn adds one to its type's count and to the total and leaves every other type's count alone |
| SpawnBudget.WithDespawn | crates/amp_gameplay/src/spawn_budget_policy.rs:426-445 | a despawn saturating-decrements its type's count and the total and leaves every other type's count alone |
| SpawnBudget.DespawnUndoesSpawn | crates/amp_gameplay/src/spawn_budget_policy.rs:413-445 | recording a despawn right after a spawn of the same type restores the counts |
| SpawnBudget.CanSpawnAntitone | crates/amp_gameplay/src/spawn_budget_policy.rs:313-319 | if a spawn is allowed at some counts, it is allowed at any smaller counts |
| SpawnBudget.ApprovedSpawnStaysWithinCaps | crates/amp_gameplay/src/spawn_budget_policy.rs:313-319 | after an approved spawn the type's count and the total stay within the biome's caps |
| SpawnBudget.OfPriority | crates/amp_gameplay/src/spawn_budget_policy.rs:383-386 | the entries picked for one priority all have that priority and are no more than the queue |
| SpawnBudget.OfPriorityCount | crates/amp_gameplay/src/spawn_budget_policy.rs:383-386 | picking one priority keeps every entry of that priority as often as it occurs, and no other entry |
| SpawnBudget.OfPriorityPartition | crates/amp_gameplay/src/spawn_budget_policy.rs:146-152 | the four priority classes together hold exactly the queue's entries |
| SpawnBudget.SortByPriorityCorrect | crates/amp_gameplay/src/spawn_budget_policy.rs:383-386 | the sorted queue is ordered Critical first and is a permutation of the queue |
| SpawnBudget.SpawnAllAppend | crates/amp_gameplay/src/spawn_budget_policy.rs:389-396 | recording one more spawn after a sequence of spawns applies that spawn to the counts reached |
| SpawnBudget.SpawnAllGrows | crates/amp_gameplay/src/spawn_budget_policy.rs:389-396 | spawning n entries raises the total by exactly n and lowers no count |
| SpawnBudget.DrainQueue | crates/amp_gameplay/src/spawn_budget_policy.rs:388-407 | the queue left and the entries spawned (in spawn order) are exactly GreedyDrain's, the counts are the start counts with each spawned entry recorded, and the metrics count one successful request per spawn |
| SpawnBudget.GreedyDrain | crates/amp_gameplay/src/spawn_budget_policy.rs:388-407 | the entry-by-entry drain: it spawns at most the allowance, what stays and what is spawned together have the queue's length, and with no allowance nothing is spawned |
| SpawnBudget.GreedyPermutes | crates/amp_gameplay/src/spawn_budget_policy.rs:389-405 | what stays and what is spawned are together exactly the queue's entries: none lost, none invented |
| SpawnBudget.GreedyKeepsSorted | crates/amp_gameplay/src/spawn_budget_policy.rs:393-405 | what stays of a priority-ordered queue is still priority-ordered |
| SpawnBudget.SortedCons | crates/amp_gameplay/src/spawn_budget_policy.rs:383-386 | an entry ranked no lower than every entry of a sorted queue can be put in front of it |
| SpawnBudget.GreedyEachFitted | crates/amp_gameplay/src/spawn_budget_policy.rs:391-396 | each spawned entry fitted the budget left after the spawns before it |
| SpawnBudget.GreedyRefusesRest | crates/amp_gameplay/src/spawn_budget_policy.rs:389-405 | unless the allowance ran out, no entry that stays fits the budget left once the spawned entries are counted |
| SpawnBudget.ExactDrainIsDrained | crates/amp_gameplay/src/spawn_budget_policy.rs:383-407 | the exact drain of a sorted queue spawns at most the allowance, partitions the queue, keeps it sorted, spawns only entries that fitted at their turn, and leaves nothing that fits unless the allowance ran out |
| SpawnBudget.GreedyTakesFront | crates/amp_gameplay/src/spawn_budget_policy.rs:388-396 | with one spawn allowed and a front entry that fits, exactly the front entry is spawned and the rest stays in order, whatever the priorities behind it |
| SpawnBudget.GreedyStart | crates/amp_gameplay/src/spawn_budget_policy.rs:388-389 | before the loop the whole drain is still ahead |
| SpawnBudget.GreedySpawnStep | crates/amp_gameplay/src/spawn_budget_policy.rs:391-396 | removing an entry that fits at its turn moves it to the spawned list without changing the drain as a whole |
| SpawnBudget.GreedySkipStep | crates/amp_gameplay/src/spawn_budget_policy.rs:404-405 | stepping past an entry that does not fit keeps it in the queue without changing the drain as a whole |
| SpawnBudget.GreedyDone | crates/amp_gameplay/src/spawn_budget_policy.rs:389 | when the walk reaches the end of the queue or the allowance is used up, queue and spawned list are exactly the drain's |
| SpawnBudget.Payloads | crates/amp_gameplay/src/spawn_budget_policy.rs:395 | one (type, data) pair per spawned entry, in spawn order |
| SpawnBudget.SpawnBudgetPolicy.constructor | crates/amp_gameplay/src/spawn_budget_policy.rs:302-310 | zero counts, the given caps and limits, an empty queue with maximum length 1000 and zero metrics |
| SpawnBudget.SpawnBudgetPolicy.RecordSpawn | crates/amp_gameplay/src/spawn_budget_policy.rs:413-423 | the counts gain the spawn, the request counter grows by one, and nothing else changes |
| SpawnBudget.SpawnBudgetPolicy.RecordDespawn | crates/amp_gameplay/src/spawn_budget_policy.rs:426-445 | the counts lose the despawn (saturating) and nothing else changes |
| SpawnBudget.SpawnBudgetPolicy.ResetFrameCounters | crates/amp_gameplay/src/spawn_budget_policy.rs:448-450 | the frame's spawn counter is zero |
| SpawnBudget.SpawnBudgetPolicy.RequestSpawn | crates/amp_gameplay/src/spawn_budget_policy.rs:322-346 | frame limit reached: rejected with nothing changed; else within budget: approved, recorded and counted; else queued or rejected for overflow as QueueSpawn says |
| SpawnBudget.SpawnBudgetPolicy.QueueSpawn | crates/amp_gameplay/src/spawn_budget_policy.rs:349-373 | a full queue rejects with QueueOverflow and counts a rejection; otherwise the entry is appended and counted as queued |
| SpawnBudget.SpawnBudgetPolicy.ProcessSpawnQueue | crates/amp_gameplay/src/spawn_budget_policy.rs:376-410 | sorts the queue by priority (a permutation of it) and drains it within max_spawns_per_frame minus the frame's spawns exactly as GreedyDrain does, so ExactDrainIsDrained gives every property of the drain; the frame count grows by the spawns; returns the payloads of the spawned entries in spawn order |
| SpawnBudget.SpawnBudgetPolicy.BudgetUtilization | crates/amp_gameplay/src/spawn_budget_policy.rs:485-488 | defined iff the biome's total cap is positive, and within [0, 100] while the total is within the cap |
| SpawnBudget.SpawnBudgetPolicy.QueueStatus | crates/amp_gameplay/src/spawn_budget_policy.rs:491-500 | queue length and maximum; the fill percentage is defined iff the maximum is positive and lies in [0, 100] while the queue is within it |
| SpawnBudget.UrbanUtilizationExample | crates/amp_gameplay/src/spawn_budget_policy.rs:634-644 | 60 entities against urban's total cap of 280 is about 21.43 % |
| CharacterComponents.AllBones | crates/amp_gameplay/src/character/components.rs:77-136 | all_bones has VARIANT_COUNT = 52 entries, the bone of each discriminant at its own index |
| CharacterComponents.BoneAtIndex | crates/amp_gameplay/src/character/components.rs:11-73 | the bone at position i has discriminant i |
| CharacterComponents.IndexBoneAt | crates/amp_gameplay/src/character/components.rs:11-73 | every bone's discriminant is below 52 and names that bone back |
| CharacterComponents.IndexBoneAtTorsoAndLeftHand | crates/amp_gameplay/src/character/components.rs:11-73 | discriminants 0 to 12 name their bones back |
| CharacterComponents.IndexBoneAtLeftFingers | crates/amp_gameplay/src/character/components.rs:11-73 | discriminants 13 to 25 name their bones back |
| CharacterComponents.IndexBoneAtRightHand | crates/amp_gameplay/src/character/components.rs:11-73 | discriminants 26 to 38 name their bones back |
| CharacterComponents.IndexBoneAtRightFingersAndLegs | crates/amp_gameplay/src/character/components.rs:11-73 | discriminants 39 to 51 name their bones back |
| CharacterComponents.AllBonesIndexed | crates/amp_gameplay/src/character/components.rs:756-770 | all_bones has 52 entries, each at its own discriminant, and every bone appears at its discriminant |
| CharacterComponents.AllBonesDistinct | crates/amp_gameplay/src/character/components.rs:756-770 | all_bones has no duplicates and contains every bone |
| CharacterComponents.BoneIndexInjective | crates/amp_gameplay/src/character/components.rs:387-394 | two bones with the same array slot are the same bone |
| CharacterComponents.StripPrefix | crates/amp_gameplay/src/character/components.rs:416-423 | strip_prefix succeeds iff the prefix starts the string, and the rest is what follows it |
| CharacterComponents.FirstMatchSound | crates/amp_gameplay/src/character/components.rs:405-430 | the first match is a listed bone the name denotes, and there is none iff no listed bone matches |
| CharacterComponents.MatchBoneNone | crates/amp_gameplay/src/character/components.rs:405-430 | a name that denotes no bone is left unassigned, and only such a name |
| CharacterComponents.FindBone | crates/amp_gameplay/src/character/components.rs:406-429 | the inner loop finds the first bone the name denotes (exact Mixamo name, or the stripped name against the base name) |
| CharacterComponents.StripKnownPrefixes | crates/amp_gameplay/src/character/components.rs:419-423 | each of the prefixes mixamorig:, Character1_ and Armature_ is removed |
| CharacterComponents.PrefixedNamesMatch | crates/amp_gameplay/src/character/components.rs:397-433 | a bone's Mixamo name, and its base name behind Character1_ or Armature_, all find a bone |
| CharacterComponents.FirstMatchAt | crates/amp_gameplay/src/character/components.rs:406-429 | the first match is the bone at k when it matches and no earlier bone does |
| CharacterComponents.TestNameHips | crates/amp_gameplay/src/character/components.rs:780-796 | "mixamorig:Hips" resolves to Hips |
| CharacterComponents.TestNameSpine | crates/amp_gameplay/src/character/components.rs:780-796 | "mixamorig:Spine" resolves to Spine |
| CharacterComponents.Matches | crates/amp_gameplay/src/character/components.rs:405-430 | one match result per skeleton name, in name order |
| CharacterComponents.LastAssigned | crates/amp_gameplay/src/character/components.rs:405-430 | the stored index of a bone is the last name that matched it, or none if no name did |
| CharacterComponents.MatchesStep | crates/amp_gameplay/src/character/components.rs:405-430 | the matches of one more name extend the previous matches by that name's match |
| CharacterComponents.LastAssignedStep | crates/amp_gameplay/src/character/components.rs:405-430 | one more matched name moves only the matched bone's last index to that name |
| CharacterComponents.HumanoidRig.constructor | crates/amp_gameplay/src/character/components.rs:375-383 | no bone assigned or present, and scale 1 |
| CharacterComponents.HumanoidRig.SetBoneIndex | crates/amp_gameplay/src/character/components.rs:392-394 | get_bone_index then returns Some(index) for that bone, which is present, and every other bone is unchanged |
| CharacterComponents.HumanoidRig.Assign | crates/amp_gameplay/src/character/components.rs:411-426 | the matched bone, if any, gets the name's index and no other bone changes |
| CharacterComponents.HumanoidRig.FromSkeleton | crates/amp_gameplay/src/character/components.rs:397-433 | every bone holds the index of the last skeleton name that denotes it, or none; a bone is present exactly when some name denotes it; the scale is 1 |
| CharacterComponents.HumanoidRig.HasBone | crates/amp_gameplay/src/character/components.rs:483-486 | a bone without an index is absent |
| CharacterComponents.LocomotionIndex | crates/amp_gameplay/src/character/components.rs:319-336 | every locomotion discriminant is below VARIANT_COUNT = 8 |
| CharacterComponents.AllVariants | crates/amp_gameplay/src/character/components.rs:343-354 | all_variants has 8 entries, each at its own discriminant |
| CharacterComponents.LocomotionIndexInjective | crates/amp_gameplay/src/character/components.rs:319-336 | two states with the same array slot are the same state |
| CharacterComponents.Fraction | crates/amp_gameplay/src/character/components.rs:522-527 | a timer's fraction lies in [0, 1] and is 1 once it has finished |
| CharacterComponents.Tick | crates/amp_gameplay/src/character/components.rs:537-545 | ticking a one-shot timer keeps its length, never goes past it, and sets the finished flag iff elapsed plus delta reaches the length |
| CharacterComponents.TimerExample | crates/amp_gameplay/src/character/components.rs:513-545 | a quarter second into a half-second transition is halfway, and another half second finishes it; a zero-length timer is unfinished until its first tick |
| CharacterComponents.LocomotionState.constructor | crates/amp_gameplay/src/character/components.rs:501-509 | current and previous are Idle and there is no timer |
| CharacterComponents.LocomotionState.TransitionTo | crates/amp_gameplay/src/character/components.rs:513-519 | the current state changes nothing; a new state becomes current, the old current becomes previous, a fresh timer starts and the state is transitioning, even for a zero-length transition |
| CharacterComponents.LocomotionState.TransitionProgress | crates/amp_gameplay/src/character/components.rs:522-527 | progress is 1 without a timer and lies in [0, 1] otherwise |
| CharacterComponents.LocomotionState.Update | crates/amp_gameplay/src/character/components.rs:537-545 | no timer changes nothing; a timer that finishes is cleared and previous catches up with current; otherwise the timer advances; afterwards the state is transitioning exactly when a timer remains |
| CharacterComponents.LocomotionState.IsTransitioning | crates/amp_gameplay/src/character/components.rs:529-534 | transitioning only while a timer is present that no tick has finished; when not transitioning the progress is 1 |
| CharacterComponents.AnimationSet.constructor | crates/amp_gameplay/src/character/components.rs:601-626 | no clips or nodes, and every blend weight and transition speed 1 |
| CharacterComponents.AnimationSet.AddClip | crates/amp_gameplay/src/character/components.rs:628-632 | the state's clip and weight are set, and every other state's are unchanged |
| CharacterComponents.AnimationSet.SetClip | crates/amp_gameplay/src/character/components.rs:635-637 | the state's clip is set with weight 1, and every other state's are unchanged |
| CharacterComponents.AnimationSet.SetNodeIndex | crates/amp_gameplay/src/character/components.rs:640-642 | only that state's node changes |
| CharacterComponents.AnimationSet.SetTransitionSpeed | crates/amp_gameplay/src/character/components.rs:660-662 | only that state's transition speed changes |
| CharacterComponents.AnimationSet.Validate | crates/amp_gameplay/src/character/components.rs:670-681 | the warned states are exactly those without a clip, in variant order |
| LocomotionAnimation.GroundRank | crates/amp_gameplay/src/character/systems/animation.rs:164-241 | the ground states Idle, Walk, Run, Sprint take the four ranks of the speed scale |
| LocomotionAnimation.Classify | crates/amp_gameplay/src/character/systems/animation.rs:164-241 | the state choice always lands on a ground state |
| LocomotionAnimation.CalculateLocomotionState | crates/amp_gameplay/src/character/systems/animation.rs:164-241 | every state, airborne or turning ones included, resolves to a ground state |
| LocomotionAnimation.IdleStaysIdle | crates/amp_gameplay/src/character/systems/animation.rs:172-184 | from Idle the state stays Idle iff speed <= idle; otherwise the plain thresholds decide |
| LocomotionAnimation.WalkLeavesToIdle | crates/amp_gameplay/src/character/systems/animation.rs:185-197 | from Walk the state drops to Idle iff speed <= idle * hysteresis |
| LocomotionAnimation.SprintStaysSprint | crates/amp_gameplay/src/character/systems/animation.rs:211-225 | Sprint is kept iff speed > run * hysteresis |
| LocomotionAnimation.NonGroundUsesPlainThresholds | crates/amp_gameplay/src/character/systems/animation.rs:226-251 | Jump, Fall, Land and Turn resolve by the plain thresholds, without hysteresis |
| LocomotionAnimation.ScaledBelow | crates/amp_gameplay/src/character/systems/animation.rs:22-23 | a hysteresis factor in [0, 1] never raises a non-negative threshold |
| LocomotionAnimation.ScaledMono | crates/amp_gameplay/src/character/systems/animation.rs:22-23 | scaling by the hysteresis factor keeps the thresholds in order |
| LocomotionAnimation.WellFormedNested | crates/amp_gameplay/src/character/systems/animation.rs:26-36 | increasing thresholds with a factor in [0, 1] put every exit threshold at or below its entry threshold |
| LocomotionAnimation.ClassifyDirections | crates/amp_gameplay/src/character/systems/animation.rs:164-225 | a faster result is what the entry thresholds give, a slower one what the exit thresholds give |
| LocomotionAnimation.HysteresisDirections | crates/amp_gameplay/src/character/systems/animation.rs:164-225 | from a ground state, speeding up uses the plain thresholds and slowing down the thresholds times the hysteresis factor |
| LocomotionAnimation.ChoiceInBand | crates/amp_gameplay/src/character/systems/animation.rs:164-241 | every chosen state lies inside its own hysteresis band |
| LocomotionAnimation.BandKeepsState | crates/amp_gameplay/src/character/systems/animation.rs:164-225 | a ground state whose band contains the speed is kept |
| LocomotionAnimation.StateIsStable | crates/amp_gameplay/src/character/systems/animation.rs:164-241 | recomputing at the same speed from the chosen state keeps it, so the state does not oscillate |
| LocomotionAnimation.DefaultThresholdExamples | crates/amp_gameplay/src/character/systems/animation.rs:605-631 | under the default thresholds the test's speeds give Run, Sprint, Sprint and Run (the test expects Walk, Run, Sprint and Walk) |
| LocomotionAnimation.TransitionDuration | crates/amp_gameplay/src/character/systems/animation.rs:256-279 | every cross-fade lasts between 0.05 s and 0.4 s |
| LocomotionAnimation.TransitionDurationSymmetric | crates/amp_gameplay/src/character/systems/animation.rs:256-279 | a transition takes as long as its reverse |
| LocomotionAnimation.TransitionDurationWidening | crates/amp_gameplay/src/character/systems/animation.rs:256-279 | staying put takes the 0.2 s default, and a wider jump between ground states takes longer than either narrower one |
| LocomotionAnimation.TargetSpeed | crates/amp_gameplay/src/character/systems/animation.rs:570-581 | every clip plays at between 1.0 and 1.8 times its speed |
| LocomotionAnimation.TargetSpeedMonotone | crates/amp_gameplay/src/character/systems/animation.rs:570-581 | faster ground states never play their clip slower |

## Left out

- Bevy systems, plugins, queries, commands, resources as ECS singletons and scheduling are not modelled in any module; the logic they call is modelled on plain values or classes.
- Floating point: every `f32`/`f64` is modelled as `real`, so rounding, NaN, infinities and overflow of float arithmetic are not captured.
- Integer widths: `u32`, `u64` and `usize` counters are `nat` unless the source wraps or saturates on purpose (the city generator's LCG, `saturating_sub`, the `as i32` cast), where the wrap or saturation is written out; overflow of plain `+` on counters is not modelled.
- Clocks (`Instant`, `SystemTime`, `Time`), randomness (`fastrand`, `rand`), threads, tasks, `Arc<Mutex<..>>`, channels, file and console I/O are left out or passed in as parameters.
- Bevy `Timer` is modelled as a duration, an elapsed time and the finished flag that only a tick sets; pausing and repeating modes are left out.
- crates/amp_math/src/chunk_key.rs is not part of this model, so `get_chunk_key`, `is_in_streaming_radius`, `is_in_active_radius` and `get_streaming_chunks` of the world streamer are left out; the streamer's Bevy systems and its `Instant` field are left out too.
- WorldStreaming: `lod_level_counts` is never incremented by `mark_sector_loaded`; the model keeps that behaviour of the code.
- WorldStreaming.WithinRadius: distances are compared squared, which agrees with the source's comparison of distances for non-negative radii.
- SpawnBudget: the `f32` average queue time and the plugin's systems are left out.
- LocomotionAnimation: the tests in animation.rs:605-631 expect Walk/Run/Sprint/Walk for their speeds, but under the current default thresholds the code gives Run/Sprint/Sprint/Run; the model follows the code.
- CharacterComponents: `from_skeleton_optimized` (components.rs:436-482) is not modelled; the transform- and velocity-only conversions and the unused `player_state` field are left out.
- InputAbstractions.ApplyDeadzone: requires a deadzone other than 1, where the source divides by zero.
- InputAbstractions: `InputDeviceType::name`, the `InputDevice`, `InputMapper` and `InputProcessor` traits and the `Velocity` component are not modelled.
- InputAbstractions: the `combine_action_states` test expects `just_released` for a combination whose code yields false; the model follows the code.
- PhysicsTiming.PhysicsTime.WithRate: requires a positive rate; the source would divide by zero for a zero rate.
- LevelOfDetail.LodGroup.UpdateCrossFade: requires a positive cross-fade duration; a zero duration divides by zero in the source.
- LevelOfDetail: `with_capacity` and `cleanup_invalid_entities` are left out (allocation hints and entity liveness are outside the model).
- ConfigValidation: error messages are modelled by kind, not by their text; `VehicleConfig` beyond the validated fields is left out.
- Quadtree: `query_radius` (quadtree.rs:193), `bounds_intersect_circle` (quadtree.rs:213), `query_entities` (quadtree.rs:258) and `get_streaming_coords` (quadtree.rs:288) are not modelled; they need the Euclidean distance of points and circles, which the model does not compute.
- DistanceCaching: the Morton key of a cached distance (spatial.rs:34) is not modelled, as the cache never reads it back; the Euclidean distance is computed by the caller and passed in.
- RoadNetworks: the cached spline length and the evaluation of points along a spline are left out; a spline is its list of control points.
- NpcSystems: `normalize_or_zero` of movement directions is not computed, so directions are kept unnormalised; the npc_metrics warning message is left out.
- Vegetation: `VegetationLODStats` and billboard rendering are left out.
- CityResources: the distance used by `GetBuildingHeight` is a parameter, tied to the squared distance, since square roots are not computed.
- CityResources.CityPrefabs.RegisterPrefab: requires a known category (building, street or intersection); the source panics on any other category (resources.rs:246), and a duplicate name in a known category is overwritten, as the model does.
- crates/amp_gameplay/src/city/components.rs is not part of this model; its component types appear only as the fields the layout uses.
- CityLayouts.StreetPhase: requires an intersection frequency of at least 1, where the source would take a remainder by zero; the same requirement holds for the other layout phases.
- CityLayouts.BuildingPhase: the distance of a cell to the city centre is a parameter (`DistOk` ties it to the squared distance) since square roots are not computed.
- CityLayouts: the source's generator struct is folded into the configuration; the phases return new layouts instead of mutating one in place.
- CityLayoutCsv: float printing and parsing are parameters, `str::lines` splitting is modelled on a list of lines, and a round trip of a whole file is not proved (only line by line).
- RenderDiagnostics: timestamps, `f32` rounding, `u32` overflow and the placeholder samples of the Bevy systems are left out.
- AsyncGeneration: the async tasks, the thread, `Arc<Mutex<..>>`, `generate_chunk_content_async` and the debug system are left out; the queue and budget logic is modelled.
- SpawnDistanceCurves.InterpolateDistanceCurve: requires at least as many probabilities as distances and no two equal neighbouring knots, where the source would read past the end or divide by zero; `length()` of vectors is not computed and distances are passed in; the `fastrand` spawn systems and the frustum and occlusion systems are left out.
- PerformanceBenchmarks.CalculateBenchmarkResult: requires a non-empty sample, as every caller supplies one; the standard deviation is kept as the variance (no square root), and the improvement ratio is None for a zero median.
- PerformanceBenchmarks: the timed workloads, the report text, profiling data and the `f64` rounding of `n * 0.95` are left out.
- PerformanceIntegration.IntegratedPerformanceSystem.constructor: requires a usable configuration (a positive frame target and four positive configurable budgets), and PerformanceIntegration.IntegratedPerformanceSystem.Valid keeps it. The source's `new` accepts any configuration; with a zero target or budget its `f32` divisions yield infinities or NaN, which reals do not model, so the model does not cover such configurations. The default configuration is usable (PerformanceIntegration.DefaultConfig).
- PerformanceIntegration.Ratios: requires a usable configuration, for the same reason: the source divides each mean time by its budget.
- PerformanceIntegration.WorstName: requires a usable configuration, because it scans the ratios.
- PerformanceIntegration.Load: requires a usable configuration, because the source divides the total time by the frame target.
- PerformanceIntegration.PassAdjustment: requires a usable configuration, because it uses the load and the worst subsystem.
- PerformanceIntegration.MinOfReplay: proved only for positive samples, as frame times are.
- PerformanceIntegration: the clock is a parameter floored to whole seconds; the unused `PerformanceMetrics` field and the Bevy systems and plugin are left out; the report test expects advice that the code does not produce, and the model follows the code.
- BenchmarkReport: printing, `glob` over result files and `datetime` stamps are left out; loading results is a parameter holding the parsed files.

## Findings

| source | as written | input that shows it | evidently intended | confidence | as-written member | corrected member |
|---|---|---|---|---|---|---|
| crates/amp_math/src/spatial/quadtree.rs:92-101 | `get_parent` divides the coordinates with truncating `/` | local chunk (-4, 0) is a child of region (-1, 0), yet its parent is region (0, 0) | floor division, the inverse of `get_children` | not executed | Quadtree.ParentAsWrittenMissesNegativeChildren | Quadtree.ChildrenAreParentsInverse |
