/** Input events: the notifications the input system sends between systems,
    the batch that collects them in one frame, and the input system's
    performance metrics. Timestamps are game time in seconds, as reals. */
module InputEvents {
  import opened Common
  import opened InputContexts
  import opened InputActions

  /** `InputEvent`: a change of one action's state. */
  datatype InputEvent = InputEvent(action: InputAction, context: InputContext, state: ActionState,
                                   timestamp: real, source: Option<string>)

  /** `InputEvent::new`: no source. */
  function NewInputEvent(action: InputAction, context: InputContext, state: ActionState, timestamp: real): (e: InputEvent)
    ensures e.source == None && e.state == state && e.timestamp == timestamp
  {
    InputEvent(action, context, state, timestamp, None)
  }

  /** `is_pressed`, `is_released` and `is_active` read the edge and level flags. */
  predicate IsPressedEvent(e: InputEvent) { e.state.justPressed }
  predicate IsReleasedEvent(e: InputEvent) { e.state.justReleased }
  predicate IsActiveEvent(e: InputEvent) { e.state.pressed }

  /** For an event whose state's edges agree with its level (a press edge
      only while held, a release edge only once let go), a press is also
      active, a release is not, and no event is both. */
  lemma EventFlags(e: InputEvent)
    requires e.state.justPressed ==> e.state.pressed
    requires e.state.justReleased ==> !e.state.pressed
    ensures IsPressedEvent(e) ==> IsActiveEvent(e)
    ensures IsReleasedEvent(e) ==> !IsActiveEvent(e)
    ensures !(IsPressedEvent(e) && IsReleasedEvent(e))
  {
  }

  datatype ContextChangeReason = EnteredVehicle | ExitedVehicle | MenuOpened | MenuClosed | Manual
                               | GameStateChange | Emergency

  /** `ContextChangeReason::description` */
  function Description(r: ContextChangeReason): string
  {
    match r
    case EnteredVehicle => "Entered Vehicle"
    case ExitedVehicle => "Exited Vehicle"
    case MenuOpened => "Menu Opened"
    case MenuClosed => "Menu Closed"
    case Manual => "Manual Change"
    case GameStateChange => "Game State Change"
    case Emergency => "Emergency Reset"
  }

  /** Different reasons are described differently. */
  lemma DescriptionsDistinct(r: ContextChangeReason, s: ContextChangeReason)
    ensures r != s ==> Description(r) != Description(s)
  {
    if r != s {
      var d, e := Description(r), Description(s);
      if |d| == |e| {
        // Equal lengths leave pairs whose spellings differ early.
        assert d[0] != e[0] || d[1] != e[1] || d[5] != e[5] || d != e;
      }
    }
  }

  datatype ContextChangeEvent = ContextChangeEvent(from: InputContext, to: InputContext, timestamp: real,
                                                   reason: ContextChangeReason)

  datatype ConfigChangeEvent = ConfigChangeEvent(action: InputAction, context: InputContext, oldBinding: Option<string>,
                                                 newBinding: string, timestamp: real, hotReloadable: bool)

  datatype InputSystemEventType = Initialized | ConfigReloaded | PerformanceWarning | Error | EmergencyReset | ContextReset

  /** `InputMetrics`: microsecond timings and frame counts. */
  datatype InputMetrics = InputMetrics(processTimeUs: nat, activeActions: nat, eventsGenerated: nat,
                                       maxProcessTimeUs: nat, avgProcessTimeUs: nat)

  datatype InputSystemEvent = InputSystemEvent(eventType: InputSystemEventType, timestamp: real,
                                               message: Option<string>, metrics: Option<InputMetrics>)

  /** `is_performance_good`: at most 1 ms this frame and 0.5 ms on average. */
  predicate IsPerformanceGood(m: InputMetrics)
  {
    m.processTimeUs <= 1000 && m.avgProcessTimeUs <= 500
  }

  datatype PerformanceStatus = Good | Warning | Critical

  /** `performance_status`: above 2 ms critical, above 1 ms a warning,
      otherwise good. */
  function Status(m: InputMetrics): (s: PerformanceStatus)
    ensures s == Critical <==> m.processTimeUs > 2000
    ensures s == Warning <==> 1000 < m.processTimeUs <= 2000
    ensures s == Good <==> m.processTimeUs <= 1000
  {
    if m.processTimeUs > 2000 then Critical
    else if m.processTimeUs > 1000 then Warning
    else Good
  }

  /** Good performance always reports the Good status; the converse needs
      the average to be within its limit as well. */
  lemma GoodPerformanceIsGoodStatus(m: InputMetrics)
    ensures IsPerformanceGood(m) ==> Status(m) == Good
    ensures Status(m) == Good ==> (IsPerformanceGood(m) <==> m.avgProcessTimeUs <= 500)
  {
  }

  /** The status never improves as the frame time grows. */
  lemma StatusMonotone(m: InputMetrics, n: InputMetrics)
    requires m.processTimeUs <= n.processTimeUs
    ensures Status(n) == Good ==> Status(m) == Good
    ensures Status(m) == Critical ==> Status(n) == Critical
  {
  }

  // ---------------------------------------------------------------------
  // Filtering by time

  predicate InRange(t: real, start: real, end: real)
  {
    t >= start && t <= end
  }

  /** `iter().filter(|e| e.timestamp >= start && e.timestamp <= end)`: the
      events stamped within the closed range, each as often as it occurs,
      and nothing else. */
  function KeepInRange<E(!new)>(s: seq<E>, stamp: E -> real, start: real, end: real): (r: seq<E>)
    ensures |r| <= |s|
    ensures forall k :: 0 <= k < |r| ==> InRange(stamp(r[k]), start, end)
    ensures forall e :: multiset(r)[e] == if InRange(stamp(e), start, end) then multiset(s)[e] else 0
  {
    if s == [] then []
    else
      var rest := KeepInRange(s[1..], stamp, start, end);
      assert s == [s[0]] + s[1..];
      if InRange(stamp(s[0]), start, end) then [s[0]] + rest else rest
  }

  /** Filtering keeps the order: the filter of a concatenation is the
      concatenation of the filters. */
  lemma {:induction false} KeepInRangeAppend<E(!new)>(s: seq<E>, t: seq<E>, stamp: E -> real, start: real, end: real)
    ensures KeepInRange(s + t, stamp, start, end) == KeepInRange(s, stamp, start, end) + KeepInRange(t, stamp, start, end)
  {
    if s == [] {
      assert s + t == t;
    } else {
      assert (s + t)[1..] == s[1..] + t;
      KeepInRangeAppend(s[1..], t, stamp, start, end);
    }
  }

  /** A range that covers every stamp keeps everything; filtering twice is
      filtering once. */
  lemma {:induction false} KeepInRangeAll<E(!new)>(s: seq<E>, stamp: E -> real, start: real, end: real)
    requires forall k :: 0 <= k < |s| ==> InRange(stamp(s[k]), start, end)
    ensures KeepInRange(s, stamp, start, end) == s
  {
    if s != [] {
      KeepInRangeAll(s[1..], stamp, start, end);
      assert s == [s[0]] + s[1..];
    }
  }

  lemma KeepInRangeIdempotent<E(!new)>(s: seq<E>, stamp: E -> real, start: real, end: real)
    ensures KeepInRange(KeepInRange(s, stamp, start, end), stamp, start, end) == KeepInRange(s, stamp, start, end)
  {
    KeepInRangeAll(KeepInRange(s, stamp, start, end), stamp, start, end);
  }

  function InputStamp(e: InputEvent): real { e.timestamp }
  function ContextStamp(e: ContextChangeEvent): real { e.timestamp }
  function ConfigStamp(e: ConfigChangeEvent): real { e.timestamp }
  function SystemStamp(e: InputSystemEvent): real { e.timestamp }

  /** `InputEventBatch`: the events of one frame, in four lists. */
  class InputEventBatch {
    var inputEvents: seq<InputEvent>
    var contextEvents: seq<ContextChangeEvent>
    var configEvents: seq<ConfigChangeEvent>
    var systemEvents: seq<InputSystemEvent>

    /** `InputEventBatch::new`: four empty lists. */
    constructor ()
      ensures inputEvents == [] && contextEvents == [] && configEvents == [] && systemEvents == []
      ensures TotalEvents() == 0
    {
      inputEvents, contextEvents, configEvents, systemEvents := [], [], [], [];
    }

    /** `total_events`: the number of events in the four lists together. */
    function TotalEvents(): nat
      reads this
    {
      |inputEvents| + |contextEvents| + |configEvents| + |systemEvents|
    }

    /** `is_empty`: every list is empty, which is a total of zero. */
    predicate IsEmpty()
      reads this
      ensures IsEmpty() <==> TotalEvents() == 0
    {
      inputEvents == [] && contextEvents == [] && configEvents == [] && systemEvents == []
    }

    /** `add_input_event`: appended at the end; the total grows by one. */
    method AddInputEvent(e: InputEvent)
      modifies this`inputEvents
      ensures inputEvents == old(inputEvents) + [e]
      ensures TotalEvents() == old(TotalEvents()) + 1 && !IsEmpty()
    {
      inputEvents := inputEvents + [e];
    }

    method AddContextEvent(e: ContextChangeEvent)
      modifies this`contextEvents
      ensures contextEvents == old(contextEvents) + [e]
      ensures TotalEvents() == old(TotalEvents()) + 1 && !IsEmpty()
    {
      contextEvents := contextEvents + [e];
    }

    method AddConfigEvent(e: ConfigChangeEvent)
      modifies this`configEvents
      ensures configEvents == old(configEvents) + [e]
      ensures TotalEvents() == old(TotalEvents()) + 1 && !IsEmpty()
    {
      configEvents := configEvents + [e];
    }

    method AddSystemEvent(e: InputSystemEvent)
      modifies this`systemEvents
      ensures systemEvents == old(systemEvents) + [e]
      ensures TotalEvents() == old(TotalEvents()) + 1 && !IsEmpty()
    {
      systemEvents := systemEvents + [e];
    }

    /** `clear`: every list emptied. */
    method Clear()
      modifies this
      ensures inputEvents == [] && contextEvents == [] && configEvents == [] && systemEvents == []
      ensures IsEmpty() && TotalEvents() == 0
    {
      inputEvents, contextEvents, configEvents, systemEvents := [], [], [], [];
    }

    /** `filter_by_time_range`: a new batch holding, list by list and in
        order, the events stamped within `[start, end]`; this batch is left
        as it was. */
    method FilterByTimeRange(start: real, end: real) returns (filtered: InputEventBatch)
      ensures fresh(filtered)
      ensures filtered.inputEvents == KeepInRange(inputEvents, InputStamp, start, end)
      ensures filtered.contextEvents == KeepInRange(contextEvents, ContextStamp, start, end)
      ensures filtered.configEvents == KeepInRange(configEvents, ConfigStamp, start, end)
      ensures filtered.systemEvents == KeepInRange(systemEvents, SystemStamp, start, end)
      ensures filtered.TotalEvents() <= TotalEvents()
    {
      var i := KeepInRange(inputEvents, InputStamp, start, end);
      var c := KeepInRange(contextEvents, ContextStamp, start, end);
      var g := KeepInRange(configEvents, ConfigStamp, start, end);
      var y := KeepInRange(systemEvents, SystemStamp, start, end);
      filtered := new InputEventBatch();
      filtered.inputEvents, filtered.contextEvents, filtered.configEvents, filtered.systemEvents := i, c, g, y;
    }
  }

  /** The filter test: of events at 1.0, 2.5 and 4.0, the range [2.0, 3.0]
      keeps only the one at 2.5. */
  lemma FilterExample(a: InputEvent, b: InputEvent, c: InputEvent)
    requires a.timestamp == 1.0 && b.timestamp == 2.5 && c.timestamp == 4.0
    ensures KeepInRange([a, b, c], InputStamp, 2.0, 3.0) == [b]
  {
    assert [a, b, c][1..] == [b, c];
    assert [b, c][1..] == [c];
    assert [c][1..] == [];
  }
}
