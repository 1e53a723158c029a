/** The per-trial timeline: the log split into phases by the events that start
    one, the time spent in each phase, the examples added and the previews
    shown. The SVG drawing is not modelled; what the drawing's labels say about
    an adjective-sampling phase is. */
module Timeline {
  import opened Wrappers
  import opened JsonValue
  import opened Grouping
  import opened LogEvents

  /** The event types that start a phase, and the phase each starts. */
  const PhaseEvents: map<string, string> := map[
    MutationSetParam := "params",
    MutationShowExtents := "extents",
    MutationSetMixA := "mix",
    MutationSetMixB := "mix",
    MutationChangeParamActive := "selection",
    MutationSetAutoFilterMode := "selection",
    MutationSetAllSamplerOptions := "adjective sample",
    ActionJitterSample := "global sample",
    ActionGenerateRandom := "global sample",
    ActionMix := "mix",
    MutationSetRelevanceThreshold := "selection"
  ]

  /** The drawing colour of each phase. */
  const Colors: map<string, string> := map[
    "params" := "#290d0a",
    "extents" := "#672c11",
    "mix" := "#7c5900",
    "selection" := "#afeab5",
    "global sample" := "#8bbcd9",
    "adjective sample" := "#268ca7"
  ]

  /** `isPhaseEvent`: the phase an event type starts, or none; every phase has a
      colour to be drawn in. */
  function PhaseOf(kind: string): (r: Option<string>)
    ensures r.Some? <==> kind in PhaseEvents
    ensures r.Some? ==> r.value in Colors
  {
    if kind in PhaseEvents then Some(PhaseEvents[kind]) else None
  }

  /** The store's mutation and action tables share some strings, so a phase
      starts on either kind of event with that type. */
  lemma SharedPhaseStarts()
    ensures PhaseOf(ActionSetAutoFilterMode) == Some("selection")
    ensures PhaseOf(ActionStartSampler).None? && PhaseOf(ActionGenerateExtents).None?
  {
  }

  /** A phase-starting event tagged with its phase. */
  datatype Marker = Marker(event: LogEvent, phase: string)

  /** The phase markers, in log order. */
  function Phases(log: seq<LogEvent>): (ms: seq<Marker>)
    ensures forall i | 0 <= i < |ms| :: ms[i].event in log && PhaseOf(ms[i].event.kind) == Some(ms[i].phase)
    decreases |log|
  {
    if log == [] then []
    else
      var prev := Phases(log[..|log| - 1]);
      var e := log[|log| - 1];
      match PhaseOf(e.kind)
      case None => prev
      case Some(p) => prev + [Marker(e, p)]
  }

  /** Markers of a log in two parts are the markers of the first part followed
      by those of the second: log order is kept. */
  lemma {:induction false} PhasesAppend(a: seq<LogEvent>, b: seq<LogEvent>)
    ensures Phases(a + b) == Phases(a) + Phases(b)
    decreases |b|
  {
    if b != [] {
      var b' := b[..|b| - 1];
      assert (a + b)[..|a + b| - 1] == a + b';
      PhasesAppend(a, b');
    } else {
      assert a + b == a;
    }
  }

  /** Every phase-starting event of the log has its marker. */
  lemma {:induction false} PhasesComplete(log: seq<LogEvent>, i: nat)
    requires i < |log| && PhaseOf(log[i].kind).Some?
    ensures Marker(log[i], PhaseOf(log[i].kind).value) in Phases(log)
  {
    assert log == log[..i] + [log[i]] + log[i + 1..];
    PhasesAppend(log[..i] + [log[i]], log[i + 1..]);
    PhasesAppend(log[..i], [log[i]]);
    assert Phases([log[i]]) == [Marker(log[i], PhaseOf(log[i].kind).value)] by {
      assert [log[i]][..0] == [];
    }
  }

  predicate IsExample(e: LogEvent) { e.stateType == "mutation" && e.kind == MutationAddExample }

  predicate IsPreview(e: LogEvent) { e.stateType == "action" && e.kind == ActionShowTemporaryState }

  function Filter(log: seq<LogEvent>, example: bool): (r: seq<LogEvent>)
    ensures forall e | e in r :: e in log && (if example then IsExample(e) else IsPreview(e))
    ensures forall e | e in log && (if example then IsExample(e) else IsPreview(e)) :: e in r
    decreases |log|
  {
    if log == [] then []
    else
      var prev := Filter(log[..|log| - 1], example);
      var e := log[|log| - 1];
      assert log == log[..|log| - 1] + [e];
      if (if example then IsExample(e) else IsPreview(e)) then prev + [e] else prev
  }

  /** What the first pass over the log collects. */
  datatype Collected = Collected(
    phases: seq<Marker>,
    examples: seq<LogEvent>,
    previews: seq<LogEvent>,
    start: Option<int>,
    end: Option<int>,
    endEvent: Option<LogEvent>)

  /** The first loop of `timeline`: markers, examples and previews in log
      order, and the last trial start and end. */
  method Collect(log: seq<LogEvent>) returns (c: Collected)
    ensures c.phases == Phases(log)
    ensures c.examples == Filter(log, true) && c.previews == Filter(log, false)
    ensures c.start == LastTime(log, MutationStartTrial)
    ensures c.end == LastTime(log, MutationEndTrial) && c.endEvent == Last(log, MutationEndTrial)
  {
    c := Collected([], [], [], None, None, None);
    var i := 0;
    while i < |log|
      invariant i <= |log|
      invariant c.phases == Phases(log[..i])
      invariant c.examples == Filter(log[..i], true) && c.previews == Filter(log[..i], false)
      invariant c.start == LastTime(log[..i], MutationStartTrial)
      invariant c.end == LastTime(log[..i], MutationEndTrial) && c.endEvent == Last(log[..i], MutationEndTrial)
    {
      var e := log[i];
      assert log[..i + 1][..i] == log[..i] && log[..i + 1][i] == e;
      if e.kind == MutationStartTrial {
        c := c.(start := Some(e.time));
      }
      if e.kind == MutationEndTrial {
        c := c.(end := Some(e.time), endEvent := Some(e));
      }
      var phase := PhaseOf(e.kind);
      if phase.Some? {
        c := c.(phases := c.phases + [Marker(e, phase.value)]);
      }
      if IsExample(e) {
        c := c.(examples := c.examples + [e]);
      }
      if IsPreview(e) {
        c := c.(previews := c.previews + [e]);
      }
      i := i + 1;
    }
    assert log[..i] == log;
  }

  // ---------------------------------------------------------------------------
  // time per phase

  /** A phase lasts until the next marker, the last one until the trial's end. */
  function Interval(ms: seq<Marker>, endTime: int, i: nat): int
    requires i < |ms|
  {
    (if i + 1 < |ms| then ms[i + 1].event.time else endTime) - ms[i].event.time
  }

  function Intervals(ms: seq<Marker>, endTime: int): (r: seq<int>)
    ensures |r| == |ms| && forall i | 0 <= i < |ms| :: r[i] == Interval(ms, endTime, i)
  {
    seq(|ms|, i requires 0 <= i < |ms| => Interval(ms, endTime, i))
  }

  function PhaseNames(ms: seq<Marker>): (r: seq<string>)
    ensures |r| == |ms| && forall i | 0 <= i < |ms| :: r[i] == ms[i].phase
  {
    seq(|ms|, i requires 0 <= i < |ms| => ms[i].phase)
  }

  /** The phase lengths telescope: together they span from the first marker to
      the trial's end. */
  lemma {:induction false} Telescope(ms: seq<Marker>, endTime: int)
    requires |ms| > 0
    ensures Total(Intervals(ms, endTime)) == endTime - ms[0].event.time
    decreases |ms|
  {
    if |ms| > 1 {
      var init := ms[..|ms| - 1];
      var last := ms[|ms| - 1].event.time;
      assert Intervals(ms, endTime)[..|ms| - 1] == Intervals(init, last);
      Telescope(init, last);
    }
  }

  /** `totalTime`: for each phase, the summed lengths of its markers' intervals. */
  function PhaseTotals(ms: seq<Marker>, endTime: int): map<string, int>
  {
    map k | k in PhaseNames(ms) :: SumFor(PhaseNames(ms), Intervals(ms, endTime), k)
  }

  /** Summed over the phases, `totalTime` is the time from the first marker to
      the trial's end. */
  lemma PhaseTotalsSpan(ms: seq<Marker>, endTime: int)
    requires |ms| > 0
    ensures SumOver(Keys(PhaseNames(ms)), PhaseNames(ms), Intervals(ms, endTime)) == endTime - ms[0].event.time
    ensures forall k :: k in PhaseTotals(ms, endTime) <==> k in Keys(PhaseNames(ms))
  {
    SumByKey(PhaseNames(ms), Intervals(ms, endTime));
    Telescope(ms, endTime);
  }

  /** The second loop of `timeline`. Without a trial-end event the last
      marker's `next` is undefined and reading its time throws. */
  method TotalTime(ms: seq<Marker>, endEvent: Option<LogEvent>) returns (r: Result<map<string, int>, ()>)
    ensures r.Err? <==> |ms| > 0 && endEvent.None?
    ensures r.Ok? ==> r.value == PhaseTotals(ms, if endEvent.Some? then endEvent.value.time else 0)
  {
    var endTime := if endEvent.Some? then endEvent.value.time else 0;
    var names, lengths := PhaseNames(ms), Intervals(ms, endTime);
    var totals: map<string, int> := map[];
    var i := 0;
    while i < |ms|
      invariant i <= |ms|
      invariant totals == SumsTo(names, lengths, i)
      invariant |ms| > 0 && endEvent.None? ==> i < |ms|
    {
      if i + 1 >= |ms| && endEvent.None? {
        return Err(());
      }
      var next := if i + 1 < |ms| then ms[i + 1].event else endEvent.value;
      var interval := next.time - ms[i].event.time;
      var phase := ms[i].phase;
      SumsStep(names, lengths, i);
      totals := totals[phase := (if phase in totals then totals[phase] else 0) + interval];
      i := i + 1;
    }
    assert names[..i] == names && lengths[..i] == lengths;
    return Ok(totals);
  }

  /** What `timeline` returns: the time per phase and the trial's duration,
      `end - start`, which is NaN when either event is missing. */
  datatype TimelineData = TimelineData(totalTime: map<string, int>, duration: Option<int>)

  /** `timeline` on one log. With no marker, reading the first marker's time
      throws; with no trial-end event, so does the last marker's interval. */
  method Run(log: seq<LogEvent>) returns (r: Result<TimelineData, ()>)
    ensures r.Err? <==> Phases(log) == [] || Last(log, MutationEndTrial).None?
    ensures r.Ok? ==> r.value.totalTime == PhaseTotals(Phases(log), Last(log, MutationEndTrial).value.time)
    ensures r.Ok? ==> (r.value.duration.Some? <==> LastTime(log, MutationStartTrial).Some?)
    ensures r.Ok? && r.value.duration.Some? ==>
      r.value.duration.value == LastTime(log, MutationEndTrial).value - LastTime(log, MutationStartTrial).value
  {
    var c := Collect(log);
    if c.phases == [] {
      return Err(());
    }
    var totals := TotalTime(c.phases, c.endEvent);
    if totals.Err? {
      return Err(());
    }
    var duration := if c.start.Some? && c.end.Some? then Some(c.end.value - c.start.value) else None;
    return Ok(TimelineData(totals.value, duration));
  }

  /** The time per phase as a function of the log, for the analyses that run
      `timeline` over many logs; none when `timeline` throws. */
  function Totals(log: seq<LogEvent>): Option<map<string, int>>
  {
    var ms := Phases(log);
    var e := Last(log, MutationEndTrial);
    if ms == [] || e.None? then None else Some(PhaseTotals(ms, e.value.time))
  }

  // ---------------------------------------------------------------------------
  // the label of an adjective-sampling phase

  /** JavaScript's `v > 0` on a payload value. Strings, arrays and objects,
      which JavaScript would convert to a number first, compare false here. */
  predicate Positive(v: Json)
  {
    match v
    case Num(n) => n > 0.0
    case Bool(b) => b
    case _ => false
  }

  /** The text drawn on an adjective-sampling phase: 'tw' for a `gt` threshold
      above zero, 'aw' for `lt`, 'nr' for `absRadius`, 'ax' for `gt` at exactly
      zero, and nothing otherwise. */
  function Label(payload: map<string, Json>): (text: string)
    ensures var mode, t := Field(payload, "thresholdEvalMode"), Field(payload, "threshold");
      && (text == "tw" <==> mode == Str("gt") && Positive(t))
      && (text == "aw" <==> mode == Str("lt"))
      && (text == "nr" <==> mode == Str("absRadius"))
      && (text == "ax" <==> mode == Str("gt") && t == Num(0.0))
      && (text == "" <==> !(mode in {Str("lt"), Str("absRadius")}) && !(mode == Str("gt") && (Positive(t) || t == Num(0.0))))
  {
    var mode, t := Field(payload, "thresholdEvalMode"), Field(payload, "threshold");
    if mode == Str("gt") && Positive(t) then "tw"
    else if mode == Str("lt") then "aw"
    else if mode == Str("absRadius") then "nr"
    else if mode == Str("gt") && t == Num(0.0) then "ax"
    else ""
  }

  /** A `gt` phase with a negative threshold, and any `radius` phase, is drawn
      without a label. */
  lemma UnlabelledModes(payload: map<string, Json>, x: real)
    requires Field(payload, "threshold") == Num(x) && x < 0.0
    requires Field(payload, "thresholdEvalMode") in {Str("gt"), Str("radius")}
    ensures Label(payload) == ""
  {
  }
}
