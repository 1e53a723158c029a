/** The single-log summary script: every line grouped under its event type,
    the trial's start and end remembered, and a fixed set of counts reported
    once the file is read. */
module AnalyzeLog {
  import opened Wrappers
  import opened Grouping
  import opened LogEvents

  /** The script's state while the lines stream in. */
  class Analyzer {
    var groups: map<string, seq<LogEvent>>
    var start: Option<int>
    var end: Option<int>

    constructor ()
      ensures groups == map[] && start.None? && end.None?
    {
      groups := map[];
      start := None;
      end := None;
    }

    /** The `line` handler. */
    method OnLine(e: LogEvent)
      modifies this
      ensures groups == GroupStep(old(groups), e)
      ensures start == (if e.kind == MutationStartTrial then Some(e.time) else old(start))
      ensures end == (if e.kind == MutationEndTrial then Some(e.time) else old(end))
    {
      if e.kind !in groups {
        groups := groups[e.kind := []];
      }
      groups := groups[e.kind := groups[e.kind] + [e]];
      if e.kind == MutationStartTrial {
        start := Some(e.time);
      }
      if e.kind == MutationEndTrial {
        end := Some(e.time);
      }
    }
  }

  /** Reading a whole log: each group holds its type's lines in order, and
      start and end are the times of the last trial start and end. */
  method ReadLog(log: seq<LogEvent>) returns (a: Analyzer)
    ensures a.groups == Grouped(log)
    ensures a.start == LastTime(log, MutationStartTrial)
    ensures a.end == LastTime(log, MutationEndTrial)
  {
    a := new Analyzer();
    var i := 0;
    while i < |log|
      invariant i <= |log|
      invariant a.groups == Grouped(log[..i])
      invariant a.start == LastTime(log[..i], MutationStartTrial)
      invariant a.end == LastTime(log[..i], MutationEndTrial)
    {
      assert log[..i + 1][..i] == log[..i] && log[..i + 1][i] == log[i];
      a.OnLine(log[i]);
      i := i + 1;
    }
    assert log[..i] == log;
  }

  /** The counts printed at the end, in order, each the size of one group. */
  datatype Counts = Counts(
    manualParamChanges: nat,
    randomSamples: nat,
    samplesHovered: nat,
    samplingOperations: nat,
    examplesAdded: nat,
    extentsViewed: nat)

  /** What the `close` handler prints: the six counts, which are always
      printed, then the duration or the exception that ends it. */
  datatype Report = Report(counts: Counts, duration: Result<real, ()>)

  /** The `close` handler: each count is its group's size, 0 for an absent
      group; the duration in seconds needs both trial events, else reading
      `end.getTime()` (or `start.getTime()`) throws after the counts are
      out. */
  function Summary(groups: map<string, seq<LogEvent>>, start: Option<int>, end: Option<int>): (r: Report)
    ensures r.duration.Err? <==> start.None? || end.None?
    ensures r.duration.Ok? ==> r.duration.value * 1000.0 == (end.value - start.value) as real
  {
    var counts := Counts(
      GroupSize(groups, MutationSetParam),
      GroupSize(groups, ActionGenerateRandom),
      GroupSize(groups, MutationResetSnapshot),
      GroupSize(groups, MutationSetAllSamplerOptions),
      GroupSize(groups, ActionAddExample),
      GroupSize(groups, ActionGenerateExtents));
    if start.None? || end.None? then Report(counts, Err(()))
    else Report(counts, Ok((end.value - start.value) as real / 1000.0))
  }

  /** Every count reported for a log is the number of its lines of that type,
      whether or not the duration line then throws. */
  lemma ReportCounts(log: seq<LogEvent>)
    ensures var r := Summary(Grouped(log), LastTime(log, MutationStartTrial), LastTime(log, MutationEndTrial)).counts;
      && r.manualParamChanges == Count(Kinds(log), MutationSetParam)
      && r.randomSamples == Count(Kinds(log), ActionGenerateRandom)
      && r.samplesHovered == Count(Kinds(log), MutationResetSnapshot)
      && r.samplingOperations == Count(Kinds(log), MutationSetAllSamplerOptions)
      && r.examplesAdded == Count(Kinds(log), ActionAddExample)
      && r.extentsViewed == Count(Kinds(log), ActionGenerateExtents)
  {
    GroupSizesAddUp(log);
  }

  /** The lines of type k with the given state type. */
  function OfKindAndState(log: seq<LogEvent>, k: string, stateType: string): nat
    decreases |log|
  {
    if log == [] then 0
    else
      var e := log[|log| - 1];
      OfKindAndState(log[..|log| - 1], k, stateType) + (if e.kind == k && e.stateType == stateType then 1 else 0)
  }

  /** The mutation and the action that add an example log the same type
      string, so 'Examples Added' counts both kinds of line together. */
  lemma {:induction false} ExamplesMerged(log: seq<LogEvent>)
    requires forall i | 0 <= i < |log| :: log[i].stateType in {"mutation", "action"}
    ensures GroupSize(Grouped(log), ActionAddExample)
      == OfKindAndState(log, MutationAddExample, "mutation") + OfKindAndState(log, ActionAddExample, "action")
    decreases |log|
  {
    GroupSizesAddUp(log);
    if log != [] {
      var init := log[..|log| - 1];
      assert Kinds(init) == Kinds(log)[..|log| - 1];
      ExamplesMerged(init);
      GroupSizesAddUp(init);
    }
  }
}
