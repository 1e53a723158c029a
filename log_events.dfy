/** The interaction log the analysis scripts read: one JSON object per line
    with the store event's `type`, whether it was a `mutation` or an
    `action`, its time and its payload. Event type strings are those of the
    application's store (the analysis scripts' own copy of the MUTATION and
    ACTION tables); only the ones the analyses look at are named here. */
module LogEvents {
  import opened Wrappers
  import opened JsonValue
  import opened Grouping

  /** A parsed log line; `time` is the timestamp in milliseconds. */
  datatype LogEvent = LogEvent(kind: string, stateType: string, time: int, payload: map<string, Json>)

  // MUTATION names
  const MutationSetParam := "Set Parameter"
  const MutationShowExtents := "Show Extents Panel"
  const MutationSetMixA := "Set Mix A Element"
  const MutationSetMixB := "Set Mix B Element"
  const MutationChangeParamActive := "Add/Remove Parameter from Active Set"
  const MutationChangeParamsActive := "Add/Remove Parameters from Active Set"
  const MutationSetAutoFilterMode := "Set Auto-Filter Mode"
  const MutationSetAllSamplerOptions := "Set All Sampler Options"
  const MutationSetRelevanceThreshold := "Set Relevance Threshold"
  const MutationAddExample := "Add Example"
  const MutationResetSnapshot := "Reset Snapshot State"
  const MutationStartTrial := "Trial Started"
  const MutationEndTrial := "Trial Ended"

  // ACTION names
  const ActionJitterSample := "Run Jitter Sampler"
  const ActionGenerateRandom := "Generate Random Set"
  const ActionMix := "Run Parameter Mix"
  const ActionShowTemporaryState := "Show Temporary Snapshot State"
  const ActionAddExample := "Add Example"
  const ActionGenerateExtents := "Generate Parameter Extents"
  const ActionStartSampler := "Start Sampling"
  const ActionSetAutoFilterMode := "Set Auto-Filter Mode"

  /** The types of the events, in log order. */
  function Kinds(log: seq<LogEvent>): (ks: seq<string>)
    ensures |ks| == |log| && forall i | 0 <= i < |log| :: ks[i] == log[i].kind
  {
    seq(|log|, i requires 0 <= i < |log| => log[i].kind)
  }

  /** The last event of type `kind`: what a variable reassigned on every
      such event holds once the log is read. */
  function Last(log: seq<LogEvent>, kind: string): (r: Option<LogEvent>)
    ensures r.None? <==> forall i | 0 <= i < |log| :: log[i].kind != kind
    ensures r.Some? ==> r.value in log && r.value.kind == kind
    decreases |log|
  {
    if log == [] then None
    else if log[|log| - 1].kind == kind then Some(log[|log| - 1])
    else
      var init := log[..|log| - 1];
      assert forall i | 0 <= i < |init| :: init[i] == log[i];
      Last(init, kind)
  }

  /** An event of type `kind` followed by none of that type is the last. */
  lemma {:induction false} LastIsLatest(a: seq<LogEvent>, e: LogEvent, b: seq<LogEvent>, kind: string)
    requires e.kind == kind && forall i | 0 <= i < |b| :: b[i].kind != kind
    ensures Last(a + [e] + b, kind) == Some(e)
    decreases |b|
  {
    var log := a + [e] + b;
    if b == [] {
      assert log[..|log| - 1] == a;
    } else {
      assert log[..|log| - 1] == a + [e] + b[..|b| - 1];
      LastIsLatest(a, e, b[..|b| - 1], kind);
    }
  }

  /** The time of the last event of type `kind`. */
  function LastTime(log: seq<LogEvent>, kind: string): Option<int>
  {
    match Last(log, kind)
    case None => None
    case Some(e) => Some(e.time)
  }

  /** One more event replaces the last time of its own type only. */
  lemma LastTimeSnoc(log: seq<LogEvent>, e: LogEvent)
    ensures forall k :: LastTime(log + [e], k) == if e.kind == k then Some(e.time) else LastTime(log, k)
  {
    assert (log + [e])[..|log|] == log;
  }

  // ---------------------------------------------------------------------------
  // group-by on the event type

  /** The events of type k, in log order. */
  function OfKind(log: seq<LogEvent>, k: string): (r: seq<LogEvent>)
    ensures forall e | e in r :: e in log && e.kind == k
    decreases |log|
  {
    if log == [] then []
    else
      var prev := OfKind(log[..|log| - 1], k);
      if log[|log| - 1].kind == k then prev + [log[|log| - 1]] else prev
  }

  /** One event appended to its type's list, the list created on the type's
      first event. */
  function GroupStep(groups: map<string, seq<LogEvent>>, e: LogEvent): map<string, seq<LogEvent>>
  {
    groups[e.kind := (if e.kind in groups then groups[e.kind] else []) + [e]]
  }

  /** The groups after every event of the log has been appended. */
  function Grouped(log: seq<LogEvent>): map<string, seq<LogEvent>>
    decreases |log|
  {
    if log == [] then map[] else GroupStep(Grouped(log[..|log| - 1]), log[|log| - 1])
  }

  lemma GroupedSnoc(log: seq<LogEvent>, e: LogEvent)
    ensures Grouped(log + [e]) == GroupStep(Grouped(log), e)
  {
    assert (log + [e])[..|log|] == log;
  }

  /** A group exists exactly for each type that occurs, and holds that type's
      events in log order. */
  lemma {:induction false} GroupedIsOfKind(log: seq<LogEvent>)
    ensures forall k :: k in Grouped(log) <==> k in Kinds(log)
    ensures forall k | k in Grouped(log) :: Grouped(log)[k] == OfKind(log, k)
    decreases |log|
  {
    if log != [] {
      var init := log[..|log| - 1];
      GroupedIsOfKind(init);
      assert Kinds(log) == Kinds(init) + [log[|log| - 1].kind];
      forall k | k !in Kinds(init) ensures OfKind(init, k) == [] {
        AbsentKind(init, k);
      }
    }
  }

  lemma {:induction false} AbsentKind(log: seq<LogEvent>, k: string)
    requires k !in Kinds(log)
    ensures OfKind(log, k) == []
    decreases |log|
  {
    if log != [] {
      assert Kinds(log[..|log| - 1]) == Kinds(log)[..|log| - 1];
      AbsentKind(log[..|log| - 1], k);
    }
  }

  /** A type's group has as many events as the log has of that type. */
  lemma {:induction false} OfKindSize(log: seq<LogEvent>, k: string)
    ensures |OfKind(log, k)| == Count(Kinds(log), k)
    decreases |log|
  {
    if log != [] {
      assert Kinds(log[..|log| - 1]) == Kinds(log)[..|log| - 1];
      OfKindSize(log[..|log| - 1], k);
    }
  }

  /** Group size of `key`, 0 for a type that never occurred. */
  function GroupSize(groups: map<string, seq<LogEvent>>, key: string): nat
  {
    if key in groups then |groups[key]| else 0
  }

  /** Summed over the distinct types, the group sizes give the number of
      events: grouping loses and duplicates nothing. */
  lemma GroupSizesAddUp(log: seq<LogEvent>)
    ensures forall k :: GroupSize(Grouped(log), k) == Count(Kinds(log), k)
    ensures CountOver(Keys(Kinds(log)), Kinds(log)) == |log|
  {
    GroupedIsOfKind(log);
    forall k ensures GroupSize(Grouped(log), k) == Count(Kinds(log), k) {
      OfKindSize(log, k);
      if k !in Kinds(log) {
        AbsentKind(log, k);
      }
    }
    CountsAddUp(Kinds(log));
  }
}
