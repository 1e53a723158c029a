/** The multi-log study script: for each participant's log of a task, which
    tools were used, the events grouped by state type and event type, and,
    across the task's logs, how many logs spent time in each timeline phase
    and how much in total, printed as an average in seconds. */
module VerifyUse {
  import opened Wrappers
  import opened Text
  import opened LogEvents
  import Timeline

  // ---------------------------------------------------------------------------
  // reading a log file

  /** `logData.split('\n')` with the last piece popped: the line after the
      final newline, empty in a well-formed log, is dropped. */
  function LogLines(text: string): (lines: seq<string>)
    ensures |lines| == |Split(text, "\n")| - 1
  {
    var parts := Split(text, "\n");
    parts[..|parts| - 1]
  }

  /** Lines each followed by a newline, as the logger writes them. */
  function Terminated(lines: seq<string>): string
  {
    if lines == [] then "" else lines[0] + "\n" + Terminated(lines[1..])
  }

  lemma {:induction false} TerminatedIsJoin(lines: seq<string>)
    ensures Terminated(lines) == Join(lines + [""], "\n")
    decreases |lines|
  {
    if lines != [] {
      TerminatedIsJoin(lines[1..]);
      assert (lines + [""])[1..] == lines[1..] + [""];
    }
  }

  /** Reading a log file gives back exactly the lines that were written. */
  lemma LogLinesRoundTrip(lines: seq<string>)
    requires forall i | 0 <= i < |lines| :: Excludes(lines[i], '\n')
    ensures LogLines(Terminated(lines)) == lines
  {
    TerminatedIsJoin(lines);
    SplitJoin(lines + [""], '\n');
  }

  // ---------------------------------------------------------------------------
  // which tools a log used

  datatype Flag = Sampling | Highlighted | Selection | Extents | General | Mixer

  /** The flag an event type sets: the first matching branch of the chain. */
  function Classify(kind: string): (f: Option<Flag>)
    ensures f == Some(General) <==> kind == ActionGenerateRandom
    ensures f == Some(Highlighted) <==> kind == MutationSetParam
    ensures f == Some(Selection) <==> kind in {MutationChangeParamActive, MutationChangeParamsActive, ActionSetAutoFilterMode}
    ensures f == Some(Sampling) <==> kind == ActionStartSampler
    ensures f == Some(Extents) <==> kind == ActionGenerateExtents
    ensures f == Some(Mixer) <==> kind == ActionMix
  {
    if kind == ActionGenerateRandom then Some(General)
    else if kind == MutationSetParam then Some(Highlighted)
    else if kind == MutationChangeParamActive || kind == MutationChangeParamsActive || kind == ActionSetAutoFilterMode then Some(Selection)
    else if kind == ActionStartSampler then Some(Sampling)
    else if kind == ActionGenerateExtents then Some(Extents)
    else if kind == ActionMix then Some(Mixer)
    else None
  }

  /** The `used` record. */
  datatype Used = Used(sampling: bool, highlighted: bool, selection: bool, extents: bool, general: bool, mixer: bool)

  const NoneUsed := Used(false, false, false, false, false, false)

  function Get(u: Used, f: Flag): bool
  {
    match f
    case Sampling => u.sampling
    case Highlighted => u.highlighted
    case Selection => u.selection
    case Extents => u.extents
    case General => u.general
    case Mixer => u.mixer
  }

  /** Setting one flag: that flag becomes true and no other changes. */
  function Mark(u: Used, f: Option<Flag>): (r: Used)
    ensures forall g :: Get(r, g) == (Get(u, g) || f == Some(g))
  {
    match f
    case None => u
    case Some(Sampling) => u.(sampling := true)
    case Some(Highlighted) => u.(highlighted := true)
    case Some(Selection) => u.(selection := true)
    case Some(Extents) => u.(extents := true)
    case Some(General) => u.(general := true)
    case Some(Mixer) => u.(mixer := true)
  }

  /** The flags after a log. */
  function UsedBy(log: seq<LogEvent>): Used
    decreases |log|
  {
    if log == [] then NoneUsed else Mark(UsedBy(log[..|log| - 1]), Classify(log[|log| - 1].kind))
  }

  /** A flag is set after a log exactly when one of its events selects it. */
  lemma {:induction false} UsedByMeaning(log: seq<LogEvent>)
    ensures forall f :: Get(UsedBy(log), f) <==> exists i | 0 <= i < |log| :: Classify(log[i].kind) == Some(f)
    decreases |log|
  {
    if log != [] {
      var init := log[..|log| - 1];
      UsedByMeaning(init);
      assert forall i | 0 <= i < |init| :: init[i] == log[i];
    }
  }

  // ---------------------------------------------------------------------------
  // grouping by state type, then event type

  const StateTypes: set<string> := {"mutation", "action"}

  /** The events of one state type, in log order. */
  function OfState(log: seq<LogEvent>, st: string): (r: seq<LogEvent>)
    ensures forall e | e in r :: e in log && e.stateType == st
    decreases |log|
  {
    if log == [] then []
    else
      var prev := OfState(log[..|log| - 1], st);
      if log[|log| - 1].stateType == st then prev + [log[|log| - 1]] else prev
  }

  /** `actionGroups`: one type-keyed table per state type. */
  datatype Groups = Groups(mutation: map<string, seq<LogEvent>>, action: map<string, seq<LogEvent>>)

  /** `actionGroups[stateType]`, undefined for any other state type. */
  function Table(g: Groups, st: string): (t: Option<map<string, seq<LogEvent>>>)
    ensures t.Some? <==> st in StateTypes
  {
    if st == "mutation" then Some(g.mutation) else if st == "action" then Some(g.action) else None
  }

  /** The groups with one state type's table replaced. */
  function Update(g: Groups, st: string, t: map<string, seq<LogEvent>>): Groups
  {
    if st == "mutation" then g.(mutation := t) else g.(action := t)
  }

  /** What the processing loop leaves for one log. */
  datatype LogUse = LogUse(
    used: Used,
    groups: Groups,
    start: Option<int>,
    end: Option<int>)

  function NestedGroups(log: seq<LogEvent>): Groups
  {
    Groups(Grouped(OfState(log, "mutation")), Grouped(OfState(log, "action")))
  }

  const Fresh := LogUse(NoneUsed, Groups(map[], map[]), None, None)

  /** One event of the processing loop. A state type other than mutation or
      action has no group table, and looking a type up in it throws. */
  function UseStep(u: LogUse, e: LogEvent): Result<LogUse, ()>
  {
    match Table(u.groups, e.stateType)
    case None => Err(())
    case Some(t) => Ok(LogUse(
      Mark(u.used, Classify(e.kind)),
      Update(u.groups, e.stateType, GroupStep(t, e)),
      if e.kind == MutationStartTrial then Some(e.time) else u.start,
      if e.kind == MutationEndTrial then Some(e.time) else u.end))
  }

  /** The processing loop's outcome on a log, event by event. */
  function Scanned(log: seq<LogEvent>): Result<LogUse, ()>
    decreases |log|
  {
    if log == [] then Ok(Fresh)
    else
      match Scanned(log[..|log| - 1])
      case Err(_) => Err(())
      case Ok(u) => UseStep(u, log[|log| - 1])
  }

  /** The processing loop over one log's events. */
  method Scan(log: seq<LogEvent>) returns (r: Result<LogUse, ()>)
    ensures r == Scanned(log)
    ensures r.Err? <==> exists i | 0 <= i < |log| :: log[i].stateType !in StateTypes
    ensures r.Ok? ==> r.value.used == UsedBy(log)
    ensures r.Ok? ==> r.value.groups == NestedGroups(log)
    ensures r.Ok? ==> r.value.start == LastTime(log, MutationStartTrial) && r.value.end == LastTime(log, MutationEndTrial)
  {
    ScannedMeaning(log);
    var u := Fresh;
    var i := 0;
    while i < |log|
      invariant i <= |log|
      invariant Scanned(log[..i]) == Ok(u)
    {
      var e := log[i];
      assert log[..i + 1][..i] == log[..i];
      var table := Table(u.groups, e.stateType);
      if table.None? {
        ScannedStaysErr(log, i + 1);
        return Err(());
      }
      u := LogUse(
        Mark(u.used, Classify(e.kind)),
        Update(u.groups, e.stateType, GroupStep(table.value, e)),
        u.start, u.end);
      if e.kind == MutationStartTrial {
        u := u.(start := Some(e.time));
      }
      if e.kind == MutationEndTrial {
        u := u.(end := Some(e.time));
      }
      i := i + 1;
    }
    assert log[..i] == log;
    return Ok(u);
  }

  lemma {:induction false} ScannedStaysErr(log: seq<LogEvent>, n: nat)
    requires n <= |log| && Scanned(log[..n]).Err?
    ensures Scanned(log).Err?
    decreases |log| - n
  {
    if n < |log| {
      assert log[..n + 1][..n] == log[..n];
      ScannedStaysErr(log, n + 1);
    } else {
      assert log[..n] == log;
    }
  }

  /** What the processing loop computes: it fails exactly on a log with an
      unknown state type, and otherwise yields the used flags, the nested
      groups and the last trial start and end. */
  lemma ScannedMeaning(log: seq<LogEvent>)
    ensures Scanned(log).Err? <==> exists i | 0 <= i < |log| :: log[i].stateType !in StateTypes
    ensures Scanned(log).Ok? ==> Scanned(log).value == LogUse(UsedBy(log), NestedGroups(log),
      LastTime(log, MutationStartTrial), LastTime(log, MutationEndTrial))
  {
    ScannedFails(log);
    ScannedValue(log);
  }

  lemma {:induction false} ScannedFails(log: seq<LogEvent>)
    ensures Scanned(log).Err? <==> exists i | 0 <= i < |log| :: log[i].stateType !in StateTypes
    decreases |log|
  {
    if log != [] {
      var q := log[..|log| - 1];
      ScannedFails(q);
      assert forall i | 0 <= i < |q| :: q[i] == log[i];
    }
  }

  lemma {:induction false} ScannedValue(log: seq<LogEvent>)
    ensures Scanned(log).Ok? ==> Scanned(log).value == LogUse(UsedBy(log), NestedGroups(log),
      LastTime(log, MutationStartTrial), LastTime(log, MutationEndTrial))
    decreases |log|
  {
    if log != [] {
      var q, e := log[..|log| - 1], log[|log| - 1];
      assert log == q + [e];
      ScannedValue(q);
      if Scanned(q).Ok? && e.stateType in StateTypes {
        assert Scanned(log) == UseStep(Scanned(q).value, e);
        GroupsStep(q, e);
        LastTimeSnoc(q, e);
      }
    }
  }

  /** One event more extends its own state type's groups and no others. */
  lemma GroupsStep(q: seq<LogEvent>, e: LogEvent)
    requires e.stateType in StateTypes
    ensures NestedGroups(q + [e]) == Update(NestedGroups(q), e.stateType, GroupStep(Table(NestedGroups(q), e.stateType).value, e))
  {
    var p := q + [e];
    assert p[..|q|] == q;
    var m, a := OfState(q, "mutation"), OfState(q, "action");
    if e.stateType == "mutation" {
      assert OfState(p, "mutation") == m + [e] && OfState(p, "action") == a;
      GroupedSnoc(m, e);
    } else {
      assert OfState(p, "action") == a + [e] && OfState(p, "mutation") == m;
      GroupedSnoc(a, e);
    }
  }

  /** Every event of a cleanly processed log sits in its state type's group
      for its event type. */
  lemma NestedGroupsHold(log: seq<LogEvent>, st: string, k: string)
    requires st in StateTypes
    ensures var t := Table(NestedGroups(log), st).value;
      && (k in t <==> k in Kinds(OfState(log, st)))
      && (k in t ==> t[k] == OfKind(OfState(log, st), k))
  {
    GroupedIsOfKind(OfState(log, st));
  }

  // ---------------------------------------------------------------------------
  // phase totals across the logs of a task

  function GetTotal(m: map<string, int>, k: string): int
  {
    if k in m then m[k] else 0
  }

  /** How many of the logs' timelines have phase k. */
  function Counted(ts: seq<map<string, int>>, k: string): (c: nat)
    ensures c <= |ts|
    decreases |ts|
  {
    if ts == [] then 0 else Counted(ts[..|ts| - 1], k) + (if k in ts[|ts| - 1] then 1 else 0)
  }

  /** The summed time of phase k over the logs. */
  function Timed(ts: seq<map<string, int>>, k: string): int
    decreases |ts|
  {
    if ts == [] then 0 else Timed(ts[..|ts| - 1], k) + GetTotal(ts[|ts| - 1], k)
  }

  /** The phases of any log. */
  function AllKeys(ts: seq<map<string, int>>): (ks: set<string>)
    ensures forall j | 0 <= j < |ts| :: ts[j].Keys <= ks
    decreases |ts|
  {
    if ts == [] then {} else AllKeys(ts[..|ts| - 1]) + ts[|ts| - 1].Keys
  }

  /** `counts` and `times` as the totals loop leaves them after the logs `ts`. */
  predicate Tallied(counts: map<string, int>, times: map<string, int>, ts: seq<map<string, int>>)
  {
    && counts.Keys == AllKeys(ts)
    && times.Keys == AllKeys(ts)
    && (forall k | k in counts :: counts[k] == Counted(ts, k))
    && (forall k | k in times :: times[k] == Timed(ts, k))
  }

  /** Part way through one more log `t`: the keys in `done` already added. */
  predicate Partial(counts: map<string, int>, times: map<string, int>, ts: seq<map<string, int>>, t: map<string, int>, done: set<string>)
  {
    && done <= t.Keys
    && counts.Keys == AllKeys(ts) + done
    && times.Keys == AllKeys(ts) + done
    && (forall k | k in counts :: counts[k] == Counted(ts, k) + (if k in done then 1 else 0))
    && (forall k | k in times :: times[k] == Timed(ts, k) + (if k in done then t[k] else 0))
  }

  lemma PartialStep(counts: map<string, int>, times: map<string, int>, ts: seq<map<string, int>>, t: map<string, int>, done: set<string>, k: string)
    requires Partial(counts, times, ts, t, done) && k in t.Keys - done
    ensures Partial(counts[k := GetTotal(counts, k) + 1], times[k := GetTotal(times, k) + t[k]], ts, t, done + {k})
  {
    if k !in AllKeys(ts) {
      NotCounted(ts, k);
    }
  }

  lemma PartialDone(counts: map<string, int>, times: map<string, int>, ts: seq<map<string, int>>, t: map<string, int>)
    requires Partial(counts, times, ts, t, t.Keys)
    ensures Tallied(counts, times, ts + [t])
  {
    assert (ts + [t])[..|ts|] == ts;
  }

  /** The totals loop for one more log: each of its phases counted once more
      and its time added, in whatever order the keys come. */
  method AddLog(counts: map<string, int>, times: map<string, int>, ts: seq<map<string, int>>, t: map<string, int>)
    returns (counts': map<string, int>, times': map<string, int>)
    requires Tallied(counts, times, ts)
    ensures Tallied(counts', times', ts + [t])
  {
    counts', times' := counts, times;
    var done: set<string> := {};
    while t.Keys - done != {}
      invariant Partial(counts', times', ts, t, done)
      decreases t.Keys - done
    {
      var k :| k in t.Keys - done;
      PartialStep(counts', times', ts, t, done, k);
      counts' := counts'[k := GetTotal(counts', k) + 1];
      times' := times'[k := GetTotal(times', k) + t[k]];
      done := done + {k};
    }
    assert done == t.Keys;
    PartialDone(counts', times', ts, t);
  }

  lemma {:induction false} NotCounted(ts: seq<map<string, int>>, k: string)
    requires k !in AllKeys(ts)
    ensures Counted(ts, k) == 0 && Timed(ts, k) == 0
    decreases |ts|
  {
    if ts != [] {
      NotCounted(ts[..|ts| - 1], k);
    }
  }

  /** How a log makes the script stop: a bad state type, or a timeline that
      throws. */
  predicate Fails(log: seq<LogEvent>)
  {
    (exists i | 0 <= i < |log| :: log[i].stateType !in StateTypes) || Timeline.Totals(log).None?
  }

  /** One log: processed, then its timeline drawn; the phase totals. */
  method ProcessLog(log: seq<LogEvent>) returns (r: Result<map<string, int>, ()>)
    ensures r.Err? <==> Fails(log)
    ensures r.Ok? ==> Timeline.Totals(log) == Some(r.value)
  {
    var scanned := Scan(log);
    if scanned.Err? {
      return Err(());
    }
    var tl := Timeline.Run(log);
    if tl.Err? {
      return Err(());
    }
    return Ok(tl.value.totalTime);
  }

  datatype Tally = Tally(counts: map<string, int>, times: map<string, int>)

  /** One task: every log processed and its timeline's phase totals added;
      `ts` are those totals, log by log. */
  method Task(logs: seq<seq<LogEvent>>) returns (r: Result<Tally, ()>, ts: seq<map<string, int>>)
    ensures r.Err? <==> exists j | 0 <= j < |logs| :: Fails(logs[j])
    ensures r.Ok? ==> |ts| == |logs| && forall j | 0 <= j < |logs| :: Timeline.Totals(logs[j]) == Some(ts[j])
    ensures r.Ok? ==> Tallied(r.value.counts, r.value.times, ts)
  {
    var counts: map<string, int> := map[];
    var times: map<string, int> := map[];
    ts := [];
    var j := 0;
    while j < |logs|
      invariant j <= |logs| && |ts| == j
      invariant forall i | 0 <= i < j :: !Fails(logs[i]) && Timeline.Totals(logs[i]) == Some(ts[i])
      invariant Tallied(counts, times, ts)
    {
      var totals := ProcessLog(logs[j]);
      if totals.Err? {
        return Err(()), ts;
      }
      counts, times := AddLog(counts, times, ts, totals.value);
      ts := ts + [totals.value];
      j := j + 1;
    }
    return Ok(Tally(counts, times)), ts;
  }

  /** Every phase that made it into `counts` was seen in at least one log. */
  lemma {:induction false} CountedPositive(ts: seq<map<string, int>>, k: string)
    requires k in AllKeys(ts)
    ensures Counted(ts, k) >= 1
    decreases |ts|
  {
    if k !in ts[|ts| - 1] {
      CountedPositive(ts[..|ts| - 1], k);
    }
  }

  /** The printed average, in seconds. */
  function Average(counts: map<string, int>, times: map<string, int>, k: string): real
    requires k in counts && k in times && counts[k] > 0
  {
    times[k] as real / counts[k] as real / 1000.0
  }

  /** When every log that has phase k spent between lo and hi milliseconds in
      it, the printed average lies between lo and hi seconds / 1000. */
  lemma AverageBetween(counts: map<string, int>, times: map<string, int>, ts: seq<map<string, int>>, k: string, lo: int, hi: int)
    requires Tallied(counts, times, ts) && k in counts
    requires forall j | 0 <= j < |ts| && k in ts[j] :: lo <= ts[j][k] <= hi
    ensures k in times && counts[k] > 0
    ensures lo as real / 1000.0 <= Average(counts, times, k) <= hi as real / 1000.0
  {
    CountedPositive(ts, k);
    TimedBetween(ts, k, lo, hi);
    ScaledMean(times[k], counts[k], lo, hi);
  }

  /** A total of c values between lo and hi, averaged and scaled to seconds. */
  lemma ScaledMean(t: int, c: int, lo: int, hi: int)
    requires c > 0 && c * lo <= t <= c * hi
    ensures lo as real / 1000.0 <= t as real / c as real / 1000.0 <= hi as real / 1000.0
  {
    RealProduct(c, lo);
    RealProduct(c, hi);
    DivBetween(t as real, c as real, lo as real, hi as real);
  }

  lemma RealProduct(a: int, b: int)
    ensures (a * b) as real == a as real * b as real
  {
  }

  lemma {:induction false} TimedBetween(ts: seq<map<string, int>>, k: string, lo: int, hi: int)
    requires forall j | 0 <= j < |ts| && k in ts[j] :: lo <= ts[j][k] <= hi
    ensures Counted(ts, k) * lo <= Timed(ts, k) <= Counted(ts, k) * hi
    decreases |ts|
  {
    if ts != [] {
      var init := ts[..|ts| - 1];
      TimedBetween(init, k, lo, hi);
      var c := Counted(init, k);
      assert (c + 1) * lo == c * lo + lo && (c + 1) * hi == c * hi + hi;
    }
  }

  lemma DivBetween(t: real, c: real, lo: real, hi: real)
    requires c > 0.0 && c * lo <= t <= c * hi
    ensures lo <= t / c <= hi
  {
    var q := t / c;
    assert q * c == t;
    assert c * (q - lo) >= 0.0;
    assert c * (hi - q) >= 0.0;
    PositiveFactor(q - lo, c);
    PositiveFactor(hi - q, c);
  }

  lemma PositiveFactor(x: real, c: real)
    requires c > 0.0 && c * x >= 0.0
    ensures x >= 0.0
  {
  }
}
