/** The combinatorial parts of the backend samplers (core/samplers.py): the
    similarity check, the threshold modes and score separation, the accept /
    reject controller of the rejection samplers, and the bootstrapper's
    `unfilter`, frequency table and parameter selection. Candidate vectors,
    their scores, distances and random draws are inputs. */
module Samplers {
  import opened Wrappers

  function Abs(x: real): real { if x < 0.0 then -x else x }

  /** The distance cap `checkSimilarity` starts its running minimum from. */
  const MinDistStart: real := 100.0

  /** `checkSimilarity(x, accept, epsilon, df)`, given `dists[k] = df(x,
      accept[k]["x"])`: the running minimum starts at 100 and the check fails as
      soon as it drops below epsilon. So it fails exactly when something was
      accepted and either epsilon exceeds 100 or some distance is below it. */
  method CheckSimilarity(dists: seq<real>, epsilon: real) returns (ok: bool)
    ensures !ok <==> |dists| > 0 && (MinDistStart < epsilon || exists k | 0 <= k < |dists| :: dists[k] < epsilon)
  {
    var minDist := MinDistStart;
    var k := 0;
    while k < |dists|
      invariant 0 <= k <= |dists|
      invariant minDist <= MinDistStart
      invariant minDist == MinDistStart || exists j | 0 <= j < k :: dists[j] == minDist
      invariant forall j | 0 <= j < k :: minDist <= dists[j]
      invariant k > 0 ==> !(minDist < epsilon)
    {
      if dists[k] < minDist {
        minDist := dists[k];
      }
      if minDist < epsilon {
        return false;
      }
      k := k + 1;
    }
    return true;
  }

  // ---------------------------------------------------------------------------
  // Threshold modes

  datatype Mode = Gt | Lt | AbsRadius | Radius

  /** `setThresholdFunc`: the four known mode names; any other leaves the
      threshold function unset. */
  function ParseMode(s: string): (m: Option<Mode>)
    ensures m == Some(Gt) <==> s == "gt"
    ensures m == Some(Lt) <==> s == "lt"
    ensures m == Some(AbsRadius) <==> s == "absRadius"
    ensures m == Some(Radius) <==> s == "radius"
    ensures m.None? <==> s !in {"gt", "lt", "absRadius", "radius"}
  {
    if s == "gt" then Some(Gt)
    else if s == "lt" then Some(Lt)
    else if s == "absRadius" then Some(AbsRadius)
    else if s == "radius" then Some(Radius)
    else None
  }

  /** What the threshold function raises: AttributeError when it was never set,
      TypeError when a target-based mode has no target. */
  datatype PyError = AttributeError | TypeError

  datatype ThresholdTest = ThresholdTest(mode: Option<Mode>, threshold: real, target: Option<real>)

  /** `thresholdFunc(x)`. */
  function Accepts(t: ThresholdTest, x: real): (r: Result<bool, PyError>)
    ensures t.mode.None? <==> r == Err(AttributeError)
    ensures t.mode == Some(Gt) ==> r == Ok(x > t.threshold)
    ensures t.mode == Some(Lt) ==> r == Ok(x < t.threshold)
    ensures t.mode == Some(AbsRadius) && t.target.Some? ==> r == Ok(Abs(x - t.target.value) < t.threshold)
    ensures t.mode == Some(Radius) && t.target.Some? ==> r == Ok(t.target.value < x < t.threshold)
    ensures t.mode in {Some(AbsRadius), Some(Radius)} && t.target.None? ==> r == Err(TypeError)
  {
    match t.mode
    case None => Err(AttributeError)
    case Some(Gt) => Ok(x > t.threshold)
    case Some(Lt) => Ok(x < t.threshold)
    case Some(AbsRadius) =>
      if t.target.None? then Err(TypeError) else Ok(Abs(x - t.target.value) < t.threshold)
    case Some(Radius) =>
      if t.target.None? then Err(TypeError) else Ok(x > t.target.value && x < t.threshold)
  }

  /** `gt` and `lt` with the same threshold reject together only at the
      threshold itself. */
  lemma GtLtComplement(threshold: real, target: Option<real>, x: real)
    ensures var g := Accepts(ThresholdTest(Some(Gt), threshold, target), x);
      var l := Accepts(ThresholdTest(Some(Lt), threshold, target), x);
      g.Ok? && l.Ok? && (!g.value && !l.value <==> x == threshold) && !(g.value && l.value)
  {
  }

  /** A `radius` accept is also an `absRadius` accept around the same
      non-negative target. */
  lemma RadiusWithinAbsRadius(threshold: real, target: real, x: real)
    requires Accepts(ThresholdTest(Some(Radius), threshold, Some(target)), x) == Ok(true)
    requires target >= 0.0
    ensures Accepts(ThresholdTest(Some(AbsRadius), threshold, Some(target)), x) == Ok(true)
  {
  }

  /** `scoreDiff(score, accepted)`: skipped when `scoreDelta` is 0 or nothing is
      accepted, otherwise every accepted mean must differ from the score by more
      than `scoreDelta`. */
  predicate ScoreDiff(scoreDelta: real, score: real, means: seq<real>)
  {
    scoreDelta == 0.0 || |means| == 0 || forall k | 0 <= k < |means| :: Abs(score - means[k]) > scoreDelta
  }

  /** The check only gets stricter as more samples are accepted. */
  lemma ScoreDiffPrefix(scoreDelta: real, score: real, means: seq<real>, n: nat)
    requires n <= |means| && ScoreDiff(scoreDelta, score, means)
    ensures ScoreDiff(scoreDelta, score, means[..n])
  {
  }

  /** `if self.freeParams > len(filter): self.freeParams = len(filter)`. */
  function ClampFreeParams(freeParams: int, filterLen: nat): (r: int)
    ensures r <= freeParams && r <= filterLen
    ensures r == freeParams || r == filterLen
  {
    if freeParams > filterLen then filterLen else freeParams
  }

  // ---------------------------------------------------------------------------
  // The accept / reject controller of GenericRejection.run and Rejection.run

  /** A scored candidate: the vector built from a shuffled filter, a positive
      example and a random draw, and its evaluation. */
  datatype Candidate = Candidate(x: seq<real>, mean: real, cov: real)

  /** An `accept` record. */
  datatype Accepted = Accepted(x: seq<real>, mean: real, cov: real, count: nat, idx: nat)

  /** A `log` record; `attempts` is the `attempts`/`attempt` field. */
  datatype LogEntry = LogEntry(accept: bool, attempts: nat, score: real, freeParams: int, count: nat)

  /** The acceptance rule: GenericRejection's `mean > threshold`, or
      Rejection's threshold function followed by the score separation check. */
  datatype Criterion = MeanAbove(threshold: real) | Thresholded(test: ThresholdTest, scoreDelta: real)

  datatype Config = Config(n: int, limit: Option<int>, freeParams: int, paramFloor: int, retries: int, rule: Criterion)

  function Means(accept: seq<Accepted>): (r: seq<real>)
    ensures |r| == |accept| && forall k | 0 <= k < |accept| :: r[k] == accept[k].mean
  {
    seq(|accept|, k requires 0 <= k < |accept| => accept[k].mean)
  }

  /** Whether a candidate is accepted given what was accepted before; `and`
      short-circuits, so the separation check runs only after the threshold
      test passes. */
  function Decide(rule: Criterion, mean: real, accept: seq<Accepted>): (r: Result<bool, PyError>)
    ensures rule.MeanAbove? ==> r == Ok(mean > rule.threshold)
    ensures rule.Thresholded? ==> (r.Err? <==> Accepts(rule.test, mean).Err?)
    ensures rule.Thresholded? && r == Ok(true) ==>
      Accepts(rule.test, mean) == Ok(true) && ScoreDiff(rule.scoreDelta, mean, Means(accept))
  {
    match rule
    case MeanAbove(threshold) => Ok(mean > threshold)
    case Thresholded(test, scoreDelta) =>
      match Accepts(test, mean)
      case Err(e) => Err(e)
      case Ok(b) => Ok(b && ScoreDiff(scoreDelta, mean, Means(accept)))
  }

  /** The candidates the log marks as accepted, in order. */
  function Chosen(log: seq<LogEntry>, cands: seq<Candidate>): (r: seq<Candidate>)
    requires |log| <= |cands|
    ensures |r| <= |log|
    decreases |log|
  {
    if log == [] then []
    else Chosen(log[..|log| - 1], cands) + (if log[|log| - 1].accept then [cands[|log| - 1]] else [])
  }

  /** The accepted records carry exactly the chosen candidates' vectors and
      scores. */
  predicate Copies(accept: seq<Accepted>, chosen: seq<Candidate>)
  {
    |accept| == |chosen|
    && forall k | 0 <= k < |accept| ::
      accept[k].x == chosen[k].x && accept[k].mean == chosen[k].mean && accept[k].cov == chosen[k].cov
  }

  lemma CopiesAppend(accept: seq<Accepted>, chosen: seq<Candidate>, a: Accepted, c: Candidate)
    requires Copies(accept, chosen) && a.x == c.x && a.mean == c.mean && a.cov == c.cov
    ensures Copies(accept + [a], chosen + [c])
  {
    var acc, ch := accept + [a], chosen + [c];
    forall k | 0 <= k < |acc|
      ensures acc[k].x == ch[k].x && acc[k].mean == ch[k].mean && acc[k].cov == ch[k].cov
    {
      if k < |accept| {
        assert acc[k] == accept[k] && ch[k] == chosen[k];
      }
    }
  }

  /** Accepted means pairwise differ by more than `delta`. */
  predicate Separated(accept: seq<Accepted>, delta: real)
  {
    forall i, j | 0 <= i < j < |accept| :: Abs(accept[j].mean - accept[i].mean) > delta
  }

  lemma SeparatedAppend(accept: seq<Accepted>, a: Accepted, delta: real)
    requires Separated(accept, delta) && delta != 0.0
    requires ScoreDiff(delta, a.mean, Means(accept))
    ensures Separated(accept + [a], delta)
  {
    var acc := accept + [a];
    forall i, j | 0 <= i < j < |acc|
      ensures Abs(acc[j].mean - acc[i].mean) > delta
    {
      if j == |accept| {
        assert Means(accept)[i] == accept[i].mean;
      }
    }
  }

  /** The loop's condition: `count < n`, and `attempts < limit` for Rejection. */
  predicate Continue(cfg: Config, count: nat, attempts: nat)
  {
    count < cfg.n && (cfg.limit.None? || attempts < cfg.limit.value)
  }

  function Min(a: int, b: int): int { if a < b then a else b }

  /** What every log record satisfies: the free-parameter count within its
      bounds, attempts restarting after an accept and after a decrement, the
      count of candidates decided when the record was written, and the
      candidate's score. */
  predicate LogOk(log: seq<LogEntry>, cands: seq<Candidate>, lo: int, hi: int)
  {
    && |log| <= |cands|
    && (forall k | 0 <= k < |log| :: lo <= log[k].freeParams <= hi)
    && (forall k | 0 <= k < |log| - 1 :: log[k].accept ==> log[k + 1].attempts == 0)
    && (forall k | 0 <= k < |log| - 1 :: log[k + 1].freeParams < log[k].freeParams ==> log[k + 1].attempts == 0)
    && (forall k | 0 <= k < |log| :: log[k].count == if log[k].accept then k + 1 else k)
    && (forall k | 0 <= k < |log| :: log[k].score == cands[k].mean)
  }

  lemma LogOkAppend(log: seq<LogEntry>, cands: seq<Candidate>, lo: int, hi: int, e: LogEntry)
    requires LogOk(log, cands, lo, hi) && |log| < |cands|
    requires lo <= e.freeParams <= hi && e.score == cands[|log|].mean
    requires e.count == if e.accept then |log| + 1 else |log|
    requires |log| > 0 && log[|log| - 1].accept ==> e.attempts == 0
    requires |log| > 0 && e.freeParams < log[|log| - 1].freeParams ==> e.attempts == 0
    ensures LogOk(log + [e], cands, lo, hi)
  {
    var l := log + [e];
    forall k | 0 <= k < |l| - 1
      ensures l[k].accept ==> l[k + 1].attempts == 0
      ensures l[k + 1].freeParams < l[k].freeParams ==> l[k + 1].attempts == 0
    {
      assert l[k] == log[k];
    }
  }

  datatype RunResult = RunResult(accept: seq<Accepted>, log: seq<LogEntry>, rejected: nat,
                                 attempts: nat, currentFreeParams: int, consumed: nat, raised: bool)

  predicate Numbered(accept: seq<Accepted>)
  {
    forall k | 0 <= k < |accept| :: accept[k].count == k && accept[k].idx == k
  }

  /** What holds of the sampler's variables after every decided candidate. */
  predicate RunInv(cfg: Config, cands: seq<Candidate>, r: RunResult)
  {
    var lo := Min(cfg.freeParams, cfg.paramFloor);
    && r.consumed <= |cands| && |r.log| == r.consumed - (if r.raised then 1 else 0)
    && |r.accept| + r.rejected == |r.log|
    && Numbered(r.accept)
    && (cfg.n >= 0 ==> |r.accept| <= cfg.n)
    && lo <= r.currentFreeParams <= cfg.freeParams
    && LogOk(r.log, cands, lo, cfg.freeParams)
    && Copies(r.accept, Chosen(r.log, cands))
    && (cfg.rule.Thresholded? && cfg.rule.scoreDelta != 0.0 ==> Separated(r.accept, cfg.rule.scoreDelta))
    && (!r.raised && |r.log| > 0 && r.log[|r.log| - 1].accept ==> r.attempts == 0)
    && (!r.raised && |r.log| > 0 && r.currentFreeParams < r.log[|r.log| - 1].freeParams ==> r.attempts == 0)
  }

  /** The state after accepting the next candidate: `count += 1`,
      `attempts = 0`, and one more free parameter up to the maximum. */
  function AcceptNext(cfg: Config, cands: seq<Candidate>, r: RunResult): (r': RunResult)
    requires r.consumed < |cands|
  {
    var c := cands[r.consumed];
    var count := |r.accept|;
    RunResult(r.accept + [Accepted(c.x, c.mean, c.cov, count, count)],
              r.log + [LogEntry(true, r.attempts, c.mean, r.currentFreeParams, count + r.rejected + 1)],
              r.rejected, 0,
              if r.currentFreeParams < cfg.freeParams then r.currentFreeParams + 1 else r.currentFreeParams,
              r.consumed + 1, false)
  }

  /** The state after rejecting the next candidate: `attempts += 1`, and after
      more than `retries` attempts one fewer free parameter down to the floor,
      with `attempts` restarting. */
  function RejectNext(cfg: Config, cands: seq<Candidate>, r: RunResult): (r': RunResult)
    requires r.consumed < |cands|
  {
    var c := cands[r.consumed];
    var count := |r.accept|;
    var drop := r.attempts + 1 > cfg.retries && r.currentFreeParams > cfg.paramFloor;
    RunResult(r.accept,
              r.log + [LogEntry(false, r.attempts, c.mean, r.currentFreeParams, count + r.rejected)],
              r.rejected + 1, if drop then 0 else r.attempts + 1,
              if drop then r.currentFreeParams - 1 else r.currentFreeParams,
              r.consumed + 1, false)
  }

  lemma AcceptKeepsInv(cfg: Config, cands: seq<Candidate>, r: RunResult)
    requires RunInv(cfg, cands, r) && !r.raised && r.consumed < |cands| && Continue(cfg, |r.accept|, r.attempts)
    requires Decide(cfg.rule, cands[r.consumed].mean, r.accept) == Ok(true)
    ensures RunInv(cfg, cands, AcceptNext(cfg, cands, r))
  {
    var r' := AcceptNext(cfg, cands, r);
    var lo := Min(cfg.freeParams, cfg.paramFloor);
    LogOkAppend(r.log, cands, lo, cfg.freeParams, r'.log[r.consumed]);
    assert r'.log[..r.consumed] == r.log;
    CopiesAppend(r.accept, Chosen(r.log, cands), r'.accept[|r.accept|], cands[r.consumed]);
    if cfg.rule.Thresholded? && cfg.rule.scoreDelta != 0.0 {
      SeparatedAppend(r.accept, r'.accept[|r.accept|], cfg.rule.scoreDelta);
    }
    assert Numbered(r'.accept) by {
      forall k | 0 <= k < |r'.accept| ensures r'.accept[k].count == k && r'.accept[k].idx == k {
        if k < |r.accept| { assert r'.accept[k] == r.accept[k]; }
      }
    }
  }

  lemma RejectKeepsInv(cfg: Config, cands: seq<Candidate>, r: RunResult)
    requires RunInv(cfg, cands, r) && !r.raised && r.consumed < |cands|
    requires Decide(cfg.rule, cands[r.consumed].mean, r.accept) == Ok(false)
    ensures RunInv(cfg, cands, RejectNext(cfg, cands, r))
  {
    var r' := RejectNext(cfg, cands, r);
    LogOkAppend(r.log, cands, Min(cfg.freeParams, cfg.paramFloor), cfg.freeParams, r'.log[r.consumed]);
    assert r'.log[..r.consumed] == r.log;
  }

  /** The state after the threshold function raises: the candidate is used up
      and nothing is logged, since the exception leaves the loop before either
      `log.append`. */
  function Raise(r: RunResult): RunResult
  {
    r.(consumed := r.consumed + 1, raised := true)
  }

  lemma RaiseKeepsInv(cfg: Config, cands: seq<Candidate>, r: RunResult)
    requires RunInv(cfg, cands, r) && !r.raised && r.consumed < |cands|
    ensures RunInv(cfg, cands, Raise(r))
  {
  }

  /** One pass of the loop body as a function of the state: the next
      candidate is accepted, rejected or raises, as Decide says. */
  function Step(cfg: Config, cands: seq<Candidate>, r: RunResult): (r': RunResult)
    requires r.consumed < |cands|
    ensures r'.consumed == r.consumed + 1
  {
    match Decide(cfg.rule, cands[r.consumed].mean, r.accept)
    case Err(_) => Raise(r)
    case Ok(true) => AcceptNext(cfg, cands, r)
    case Ok(false) => RejectNext(cfg, cands, r)
  }

  /** The loop from state r on: Step while the loop condition holds, nothing
      has raised and candidates remain. */
  function Run(cfg: Config, cands: seq<Candidate>, r: RunResult): RunResult
    requires r.consumed <= |cands|
    decreases |cands| - r.consumed
  {
    if !r.raised && r.consumed < |cands| && Continue(cfg, |r.accept|, r.attempts)
    then Run(cfg, cands, Step(cfg, cands, r))
    else r
  }

  /** `count = 0`, `attempts = 0`, `rejected = 0`, empty `accept` and `log`,
      and `currentFreeParams = self.freeParams`. */
  function Initial(cfg: Config): RunResult
  {
    RunResult([], [], 0, 0, cfg.freeParams, 0, false)
  }

  /** Every logged decision is the one Decide makes for that candidate given
      the records accepted before it: the last entry was decided against the
      accepted list without the record it added, and so on backwards. */
  predicate Decided(rule: Criterion, cands: seq<Candidate>, log: seq<LogEntry>, accept: seq<Accepted>)
    requires |log| <= |cands|
    decreases |log|
  {
    if log == [] then accept == []
    else
      var k := |log| - 1;
      var before := if log[k].accept && accept != [] then accept[..|accept| - 1] else accept;
      && (log[k].accept ==> accept != [])
      && Decide(rule, cands[k].mean, before) == Ok(log[k].accept)
      && Decided(rule, cands, log[..k], before)
  }

  lemma DecidedAppend(rule: Criterion, cands: seq<Candidate>, log: seq<LogEntry>, accept: seq<Accepted>,
                      e: LogEntry, extra: seq<Accepted>)
    requires |log| < |cands| && Decided(rule, cands, log, accept)
    requires Decide(rule, cands[|log|].mean, accept) == Ok(e.accept)
    requires if e.accept then |extra| == 1 else extra == []
    ensures Decided(rule, cands, log + [e], accept + extra)
  {
    assert (log + [e])[..|log|] == log;
    if e.accept {
      assert (accept + extra)[..|accept|] == accept;
    } else {
      assert accept + extra == accept;
    }
  }

  lemma AcceptKeepsDecided(cfg: Config, cands: seq<Candidate>, r: RunResult)
    requires r.consumed < |cands| && |r.log| == r.consumed && Decided(cfg.rule, cands, r.log, r.accept)
    requires Decide(cfg.rule, cands[r.consumed].mean, r.accept) == Ok(true)
    ensures var r' := AcceptNext(cfg, cands, r); |r'.log| <= |cands| && Decided(cfg.rule, cands, r'.log, r'.accept)
  {
    var r' := AcceptNext(cfg, cands, r);
    DecidedAppend(cfg.rule, cands, r.log, r.accept, r'.log[|r.log|], [r'.accept[|r.accept|]]);
    assert r'.log == r.log + [r'.log[|r.log|]] && r'.accept == r.accept + [r'.accept[|r.accept|]];
  }

  lemma RejectKeepsDecided(cfg: Config, cands: seq<Candidate>, r: RunResult)
    requires r.consumed < |cands| && |r.log| == r.consumed && Decided(cfg.rule, cands, r.log, r.accept)
    requires Decide(cfg.rule, cands[r.consumed].mean, r.accept) == Ok(false)
    ensures var r' := RejectNext(cfg, cands, r); |r'.log| <= |cands| && Decided(cfg.rule, cands, r'.log, r'.accept)
  {
    var r' := RejectNext(cfg, cands, r);
    DecidedAppend(cfg.rule, cands, r.log, r.accept, r'.log[|r.log|], []);
    assert r'.log == r.log + [r'.log[|r.log|]] && r'.accept == r.accept + [];
  }

  /** One pass of the loop body: evaluate the next candidate, then accept and
      log it, or reject and log it; a threshold function that raises ends the
      run. */
  method Consume(cfg: Config, cands: seq<Candidate>, r: RunResult) returns (r': RunResult)
    requires RunInv(cfg, cands, r) && !r.raised && r.consumed < |cands| && Continue(cfg, |r.accept|, r.attempts)
    requires Decided(cfg.rule, cands, r.log, r.accept)
    ensures RunInv(cfg, cands, r') && Decided(cfg.rule, cands, r'.log, r'.accept) && r' == Step(cfg, cands, r)
    ensures r'.raised <==> Decide(cfg.rule, cands[r.consumed].mean, r.accept).Err?
    ensures Decide(cfg.rule, cands[r.consumed].mean, r.accept) == Ok(true) ==> r' == AcceptNext(cfg, cands, r)
    ensures Decide(cfg.rule, cands[r.consumed].mean, r.accept) == Ok(false) ==> r' == RejectNext(cfg, cands, r)
  {
    var c := cands[r.consumed];
    var d := Decide(cfg.rule, c.mean, r.accept);
    match d {
      case Err(_) =>
        RaiseKeepsInv(cfg, cands, r);
        r' := Raise(r);
      case Ok(true) =>
        AcceptKeepsInv(cfg, cands, r);
        AcceptKeepsDecided(cfg, cands, r);
        r' := AcceptNext(cfg, cands, r);
      case Ok(false) =>
        RejectKeepsInv(cfg, cands, r);
        RejectKeepsDecided(cfg, cands, r);
        r' := RejectNext(cfg, cands, r);
    }
  }

  /** The sampling loop over a finite stream of candidates (the k-th evaluated
      candidate is `cands[k]`): `while count < n` for GenericRejection, `while
      count < n and attempts < limit` for Rejection. It stops when that
      condition fails, when the threshold function raises, or when the stream
      is exhausted. */
  method RunController(cfg: Config, cands: seq<Candidate>) returns (r: RunResult)
    // the loop from the initial variables, pass by pass
    ensures r == Run(cfg, cands, Initial(cfg))
    ensures r.consumed <= |cands| && |r.log| == r.consumed - (if r.raised then 1 else 0)
    ensures |r.accept| + r.rejected == |r.log|
    // every logged accept or reject is Decide's verdict on that candidate
    ensures Decided(cfg.rule, cands, r.log, r.accept)
    // `count == len(accept)`; the k-th accepted record has count = idx = k
    ensures Numbered(r.accept)
    ensures cfg.n >= 0 ==> |r.accept| <= cfg.n
    // the free-parameter controller stays within its bounds, and the log
    ensures Min(cfg.freeParams, cfg.paramFloor) <= r.currentFreeParams <= cfg.freeParams
    ensures LogOk(r.log, cands, Min(cfg.freeParams, cfg.paramFloor), cfg.freeParams)
    // the accepted records are the candidates the log accepts, in order
    ensures Copies(r.accept, Chosen(r.log, cands))
    // with a score delta, accepted means are pairwise separated by more than it
    ensures cfg.rule.Thresholded? && cfg.rule.scoreDelta != 0.0 ==> Separated(r.accept, cfg.rule.scoreDelta)
    // why it stopped
    ensures !r.raised && r.consumed < |cands| ==> !Continue(cfg, |r.accept|, r.attempts)
  {
    r := Initial(cfg);
    while !r.raised && r.consumed < |cands| && Continue(cfg, |r.accept|, r.attempts)
      invariant RunInv(cfg, cands, r) && Decided(cfg.rule, cands, r.log, r.accept)
      invariant Run(cfg, cands, r) == Run(cfg, cands, Initial(cfg))
      decreases |cands| - r.consumed, if r.raised then 0 else 1
    {
      r := Consume(cfg, cands, r);
    }
  }

  // ---------------------------------------------------------------------------
  // Bootstrapper

  /** Python's reading of index x in a list of length n. */
  function PyNorm(n: nat, x: int): (p: int)
    ensures ValidIndex(n, x) ==> 0 <= p < n
  {
    if x < 0 then n + x else x
  }

  predicate ValidIndex(n: nat, x: int) { -(n as int) <= x < n }

  /** `unfilter(subset, x)` as a sequence of writes into a copy of `x0`: the
      later of two writes to the same position wins. */
  function Writes(x0: seq<real>, subset: seq<int>, x: seq<real>, m: nat): (r: seq<real>)
    requires m <= |subset| && m <= |x|
    requires forall i | 0 <= i < m :: ValidIndex(|x0|, subset[i])
    ensures |r| == |x0|
  {
    if m == 0 then x0
    else Writes(x0, subset, x, m - 1)[PyNorm(|x0|, subset[m - 1]) := x[m - 1]]
  }

  predicate UnfilterDefined(x0: seq<real>, subset: seq<int>, x: seq<real>)
  {
    |subset| <= |x| && forall i | 0 <= i < |subset| :: ValidIndex(|x0|, subset[i])
  }

  /** `unfilter(subset, x)`; None where Python raises IndexError. */
  method Unfilter(x0: seq<real>, subset: seq<int>, x: seq<real>) returns (r: Option<seq<real>>)
    ensures r.None? <==> !UnfilterDefined(x0, subset, x)
    ensures r.Some? ==> r.value == Writes(x0, subset, x, |subset|)
  {
    var xp := x0;
    var i := 0;
    while i < |subset|
      invariant 0 <= i <= |subset|
      invariant i <= |x| && forall k | 0 <= k < i :: ValidIndex(|x0|, subset[k])
      invariant xp == Writes(x0, subset, x, i)
    {
      if i >= |x| || !ValidIndex(|x0|, subset[i]) {
        return None;
      }
      xp := xp[PyNorm(|x0|, subset[i]) := x[i]];
      i := i + 1;
    }
    return Some(xp);
  }

  /** The first m entries of `subset` name different positions. */
  predicate DistinctPositions(n: nat, subset: seq<int>, m: nat)
  {
    forall i, j | 0 <= i < j < m && j < |subset| :: PyNorm(n, subset[i]) != PyNorm(n, subset[j])
  }

  /** With distinct positions, `unfilter` puts `x[i]` at `subset[i]`, and every
      other position keeps its `x0` value. */
  lemma {:induction false} WritesPositions(x0: seq<real>, subset: seq<int>, x: seq<real>, m: nat)
    requires m <= |subset| && m <= |x|
    requires forall i | 0 <= i < m :: ValidIndex(|x0|, subset[i])
    requires DistinctPositions(|x0|, subset, m)
    ensures forall i | 0 <= i < m :: Writes(x0, subset, x, m)[PyNorm(|x0|, subset[i])] == x[i]
    ensures forall p | 0 <= p < |x0| && (forall i | 0 <= i < m :: PyNorm(|x0|, subset[i]) != p) ::
      Writes(x0, subset, x, m)[p] == x0[p]
    decreases m
  {
    if m > 0 {
      WritesPositions(x0, subset, x, m - 1);
    }
  }

  /** How many entries of `lst` name position p. */
  function Occurrences(lst: seq<int>, n: nat, p: int): (c: nat)
    ensures c <= |lst|
    decreases |lst|
  {
    if lst == [] then 0
    else Occurrences(lst[..|lst| - 1], n, p) + (if PyNorm(n, lst[|lst| - 1]) == p then 1 else 0)
  }

  /** A point counts its `affected` indices, or the default filter's when it has
      none. */
  function Targets(affected: seq<int>, defaultFilter: seq<int>): seq<int>
  {
    if |affected| > 0 then affected else defaultFilter
  }

  /** How many times position p is counted over the points. */
  function Hits(points: seq<seq<int>>, defaultFilter: seq<int>, n: nat, p: int): nat
    decreases |points|
  {
    if points == [] then 0
    else Hits(points[..|points| - 1], defaultFilter, n, p) + Occurrences(Targets(points[|points| - 1], defaultFilter), n, p)
  }

  /** One more point adds its mentions to every position's hits. */
  lemma HitsStep(points: seq<seq<int>>, defaultFilter: seq<int>, n: nat, k: nat)
    requires k < |points|
    ensures forall p ::
      Hits(points[..k + 1], defaultFilter, n, p)
        == Hits(points[..k], defaultFilter, n, p) + Occurrences(Targets(points[k], defaultFilter), n, p)
  {
    assert points[..k + 1][..k] == points[..k];
  }

  predicate TableDefined(n: nat, points: seq<seq<int>>, defaultFilter: seq<int>)
  {
    && n > 0
    && forall k, j | 0 <= k < |points| && 0 <= j < |Targets(points[k], defaultFilter)| ::
         ValidIndex(n, Targets(points[k], defaultFilter)[j])
  }

  function MaxInt(s: seq<int>): (m: int)
    requires s != []
    ensures m in s && forall k | 0 <= k < |s| :: s[k] <= m
  {
    if |s| == 1 then s[0] else var t := MaxInt(s[1..]); if s[0] > t then s[0] else t
  }

  /** `initFrequencyTable` for `dim = len(x0)`, the points' `affected` lists
      and the snippet's default filter (None where computing it raises). Every
      count starts at 1 and gains one per mention; `maxFreq` is the largest
      count plus one. None where Python raises: no default filter, an index out
      of range, or `max` of an empty table. */
  method InitFrequencyTable(dim: nat, points: seq<seq<int>>, defaultFilter: Option<seq<int>>)
    returns (r: Option<(seq<int>, int)>)
    ensures r.None? <==> defaultFilter.None? || !TableDefined(dim, points, defaultFilter.value)
    ensures r.Some? ==> |r.value.0| == dim
    ensures r.Some? ==> forall p | 0 <= p < dim :: r.value.0[p] == 1 + Hits(points, defaultFilter.value, dim, p)
    ensures r.Some? ==> r.value.1 == MaxInt(r.value.0) + 1
  {
    if defaultFilter.None? || !TableDefined(dim, points, defaultFilter.value) {
      return None;
    }
    var dflt := defaultFilter.value;
    var freqs := seq(dim, _ => 1);
    var k := 0;
    while k < |points|
      invariant 0 <= k <= |points| && |freqs| == dim
      invariant forall p | 0 <= p < dim :: freqs[p] == 1 + Hits(points[..k], dflt, dim, p)
    {
      var targets := Targets(points[k], dflt);
      assert forall j | 0 <= j < |targets| :: ValidIndex(dim, Targets(points[k], dflt)[j]);
      freqs := CountTargets(freqs, targets, dim);
      HitsStep(points, dflt, dim, k);
      k := k + 1;
    }
    assert points[..|points|] == points;
    r := Some((freqs, MaxInt(freqs) + 1));
  }

  /** The inner loop of `initFrequencyTable`: one more count per mention. */
  method CountTargets(freqs: seq<int>, targets: seq<int>, dim: nat) returns (freqs': seq<int>)
    requires |freqs| == dim && forall j | 0 <= j < |targets| :: ValidIndex(dim, targets[j])
    ensures |freqs'| == dim
    ensures forall p | 0 <= p < dim :: freqs'[p] == freqs[p] + Occurrences(targets, dim, p)
  {
    freqs' := freqs;
    var j := 0;
    while j < |targets|
      invariant 0 <= j <= |targets| && |freqs'| == dim
      invariant forall p | 0 <= p < dim :: freqs'[p] == freqs[p] + Occurrences(targets[..j], dim, p)
    {
      assert targets[..j + 1][..j] == targets[..j];
      var idx := PyNorm(dim, targets[j]);
      freqs' := freqs'[idx := freqs'[idx] + 1];
      j := j + 1;
    }
    assert targets[..|targets|] == targets;
  }

  /** Every count is at least 1 and below `maxFreq`, so each selection ratio
      `frequencies[i] / maxFreq` lies in (0, 1). */
  lemma RatiosBelowOne(freqs: seq<int>, i: nat)
    requires freqs != [] && i < |freqs| && forall p | 0 <= p < |freqs| :: freqs[p] >= 1
    ensures 0 < freqs[i] < MaxInt(freqs) + 1
    ensures 0.0 < (freqs[i] as real) / ((MaxInt(freqs) + 1) as real) < 1.0
  {
    DivBelowOne(freqs[i] as real, (MaxInt(freqs) + 1) as real);
  }

  lemma DivBelowOne(a: real, b: real)
    requires 0.0 < a < b
    ensures 0.0 < a / b < 1.0
  {
    var q := a / b;
    assert q * b == a;
    assert (1.0 - q) * b == b - a;
    PositiveFactor(q, b);
    PositiveFactor(1.0 - q, b);
  }

  lemma PositiveFactor(x: real, b: real)
    requires b > 0.0 && x * b > 0.0
    ensures x > 0.0
  {
  }

  /** The indices `selectParams` picks for the given draws. */
  function Picked(freqs: seq<int>, maxFreq: int, draws: seq<real>, m: nat): (r: seq<nat>)
    requires maxFreq > 0 && m <= |freqs| && m <= |draws|
    ensures forall k | 0 <= k < |r| :: r[k] < m
    ensures forall k, l | 0 <= k < l < |r| :: r[k] < r[l]
    ensures forall i | 0 <= i < m :: i in r <==> draws[i] < (freqs[i] as real) / (maxFreq as real)
  {
    if m == 0 then []
    else
      var prev := Picked(freqs, maxFreq, draws, m - 1);
      if draws[m - 1] < (freqs[m - 1] as real) / (maxFreq as real) then prev + [m - 1] else prev
  }

  /** `selectParams` with `draws[i]` the i-th `random.random()`: the ascending
      indices whose draw falls below their frequency ratio. */
  method SelectParams(freqs: seq<int>, maxFreq: int, draws: seq<real>) returns (selected: seq<nat>)
    requires maxFreq > 0 && |draws| == |freqs|
    ensures selected == Picked(freqs, maxFreq, draws, |freqs|)
  {
    selected := [];
    var i := 0;
    while i < |freqs|
      invariant 0 <= i <= |freqs|
      invariant selected == Picked(freqs, maxFreq, draws, i)
    {
      if draws[i] < (freqs[i] as real) / (maxFreq as real) {
        selected := selected + [i];
      }
      i := i + 1;
    }
  }

  /** A draw of 1 or more never selects, since every ratio is below 1. */
  lemma DrawAtLeastOneNeverPicked(freqs: seq<int>, draws: seq<real>, i: nat)
    requires freqs != [] && |draws| == |freqs| && i < |freqs|
    requires forall p | 0 <= p < |freqs| :: freqs[p] >= 1
    requires draws[i] >= 1.0
    ensures i !in Picked(freqs, MaxInt(freqs) + 1, draws, |freqs|)
  {
    RatiosBelowOne(freqs, i);
  }
}
