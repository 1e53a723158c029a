/** The list logic of a backend snippet (core/snippet.py), without the Gaussian
    process: filter projection, the data list and its edits, positive examples,
    the default filter and threshold selection over 1-D sweep results. */
module SnippetCore {
  import opened Wrappers
  import opened DsTypes

  /** `math.isclose(a, b, rel_tol=rel)` with the default `abs_tol = 0`, exactly
      over the reals. */
  predicate IsClose(a: real, b: real, rel: real)
  {
    var d := if a - b < 0.0 then b - a else a - b;
    var ma := if a < 0.0 then -a else a;
    var mb := if b < 0.0 then -b else b;
    d <= rel * (if ma < mb then mb else ma)
  }

  /** Python's `row[x]`: a negative index counts from the end. */
  predicate ValidIndex(n: nat, x: int) { -(n as int) <= x < n }

  function PyIndex<T>(row: seq<T>, x: int): (v: T)
    requires ValidIndex(|row|, x)
    ensures 0 <= x ==> v == row[x]
    ensures x < 0 ==> v == row[|row| + x]
  {
    if x < 0 then row[|row| + x] else row[x]
  }

  /** `applyFilter`: one row per input row, listing that row's values at the
      filter's indices in filter order; None where Python raises IndexError. */
  function ApplyFilter(data: seq<seq<real>>, filter: seq<int>): (r: Option<seq<seq<real>>>)
    ensures r.Some? <==> forall i, j | 0 <= i < |data| && 0 <= j < |filter| :: ValidIndex(|data[i]|, filter[j])
    ensures r.Some? ==> |r.value| == |data|
    ensures r.Some? ==> forall i | 0 <= i < |data| :: |r.value[i]| == |filter|
    ensures r.Some? ==> forall i, j | 0 <= i < |data| && 0 <= j < |filter| ::
      r.value[i][j] == PyIndex(data[i], filter[j])
  {
    if forall i, j | 0 <= i < |data| && 0 <= j < |filter| :: ValidIndex(|data[i]|, filter[j]) then
      Some(seq(|data|, i requires 0 <= i < |data| =>
        seq(|filter|, j requires 0 <= j < |filter| => PyIndex(data[i], filter[j]))))
    else None
  }

  datatype IndexError = IndexError

  /** `del data[index]` behind the guard `index < len(data)`: an index at or past
      the end is ignored, a negative one down to `-len` deletes from the end, and
      one below raises IndexError. */
  function RemoveAt<T>(data: seq<T>, index: int): (r: Result<seq<T>, IndexError>)
    ensures index >= |data| ==> r == Ok(data)
    ensures 0 <= index < |data| ==> r == Ok(data[..index] + data[index + 1..])
    ensures -|data| <= index < 0 ==> r == Ok(data[..|data| + index] + data[|data| + index + 1..])
    ensures index < -|data| ==> r.Err?
  {
    if index >= |data| then Ok(data)
    else if index < -|data| then Err(IndexError)
    else
      var k := if index < 0 then |data| + index else index;
      Ok(data[..k] + data[k + 1..])
  }

  /** A removal that succeeds shortens the list by one exactly when the guard let
      it through, and keeps the rest in order. */
  lemma RemoveAtLength<T>(data: seq<T>, index: int)
    requires RemoveAt(data, index).Ok?
    ensures |RemoveAt(data, index).value| == if index < |data| then |data| - 1 else |data|
  {
  }

  /** `x0()`: the first point's vector, or the integer 0 without data. */
  datatype X0 = Vector(v: seq<real>) | Zero

  function X0Of(data: seq<Training>): (r: X0)
    ensures data == [] <==> r == Zero
    ensures data != [] ==> r == Vector(data[0].data)
  {
    if data == [] then Zero else Vector(data[0].data)
  }

  /** The positive examples: the vectors of the points scoring above 0, in order. */
  function Positive(data: seq<Training>): (r: seq<seq<real>>)
    ensures |r| <= |data|
    decreases |data|
  {
    if data == [] then []
    else (if data[0].score > 0.0 then [data[0].data] else []) + Positive(data[1..])
  }

  lemma {:induction false} PositiveAppend(a: seq<Training>, b: seq<Training>)
    ensures Positive(a + b) == Positive(a) + Positive(b)
    decreases |a|
  {
    if a == [] {
      assert a + b == b;
    } else {
      assert (a + b)[1..] == a[1..] + b;
      PositiveAppend(a[1..], b);
    }
  }

  /** Every positive example is the vector of some point with a positive score,
      and every such point contributes its vector. */
  lemma {:induction false} PositiveExact(data: seq<Training>)
    ensures forall v | v in Positive(data) :: exists i | 0 <= i < |data| :: data[i].score > 0.0 && data[i].data == v
    ensures forall i | 0 <= i < |data| && data[i].score > 0.0 :: data[i].data in Positive(data)
    decreases |data|
  {
    if data != [] {
      PositiveExact(data[1..]);
      forall v | v in Positive(data)
        ensures exists i | 0 <= i < |data| :: data[i].score > 0.0 && data[i].data == v
      {
        if !(v in Positive(data[1..])) {
          assert data[0].score > 0.0 && data[0].data == v;
        } else {
          var i :| 0 <= i < |data[1..]| && data[1..][i].score > 0.0 && data[1..][i].data == v;
          assert data[i + 1] == data[1..][i];
        }
      }
      forall i | 0 <= i < |data| && data[i].score > 0.0
        ensures data[i].data in Positive(data)
      {
        if i > 0 {
          assert data[i] == data[1..][i - 1];
        }
      }
    }
  }

  /** Mean relative tolerance of the default filter. */
  const FilterTolerance: real := 0.00001

  /** Parameter i varies across the points: some point's value there is not
      close to the first point's. */
  predicate Varies(data: seq<Training>, i: nat)
    requires data != [] && forall j | 0 <= j < |data| :: i < |data[j].data|
  {
    exists j | 0 <= j < |data| :: !IsClose(data[j].data[i], data[0].data[i], FilterTolerance)
  }

  /** Every point has at least as many entries as the first one. */
  predicate WideEnough(data: seq<Training>)
  {
    data != [] && forall j | 0 <= j < |data| :: |data[0].data| <= |data[j].data|
  }

  function VaryingFrom(data: seq<Training>, i: nat): (r: seq<nat>)
    requires WideEnough(data) && i <= |data[0].data|
    ensures forall k | 0 <= k < |r| :: i <= r[k] < |data[0].data|
    ensures forall k, l | 0 <= k < l < |r| :: r[k] < r[l]
    ensures forall p | i <= p < |data[0].data| :: p in r <==> Varies(data, p)
    decreases |data[0].data| - i
  {
    if i == |data[0].data| then []
    else (if Varies(data, i) then [i] else []) + VaryingFrom(data, i + 1)
  }

  /** `getDefaultFilter`: the ascending indices of the parameters that vary
      across the data. Python raises IndexError without data, or when some point
      is shorter than the first. */
  function DefaultFilter(data: seq<Training>): (r: Option<seq<nat>>)
    ensures r.None? <==> !WideEnough(data)
    ensures r.Some? ==> forall k, l | 0 <= k < l < |r.value| :: r.value[k] < r.value[l]
    ensures r.Some? ==> forall p: nat :: p in r.value <==> p < |data[0].data| && Varies(data, p)
  {
    if WideEnough(data) then Some(VaryingFrom(data, 0)) else None
  }

  /** A single point varies nowhere: its default filter is empty. */
  lemma SinglePointFiltersNothing(t: Training)
    ensures DefaultFilter([t]) == Some([])
  {
    var r := DefaultFilter([t]).value;
    if |r| > 0 {
      assert r[0] in r;
      assert IsClose(t.data[r[0]], t.data[r[0]], FilterTolerance);
    }
  }

  // ---------------------------------------------------------------------------
  // Threshold selection over sweep results

  function SeqMax(s: seq<real>): (m: real)
    requires s != []
    ensures m in s && forall k | 0 <= k < |s| :: s[k] <= m
  {
    if |s| == 1 then s[0] else var t := SeqMax(s[1..]); if s[0] > t then s[0] else t
  }

  function SeqMin(s: seq<real>): (m: real)
    requires s != []
    ensures m in s && forall k | 0 <= k < |s| :: m <= s[k]
  {
    if |s| == 1 then s[0] else var t := SeqMin(s[1..]); if s[0] < t then s[0] else t
  }

  /** The running maximum of the source's loops, which starts at 0. */
  function MaxFromZero(vals: seq<real>): (m: real)
    ensures m >= 0.0
    ensures forall k | 0 <= k < |vals| :: vals[k] <= m
    decreases |vals|
  {
    if vals == [] then 0.0
    else
      var t := MaxFromZero(vals[..|vals| - 1]);
      if vals[|vals| - 1] > t then vals[|vals| - 1] else t
  }

  /** The running maximum is 0 or one of the values. */
  lemma {:induction false} MaxFromZeroAttained(vals: seq<real>)
    ensures MaxFromZero(vals) == 0.0 || exists k | 0 <= k < |vals| :: vals[k] == MaxFromZero(vals)
    decreases |vals|
  {
    if vals != [] {
      var init := vals[..|vals| - 1];
      MaxFromZeroAttained(init);
      if MaxFromZero(vals) != vals[|vals| - 1] && MaxFromZero(init) != 0.0 {
        var k :| 0 <= k < |init| && init[k] == MaxFromZero(init);
        assert vals[k] == init[k];
      }
    }
  }

  /** The ids, in order, whose value strictly exceeds the threshold. */
  function Above(ids: seq<int>, vals: seq<real>, threshold: real): (r: seq<int>)
    requires |ids| == |vals|
    ensures |r| <= |ids|
    decreases |ids|
  {
    if ids == [] then []
    else
      var rest := Above(ids[..|ids| - 1], vals[..|vals| - 1], threshold);
      rest + (if vals[|vals| - 1] > threshold then [ids[|ids| - 1]] else [])
  }

  /** An id is selected exactly when one of its occurrences has a value above
      the threshold. */
  lemma AboveExact(ids: seq<int>, vals: seq<real>, threshold: real)
    requires |ids| == |vals|
    ensures forall x :: x in Above(ids, vals, threshold) <==>
      exists k | 0 <= k < |ids| :: ids[k] == x && vals[k] > threshold
  {
    forall x | x in Above(ids, vals, threshold)
      ensures exists k | 0 <= k < |ids| :: ids[k] == x && vals[k] > threshold
    {
      AboveSound(ids, vals, threshold, x);
    }
    forall k | 0 <= k < |ids| && vals[k] > threshold
      ensures ids[k] in Above(ids, vals, threshold)
    {
      AboveComplete(ids, vals, threshold, k);
    }
  }

  lemma {:induction false} AboveSound(ids: seq<int>, vals: seq<real>, threshold: real, x: int)
    requires |ids| == |vals| && x in Above(ids, vals, threshold)
    ensures exists k | 0 <= k < |ids| :: ids[k] == x && vals[k] > threshold
    decreases |ids|
  {
    var n := |ids| - 1;
    if x in Above(ids[..n], vals[..n], threshold) {
      AboveSound(ids[..n], vals[..n], threshold, x);
      var k :| 0 <= k < n && ids[..n][k] == x && vals[..n][k] > threshold;
      assert ids[k] == x && vals[k] > threshold;
    } else {
      assert ids[n] == x && vals[n] > threshold;
    }
  }

  lemma {:induction false} AboveComplete(ids: seq<int>, vals: seq<real>, threshold: real, k: nat)
    requires |ids| == |vals| && k < |ids| && vals[k] > threshold
    ensures ids[k] in Above(ids, vals, threshold)
    decreases |ids|
  {
    var n := |ids| - 1;
    if k < n {
      assert ids[..n][k] == ids[k] && vals[..n][k] == vals[k];
      AboveComplete(ids[..n], vals[..n], threshold, k);
    }
  }

  /** The selection threshold: `fraction ×` the running maximum. */
  function Scale(m: real, fraction: real): real
  {
    m * fraction
  }

  method RunningMax(vals: seq<real>) returns (best: real)
    ensures best == MaxFromZero(vals)
  {
    best := 0.0;
    var i := 0;
    while i < |vals|
      invariant 0 <= i <= |vals|
      invariant best == MaxFromZero(vals[..i])
    {
      assert vals[..i + 1][..i] == vals[..i];
      if vals[i] > best {
        best := vals[i];
      }
      i := i + 1;
    }
    assert vals[..|vals|] == vals;
  }

  method SelectAbove(ids: seq<int>, vals: seq<real>, threshold: real) returns (params: seq<int>)
    requires |ids| == |vals|
    ensures params == Above(ids, vals, threshold)
  {
    params := [];
    var i := 0;
    while i < |ids|
      invariant 0 <= i <= |ids|
      invariant params == Above(ids[..i], vals[..i], threshold)
    {
      assert ids[..i + 1][..i] == ids[..i];
      assert vals[..i + 1][..i] == vals[..i];
      if vals[i] > threshold {
        params := params + [ids[i]];
      }
      i := i + 1;
    }
    assert ids[..|ids|] == ids;
    assert vals[..|ids|] == vals;
  }

  /** The two loops shared by `identifyHighImpactParams` and
      `identifyBestParams`: a running maximum from 0, then the ids whose value
      exceeds `fraction ×` that maximum. */
  method SelectAboveFraction(ids: seq<int>, vals: seq<real>, fraction: real) returns (params: seq<int>)
    requires |ids| == |vals|
    ensures params == Above(ids, vals, Scale(MaxFromZero(vals), fraction))
  {
    var best := RunningMax(vals);
    var th := best * fraction;
    params := SelectAbove(ids, vals, th);
    assert th == Scale(MaxFromZero(vals), fraction);
  }

  lemma {:induction false} AboveIncludes(ids: seq<int>, vals: seq<real>, threshold: real, p: nat)
    requires |ids| == |vals| && p < |ids| && vals[p] > threshold
    ensures ids[p] in Above(ids, vals, threshold)
    decreases |ids|
  {
    var n := |ids| - 1;
    if p < n {
      AboveIncludes(ids[..n], vals[..n], threshold, p);
      assert ids[..n][p] == ids[p];
    }
  }

  lemma ScaleBelow(m: real, f: real)
    requires m > 0.0 && f < 1.0
    ensures Scale(m, f) < m
  {
    assert m * (1.0 - f) > 0.0;
  }

  /** When some value is positive and the fraction is below 1, the best id is
      always selected, so the result is not empty. */
  lemma PeakSelected(ids: seq<int>, vals: seq<real>, fraction: real, k: nat)
    requires |ids| == |vals| && fraction < 1.0
    requires k < |vals| && vals[k] > 0.0
    ensures Above(ids, vals, Scale(MaxFromZero(vals), fraction)) != []
  {
    var m := MaxFromZero(vals);
    assert m > 0.0;
    MaxFromZeroAttained(vals);
    var p :| 0 <= p < |vals| && vals[p] == m;
    ScaleBelow(m, fraction);
    AboveIncludes(ids, vals, Scale(m, fraction), p);
  }

  /** A 1-D sweep result for one parameter: its id and predicted means. */
  datatype Sweep = Sweep(id: int, mean: seq<real>)

  predicate AllNonEmpty(sweeps: seq<Sweep>)
  {
    forall k | 0 <= k < |sweeps| :: sweeps[k].mean != []
  }

  function Ids(sweeps: seq<Sweep>): (r: seq<int>)
    ensures |r| == |sweeps| && forall k | 0 <= k < |sweeps| :: r[k] == sweeps[k].id
  {
    seq(|sweeps|, k requires 0 <= k < |sweeps| => sweeps[k].id)
  }

  /** Each sweep's range of means, `max(mean) - min(mean)`. */
  function Magnitudes(sweeps: seq<Sweep>): (r: seq<real>)
    requires AllNonEmpty(sweeps)
    ensures |r| == |sweeps|
    ensures forall k | 0 <= k < |sweeps| :: r[k] == SeqMax(sweeps[k].mean) - SeqMin(sweeps[k].mean)
  {
    seq(|sweeps|, k requires 0 <= k < |sweeps| => SeqMax(sweeps[k].mean) - SeqMin(sweeps[k].mean))
  }

  /** Each sweep's best mean. */
  function Peaks(sweeps: seq<Sweep>): (r: seq<real>)
    requires AllNonEmpty(sweeps)
    ensures |r| == |sweeps| && forall k | 0 <= k < |sweeps| :: r[k] == SeqMax(sweeps[k].mean)
  {
    seq(|sweeps|, k requires 0 <= k < |sweeps| => SeqMax(sweeps[k].mean))
  }

  /** `identifyHighImpactParams` given the sweep: the ids whose mean range
      exceeds `magnitudeThreshold ×` the largest range (from 0); None where
      `max` of an empty sweep raises ValueError. */
  method IdentifyHighImpactParams(sweeps: seq<Sweep>, magnitudeThreshold: real) returns (r: Option<seq<int>>)
    ensures r.None? <==> !AllNonEmpty(sweeps)
    ensures r.Some? ==> AllNonEmpty(sweeps)
    ensures r.Some? ==>
      r.value == Above(Ids(sweeps), Magnitudes(sweeps), Scale(MaxFromZero(Magnitudes(sweeps)), magnitudeThreshold))
  {
    if !AllNonEmpty(sweeps) {
      return None;
    }
    var params := SelectAboveFraction(Ids(sweeps), Magnitudes(sweeps), magnitudeThreshold);
    r := Some(params);
  }

  /** `identifyBestParams` given the sweep: the ids whose best mean exceeds
      `bestThreshold ×` the best over all ids (from 0). */
  method IdentifyBestParams(sweeps: seq<Sweep>, bestThreshold: real) returns (r: Option<seq<int>>)
    ensures r.None? <==> !AllNonEmpty(sweeps)
    ensures r.Some? ==> AllNonEmpty(sweeps)
    ensures r.Some? ==>
      r.value == Above(Ids(sweeps), Peaks(sweeps), Scale(MaxFromZero(Peaks(sweeps)), bestThreshold))
  {
    if !AllNonEmpty(sweeps) {
      return None;
    }
    var params := SelectAboveFraction(Ids(sweeps), Peaks(sweeps), bestThreshold);
    r := Some(params);
  }

  // ---------------------------------------------------------------------------
  // The snippet object

  /** How `train` starts: refused without data, failed while computing the
      default filter, or on to the Gaussian-process fit (not modelled). */
  datatype TrainStart = Refused(status: DSStatus) | FilterFailed | Fitting

  class Snippet {
    const name: string
    var data: seq<Training>
    var filter: seq<int>

    constructor (name: string)
      ensures this.name == name && data == [] && filter == []
    {
      this.name := name;
      data := [];
      filter := [];
    }

    method SetData(items: seq<Training>)
      modifies this`data
      ensures data == items
    {
      data := items;
    }

    /** `addData` and `addTraining`: one point appended at the end. */
    method AddData(item: Training)
      modifies this`data
      ensures data == old(data) + [item]
    {
      data := data + [item];
    }

    method RemoveData(index: int) returns (r: Result<(), IndexError>)
      modifies this`data
      ensures RemoveAt(old(data), index).Ok? ==> r.Ok? && data == RemoveAt(old(data), index).value
      ensures RemoveAt(old(data), index).Err? ==> r.Err? && data == old(data)
    {
      var res := RemoveAt(data, index);
      if res.Err? {
        return Err(IndexError);
      }
      data := res.value;
      r := Ok(());
    }

    /** `posExamples`. */
    method PosExamples() returns (pos: seq<seq<real>>)
      ensures pos == Positive(data)
    {
      pos := [];
      var i := 0;
      while i < |data|
        invariant 0 <= i <= |data|
        invariant pos == Positive(data[..i])
      {
        PositiveAppend(data[..i], [data[i]]);
        assert data[..i + 1] == data[..i] + [data[i]];
        if data[i].score > 0.0 {
          pos := pos + [data[i].data];
        }
        i := i + 1;
      }
      assert data[..|data|] == data;
    }

    /** The guard and filter step of `train`: no data means status -1 and nothing
        touched; otherwise the filter is the custom one or the default one. */
    method TrainGuard(customFilter: Option<seq<int>>) returns (r: TrainStart)
      modifies this`filter
      ensures data == [] ==> r == Refused(DSStatus(-1,
        "Snippet training failure. No training data set for Snippet " + name)) && filter == old(filter)
      ensures data != [] && customFilter.Some? ==> r == Fitting && filter == customFilter.value
      ensures data != [] && customFilter.None? && DefaultFilter(data).Some? ==>
        r == Fitting && filter == DefaultFilter(data).value
      ensures data != [] && customFilter.None? && DefaultFilter(data).None? ==>
        r == FilterFailed && filter == old(filter)
    {
      if |data| == 0 {
        return Refused(DSStatus(-1, "Snippet training failure. No training data set for Snippet " + name));
      }
      if customFilter.Some? {
        filter := customFilter.value;
        return Fitting;
      }
      var d := DefaultFilter(data);
      if d.None? {
        return FilterFailed;
      }
      filter := d.value;
      r := Fitting;
    }
  }
}
