/** Snippet mixing (core/mixer.py): generator bit vectors, duplicate
    detection, the `mix` loop that blends two parameter vectors on the indices
    where they differ, and the `mixSnippets` dispatch. Random draws are
    inputs. */
module Mixer {
  import opened Wrappers
  import opened SnippetCore
  import opened DsTypes

  /** What `reduce` without an initial value raises on an empty list, and an
      index past the end. */
  datatype PyError = TypeError | OutOfRange

  /** `btVecEq(a, b)`: elementwise equality over a's indices, and-reduced. */
  function BtVecEq(a: seq<int>, b: seq<int>): (r: Result<bool, PyError>)
    ensures a == [] <==> r == Err(TypeError)
    ensures a != [] && |b| < |a| <==> r == Err(OutOfRange)
    ensures r.Ok? ==> (r.value <==> a == b[..|a|])
  {
    if a == [] then Err(TypeError)
    else if |b| < |a| then Err(OutOfRange)
    else Ok(a == b[..|a|])
  }

  datatype MixResult = MixResult(generator: seq<int>, x: seq<real>)

  function Generators(results: seq<MixResult>): (g: seq<seq<int>>)
    ensures |g| == |results| && forall k | 0 <= k < |results| :: g[k] == results[k].generator
  {
    seq(|results|, k requires 0 <= k < |results| => results[k].generator)
  }

  /** `isDuplicate(x, results)`: false with no results, otherwise the
      or-reduction of `btVecEq(x, generator)` over them. */
  function IsDuplicate(x: seq<int>, gens: seq<seq<int>>): (r: Result<bool, PyError>)
    decreases |gens|
  {
    if gens == [] then Ok(false)
    else
      match BtVecEq(x, gens[|gens| - 1])
      case Err(e) => Err(e)
      case Ok(last) =>
        if |gens| == 1 then Ok(last)
        else match IsDuplicate(x, gens[..|gens| - 1])
          case Err(e) => Err(e)
          case Ok(earlier) => Ok(earlier || last)
  }

  /** For a non-empty vector and generators of its length, `isDuplicate` is
      membership. */
  lemma {:induction false} IsDuplicateIsMembership(x: seq<int>, gens: seq<seq<int>>)
    requires x != [] && forall k | 0 <= k < |gens| :: |gens[k]| == |x|
    ensures IsDuplicate(x, gens) == Ok(x in gens)
    decreases |gens|
  {
    if |gens| > 1 {
      var init := gens[..|gens| - 1];
      IsDuplicateIsMembership(x, init);
      assert gens == init + [gens[|gens| - 1]];
      assert gens[|gens| - 1][..|x|] == gens[|gens| - 1];
    } else if |gens| == 1 {
      assert gens[0][..|x|] == gens[0];
    }
  }

  /** The indices where a and b are not close (relative tolerance 1e-3). */
  function Active(a: seq<real>, b: seq<real>, m: nat): (r: seq<nat>)
    requires m <= |a| && m <= |b|
    ensures |r| <= m
    ensures forall k | 0 <= k < |r| :: r[k] < m
    ensures forall k, l | 0 <= k < l < |r| :: r[k] < r[l]
    ensures forall i | 0 <= i < m :: i in r <==> !IsClose(a[i], b[i], MixTolerance)
  {
    if m == 0 then []
    else
      var prev := Active(a, b, m - 1);
      if !IsClose(a[m - 1], b[m - 1], MixTolerance) then prev + [m - 1] else prev
  }

  const MixTolerance: real := 0.001

  /** The generator a row of draws gives: 0 where the draw exceeds the bias, 1
      otherwise. */
  function Zvec(draws: seq<real>, bias: real, length: nat): (z: seq<int>)
    requires length <= |draws|
    ensures |z| == length
    ensures forall j | 0 <= j < length :: z[j] == (if draws[j] > bias then 0 else 1)
  {
    seq(length, j requires 0 <= j < length => if draws[j] > bias then 0 else 1)
  }

  predicate Bits(z: seq<int>) { forall j | 0 <= j < |z| :: z[j] == 0 || z[j] == 1 }

  /** `rvec` for a generator: a copy of a where, at `active[j]`, generator bit 0
      keeps a's value and bit 1 takes b's. */
  method Pick(a: seq<real>, b: seq<real>, active: seq<nat>, z: seq<int>) returns (rvec: seq<real>)
    requires |b| >= |a| && |z| == |active| && Bits(z)
    requires forall k | 0 <= k < |active| :: active[k] < |a|
    requires forall k, l | 0 <= k < l < |active| :: active[k] < active[l]
    ensures |rvec| == |a|
    ensures forall p | 0 <= p < |a| && p !in active :: rvec[p] == a[p]
    ensures forall j | 0 <= j < |active| :: rvec[active[j]] == (if z[j] == 0 then a[active[j]] else b[active[j]])
  {
    rvec := a;
    var j := 0;
    while j < |active|
      invariant 0 <= j <= |active| && |rvec| == |a|
      invariant forall p | 0 <= p < |a| && p !in active[..j] :: rvec[p] == a[p]
      invariant forall k | 0 <= k < j :: rvec[active[k]] == (if z[k] == 0 then a[active[k]] else b[active[k]])
    {
      var p := active[j];
      if z[j] == 0 {
        rvec := rvec[p := a[p]];
      } else if z[j] == 1 {
        rvec := rvec[p := b[p]];
      }
      assert active[..j + 1] == active[..j] + [p];
      j := j + 1;
    }
    assert active[..|active|] == active;
  }

  datatype MixOutcome = MixOutcome(results: seq<MixResult>, count: nat, active: seq<nat>)

  function Max(a: int, b: int): int { if a < b then b else a }

  predicate DistinctGenerators(results: seq<MixResult>)
  {
    forall i, j | 0 <= i < j < |results| :: results[i].generator != results[j].generator
  }

  /** A result blends a and b as its generator says on the active indices and
      equals a everywhere else. */
  predicate Blend(res: MixResult, a: seq<real>, b: seq<real>, active: seq<nat>)
    requires |b| >= |a| && forall k | 0 <= k < |active| :: active[k] < |a|
  {
    && |res.generator| == |active| && |res.x| == |a|
    && (forall p | 0 <= p < |a| && p !in active :: res.x[p] == a[p])
    && forall j | 0 <= j < |active| ::
         res.x[active[j]] == (if res.generator[j] == 0 then a[active[j]] else b[active[j]])
  }

  predicate Blends(results: seq<MixResult>, a: seq<real>, b: seq<real>, active: seq<nat>)
    requires |b| >= |a| && forall k | 0 <= k < |active| :: active[k] < |a|
  {
    forall k | 0 <= k < |results| :: Blend(results[k], a, b, active)
  }

  /** The `activeParams` loop. */
  method ActiveParams(a: seq<real>, b: seq<real>) returns (active: seq<nat>)
    requires |b| >= |a|
    ensures active == Active(a, b, |a|)
  {
    active := [];
    var i := 0;
    while i < |a|
      invariant 0 <= i <= |a| && active == Active(a, b, i)
    {
      if !IsClose(a[i], b[i], MixTolerance) {
        active := active + [i];
      }
      i := i + 1;
    }
  }

  /** Whether the attempts loop has hit its `break`: it breaks only right
      after appending, once there are `count` results. */
  predicate Stopped(gens: seq<seq<int>>, count: int)
  {
    gens != [] && |gens| >= count
  }

  /** The generators after the first t attempts: each attempt's Zvec is added
      unless it is already present, and nothing more after the stop. */
  function Gens(draws: seq<seq<real>>, bias: real, length: nat, count: int, t: nat): (g: seq<seq<int>>)
    requires t <= |draws| && forall i | 0 <= i < |draws| :: |draws[i]| >= length
  {
    if t == 0 then []
    else
      var prev := Gens(draws, bias, length, count, t - 1);
      var z := Zvec(draws[t - 1], bias, length);
      if Stopped(prev, count) || z in prev then prev else prev + [z]
  }

  /** The first attempt always yields a result, since nothing duplicates an
      empty list. */
  lemma GensFirstAttempt(draws: seq<seq<real>>, bias: real, length: nat, count: int, t: nat)
    requires 1 <= t <= |draws| && forall i | 0 <= i < |draws| :: |draws[i]| >= length
    ensures |Gens(draws, bias, length, count, t)| >= 1
    ensures Gens(draws, bias, length, count, t)[0] == Zvec(draws[0], bias, length)
    decreases t
  {
    if t > 1 {
      GensFirstAttempt(draws, bias, length, count, t - 1);
    }
  }

  predicate Distinct(g: seq<seq<int>>)
  {
    forall k, l | 0 <= k < l < |g| :: g[k] != g[l]
  }

  /** No two generators are equal. */
  lemma {:induction false} GensDistinct(draws: seq<seq<real>>, bias: real, length: nat, count: int, t: nat)
    requires t <= |draws| && forall i | 0 <= i < |draws| :: |draws[i]| >= length
    ensures Distinct(Gens(draws, bias, length, count, t))
    decreases t
  {
    if t > 0 {
      GensDistinct(draws, bias, length, count, t - 1);
    }
  }

  predicate FromDraws(g: seq<seq<int>>, draws: seq<seq<real>>, bias: real, length: nat, t: nat)
    requires t <= |draws| && forall i | 0 <= i < |draws| :: |draws[i]| >= length
  {
    forall k | 0 <= k < |g| :: exists u | 0 <= u < t :: g[k] == Zvec(draws[u], bias, length)
  }

  /** Each generator is the Zvec of one of the attempts made. */
  lemma {:induction false} GensFromDraws(draws: seq<seq<real>>, bias: real, length: nat, count: int, t: nat)
    requires t <= |draws| && forall i | 0 <= i < |draws| :: |draws[i]| >= length
    ensures FromDraws(Gens(draws, bias, length, count, t), draws, bias, length, t)
    decreases t
  {
    if t > 0 {
      var prev := Gens(draws, bias, length, count, t - 1);
      var g := Gens(draws, bias, length, count, t);
      GensFromDraws(draws, bias, length, count, t - 1);
      forall k | 0 <= k < |g| ensures exists u | 0 <= u < t :: g[k] == Zvec(draws[u], bias, length) {
        if k < |prev| {
          assert g[k] == prev[k];
          var u :| 0 <= u < t - 1 && prev[k] == Zvec(draws[u], bias, length);
        } else {
          assert g[k] == Zvec(draws[t - 1], bias, length);
        }
      }
    }
  }

  /** One more attempt before the stop: its Zvec is added unless present. */
  lemma GensNext(draws: seq<seq<real>>, bias: real, length: nat, count: int, t: nat)
    requires t < |draws| && forall i | 0 <= i < |draws| :: |draws[i]| >= length
    requires !Stopped(Gens(draws, bias, length, count, t), count)
    ensures var g := Gens(draws, bias, length, count, t); var z := Zvec(draws[t], bias, length);
      Gens(draws, bias, length, count, t + 1) == if z in g then g else g + [z]
  {
  }

  lemma BlendsAppend(results: seq<MixResult>, res: MixResult, a: seq<real>, b: seq<real>, active: seq<nat>)
    requires |b| >= |a| && forall k | 0 <= k < |active| :: active[k] < |a|
    requires Blends(results, a, b, active) && Blend(res, a, b, active)
    ensures Blends(results + [res], a, b, active)
  {
    assert forall k | 0 <= k < |results| :: (results + [res])[k] == results[k];
  }

  lemma DistinctOfGenerators(results: seq<MixResult>)
    requires Distinct(Generators(results))
    ensures DistinctGenerators(results)
  {
    forall i, j | 0 <= i < j < |results| ensures results[i].generator != results[j].generator {
      assert Generators(results)[i] != Generators(results)[j];
    }
  }

  lemma GeneratorsAppend(results: seq<MixResult>, res: MixResult)
    ensures Generators(results + [res]) == Generators(results) + [res.generator]
  {
    assert forall k | 0 <= k < |results| :: (results + [res])[k] == results[k];
  }

  /** Until the loop stops, every attempt's Zvec is among the generators:
      fewer than `count` results means every draw was used or a duplicate. */
  lemma {:induction false} GensComplete(draws: seq<seq<real>>, bias: real, length: nat, count: int, t: nat)
    requires t <= |draws| && forall i | 0 <= i < |draws| :: |draws[i]| >= length
    requires !Stopped(Gens(draws, bias, length, count, t), count)
    ensures forall u | 0 <= u < t :: Zvec(draws[u], bias, length) in Gens(draws, bias, length, count, t)
    decreases t
  {
    if t > 0 {
      var prev := Gens(draws, bias, length, count, t - 1);
      assert !Stopped(prev, count);
      GensComplete(draws, bias, length, count, t - 1);
    }
  }

  /** Once stopped, later attempts change nothing. */
  lemma {:induction false} GensStopped(draws: seq<seq<real>>, bias: real, length: nat, count: int, t: nat, t': nat)
    requires t <= t' <= |draws| && forall i | 0 <= i < |draws| :: |draws[i]| >= length
    requires Stopped(Gens(draws, bias, length, count, t), count)
    ensures Gens(draws, bias, length, count, t') == Gens(draws, bias, length, count, t)
    decreases t' - t
  {
    if t' > t {
      GensStopped(draws, bias, length, count, t, t' - 1);
    }
  }

  /** One pass of the attempts loop: draw the generator, and unless it is a
      duplicate, blend a and b by it and append the result. */
  method Attempt(a: seq<real>, b: seq<real>, active: seq<nat>, count: int, bias: real, draws: seq<seq<real>>,
                 t: nat, results: seq<MixResult>)
    returns (results': seq<MixResult>, added: bool)
    requires |b| >= |a| && 0 < |active| <= |a|
    requires forall k | 0 <= k < |active| :: active[k] < |a|
    requires forall k, l | 0 <= k < l < |active| :: active[k] < active[l]
    requires t < |draws| && forall i | 0 <= i < |draws| :: |draws[i]| >= |a|
    requires Generators(results) == Gens(draws, bias, |active|, count, t) && !Stopped(Generators(results), count)
    requires Blends(results, a, b, active)
    ensures Generators(results') == Gens(draws, bias, |active|, count, t + 1)
    ensures Blends(results', a, b, active)
    ensures if added then |results'| == |results| + 1 else results' == results
  {
    var zvec := Zvec(draws[t], bias, |active|);
    assert forall k | 0 <= k < |results| :: |Generators(results)[k]| == |zvec| by {
      forall k | 0 <= k < |results| ensures |Generators(results)[k]| == |zvec| {
        assert Blend(results[k], a, b, active);
      }
    }
    IsDuplicateIsMembership(zvec, Generators(results));
    GensNext(draws, bias, |active|, count, t);
    var dup := IsDuplicate(zvec, Generators(results));
    if dup.value {
      return results, false;
    }
    var rvec := Pick(a, b, active, zvec);
    var res := MixResult(zvec, rvec);
    assert Blend(res, a, b, active);
    BlendsAppend(results, res, a, b, active);
    GeneratorsAppend(results, res);
    return results + [res], true;
  }

  /** The attempts loop of `mix`: a fresh generator per attempt, skipped when
      already present, and a stop once `count` results exist. */
  method Generate(a: seq<real>, b: seq<real>, active: seq<nat>, count: int, bias: real, attempts: nat, draws: seq<seq<real>>)
    returns (results: seq<MixResult>)
    requires |b| >= |a| && 0 < |active| <= |a|
    requires forall k | 0 <= k < |active| :: active[k] < |a|
    requires forall k, l | 0 <= k < l < |active| :: active[k] < active[l]
    requires |draws| >= attempts && forall i | 0 <= i < |draws| :: |draws[i]| >= |a|
    ensures Generators(results) == Gens(draws, bias, |active|, count, attempts)
    ensures |results| <= attempts && |results| <= Max(count, 1)
    ensures DistinctGenerators(results)
    ensures Blends(results, a, b, active)
  {
    results := [];
    var t := 0;
    while t < attempts
      invariant 0 <= t <= attempts && |results| <= t
      invariant |results| == 0 || |results| < count
      invariant Generators(results) == Gens(draws, bias, |active|, count, t)
      invariant Blends(results, a, b, active)
    {
      var added;
      results, added := Attempt(a, b, active, count, bias, draws, t, results);
      if added && |results| >= count {
        GensStopped(draws, bias, |active|, count, t + 1, attempts);
        break;
      }
      t := t + 1;
    }
    ghost var g := Gens(draws, bias, |active|, count, attempts);
    GensDistinct(draws, bias, |active|, count, attempts);
    assert Distinct(g) && Generators(results) == g;
    DistinctOfGenerators(results);
  }

  /** `mix(a, b, count, bias, attempts)` with `draws[i][j]` the j-th
      `random.random()` of attempt i; None where b is shorter than a (Python
      raises IndexError). */
  method Mix(a: seq<real>, b: seq<real>, count: int, bias: real, attempts: nat, draws: seq<seq<real>>)
    returns (r: Option<MixOutcome>)
    requires |draws| >= attempts && forall i | 0 <= i < |draws| :: |draws[i]| >= |a|
    ensures r.None? <==> |b| < |a|
    ensures r.Some? ==> r.value.active == Active(a, b, |a|)
    ensures r.Some? ==> r.value.count == |r.value.results|
    ensures r.Some? && r.value.active == [] ==> r.value.results == []
    // otherwise the results follow the draws as Gens says, so at least one
    // exists when there was an attempt
    ensures r.Some? && r.value.active != [] ==>
      Generators(r.value.results) == Gens(draws, bias, |r.value.active|, count, attempts)
    ensures r.Some? && r.value.active != [] && attempts >= 1 ==> |r.value.results| >= 1
    ensures r.Some? ==> |r.value.results| <= attempts && |r.value.results| <= Max(count, 1)
    ensures r.Some? ==> DistinctGenerators(r.value.results)
    ensures r.Some? ==> Blends(r.value.results, a, b, r.value.active)
  {
    if |b| < |a| {
      return None;
    }
    var active := ActiveParams(a, b);
    var results: seq<MixResult> := [];
    if |active| > 0 {
      results := Generate(a, b, active, count, bias, attempts, draws);
      if attempts >= 1 {
        GensFirstAttempt(draws, bias, |active|, count, attempts);
      }
    }
    return Some(MixOutcome(results, |results|, active));
  }

  /** What `mixSnippets` does with `params["method"]`. */
  datatype Dispatch = MissingMethod | MixAll | NoMix

  function MixSnippets(params: map<string, string>): (d: Dispatch)
    ensures d == MissingMethod <==> "method" !in params
    ensures d == MixAll <==> "method" in params && params["method"] == "mixGPAll"
  {
    if "method" !in params then MissingMethod
    else if params["method"] == "mixGPAll" then MixAll
    else NoMix
  }

  function Concat(parts: seq<seq<Training>>): seq<Training>
    decreases |parts|
  {
    if parts == [] then [] else Concat(parts[..|parts| - 1]) + parts[|parts| - 1]
  }

  function DataOf(snippets: seq<Snippet>): (r: seq<seq<Training>>)
    reads snippets
    ensures |r| == |snippets| && forall k | 0 <= k < |snippets| :: r[k] == snippets[k].data
  {
    if snippets == [] then [] else DataOf(snippets[..|snippets| - 1]) + [snippets[|snippets| - 1].data]
  }

  /** The training data of `mixGPAll`'s combined snippet: every snippet's data
      in order; None where there is no first snippet to copy settings from. */
  method CombineData(snippets: seq<Snippet>) returns (combined: Option<Snippet>)
    ensures combined.None? <==> snippets == []
    ensures combined.Some? ==> fresh(combined.value) && combined.value.name == "combined"
    ensures combined.Some? ==> combined.value.data == Concat(DataOf(snippets))
  {
    if snippets == [] {
      return None;
    }
    var c := new Snippet("combined");
    ghost var parts := DataOf(snippets);
    var i := 0;
    while i < |snippets|
      invariant 0 <= i <= |snippets| && fresh(c) && c.name == "combined"
      invariant c.data == Concat(parts[..i])
    {
      var j := 0;
      ghost var before := c.data;
      while j < |snippets[i].data|
        invariant 0 <= j <= |snippets[i].data| && fresh(c)
        invariant c.data == before + snippets[i].data[..j]
      {
        c.AddData(snippets[i].data[j]);
        assert snippets[i].data[..j + 1] == snippets[i].data[..j] + [snippets[i].data[j]];
        j := j + 1;
      }
      assert snippets[i].data[..j] == parts[i];
      assert parts[..i + 1][..i] == parts[..i];
      i := i + 1;
    }
    assert parts[..|snippets|] == parts;
    return Some(c);
  }
}
