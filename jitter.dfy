/** Random perturbation around a point (core/jitter.py): each affected
    parameter moves by `uniform(-1, 1) * delta` and is clamped to [0, 1]. The
    uniform draws and the optional score function are inputs. */
module Jitter {
  import opened Wrappers
  import Samplers

  /** `clamp(x, min, max)`: the lower bound is compared first. */
  function Clamp(x: real, lo: real, hi: real): (r: real)
    ensures x < lo ==> r == lo
    ensures lo <= x && x > hi ==> r == hi
    ensures lo <= x <= hi ==> r == x
  {
    if x < lo then lo else if x > hi then hi else x
  }

  /** With ordered bounds the result lies between them, values already inside
      are kept, and clamping twice is clamping once. */
  lemma ClampInRange(x: real, lo: real, hi: real)
    requires lo <= hi
    ensures lo <= Clamp(x, lo, hi) <= hi
    ensures Clamp(Clamp(x, lo, hi), lo, hi) == Clamp(x, lo, hi)
  {
  }

  /** Clamping to [0, 1] moves a point of [0, 1] by no more than the step. */
  lemma ClampNear(v: real, step: real, delta: real)
    requires 0.0 <= v <= 1.0 && -delta <= step <= delta
    ensures -delta <= Clamp(v + step, 0.0, 1.0) - v <= delta
  {
  }

  function Abs(x: real): real { if x < 0.0 then -x else x }

  function Step(u: real, delta: real): real { u * delta }

  lemma StepBound(u: real, delta: real)
    requires -1.0 <= u <= 1.0 && delta >= 0.0
    ensures -delta <= Step(u, delta) <= delta
  {
    NonNegProduct(1.0 - u, delta);
    NonNegProduct(1.0 + u, delta);
  }

  lemma NonNegProduct(x: real, y: real)
    requires x >= 0.0 && y >= 0.0
    ensures x * y >= 0.0
  {
  }

  /** One sample: the successive clamped moves of the affected entries, each
      applied to the vector as modified so far. */
  function Perturb(x0: seq<real>, delta: real, affected: seq<int>, us: seq<real>, m: nat): (xp: seq<real>)
    requires m <= |affected| && m <= |us|
    requires forall k | 0 <= k < |affected| :: Samplers.ValidIndex(|x0|, affected[k])
    ensures |xp| == |x0|
  {
    if m == 0 then x0
    else
      var prev := Perturb(x0, delta, affected, us, m - 1);
      var p := Samplers.PyNorm(|x0|, affected[m - 1]);
      prev[p := Clamp(prev[p] + Step(us[m - 1], delta), 0.0, 1.0)]
  }

  predicate Touched(n: nat, affected: seq<int>, m: nat, p: int)
    requires m <= |affected|
  {
    exists k | 0 <= k < m :: Samplers.PyNorm(n, affected[k]) == p
  }

  /** Entries never named keep x0's value; named ones end up in [0, 1]. */
  lemma {:induction false} PerturbShape(x0: seq<real>, delta: real, affected: seq<int>, us: seq<real>, m: nat)
    requires m <= |affected| && m <= |us|
    requires forall k | 0 <= k < |affected| :: Samplers.ValidIndex(|x0|, affected[k])
    ensures forall p | 0 <= p < |x0| && !Touched(|x0|, affected, m, p) :: Perturb(x0, delta, affected, us, m)[p] == x0[p]
    ensures forall p | 0 <= p < |x0| && Touched(|x0|, affected, m, p) :: 0.0 <= Perturb(x0, delta, affected, us, m)[p] <= 1.0
    decreases m
  {
    if m > 0 {
      PerturbShape(x0, delta, affected, us, m - 1);
      var q := Samplers.PyNorm(|x0|, affected[m - 1]);
      forall p | 0 <= p < |x0| && Touched(|x0|, affected, m, p) && p != q
        ensures Touched(|x0|, affected, m - 1, p)
      {
        var k :| 0 <= k < m && Samplers.PyNorm(|x0|, affected[k]) == p;
      }
    }
  }

  predicate DistinctTargets(n: nat, affected: seq<int>)
  {
    forall i, j | 0 <= i < j < |affected| :: Samplers.PyNorm(n, affected[i]) != Samplers.PyNorm(n, affected[j])
  }

  /** With distinct affected indices, x0 inside [0, 1], draws in [-1, 1] and a
      non-negative delta, every entry stays within delta of x0. */
  lemma {:induction false} PerturbNear(x0: seq<real>, delta: real, affected: seq<int>, us: seq<real>, m: nat)
    requires m <= |affected| && m <= |us| && delta >= 0.0
    requires forall k | 0 <= k < |affected| :: Samplers.ValidIndex(|x0|, affected[k])
    requires DistinctTargets(|x0|, affected)
    requires forall p | 0 <= p < |x0| :: 0.0 <= x0[p] <= 1.0
    requires forall k | 0 <= k < |us| :: -1.0 <= us[k] <= 1.0
    ensures forall p | 0 <= p < |x0| :: Abs(Perturb(x0, delta, affected, us, m)[p] - x0[p]) <= delta
    decreases m
  {
    if m > 0 {
      PerturbNear(x0, delta, affected, us, m - 1);
      PerturbShape(x0, delta, affected, us, m - 1);
      var q := Samplers.PyNorm(|x0|, affected[m - 1]);
      assert !Touched(|x0|, affected, m - 1, q);
      StepBound(us[m - 1], delta);
      ClampNear(x0[q], Step(us[m - 1], delta), delta);
    }
  }

  datatype JitterSample = JitterSample(x: seq<real>, score: real, idx: nat)

  /** Every index; what a missing `affectedParams` stands for. */
  function AllIndices(n: nat): (r: seq<int>)
    ensures |r| == n && forall k | 0 <= k < n :: r[k] == k
  {
    seq(n, k => k)
  }

  function Targets(n: nat, affectedParams: Option<seq<int>>): (r: seq<int>)
    ensures affectedParams.None? ==> r == AllIndices(n)
    ensures affectedParams.Some? ==> r == affectedParams.value
  {
    if affectedParams.None? then AllIndices(n) else affectedParams.value
  }

  /** The inner loop: one perturbed copy of x0. */
  method PerturbCopy(x0: seq<real>, delta: real, affected: seq<int>, us: seq<real>) returns (xp: seq<real>)
    requires |us| >= |affected|
    requires forall k | 0 <= k < |affected| :: Samplers.ValidIndex(|x0|, affected[k])
    ensures xp == Perturb(x0, delta, affected, us, |affected|)
  {
    xp := x0;
    var k := 0;
    while k < |affected|
      invariant 0 <= k <= |affected| && xp == Perturb(x0, delta, affected, us, k)
    {
      var p := Samplers.PyNorm(|x0|, affected[k]);
      xp := xp[p := Clamp(xp[p] + Step(us[k], delta), 0.0, 1.0)];
      k := k + 1;
    }
  }

  /** `jitter(x0, delta, affectedParams, n, scoreFunc)` with `uniforms[i][k]`
      the draw for the k-th affected entry of sample i; None where an affected
      index is out of range and a sample is taken (Python raises IndexError). */
  method Jitter(x0: seq<real>, delta: real, affectedParams: Option<seq<int>>, n: int,
                scoreFunc: Option<seq<real> -> real>, uniforms: seq<seq<real>>)
    returns (r: Option<seq<JitterSample>>)
    requires forall i | 0 <= i < |uniforms| :: |uniforms[i]| >= |Targets(|x0|, affectedParams)|
    requires n <= |uniforms|
    ensures var ts := Targets(|x0|, affectedParams);
      r.None? <==> n > 0 && exists k | 0 <= k < |ts| :: !Samplers.ValidIndex(|x0|, ts[k])
    ensures r.Some? ==> |r.value| == (if n < 0 then 0 else n)
    ensures r.Some? ==> forall i | 0 <= i < |r.value| ::
      && r.value[i].idx == i
      && r.value[i].x == Perturb(x0, delta, Targets(|x0|, affectedParams), uniforms[i], |Targets(|x0|, affectedParams)|)
      && r.value[i].score == (if scoreFunc.None? then 0.0 else scoreFunc.value(r.value[i].x))
  {
    var affected := Targets(|x0|, affectedParams);
    if n > 0 && exists k | 0 <= k < |affected| :: !Samplers.ValidIndex(|x0|, affected[k]) {
      return None;
    }
    var samples: seq<JitterSample> := [];
    var i := 0;
    while i < n
      invariant 0 <= i <= (if n < 0 then 0 else n) && |samples| == i
      invariant n > 0 ==> forall k | 0 <= k < |affected| :: Samplers.ValidIndex(|x0|, affected[k])
      invariant forall j | 0 <= j < i ::
        && samples[j].idx == j
        && samples[j].x == Perturb(x0, delta, affected, uniforms[j], |affected|)
        && samples[j].score == (if scoreFunc.None? then 0.0 else scoreFunc.value(samples[j].x))
    {
      var xp := PerturbCopy(x0, delta, affected, uniforms[i]);
      var score := 0.0;
      if scoreFunc.Some? {
        score := scoreFunc.value(xp);
      }
      samples := samples + [JitterSample(xp, score, i)];
      i := i + 1;
    }
    return Some(samples);
  }

  /** Every sample of a successful `jitter` matches x0 off the affected
      entries, keeps the affected ones in [0, 1], and, under the conditions of
      PerturbNear, within delta of x0. */
  lemma JitterSampleShape(x0: seq<real>, delta: real, affected: seq<int>, us: seq<real>, p: nat)
    requires |us| >= |affected| && p < |x0|
    requires forall k | 0 <= k < |affected| :: Samplers.ValidIndex(|x0|, affected[k])
    ensures !Touched(|x0|, affected, |affected|, p) ==> Perturb(x0, delta, affected, us, |affected|)[p] == x0[p]
    ensures Touched(|x0|, affected, |affected|, p) ==> 0.0 <= Perturb(x0, delta, affected, us, |affected|)[p] <= 1.0
  {
    PerturbShape(x0, delta, affected, us, |affected|);
  }
}
