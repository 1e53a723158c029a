/** The particles.js demo backend (store/backend/particles.js): a fixed
    five-parameter set, the mapping from a normalised state to a particle
    configuration, and the value writes of the editor. */
module Particles {
  import opened Wrappers

  datatype Param = Param(name: string, value: real, min: real, max: real, id: nat, links: seq<nat>)

  const Shapes: seq<string> := ["circle", "edge", "triangle", "polygon", "star"]

  /** `getParamSet()`. */
  function ParamSet(): (ps: seq<Param>)
    ensures |ps| == 5
    ensures forall k | 0 <= k < 5 :: ps[k].id == k && ps[k].min == 0.0 && ps[k].max == 1.0
  {
    [ Param("number.value", 0.2, 0.0, 1.0, 0, []),
      Param("color.r", 1.0, 0.0, 1.0, 1, [2, 3]),
      Param("color.g", 1.0, 0.0, 1.0, 2, [1, 3]),
      Param("color.b", 1.0, 0.0, 1.0, 3, [1, 2]),
      Param("shape.type", 0.0, 0.0, 1.0, 4, []) ]
  }

  /** Links name other parameters of the set, never the parameter itself, and
      go both ways; the three colour channels link to each other. */
  lemma ParamSetLinks()
    ensures var ps := ParamSet();
      forall i, j | 0 <= i < 5 && 0 <= j < 5 ::
        (j in ps[i].links <==> i in ps[j].links)
        && (j in ps[i].links ==> i != j)
        && (1 <= i <= 3 && 1 <= j <= 3 && i != j ==> j in ps[i].links)
  {
    var ps := ParamSet();
    assert ps[0].links == [] && ps[4].links == [];
    assert ps[1].links == [2, 3] && ps[2].links == [1, 3] && ps[3].links == [1, 2];
  }

  /** `Math.max(0, Math.floor(s * 5 - 1e-6))`. */
  function ShapeIndex(s: real): (k: int)
    ensures k >= 0
    ensures 0.0 <= s <= 1.0 ==> k <= 4
  {
    var f := (s * 5.0 - 0.000001).Floor;
    if f < 0 then 0 else f
  }

  /** Shape k is chosen exactly when `5s` lies in `[k + 1e-6, k + 1 + 1e-6)`
      (below that bound for shape 0), so a state exactly on a fifth, such as
      0.2, picks the band beneath it. */
  lemma ShapeBands(s: real, k: nat)
    requires k < 5
    ensures ShapeIndex(s) == k <==>
      (k == 0 || (k as real) + 0.000001 <= 5.0 * s) && 5.0 * s < (k as real) + 1.000001
  {
  }

  /** `shapes[index]`: undefined past the end. */
  function ShapeName(s: real): (n: Option<string>)
    ensures 0.0 <= s <= 1.0 ==> n.Some? && n.value in Shapes
    ensures n.Some? <==> ShapeIndex(s) < 5
  {
    var k := ShapeIndex(s);
    if k < 5 then Some(Shapes[k]) else None
  }

  datatype PjsConfig = PjsConfig(count: real, r: real, g: real, b: real, shape: Option<string>)

  /** `paramsToPjs(state)`; None for a state with fewer than five entries (its
      missing entries read as undefined). */
  function ParamsToPjs(state: seq<real>): (c: Option<PjsConfig>)
    ensures c.None? <==> |state| < 5
    ensures c.Some? ==> c.value.count == state[0] * 500.0
    ensures c.Some? ==> c.value.r == 255.0 * state[1] && c.value.g == 255.0 * state[2] && c.value.b == 255.0 * state[3]
    ensures c.Some? ==> c.value.shape == ShapeName(state[4])
  {
    if |state| < 5 then None
    else Some(PjsConfig(state[0] * 500.0, 255.0 * state[1], 255.0 * state[2], 255.0 * state[3], ShapeName(state[4])))
  }

  /** A state in the unit cube gives at most 500 particles, channels within
      0..255 and a named shape. */
  lemma PjsInRange(state: seq<real>)
    requires |state| >= 5 && forall k | 0 <= k < |state| :: 0.0 <= state[k] <= 1.0
    ensures var c := ParamsToPjs(state).value;
      0.0 <= c.count <= 500.0 && 0.0 <= c.r <= 255.0 && 0.0 <= c.g <= 255.0 && 0.0 <= c.b <= 255.0 && c.shape.Some?
  {
  }

  function Values(ps: seq<Param>): (vs: seq<real>)
    ensures |vs| == |ps| && forall k | 0 <= k < |ps| :: vs[k] == ps[k].value
  {
    seq(|ps|, k requires 0 <= k < |ps| => ps[k].value)
  }

  /** The state the renderer draws: `settings.state` when present and
      non-empty, the current values otherwise. */
  function RenderState(settingsState: Option<seq<real>>, ps: seq<Param>): (s: seq<real>)
    ensures settingsState.Some? && |settingsState.value| > 0 ==> s == settingsState.value
    ensures !(settingsState.Some? && |settingsState.value| > 0) ==> s == Values(ps)
  {
    if settingsState.Some? && |settingsState.value| > 0 then settingsState.value else Values(ps)
  }

  /** Drawing the default set: 100 white particles, circles. */
  lemma DefaultRender()
    ensures ParamsToPjs(RenderState(None, ParamSet())) == Some(PjsConfig(100.0, 255.0, 255.0, 255.0, Some("circle")))
  {
    assert Values(ParamSet()) == [0.2, 1.0, 1.0, 1.0, 0.0];
  }

  class Backend {
    var params: seq<Param>

    constructor ()
      ensures params == []
    {
      params := [];
    }

    /** `loadNew`: the table becomes the default set. */
    method LoadNew()
      modifies this`params
      ensures params == ParamSet()
    {
      params := ParamSet();
    }

    /** `setParam(id, val)`; false where `params[id]` is undefined. */
    method SetParam(id: int, val: real) returns (ok: bool)
      modifies this`params
      ensures ok <==> 0 <= id < |old(params)|
      ensures ok ==> params == old(params)[id := old(params)[id].(value := val)]
      ensures !ok ==> params == old(params)
    {
      if 0 <= id < |params| {
        params := params[id := params[id].(value := val)];
        return true;
      }
      return false;
    }

    /** `setAllParams(vec)`: values by position; a vector longer than the table
      throws once the table is written. */
    method SetAllParams(vec: seq<real>) returns (ok: bool)
      modifies this`params
      ensures ok <==> |vec| <= |old(params)|
      ensures |params| == |old(params)|
      ensures forall k | 0 <= k < |params| ::
        params[k] == if k < |vec| then old(params)[k].(value := vec[k]) else old(params)[k]
    {
      var i := 0;
      while i < |vec|
        invariant 0 <= i <= |vec| && i <= |params| && |params| == |old(params)|
        invariant forall k | 0 <= k < |params| ::
          params[k] == if k < i then old(params)[k].(value := vec[k]) else old(params)[k]
      {
        if i >= |params| {
          return false;
        }
        params := params[i := params[i].(value := vec[i])];
        i := i + 1;
      }
      return true;
    }

    /** What `renderer` hands to particles.js. */
    function Render(settingsState: Option<seq<real>>): (c: Option<PjsConfig>)
      reads this
      ensures settingsState.Some? && |settingsState.value| > 0 ==> c == ParamsToPjs(settingsState.value)
      ensures !(settingsState.Some? && |settingsState.value| > 0) ==> c == ParamsToPjs(Values(params))
    {
      ParamsToPjs(RenderState(settingsState, params))
    }
  }
}
