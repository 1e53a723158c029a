/** The Substance backend's parameter table (store/backend/substance.js): the
    text `sbsmutator info` prints is parsed into parameter descriptors, and the
    editor writes parameter values back. The tool's output and `parseFloat`
    are inputs. */
module Substance {
  import opened Wrappers
  import opened Text

  /** A `parseFloat` result. */
  datatype Float = NaN | Fin(r: real)

  datatype Param = Param(name: string, kind: string, min: Float, max: Float, step: Option<Float>,
                         id: nat, value: Option<Float>)

  /** `s.replace('\r', '')`: only the first carriage return goes. */
  function RemoveFirstCR(s: string): (r: string)
    ensures Excludes(s, '\r') ==> r == s
    ensures |r| == |s| || |r| == |s| - 1
    decreases |s|
  {
    if s == [] then []
    else if s[0] == '\r' then s[1..]
    else [s[0]] + RemoveFirstCR(s[1..])
  }

  /** The pieces of a setting line after the first (its value). */
  function Arg(setting: seq<string>): (a: Option<string>)
    ensures a.Some? <==> |setting| >= 2
  {
    if |setting| >= 2 then Some(setting[1]) else None
  }

  /** `parseFloat(x)`; undefined parses to NaN. */
  function ParseOpt(parse: string -> Float, a: Option<string>): Float
  {
    if a.None? then NaN else parse(a.value)
  }

  /** The FLOAT3 scan over setting lines 1..m: the components of the last
      DEFAULT line, or the TypeError `undefined.split` raises when a DEFAULT
      line has no value. */
  function Defaults(settings: seq<string>, m: nat): (r: Result<seq<string>, ()>)
    requires m <= |settings|
    decreases m
  {
    if m <= 1 then Ok([])
    else
      match Defaults(settings, m - 1)
      case Err(e) => Err(e)
      case Ok(d) =>
        var setting := Split(settings[m - 1], " ");
        if setting[0] != "DEFAULT" then Ok(d)
        else if |setting| < 2 then Err(())
        else Ok(Split(setting[1], ","))
  }

  /** The optional fields one scalar input collects from its setting lines
      1..m: the last DEFAULT, MIN, MAX and STEP each win. */
  datatype Fields = Fields(value: Option<Float>, min: Option<Float>, max: Option<Float>, step: Option<Float>)

  function Scan(settings: seq<string>, parse: string -> Float, m: nat): (f: Fields)
    requires m <= |settings|
    decreases m
  {
    if m <= 1 then Fields(None, None, None, None)
    else
      var f := Scan(settings, parse, m - 1);
      var setting := Split(settings[m - 1], " ");
      var v := Some(ParseOpt(parse, Arg(setting)));
      if setting[0] == "DEFAULT" then f.(value := v)
      else if setting[0] == "MIN" then f.(min := v)
      else if setting[0] == "MAX" then f.(max := v)
      else if setting[0] == "STEP" then f.(step := v)
      else f
  }

  const Channels: seq<string> := ["r", "g", "b"]

  /** The parameters one `INPUT` chunk adds after `base` existing ones, or the
      TypeError that aborts the parse. */
  function ChunkParams(chunk: string, parse: string -> Float, base: nat): (r: Result<seq<Param>, ()>)
    ensures r.Ok? ==> forall k | 0 <= k < |r.value| :: r.value[k].id == base + k
    ensures r.Ok? ==> |r.value| == 0 || |r.value| == 1 || |r.value| == 3
  {
    var settings := Split(chunk, "\n    ");
    var info := Split(settings[0], " ");
    if |info| >= 2 && info[1] in {"$outputsize", "$randomseed"} then Ok([])
    else if |info| < 3 then Err(())
    else
      var name := info[1];
      var kind := RemoveFirstCR(info[2]);
      if kind == "FLOAT3" then
        match Defaults(settings, |settings|)
        case Err(e) => Err(e)
        case Ok(d) =>
          Ok(seq(3, j requires 0 <= j < 3 =>
            Param(name + "_" + Channels[j], kind, Fin(0.0), Fin(1.0), None, base + j,
                  Some(if j < |d| then parse(d[j]) else NaN))))
      else if kind == "BOOLEAN" then Ok([])
      else
        var f := Scan(settings, parse, |settings|);
        Ok([Param(name, kind, if f.min.None? then Fin(0.0) else f.min.value,
                  if f.max.None? then Fin(1.0) else f.max.value, f.step, base, f.value)])
  }

  /** Inputs named `$outputsize` or `$randomseed`, and BOOLEAN inputs, add
      nothing. */
  lemma SkippedInputs(chunk: string, parse: string -> Float, base: nat)
    requires var info := Split(Split(chunk, "\n    ")[0], " ");
      (|info| >= 2 && info[1] in {"$outputsize", "$randomseed"})
      || (|info| >= 3 && RemoveFirstCR(info[2]) == "BOOLEAN")
    ensures ChunkParams(chunk, parse, base) == Ok([])
  {
  }

  /** A FLOAT3 input becomes `name_r`, `name_g`, `name_b` in [0, 1], each with
      its component of the last DEFAULT line (NaN when missing). */
  lemma Float3Expands(chunk: string, parse: string -> Float, base: nat)
    requires var info := Split(Split(chunk, "\n    ")[0], " ");
      |info| >= 3 && info[1] !in {"$outputsize", "$randomseed"} && RemoveFirstCR(info[2]) == "FLOAT3"
    requires var settings := Split(chunk, "\n    "); Defaults(settings, |settings|).Ok?
    ensures var info := Split(Split(chunk, "\n    ")[0], " ");
      var settings := Split(chunk, "\n    ");
      var d := Defaults(settings, |settings|).value;
      var r := ChunkParams(chunk, parse, base);
      && r.Ok? && |r.value| == 3
      && r.value[0].name == info[1] + "_r" && r.value[1].name == info[1] + "_g" && r.value[2].name == info[1] + "_b"
      && forall j | 0 <= j < 3 :: r.value[j].min == Fin(0.0) && r.value[j].max == Fin(1.0)
           && r.value[j].value == Some(if j < |d| then parse(d[j]) else NaN)
  {
  }

  /** Any other input is one parameter whose min and max default to 0 and 1. */
  lemma ScalarDefaults(chunk: string, parse: string -> Float, base: nat)
    requires var info := Split(Split(chunk, "\n    ")[0], " ");
      |info| >= 3 && info[1] !in {"$outputsize", "$randomseed"} && RemoveFirstCR(info[2]) !in {"FLOAT3", "BOOLEAN"}
    ensures var settings := Split(chunk, "\n    ");
      var f := Scan(settings, parse, |settings|);
      var r := ChunkParams(chunk, parse, base);
      && r.Ok? && |r.value| == 1 && r.value[0].id == base
      && r.value[0].min == (if f.min.None? then Fin(0.0) else f.min.value)
      && r.value[0].max == (if f.max.None? then Fin(1.0) else f.max.value)
      && r.value[0].value == f.value && r.value[0].step == f.step
  {
  }

  /** The table after chunks 1..m (chunk 0 precedes the first `INPUT` and is
      skipped), and whether a TypeError stopped the parse; the parameters
      pushed before the error stay. */
  function Loaded(chunks: seq<string>, parse: string -> Float, m: nat): (r: (seq<Param>, bool))
    requires m <= |chunks|
    ensures forall k | 0 <= k < |r.0| :: r.0[k].id == k
    decreases m
  {
    if m <= 1 then ([], false) else LoadChunk(Loaded(chunks, parse, m - 1), chunks[m - 1], parse)
  }

  /** One chunk's effect on a table whose ids are its positions. */
  function LoadChunk(prev: (seq<Param>, bool), chunk: string, parse: string -> Float): (r: (seq<Param>, bool))
    requires forall k | 0 <= k < |prev.0| :: prev.0[k].id == k
    ensures forall k | 0 <= k < |r.0| :: r.0[k].id == k
    ensures prev.1 ==> r == prev
  {
    if prev.1 then prev
    else
      match ChunkParams(chunk, parse, |prev.0|)
      case Err(_) => (prev.0, true)
      case Ok(ps) =>
        assert forall k | |prev.0| <= k < |prev.0 + ps| :: (prev.0 + ps)[k] == ps[k - |prev.0|];
        (prev.0 + ps, false)
  }

  lemma LoadedStep(chunks: seq<string>, parse: string -> Float, m: nat)
    requires 1 <= m < |chunks| && !Loaded(chunks, parse, m).1
    ensures var prev := Loaded(chunks, parse, m).0;
      Loaded(chunks, parse, m + 1) ==
        match ChunkParams(chunks[m], parse, |prev|)
        case Err(_) => (prev, true)
        case Ok(ps) => (prev + ps, false)
  {
  }

  /** A parse that stopped stays stopped: later chunks add nothing. */
  lemma {:induction false} StoppedStaysStopped(chunks: seq<string>, parse: string -> Float, m: nat, m': nat)
    requires m <= m' <= |chunks| && Loaded(chunks, parse, m).1
    ensures Loaded(chunks, parse, m') == Loaded(chunks, parse, m)
    decreases m' - m
  {
    if m < m' {
      StoppedStaysStopped(chunks, parse, m, m' - 1);
    }
  }

  /** Setting values by position: the first `min(|vec|, |params|)` values, and
      nothing else about any parameter. */
  function WithValues(params: seq<Param>, vec: seq<real>): (r: seq<Param>)
    ensures |r| == |params|
    ensures forall k | 0 <= k < |params| ::
      r[k] == if k < |vec| then params[k].(value := Some(Fin(vec[k]))) else params[k]
  {
    seq(|params|, k requires 0 <= k < |params| =>
      if k < |vec| then params[k].(value := Some(Fin(vec[k]))) else params[k])
  }

  /** Writing values leaves names, types, ranges and ids alone, so the ids still
      equal the positions. */
  lemma WithValuesKeepsShape(params: seq<Param>, vec: seq<real>)
    requires forall k | 0 <= k < |params| :: params[k].id == k
    ensures forall k | 0 <= k < |params| ::
      var p := WithValues(params, vec)[k];
      p.id == k && p.name == params[k].name && p.kind == params[k].kind
      && p.min == params[k].min && p.max == params[k].max && p.step == params[k].step
  {
  }

  class Backend {
    var params: seq<Param>

    constructor ()
      ensures params == []
    {
      params := [];
    }

    /** `loadParams` given the tool's output, or None where running it throws
      (the table is then left as it was). Otherwise the table restarts empty
      and gains each chunk's parameters until one raises. */
    method LoadParams(output: Option<string>, parse: string -> Float)
      modifies this`params
      ensures output.None? ==> params == old(params)
      ensures output.Some? ==> var chunks := Split(output.value, "INPUT");
        params == Loaded(chunks, parse, |chunks|).0
    {
      if output.None? {
        return;
      }
      params := [];
      var inputs := Split(output.value, "INPUT");
      var i := 1;
      while i < |inputs|
        invariant 1 <= i <= |inputs|
        invariant params == Loaded(inputs, parse, i).0 && !Loaded(inputs, parse, i).1
      {
        var added := ChunkParams(inputs[i], parse, |params|);
        LoadedStep(inputs, parse, i);
        if added.Err? {
          StoppedStaysStopped(inputs, parse, i + 1, |inputs|);
          return;
        }
        Push(added.value);
        i := i + 1;
      }
    }

    /** The pushes of one chunk's parameters, in order. */
    method Push(ps: seq<Param>)
      modifies this`params
      ensures params == old(params) + ps
    {
      var k := 0;
      while k < |ps|
        invariant 0 <= k <= |ps| && params == old(params) + ps[..k]
      {
        params := params + [ps[k]];
        assert ps[..k + 1] == ps[..k] + [ps[k]];
        k := k + 1;
      }
      assert ps[..k] == ps;
    }

    /** `setParam(id, val)`; false where `params[id]` is undefined and writing
      its value throws. */
    method SetParam(id: int, val: real) returns (ok: bool)
      modifies this`params
      ensures ok <==> 0 <= id < |old(params)|
      ensures ok ==> params == old(params)[id := old(params)[id].(value := Some(Fin(val)))]
      ensures !ok ==> params == old(params)
    {
      if 0 <= id < |params| {
        params := params[id := params[id].(value := Some(Fin(val)))];
        return true;
      }
      return false;
    }

    /** `setAllParams(vec)`: values in order through `Object.keys(params)`; a
      vector longer than the table throws after the table is written. */
    method SetAllParams(vec: seq<real>) returns (ok: bool)
      modifies this`params
      ensures ok <==> |vec| <= |old(params)|
      ensures params == WithValues(old(params), vec)
    {
      var i := 0;
      while i < |vec|
        invariant 0 <= i <= |vec| && i <= |params| && |params| == |old(params)|
        invariant params == WithValues(old(params), vec[..i])
      {
        if i >= |params| {
          assert WithValues(old(params), vec[..i]) == WithValues(old(params), vec);
          return false;
        }
        params := params[i := params[i].(value := Some(Fin(vec[i])))];
        i := i + 1;
      }
      assert vec[..i] == vec;
      return true;
    }
  }
}
