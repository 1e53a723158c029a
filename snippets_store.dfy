/** The renderer's snippet store (store/modules/snippets.js): the affine codec
    between a parameter's own range and [0, 1], and the Vuex mutations over the
    map of snippet records. */
module SnippetsStore {
  import opened Wrappers
  import opened JsonValue

  // ---------------------------------------------------------------------------
  // Vector codec

  /** A parameter's range, as the `key` entries carry it. */
  datatype Range = Range(min: real, max: real)

  /** A training point `{ x, y }`. */
  datatype Point = Point(x: seq<real>, y: real)

  /** Every element of x has a key entry with a non-degenerate range. */
  predicate Normalizable(x: seq<real>, key: seq<Range>)
  {
    |x| <= |key| && forall i | 0 <= i < |x| :: key[i].max != key[i].min
  }

  /** `normalizeVector`: each value mapped affinely so `min` goes to 0 and `max`
      to 1. */
  function NormalizeVector(x: seq<real>, key: seq<Range>): (r: seq<real>)
    requires Normalizable(x, key)
    ensures |r| == |x|
    ensures forall i | 0 <= i < |x| :: r[i] * (key[i].max - key[i].min) == x[i] - key[i].min
  {
    seq(|x|, i requires 0 <= i < |x| => (x[i] - key[i].min) / (key[i].max - key[i].min))
  }

  /** `unnormalizeVector`: the inverse map, back into each parameter's range. */
  function UnnormalizeVector(x: seq<real>, key: seq<Range>): (r: seq<real>)
    requires |x| <= |key|
    ensures |r| == |x|
    ensures forall i | 0 <= i < |x| :: r[i] - key[i].min == x[i] * (key[i].max - key[i].min)
  {
    seq(|x|, i requires 0 <= i < |x| => x[i] * (key[i].max - key[i].min) + key[i].min)
  }

  /** Unnormalising a normalised vector gives it back exactly. */
  lemma UnnormalizeNormalize(x: seq<real>, key: seq<Range>)
    requires Normalizable(x, key)
    ensures UnnormalizeVector(NormalizeVector(x, key), key) == x
  {
    var n := NormalizeVector(x, key);
    var u := UnnormalizeVector(n, key);
    forall i | 0 <= i < |x|
      ensures u[i] == x[i]
    {
      assert n[i] * (key[i].max - key[i].min) == x[i] - key[i].min;
    }
  }

  /** And in the other direction: normalising an unnormalised vector. */
  lemma NormalizeUnnormalize(x: seq<real>, key: seq<Range>)
    requires Normalizable(x, key)
    ensures NormalizeVector(UnnormalizeVector(x, key), key) == x
  {
    var u := UnnormalizeVector(x, key);
    var n := NormalizeVector(u, key);
    forall i | 0 <= i < |x|
      ensures n[i] == x[i]
    {
      var d := key[i].max - key[i].min;
      assert n[i] * d == x[i] * d;
    }
  }

  /** A range's endpoints go to 0 and 1. */
  lemma NormalizeEndpoints(x: seq<real>, key: seq<Range>, i: nat)
    requires Normalizable(x, key) && i < |x|
    ensures x[i] == key[i].min ==> NormalizeVector(x, key)[i] == 0.0
    ensures x[i] == key[i].max ==> NormalizeVector(x, key)[i] == 1.0
  {
    var d := key[i].max - key[i].min;
    assert NormalizeVector(x, key)[i] == (x[i] - key[i].min) / d;
    assert d / d == 1.0;
  }

  predicate DataNormalizable(data: seq<Point>, key: seq<Range>)
  {
    forall j | 0 <= j < |data| :: Normalizable(data[j].x, key)
  }

  /** `normalizeData`: every point's `x` normalised, its `y` kept. */
  function NormalizeData(data: seq<Point>, key: seq<Range>): (r: seq<Point>)
    requires DataNormalizable(data, key)
    ensures |r| == |data|
    ensures forall j | 0 <= j < |data| :: r[j].y == data[j].y && r[j].x == NormalizeVector(data[j].x, key)
  {
    seq(|data|, j requires 0 <= j < |data| => Point(NormalizeVector(data[j].x, key), data[j].y))
  }

  /** A sampler result whose `x` is rewritten in place. */
  class Sample {
    var x: seq<real>
    constructor (x0: seq<real>)
      ensures x == x0
    {
      x := x0;
    }
  }

  /** `unnormalizeSample`: the sample's own vector is replaced by its
      unnormalised form. */
  method UnnormalizeSample(sample: Sample, key: seq<Range>)
    requires |sample.x| <= |key|
    modifies sample
    ensures sample.x == UnnormalizeVector(old(sample.x), key)
  {
    sample.x := UnnormalizeVector(sample.x, key);
  }

  // ---------------------------------------------------------------------------
  // Snippet records and the mutations on the map

  /** A stored snippet. `trainData` is None once CLEAR_CACHE has deleted it. */
  datatype Record = Record(name: string, data: seq<Point>, trainData: Option<Json>, trained: bool)

  type Snippets = map<string, Record>

  /** The record NEW_SNIPPET creates. */
  function Blank(name: string): (r: Record)
    ensures r.name == name && r.data == [] && r.trainData == Some(Obj(map[])) && !r.trained
  {
    Record(name, [], Some(Obj(map[])), false)
  }

  /** NEW_SNIPPET: creates a blank record under a new name; an existing one is
      left as it is. */
  function NewSnippet(m: Snippets, name: string): (r: Snippets)
    ensures name in m ==> r == m
    ensures name !in m ==> r == m[name := Blank(name)]
  {
    if name in m then m else m[name := Blank(name)]
  }

  lemma NewSnippetIdempotent(m: Snippets, name: string)
    ensures NewSnippet(NewSnippet(m, name), name) == NewSnippet(m, name)
    ensures name in NewSnippet(m, name)
  {
  }

  /** COPY_SNIPPET: only when `copyTo` is free and `active` exists; the copy has
      the same points, must retrain, and the source is untouched. */
  function CopySnippet(m: Snippets, copyTo: string, active: string): (r: Snippets)
    ensures !(copyTo !in m && active in m) ==> r == m
    ensures copyTo !in m && active in m ==>
      && r.Keys == m.Keys + {copyTo}
      && r[copyTo] == Record(copyTo, m[active].data, Some(Obj(map[])), false)
      && forall k | k in m :: r[k] == m[k]
  {
    if copyTo !in m && active in m then
      m[copyTo := Record(copyTo, m[active].data, Some(Obj(map[])), false)]
    else m
  }

  /** RENAME_SNIPPET, for a free `renameTo` and an existing `active`: the record
      moves to the new key with its name updated; every other key is unchanged.
      Otherwise nothing changes (see RenameAsWritten for the absent-`active` case
      of the code as written). */
  function RenameSnippet(m: Snippets, renameTo: string, active: string): (r: Snippets)
    ensures !(renameTo !in m && active in m) ==> r == m
    ensures renameTo !in m && active in m ==>
      && r.Keys == m.Keys - {active} + {renameTo}
      && r[renameTo] == m[active].(name := renameTo)
      && forall k | k in m && k != active :: r[k] == m[k]
  {
    if renameTo !in m && active in m then
      (m - {active})[renameTo := m[active].(name := renameTo)]
    else m
  }

  /** RENAME_SNIPPET as written, over a map whose values may be `undefined`
      (None): the guard tests only `renameTo`, the read of an absent `active`
      yields undefined, which is stored, and the next `Vue.set` on it throws.
      The boolean says whether it threw. */
  function RenameAsWritten(m: map<string, Option<Record>>, renameTo: string, active: string): (r: (map<string, Option<Record>>, bool))
  {
    if renameTo in m then (m, false)
    else
      var moved := if active in m then m[active] else None;
      var m1 := m[renameTo := moved];
      match moved
      case None => (m1, true)
      case Some(rec) => (m1[renameTo := Some(rec.(name := renameTo))] - {active}, false)
  }

  /** Renaming a snippet that does not exist throws, and leaves an `undefined`
      entry under the new name in the store. */
  lemma RenameAbsentLeavesUndefined()
    ensures RenameAsWritten(map[], "b", "a") == (map["b" := None], true)
    ensures RenameSnippet(map[], "b", "a") == map[]
  {
  }

  /** Where `active` exists, the code as written and RenameSnippet agree. */
  lemma RenameAgrees(m: Snippets, renameTo: string, active: string)
    requires active in m
    ensures var lifted := map k | k in m :: Some(m[k]);
      var (r, threw) := RenameAsWritten(lifted, renameTo, active);
      !threw && r == map k | k in RenameSnippet(m, renameTo, active) :: Some(RenameSnippet(m, renameTo, active)[k])
  {
    var lifted := map k | k in m :: Some(m[k]);
    var (r, threw) := RenameAsWritten(lifted, renameTo, active);
    var want := map k | k in RenameSnippet(m, renameTo, active) :: Some(RenameSnippet(m, renameTo, active)[k]);
    assert r.Keys == want.Keys;
  }

  /** `Array.prototype.splice(index, 1)` for an integer index: a negative index
      counts from the end, one below `-length` clamps to the first element, one at
      or past the end removes nothing. */
  function Splice1<T>(s: seq<T>, index: int): (r: seq<T>)
    ensures 0 <= index < |s| ==> r == s[..index] + s[index + 1..]
    ensures -|s| <= index < 0 ==> r == s[..|s| + index] + s[|s| + index + 1..]
    ensures index < -|s| && |s| > 0 ==> r == s[1..]
    ensures index >= |s| || s == [] ==> r == s
  {
    var start := if index < 0 then (if |s| + index < 0 then 0 else |s| + index)
                 else (if index < |s| then index else |s|);
    if start < |s| then s[..start] + s[start + 1..] else s
  }

  /** The record after a change to its points: it must be retrained. */
  function Untrained(rec: Record, data: seq<Point>): (r: Record)
    ensures r.name == rec.name && r.data == data && r.trainData == Some(Obj(map[])) && !r.trained
  {
    rec.(data := data, trainData := Some(Obj(map[])), trained := false)
  }

  /** ADD_EXAMPLE: appends the point and resets training; unknown names are
      ignored. */
  function AddExample(m: Snippets, name: string, point: Point): (r: Snippets)
    ensures name !in m ==> r == m
    ensures name in m ==> r.Keys == m.Keys && r[name] == Untrained(m[name], m[name].data + [point])
    ensures forall k | k in m && k != name :: k in r && r[k] == m[k]
  {
    if name in m then m[name := Untrained(m[name], m[name].data + [point])] else m
  }

  /** DELETE_EXAMPLE: splices out one index and resets training; unknown names
      are ignored. */
  function DeleteExample(m: Snippets, name: string, index: int): (r: Snippets)
    ensures name !in m ==> r == m
    ensures name in m ==> r.Keys == m.Keys && r[name] == Untrained(m[name], Splice1(m[name].data, index))
    ensures forall k | k in m && k != name :: k in r && r[k] == m[k]
  {
    if name in m then m[name := Untrained(m[name], Splice1(m[name].data, index))] else m
  }

  /** Adding a point and then deleting the last index gives back the points. */
  lemma DeleteUndoesAdd(m: Snippets, name: string, point: Point)
    requires name in m
    ensures DeleteExample(AddExample(m, name, point), name, |m[name].data|)[name].data == m[name].data
  {
    var d := m[name].data + [point];
    assert Splice1(d, |m[name].data|) == d[..|m[name].data|];
  }

  /** ADD_TRAINED_DATA: stores the training result and marks the snippet trained. */
  function AddTrainedData(m: Snippets, name: string, trainData: Json): (r: Snippets)
    ensures name !in m ==> r == m
    ensures name in m ==> r.Keys == m.Keys && r[name] == m[name].(trainData := Some(trainData), trained := true)
    ensures forall k | k in m && k != name :: k in r && r[k] == m[k]
  {
    if name in m then m[name := m[name].(trainData := Some(trainData), trained := true)] else m
  }

  /** What CLEAR_CACHE leaves under every key: the training data deleted and
      `trained` false, name and points kept. */
  function Cleared(rec: Record): (r: Record)
    ensures r.name == rec.name && r.data == rec.data && r.trainData.None? && !r.trained
  {
    rec.(trainData := None, trained := false)
  }

  /** `paramData`: the initial `{}`, or what SET_PARAM_COLOR_DATA stores,
      either the fallback range or the input's means with their observed
      extremes. */
  datatype ParamData =
    | Unset
    | Fallback(meanMax: real, meanMin: real)
    | Observed(means: map<string, seq<real>>, meanMin: real, meanMax: real)

  /** The running scan of SET_PARAM_COLOR_DATA: starting from `1e10` and `-1e10`,
      the least and greatest mean over all parameters. Every mean lies in
      `[lo, hi]`; `lo` is `1e10` or attained, and `hi` is `-1e10` or attained. */
  method MeanRange(means: map<string, seq<real>>) returns (lo: real, hi: real)
    ensures forall id, j | id in means && 0 <= j < |means[id]| :: lo <= means[id][j] <= hi
    ensures lo == 10000000000.0 || exists id, j | id in means && 0 <= j < |means[id]| :: lo == means[id][j]
    ensures hi == -10000000000.0 || exists id, j | id in means && 0 <= j < |means[id]| :: hi == means[id][j]
    ensures lo <= 10000000000.0 && hi >= -10000000000.0
  {
    lo, hi := 10000000000.0, -10000000000.0;
    var todo := means.Keys;
    while todo != {}
      invariant todo <= means.Keys
      invariant forall id, j | id in means && id !in todo && 0 <= j < |means[id]| :: lo <= means[id][j] <= hi
      invariant lo == 10000000000.0 || exists id, j | id in means && 0 <= j < |means[id]| :: lo == means[id][j]
      invariant hi == -10000000000.0 || exists id, j | id in means && 0 <= j < |means[id]| :: hi == means[id][j]
      invariant lo <= 10000000000.0 && hi >= -10000000000.0
      decreases todo
    {
      var id :| id in todo;
      var ms := means[id];
      var j := 0;
      while j < |ms|
        invariant 0 <= j <= |ms|
        invariant forall id', j' | id' in means && id' !in todo && 0 <= j' < |means[id']| :: lo <= means[id'][j'] <= hi
        invariant forall j' | 0 <= j' < j :: lo <= ms[j'] <= hi
        invariant lo == 10000000000.0 || exists id', j' | id' in means && 0 <= j' < |means[id']| :: lo == means[id'][j']
        invariant hi == -10000000000.0 || exists id', j' | id' in means && 0 <= j' < |means[id']| :: hi == means[id'][j']
        invariant lo <= 10000000000.0 && hi >= -10000000000.0
      {
        if ms[j] > hi { hi := ms[j]; }
        if ms[j] < lo { lo := ms[j]; }
        j := j + 1;
      }
      todo := todo - {id};
    }
  }

  /** The store's state: the snippet map, the active copy, the connection flags
      and the parameter colour data. */
  class Store {
    var snippets: Snippets
    /** `{}` is None; otherwise a shallow copy of a record. */
    var activeSnippet: Option<Record>
    var connected: bool
    var serverOnline: bool
    var paramData: ParamData

    constructor ()
      ensures snippets == map[] && activeSnippet.None? && !connected && !serverOnline
      ensures paramData == Unset && MaxCurrentSnippetScore() == 0.0
    {
      snippets := map[];
      activeSnippet := None;
      connected, serverOnline := false, false;
      paramData := Unset;
    }

    /** The `maxCurrentSnippetScore` getter: the stored `meanMax`, or 0 while
        `paramData` has none. */
    function MaxCurrentSnippetScore(): real
      reads this
    {
      if paramData.Unset? then 0.0 else paramData.meanMax
    }

    /** The `ready` getter. */
    predicate Ready()
      reads this
    {
      connected && serverOnline
    }

    method StatusUpdate(c: bool, online: bool)
      modifies this`connected, this`serverOnline
      ensures connected == c && serverOnline == online
      ensures Ready() <==> c && online
    {
      connected := c;
      serverOnline := online;
    }

    method NewSnippetMutation(name: string)
      modifies this`snippets
      ensures snippets == NewSnippet(old(snippets), name)
    {
      if name !in snippets {
        snippets := snippets[name := Blank(name)];
      }
    }

    method CopySnippetMutation(copyTo: string, active: string)
      modifies this`snippets
      ensures snippets == CopySnippet(old(snippets), copyTo, active)
    {
      if copyTo !in snippets && active in snippets {
        var data := snippets[active].data;
        snippets := snippets[copyTo := Record(copyTo, data, Some(Obj(map[])), false)];
      }
    }

    method RenameSnippetMutation(renameTo: string, active: string)
      modifies this`snippets
      ensures snippets == RenameSnippet(old(snippets), renameTo, active)
    {
      if renameTo !in snippets && active in snippets {
        var rec := snippets[active];
        snippets := snippets[renameTo := rec.(name := renameTo)];
        snippets := snippets - {active};
      }
    }

    method DeleteSnippetMutation(name: string)
      modifies this`snippets
      ensures snippets == old(snippets) - {name}
    {
      snippets := snippets - {name};
    }

    method AddExampleMutation(name: string, point: Point)
      modifies this`snippets
      ensures snippets == AddExample(old(snippets), name, point)
    {
      if name in snippets {
        var rec := snippets[name];
        snippets := snippets[name := rec.(data := rec.data + [point])];
        snippets := snippets[name := snippets[name].(trainData := Some(Obj(map[])), trained := false)];
      }
    }

    method DeleteExampleMutation(name: string, index: int)
      modifies this`snippets
      ensures snippets == DeleteExample(old(snippets), name, index)
    {
      if name in snippets {
        var rec := snippets[name];
        snippets := snippets[name := rec.(data := Splice1(rec.data, index))];
        snippets := snippets[name := snippets[name].(trainData := Some(Obj(map[])), trained := false)];
      }
    }

    method AddTrainedDataMutation(name: string, trainData: Json)
      modifies this`snippets
      ensures snippets == AddTrainedData(old(snippets), name, trainData)
    {
      if name in snippets {
        snippets := snippets[name := snippets[name].(trainData := Some(trainData), trained := true)];
      }
    }

    method SetActiveSnippet(id: string)
      modifies this`activeSnippet
      ensures id in snippets ==> activeSnippet == Some(snippets[id])
      ensures id !in snippets ==> activeSnippet.None?
    {
      if id in snippets {
        activeSnippet := Some(snippets[id]);
      } else {
        activeSnippet := None;
      }
    }

    /** SET_PARAM_COLOR_DATA: falsy data gives the fixed range `[-1, 1]`;
        otherwise the input annotated with its observed extremes. */
    method SetParamColorData(data: Option<map<string, seq<real>>>)
      modifies this`paramData
      ensures data.None? ==> paramData == Fallback(1.0, -1.0)
      ensures data.Some? ==> paramData.Observed? && paramData.means == data.value
      ensures data.Some? ==> forall id, j | id in data.value && 0 <= j < |data.value[id]| ::
        paramData.meanMin <= data.value[id][j] <= paramData.meanMax
      // each bound is its start value or attained by some mean
      ensures data.Some? ==>
        (paramData.meanMin == 10000000000.0 ||
         exists id, j | id in data.value && 0 <= j < |data.value[id]| :: paramData.meanMin == data.value[id][j])
      ensures data.Some? ==>
        (paramData.meanMax == -10000000000.0 ||
         exists id, j | id in data.value && 0 <= j < |data.value[id]| :: paramData.meanMax == data.value[id][j])
      ensures MaxCurrentSnippetScore() == if data.None? then 1.0 else paramData.meanMax
    {
      if data.None? {
        paramData := Fallback(1.0, -1.0);
        return;
      }
      var lo, hi := MeanRange(data.value);
      paramData := Observed(data.value, lo, hi);
    }

    /** CLEAR_CACHE: every record loses its training data and is marked
        untrained; the keys, names and points stay. */
    method ClearCache()
      modifies this`snippets
      ensures snippets.Keys == old(snippets).Keys
      ensures forall k | k in snippets :: snippets[k] == Cleared(old(snippets)[k])
    {
      var todo := snippets.Keys;
      ghost var orig := snippets;
      while todo != {}
        invariant todo <= snippets.Keys && snippets.Keys == orig.Keys
        invariant forall k | k in snippets && k !in todo :: snippets[k] == Cleared(orig[k])
        invariant forall k | k in todo :: snippets[k] == orig[k]
        decreases todo
      {
        var k :| k in todo;
        snippets := snippets[k := snippets[k].(trainData := None)];
        snippets := snippets[k := snippets[k].(trained := false)];
        todo := todo - {k};
      }
    }
  }
}
