/** The renderer's socket client (store/driver/dsNodeDriver.js): two status flags
    driven by transport events and reported through the connect callback, and
    the convenience calls that check the snippet name and relay an `action`
    through the broker. */
module DsNodeDriver {
  import opened Wrappers
  import opened JsonValue

  /** The transport events the driver binds. */
  datatype DriverEvent =
    | SocketConnect
    | SocketDisconnect
    | NoServerNotice
    | ServerOkNotice

  /** The two status flags. */
  datatype Flags = Flags(connected: bool, online: bool)

  const Fresh: Flags := Flags(false, false)

  /** The flags after one event (`disconnect()` acts as a SocketDisconnect). */
  function Transition(f: Flags, e: DriverEvent): (r: Flags)
    ensures e == SocketConnect ==> r == f.(connected := true)
    ensures e == SocketDisconnect ==> r == Flags(false, false)
    ensures e == NoServerNotice ==> r == f.(online := false)
    ensures e == ServerOkNotice ==> r == f.(online := true)
  {
    match e
    case SocketConnect => f.(connected := true)
    case SocketDisconnect => Flags(false, false)
    case NoServerNotice => f.(online := false)
    case ServerOkNotice => f.(online := true)
  }

  function Replay(f: Flags, events: seq<DriverEvent>): Flags
    decreases |events|
  {
    if events == [] then f else Replay(Transition(f, events[0]), events[1..])
  }

  /** Index of the last event in `events` satisfying the given class, if any. */
  function LastConnectivity(events: seq<DriverEvent>): (r: Option<nat>)
    ensures r.Some? ==> r.value < |events| && events[r.value] in {SocketConnect, SocketDisconnect}
    ensures forall k | (if r.Some? then r.value + 1 else 0) <= k < |events| ::
      events[k] !in {SocketConnect, SocketDisconnect}
    decreases |events|
  {
    if events == [] then None
    else if events[|events| - 1] in {SocketConnect, SocketDisconnect} then Some(|events| - 1)
    else LastConnectivity(events[..|events| - 1])
  }

  function LastAvailability(events: seq<DriverEvent>): (r: Option<nat>)
    ensures r.Some? ==> r.value < |events| && events[r.value] != SocketConnect
    ensures forall k | (if r.Some? then r.value + 1 else 0) <= k < |events| :: events[k] == SocketConnect
    decreases |events|
  {
    if events == [] then None
    else if events[|events| - 1] != SocketConnect then Some(|events| - 1)
    else LastAvailability(events[..|events| - 1])
  }

  lemma {:induction false} ReplaySnoc(f: Flags, events: seq<DriverEvent>, e: DriverEvent)
    ensures Replay(f, events + [e]) == Transition(Replay(f, events), e)
    decreases |events|
  {
    if events != [] {
      assert (events + [e])[1..] == events[1..] + [e];
      ReplaySnoc(Transition(f, events[0]), events[1..], e);
    }
  }

  /** From a fresh driver, `connected` is true exactly when the latest connect or
      disconnect event was a connect. */
  lemma {:induction false} ConnectedIsLastConnectivity(events: seq<DriverEvent>)
    ensures Replay(Fresh, events).connected <==>
      (LastConnectivity(events).Some? && events[LastConnectivity(events).value] == SocketConnect)
    decreases |events|
  {
    if events != [] {
      var init := events[..|events| - 1];
      assert events == init + [events[|events| - 1]];
      ReplaySnoc(Fresh, init, events[|events| - 1]);
      ConnectedIsLastConnectivity(init);
    }
  }

  /** From a fresh driver, the server is online exactly when the latest
      availability-changing event (a notice or a disconnect) was `'server ok'`. */
  lemma {:induction false} OnlineIsLastNotice(events: seq<DriverEvent>)
    ensures Replay(Fresh, events).online <==>
      (LastAvailability(events).Some? && events[LastAvailability(events).value] == ServerOkNotice)
    decreases |events|
  {
    if events != [] {
      var init := events[..|events| - 1];
      assert events == init + [events[|events| - 1]];
      ReplaySnoc(Fresh, init, events[|events| - 1]);
      OnlineIsLastNotice(init);
    }
  }

  /** The error a name-checked call throws before anything is emitted. */
  const MissingSnippetName: string := "Missing Snippet Name"

  /** The driver's calls with their JavaScript arguments (`Undefined` for an
      omitted one). */
  datatype Call =
    | AddSnippet(name: Json)
    | DeleteSnippet(name: Json)
    | ListSnippets
    | SetData(name: Json, data: Json)
    | AddData(name: Json, x: Json, y: Json)
    | RemoveData(name: Json, index: Json)
    | Train(name: Json)
    | ShowLoss(name: Json)
    | Plot1D(name: Json, x: Json, dim: Json, rmin: Json, rmax: Json, n: Json)
    | PredictOne(name: Json, x: Json)
    | Predict(name: Json, data: Json)
    | Sample(name: Json, params: Json)
    | SetProp(name: Json, propName: Json, val: Json)
    | GetProp(name: Json, propName: Json)
    | StopSampler
    | SamplerRunning
    | Reset

  /** The calls that throw unless `typeof name === 'string'`. */
  predicate NameChecked(c: Call)
  {
    !(c.AddSnippet? || c.DeleteSnippet? || c.ListSnippets? || c.StopSampler? || c.SamplerRunning? || c.Reset?)
  }

  /** A JavaScript default parameter: used when the argument is undefined. */
  function Default(v: Json, d: Json): (r: Json)
    ensures v != Undefined ==> r == v
    ensures v == Undefined ==> r == d
  {
    if v == Undefined then d else v
  }

  /** The `(fn, args)` pair a call hands to `exec`, or the error it throws first. */
  function Request(c: Call): (r: Result<(string, Json), string>)
    ensures r.Err? <==> NameChecked(c) && !c.name.Str?
    ensures r.Err? ==> r.error == MissingSnippetName
  {
    if NameChecked(c) && !c.name.Str? then Err(MissingSnippetName)
    else
      match c
      case AddSnippet(name) => Ok(("add snippet", Obj(map["name" := name])))
      case DeleteSnippet(name) => Ok(("delete snippet", Obj(map["name" := name])))
      case ListSnippets => Ok(("list snippets", Obj(map[])))
      case SetData(name, data) => Ok(("snippet set data", Obj(map["name" := name, "data" := data])))
      case AddData(name, x, y) => Ok(("snippet add data", Obj(map["name" := name, "x" := x, "y" := y])))
      case RemoveData(name, index) => Ok(("snippet remove data", Obj(map["name" := name, "index" := index])))
      case Train(name) => Ok(("snippet train", Obj(map["name" := name])))
      case ShowLoss(name) => Ok(("snippet plotLastLoss", Obj(map["name" := name])))
      case Plot1D(name, x, dim, rmin, rmax, n) =>
        Ok(("snippet plot1D", Obj(map["name" := name, "x" := x, "dim" := dim,
                                      "rmin" := Default(rmin, Num(0.0)),
                                      "rmax" := Default(rmax, Num(1.0)),
                                      "n" := Default(n, Num(100.0))])))
      case PredictOne(name, x) => Ok(("snippet predict", Obj(map["name" := name, "data" := Arr([x])])))
      case Predict(name, data) => Ok(("snippet predict", Obj(map["name" := name, "data" := data])))
      case Sample(name, params) => Ok(("snippet sample", Obj(map["name" := name, "data" := params])))
      case SetProp(name, propName, val) =>
        Ok(("snippet setProp", Obj(map["name" := name, "propName" := propName, "val" := val])))
      case GetProp(name, propName) => Ok(("snippet getProp", Obj(map["name" := name, "propName" := propName])))
      case StopSampler => Ok(("stop sampler", Undefined))
      case SamplerRunning => Ok(("sampler running", Undefined))
      case Reset => Ok(("reset", Undefined))
  }

  /** `predictOne(name, x)` is `predict(name, [x])`, error included. */
  lemma PredictOneIsPredict(name: Json, x: Json)
    ensures Request(PredictOne(name, x)) == Request(Predict(name, Arr([x])))
  {
  }

  /** The name check looks only at the type: the empty string passes. */
  lemma EmptyNamePasses(c: Call)
    requires NameChecked(c) && c.name == Str("")
    ensures Request(c).Ok?
  {
  }

  /** Every relayed call names its snippet under `name`, unchanged. */
  lemma NamePassedThrough(c: Call)
    requires Request(c).Ok? && !(c.ListSnippets? || c.StopSampler? || c.SamplerRunning? || c.Reset?)
    ensures Request(c).value.1.Obj? && Field(Request(c).value.1.fields, "name") == c.name
  {
  }

  /** `exec`: the acknowledged result, or `undefined` when the promisified emit
      rejects (a truthy `err`); it never throws. */
  function ExecResult(err: Json, result: Json): (r: Json)
    ensures Truthy(err) ==> r == Undefined
    ensures !Truthy(err) ==> r == result
  {
    if Truthy(err) then Undefined else result
  }

  /** The value a call resolves to once the broker acknowledges with
      `(err, result)`; `reset()` resolves to undefined whatever the answer. */
  function CallResult(c: Call, err: Json, result: Json): (r: Result<Json, string>)
    ensures r.Err? <==> Request(c).Err?
    ensures r.Ok? && !c.Reset? ==> r.value == ExecResult(err, result)
    ensures c.Reset? ==> r == Ok(Undefined)
  {
    match Request(c)
    case Err(e) => Err(e)
    case Ok(_) => if c.Reset? then Ok(Undefined) else Ok(ExecResult(err, result))
  }

  /** What the socket emits: `('action', {fn, args})`. */
  datatype Emit = Emit(event: string, payload: Json)

  /** A `DsDriver` instance: its flags, which callbacks are set, and everything
      it has observably done (callback calls and emits). */
  class DsDriver {
    var connected: bool
    var snippetServerOnline: bool
    var hasConnectCallback: bool
    var hasSampleCallback: bool
    var hasSampleFinalCallback: bool
    /** Arguments of every `connectCallback` call, in order. */
    var connectCalls: seq<Flags>
    var sampleCalls: seq<(Json, Json)>
    var sampleFinalCalls: seq<(Json, Json)>
    var emitted: seq<Emit>

    function FlagsNow(): Flags
      reads this
    {
      Flags(connected, snippetServerOnline)
    }

    constructor ()
      ensures FlagsNow() == Fresh
      ensures !hasConnectCallback && !hasSampleCallback && !hasSampleFinalCallback
      ensures connectCalls == [] && sampleCalls == [] && sampleFinalCalls == [] && emitted == []
    {
      connected, snippetServerOnline := false, false;
      hasConnectCallback, hasSampleCallback, hasSampleFinalCallback := false, false, false;
      connectCalls, sampleCalls, sampleFinalCalls, emitted := [], [], [], [];
    }

    /** Reports the flags to `connectCallback` when one is set. */
    method Notify()
      modifies this`connectCalls
      ensures connectCalls == old(connectCalls) + (if hasConnectCallback then [FlagsNow()] else [])
    {
      if hasConnectCallback {
        connectCalls := connectCalls + [Flags(connected, snippetServerOnline)];
      }
    }

    /** One of the four flag-changing handlers: the flags move as Transition says
        and the callback hears the new flags. */
    method Handle(e: DriverEvent)
      modifies this`connected, this`snippetServerOnline, this`connectCalls
      ensures FlagsNow() == Transition(old(FlagsNow()), e)
      ensures connectCalls == old(connectCalls) + (if hasConnectCallback then [FlagsNow()] else [])
    {
      match e {
        case SocketConnect =>
          connected := true;
        case SocketDisconnect =>
          connected := false;
          snippetServerOnline := false;
        case NoServerNotice =>
          snippetServerOnline := false;
        case ServerOkNotice =>
          snippetServerOnline := true;
      }
      Notify();
    }

    /** `disconnect()`: closes the socket and clears both flags, like the event. */
    method Disconnect()
      modifies this`connected, this`snippetServerOnline, this`connectCalls
      ensures FlagsNow() == Fresh
      ensures connectCalls == old(connectCalls) + (if hasConnectCallback then [Fresh] else [])
    {
      connected := false;
      snippetServerOnline := false;
      Notify();
    }

    /** The `getType` query is always answered `'client'`. */
    method AnswerGetType() returns (kind: Json)
      ensures kind == Str("client")
    {
      kind := Str("client");
    }

    method SampleReturned(data: Json, snippetName: Json)
      modifies this`sampleCalls
      ensures sampleCalls == old(sampleCalls) + (if hasSampleCallback then [(data, snippetName)] else [])
    {
      if hasSampleCallback {
        sampleCalls := sampleCalls + [(data, snippetName)];
      }
    }

    method SamplerComplete(data: Json, snippetName: Json)
      modifies this`sampleFinalCalls
      ensures sampleFinalCalls == old(sampleFinalCalls) + (if hasSampleFinalCallback then [(data, snippetName)] else [])
    {
      if hasSampleFinalCallback {
        sampleFinalCalls := sampleFinalCalls + [(data, snippetName)];
      }
    }

    /** A convenience call, answered by the broker with `(err, result)`: a failed
        name check throws before any emit; otherwise exactly one `action` is
        emitted and the call resolves as CallResult says. */
    method Invoke(c: Call, err: Json, result: Json) returns (r: Result<Json, string>)
      modifies this`emitted
      ensures r == CallResult(c, err, result)
      ensures Request(c).Err? ==> emitted == old(emitted)
      ensures Request(c).Ok? ==>
        emitted == old(emitted) + [Emit("action", Obj(map["fn" := Str(Request(c).value.0), "args" := Request(c).value.1]))]
    {
      var req := Request(c);
      if req.Err? {
        return Err(req.error);
      }
      var (fn, args) := req.value;
      emitted := emitted + [Emit("action", Obj(map["fn" := Str(fn), "args" := args]))];
      var res := ExecResult(err, result);
      if c.Reset? {
        r := Ok(Undefined);
      } else {
        r := Ok(res);
      }
    }
  }
}
