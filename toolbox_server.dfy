/** The relay broker of server/toolboxServer.js: one backend slot, a cached
    parameter description injected into every relayed call, availability notices
    and rebroadcast of sampler pushes.

    The handlers are stated twice: as functions from the broker's state to its
    next state and the messages it emits (the specification, about which the
    properties are proved), and as the methods of class Relay, which update the
    broker's variables the way the handlers do. */
module ToolboxServer {
  import opened Wrappers
  import opened JsonValue
  import opened RelayWire

  datatype State = State(
    sockets: seq<SocketId>,
    backend: Option<SocketId>,
    paramInfo: Json,
    pending: map<nat, Pending>,
    nextToken: nat)

  /** No backend, `paramInfo = []`, nothing connected or in flight. */
  const Init: State := State([], None, Arr([]), map[], 0)

  /** The broker's invariant: the backend, if any, is a connected socket; socket
      ids are unique; every pending call's token was handed out. */
  predicate Inv(st: State)
  {
    && NoDup(st.sockets)
    && (st.backend.Some? ==> st.backend.value in st.sockets)
    && (forall t | t in st.pending :: t < st.nextToken)
  }

  /** `data.args.paramInfo = paramInfo` when args is truthy: an object gains (or
      overwrites) the field; assigning a property to any other truthy value has
      no effect on what is sent. */
  function Inject(args: Json, paramInfo: Json): (r: Json)
    ensures args.Obj? ==> r.Obj? && r.fields.Keys == args.fields.Keys + {"paramInfo"}
    ensures args.Obj? ==> r.fields["paramInfo"] == paramInfo
    ensures args.Obj? ==> forall k | k in args.fields && k != "paramInfo" :: r.fields[k] == args.fields[k]
    ensures !args.Obj? ==> r == args
  {
    if args.Obj? then Obj(args.fields["paramInfo" := paramInfo]) else args
  }

  /** connect: tell the newcomer whether a backend is there, then ask its role. */
  function OnConnect(st: State, s: SocketId): (r: (State, seq<Message>))
    ensures r.0 == st.(sockets := st.sockets + [s])
    ensures |r.1| == 2 && r.1[1] == Message(s, GetType)
    ensures r.1[0] == Message(s, NoServer) <==> st.backend.None?
    ensures r.1[0] == Message(s, ServerOk) <==> st.backend.Some?
  {
    var notice := if st.backend.None? then NoServer else ServerOk;
    (st.(sockets := st.sockets + [s]), [Message(s, notice), Message(s, GetType)])
  }

  /** getType reply: `'server'` claims an empty slot and every socket hears
      `'server ok'`; a taken slot and any other role change nothing. */
  function OnTypeReply(st: State, s: SocketId, kind: Json): (r: (State, seq<Message>))
    ensures st.backend.Some? ==> r == (st, [])
    ensures kind != ServerRole ==> r == (st, [])
    ensures st.backend.None? && kind == ServerRole ==>
      r.0 == st.(backend := Some(s)) && r.1 == Broadcast(st.sockets, ServerOk)
  {
    if kind == ServerRole && st.backend.None? then
      (st.(backend := Some(s)), Broadcast(st.sockets, ServerOk))
    else (st, [])
  }

  /** disconnect: the socket leaves; if it was the backend the slot empties and
      every remaining socket hears `'no server'`. */
  function OnDisconnect(st: State, s: SocketId): (r: (State, seq<Message>))
    ensures r.0.sockets == Without(st.sockets, s)
    ensures st.backend == Some(s) ==>
      r.0.backend.None? && r.1 == Broadcast(Without(st.sockets, s), NoServer)
    ensures st.backend != Some(s) ==> r.0.backend == st.backend && r.1 == []
    ensures r.0.paramInfo == st.paramInfo && r.0.pending == st.pending && r.0.nextToken == st.nextToken
  {
    var rest := Without(st.sockets, s);
    if st.backend == Some(s) then
      (st.(sockets := rest, backend := None), Broadcast(rest, NoServer))
    else (st.(sockets := rest), [])
  }

  /** action: dropped (no message, no reply, nothing pending) without a backend;
      otherwise forwarded to the backend under `fn`, with `paramInfo` injected into
      truthy args, and remembered as pending on the caller's ack. */
  function OnAction(st: State, s: SocketId, fn: string, args: Json, ack: nat): (r: (State, seq<Message>))
    ensures st.backend.None? ==> r == (st, [])
    ensures st.backend.Some? ==>
      var sent := if Truthy(args) then Inject(args, st.paramInfo) else args;
      && r.1 == [Message(st.backend.value, Forward(fn, sent, st.nextToken))]
      && r.0 == st.(pending := st.pending[st.nextToken := Pending(st.backend.value, s, ack)],
                    nextToken := st.nextToken + 1)
  {
    match st.backend
    case None => (st, [])
    case Some(b) =>
      var sent := if Truthy(args) then Inject(args, st.paramInfo) else args;
      (st.(pending := st.pending[st.nextToken := Pending(b, s, ack)], nextToken := st.nextToken + 1),
       [Message(b, Forward(fn, sent, st.nextToken))])
  }

  /** The backend calls the ack of a relayed call: `(err, result)` goes unchanged
      to the ack of the socket that made the call, once. */
  function OnBackendAck(st: State, s: SocketId, token: nat, err: Json, result: Json): (r: (State, seq<Message>))
    ensures token in st.pending && st.pending[token].backend == s ==>
      && r.1 == [Message(st.pending[token].client, Reply(st.pending[token].ack, err, result))]
      && r.0 == st.(pending := st.pending - {token})
    ensures !(token in st.pending && st.pending[token].backend == s) ==> r == (st, [])
  {
    if token in st.pending && st.pending[token].backend == s then
      var p := st.pending[token];
      (st.(pending := st.pending - {token}), [Message(p.client, Reply(p.ack, err, result))])
    else (st, [])
  }

  /** 'single sample' / 'sampler complete': rebroadcast `(data.data, data.name)`. */
  function OnPush(st: State, payload: map<string, Json>, complete: bool): (r: seq<Message>)
    ensures |r| == |st.sockets|
    ensures forall i | 0 <= i < |r| ::
      && r[i].to == st.sockets[i]
      && r[i].event == (if complete then SamplerComplete(Field(payload, "data"), Field(payload, "name"))
                        else SingleSample(Field(payload, "data"), Field(payload, "name")))
  {
    var d, n := Field(payload, "data"), Field(payload, "name");
    Broadcast(st.sockets, if complete then SamplerComplete(d, n) else SingleSample(d, n))
  }

  /** One delivered transport event. */
  function Step(st: State, i: Input): (r: (State, seq<Message>))
  {
    if !Delivered(st.sockets, i) then (st, [])
    else
      match i
      case Connect(s) => OnConnect(st, s)
      case TypeReply(s, kind) => OnTypeReply(st, s, kind)
      case Disconnect(s) => OnDisconnect(st, s)
      case Action(s, fn, args, ack) => OnAction(st, s, fn, args, ack)
      case BackendAck(s, token, err, result) => OnBackendAck(st, s, token, err, result)
      case SampleIn(_, payload) => (st, OnPush(st, payload, false))
      case CompleteIn(_, payload) => (st, OnPush(st, payload, true))
      case ParamInfoIn(_, params) => (st.(paramInfo := params), [])
  }

  /** A run of events from a given state: the final state and everything sent. */
  function Run(st: State, inputs: seq<Input>): (r: (State, seq<Message>))
    decreases |inputs|
  {
    if inputs == [] then (st, [])
    else
      var (st1, out1) := Step(st, inputs[0]);
      var (st2, out2) := Run(st1, inputs[1..]);
      (st2, out1 + out2)
  }

  lemma StepKeepsInv(st: State, i: Input)
    requires Inv(st)
    ensures Inv(Step(st, i).0)
  {
  }

  /** Single-backend invariant: for every sequence of events from the start, at
      most one socket holds the backend slot and it is a connected socket. */
  lemma {:induction false} RunKeepsInv(st: State, inputs: seq<Input>)
    requires Inv(st)
    ensures Inv(Run(st, inputs).0)
    decreases |inputs|
  {
    if inputs != [] {
      StepKeepsInv(st, inputs[0]);
      RunKeepsInv(Step(st, inputs[0]).0, inputs[1..]);
    }
  }

  /** The slot changes in exactly two ways: an empty slot is claimed by a
      `'server'` reply, or the registered backend disconnects. */
  lemma BackendChanges(st: State, i: Input)
    requires Inv(st)
    ensures var b := Step(st, i).0.backend;
      b != st.backend ==>
        || (st.backend.None? && i.TypeReply? && i.kind == ServerRole && b == Some(i.s))
        || (st.backend.Some? && i == Disconnect(st.backend.value) && b.None?)
  {
  }

  /** A registered backend stays registered through any run in which it does not
      disconnect: a second backend never displaces it. */
  lemma {:induction false} FirstBackendWins(st: State, b: SocketId, inputs: seq<Input>)
    requires Inv(st) && st.backend == Some(b)
    requires forall k | 0 <= k < |inputs| :: inputs[k] != Disconnect(b)
    ensures Run(st, inputs).0.backend == Some(b)
    decreases |inputs|
  {
    if inputs != [] {
      BackendChanges(st, inputs[0]);
      StepKeepsInv(st, inputs[0]);
      FirstBackendWins(Step(st, inputs[0]).0, b, inputs[1..]);
    }
  }

  /** Without a backend the relay sends nothing at all in reply to actions, so no
      caller's ack is ever called: the request stays unanswered. */
  lemma {:induction false} ActionsDroppedWithoutBackend(st: State, inputs: seq<Input>)
    requires st.backend.None? && forall t | t in st.pending :: st.pending[t].backend !in st.sockets
    requires forall k | 0 <= k < |inputs| :: inputs[k].Action? || inputs[k].BackendAck?
    ensures Run(st, inputs) == (st, [])
    decreases |inputs|
  {
    if inputs != [] {
      assert Step(st, inputs[0]) == (st, []);
      ActionsDroppedWithoutBackend(st, inputs[1..]);
      var out: seq<Message> := [];
      assert Run(st, inputs) == (st, out + out);
      assert out + out == out;
    }
  }

  /** The usual way to lose the backend meets ActionsDroppedWithoutBackend's
      precondition: the backend disconnects with calls still in flight, whose
      answers can no longer arrive. */
  lemma BackendLeavesCallsStranded(st: State, s: SocketId)
    requires Inv(st) && st.backend == Some(s)
    requires forall t | t in st.pending :: st.pending[t].backend == s
    ensures var st1 := Step(st, Disconnect(s)).0;
      && st1.backend.None? && st1.pending == st.pending
      && forall t | t in st1.pending :: st1.pending[t].backend !in st1.sockets
  {
    var st1 := Step(st, Disconnect(s)).0;
    assert st1 == OnDisconnect(st, s).0;
    assert s !in Without(st.sockets, s);
  }

  /** Reply correlation: an answer reaches only the socket that made the call,
      and a second answer on the same token reaches no one. */
  lemma AckAnsweredOnce(st: State, s: SocketId, token: nat, err: Json, result: Json, err2: Json, result2: Json)
    requires token in st.pending && st.pending[token].backend == s
    ensures var (st1, out1) := OnBackendAck(st, s, token, err, result);
      && out1 == [Message(st.pending[token].client, Reply(st.pending[token].ack, err, result))]
      && OnBackendAck(st1, s, token, err2, result2) == (st1, [])
  {
  }

  /** `'set param info'` replaces the cache, and the next relayed call with
      object args carries the new value. */
  lemma ParamInfoReachesBackend(st: State, s: SocketId, c: SocketId, params: Json, fn: string,
                                fields: map<string, Json>, ack: nat)
    requires Inv(st) && st.backend.Some? && s in st.sockets && c in st.sockets
    ensures var st1 := Step(st, ParamInfoIn(s, params)).0;
      var out := Step(st1, Action(c, fn, Obj(fields), ack)).1;
      |out| == 1 && out[0].to == st.backend.value &&
      out[0].event.Forward? && out[0].event.args.Obj? &&
      out[0].event.args.fields["paramInfo"] == params
  {
  }

  /** The broker's module-level variables (`snippetSocket`, `paramInfo`, the
      sockets socket.io tracks and the acks it holds) and everything it emitted. */
  class Relay {
    var sockets: seq<SocketId>
    var backend: Option<SocketId>
    var paramInfo: Json
    var pending: map<nat, Pending>
    var nextToken: nat
    var outbox: seq<Message>

    function Snapshot(): State
      reads this
    {
      State(sockets, backend, paramInfo, pending, nextToken)
    }

    ghost predicate Valid()
      reads this
    {
      Inv(Snapshot())
    }

    constructor ()
      ensures Valid() && Snapshot() == Init && outbox == []
    {
      sockets, backend, paramInfo, pending, nextToken := [], None, Arr([]), map[], 0;
      outbox := [];
    }

    method HandleConnect(s: SocketId)
      requires Valid() && s !in sockets
      modifies this
      ensures Valid()
      ensures Snapshot() == OnConnect(old(Snapshot()), s).0
      ensures outbox == old(outbox) + OnConnect(old(Snapshot()), s).1
    {
      sockets := sockets + [s];
      if backend.None? {
        outbox := outbox + [Message(s, NoServer)];
      } else {
        outbox := outbox + [Message(s, ServerOk)];
      }
      outbox := outbox + [Message(s, GetType)];
    }

    method HandleTypeReply(s: SocketId, kind: Json)
      requires Valid() && s in sockets
      modifies this
      ensures Valid()
      ensures Snapshot() == OnTypeReply(old(Snapshot()), s, kind).0
      ensures outbox == old(outbox) + OnTypeReply(old(Snapshot()), s, kind).1
    {
      if kind == ServerRole {
        if backend.None? {
          backend := Some(s);
          outbox := outbox + Broadcast(sockets, ServerOk);
        }
      }
    }

    method HandleDisconnect(s: SocketId)
      requires Valid() && s in sockets
      modifies this
      ensures Valid()
      ensures Snapshot() == OnDisconnect(old(Snapshot()), s).0
      ensures outbox == old(outbox) + OnDisconnect(old(Snapshot()), s).1
    {
      sockets := Without(sockets, s);
      if backend == Some(s) {
        backend := None;
        outbox := outbox + Broadcast(sockets, NoServer);
      }
    }

    method HandleAction(s: SocketId, fn: string, args: Json, ack: nat)
      requires Valid() && s in sockets
      modifies this
      ensures Valid()
      ensures Snapshot() == OnAction(old(Snapshot()), s, fn, args, ack).0
      ensures outbox == old(outbox) + OnAction(old(Snapshot()), s, fn, args, ack).1
    {
      if backend.Some? {
        var sent := args;
        if Truthy(args) {
          sent := Inject(args, paramInfo);
        }
        pending := pending[nextToken := Pending(backend.value, s, ack)];
        outbox := outbox + [Message(backend.value, Forward(fn, sent, nextToken))];
        nextToken := nextToken + 1;
      }
    }

    method HandleBackendAck(s: SocketId, token: nat, err: Json, result: Json)
      requires Valid() && s in sockets
      modifies this
      ensures Valid()
      ensures Snapshot() == OnBackendAck(old(Snapshot()), s, token, err, result).0
      ensures outbox == old(outbox) + OnBackendAck(old(Snapshot()), s, token, err, result).1
    {
      if token in pending && pending[token].backend == s {
        var p := pending[token];
        pending := pending - {token};
        outbox := outbox + [Message(p.client, Reply(p.ack, err, result))];
      }
    }

    method HandlePush(s: SocketId, payload: map<string, Json>, complete: bool)
      requires Valid() && s in sockets
      modifies this`outbox
      ensures Valid()
      ensures outbox == old(outbox) + OnPush(Snapshot(), payload, complete)
    {
      var d, n := Field(payload, "data"), Field(payload, "name");
      if complete {
        outbox := outbox + Broadcast(sockets, SamplerComplete(d, n));
      } else {
        outbox := outbox + Broadcast(sockets, SingleSample(d, n));
      }
    }

    method HandleParamInfo(s: SocketId, params: Json)
      requires Valid() && s in sockets
      modifies this`paramInfo
      ensures Valid() && paramInfo == params
    {
      paramInfo := params;
    }
  }
}
