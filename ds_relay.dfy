/** The older relay of server/dsRelay.js: the same backend slot and forwarding
    as ToolboxServer, but it announces nothing beyond a `'no server'` notice to a
    newcomer, forwards `args` untouched and keeps no parameter cache. Sampler
    pushes are rebroadcast as in the newer relay. */
module DsRelay {
  import opened Wrappers
  import opened JsonValue
  import opened RelayWire

  datatype State = State(
    sockets: seq<SocketId>,
    backend: Option<SocketId>,
    pending: map<nat, Pending>,
    nextToken: nat)

  const Init: State := State([], None, map[], 0)

  predicate Inv(st: State)
  {
    && NoDup(st.sockets)
    && (st.backend.Some? ==> st.backend.value in st.sockets)
    && (forall t | t in st.pending :: t < st.nextToken)
  }

  /** connect: `'no server'` only when the slot is empty; the role query always. */
  function OnConnect(st: State, s: SocketId): (r: (State, seq<Message>))
    ensures r.0 == st.(sockets := st.sockets + [s])
    ensures st.backend.None? ==> r.1 == [Message(s, NoServer), Message(s, GetType)]
    ensures st.backend.Some? ==> r.1 == [Message(s, GetType)]
  {
    var st' := st.(sockets := st.sockets + [s]);
    if st.backend.None? then (st', [Message(s, NoServer), Message(s, GetType)])
    else (st', [Message(s, GetType)])
  }

  /** getType reply: `'server'` claims an empty slot, silently. */
  function OnTypeReply(st: State, s: SocketId, kind: Json): (r: State)
    ensures st.backend.None? && kind == ServerRole ==> r == st.(backend := Some(s))
    ensures st.backend.Some? || kind != ServerRole ==> r == st
  {
    if kind == ServerRole && st.backend.None? then st.(backend := Some(s)) else st
  }

  /** disconnect: the slot empties if the backend left; no one is told. */
  function OnDisconnect(st: State, s: SocketId): (r: State)
    ensures r.sockets == Without(st.sockets, s)
    ensures r.backend == if st.backend == Some(s) then None else st.backend
    ensures r.pending == st.pending && r.nextToken == st.nextToken
  {
    st.(sockets := Without(st.sockets, s),
        backend := if st.backend == Some(s) then None else st.backend)
  }

  /** action: dropped without a backend; otherwise `args` go to the backend
      unmodified under `fn`, and the call is remembered as pending. */
  function OnAction(st: State, s: SocketId, fn: string, args: Json, ack: nat): (r: (State, seq<Message>))
    ensures st.backend.None? ==> r == (st, [])
    ensures st.backend.Some? ==>
      && r.1 == [Message(st.backend.value, Forward(fn, args, st.nextToken))]
      && r.0 == st.(pending := st.pending[st.nextToken := Pending(st.backend.value, s, ack)],
                    nextToken := st.nextToken + 1)
  {
    match st.backend
    case None => (st, [])
    case Some(b) =>
      (st.(pending := st.pending[st.nextToken := Pending(b, s, ack)], nextToken := st.nextToken + 1),
       [Message(b, Forward(fn, args, st.nextToken))])
  }

  /** The backend's answer goes unchanged to the caller's own ack, once. */
  function OnBackendAck(st: State, s: SocketId, token: nat, err: Json, result: Json): (r: (State, seq<Message>))
    ensures token in st.pending && st.pending[token].backend == s ==>
      && r.1 == [Message(st.pending[token].client, Reply(st.pending[token].ack, err, result))]
      && r.0 == st.(pending := st.pending - {token})
    ensures !(token in st.pending && st.pending[token].backend == s) ==> r == (st, [])
  {
    if token in st.pending && st.pending[token].backend == s then
      var p := st.pending[token];
      (st.(pending := st.pending - {token}), [Message(p.client, Reply(p.ack, err, result))])
    else (st, [])
  }

  /** 'single sample' / 'sampler complete': `(data.data, data.name)` to everyone. */
  function OnPush(st: State, payload: map<string, Json>, complete: bool): (r: seq<Message>)
    ensures |r| == |st.sockets|
    ensures forall i | 0 <= i < |r| ::
      && r[i].to == st.sockets[i]
      && r[i].event == (if complete then SamplerComplete(Field(payload, "data"), Field(payload, "name"))
                        else SingleSample(Field(payload, "data"), Field(payload, "name")))
  {
    var d, n := Field(payload, "data"), Field(payload, "name");
    Broadcast(st.sockets, if complete then SamplerComplete(d, n) else SingleSample(d, n))
  }

  /** One delivered transport event; this relay has no 'set param info' handler. */
  function Step(st: State, i: Input): (r: (State, seq<Message>))
  {
    if !Delivered(st.sockets, i) then (st, [])
    else
      match i
      case Connect(s) => OnConnect(st, s)
      case TypeReply(s, kind) => (OnTypeReply(st, s, kind), [])
      case Disconnect(s) => (OnDisconnect(st, s), [])
      case Action(s, fn, args, ack) => OnAction(st, s, fn, args, ack)
      case BackendAck(s, token, err, result) => OnBackendAck(st, s, token, err, result)
      case SampleIn(_, payload) => (st, OnPush(st, payload, false))
      case CompleteIn(_, payload) => (st, OnPush(st, payload, true))
      case ParamInfoIn(_, _) => (st, [])
  }

  function Run(st: State, inputs: seq<Input>): (r: (State, seq<Message>))
    decreases |inputs|
  {
    if inputs == [] then (st, [])
    else
      var (st1, out1) := Step(st, inputs[0]);
      var (st2, out2) := Run(st1, inputs[1..]);
      (st2, out1 + out2)
  }

  lemma StepKeepsInv(st: State, i: Input)
    requires Inv(st)
    ensures Inv(Step(st, i).0)
  {
  }

  /** At most one backend, and it is connected, after any run from a valid state. */
  lemma {:induction false} RunKeepsInv(st: State, inputs: seq<Input>)
    requires Inv(st)
    ensures Inv(Run(st, inputs).0)
    decreases |inputs|
  {
    if inputs != [] {
      StepKeepsInv(st, inputs[0]);
      RunKeepsInv(Step(st, inputs[0]).0, inputs[1..]);
    }
  }

  /** This relay never tells anyone that a backend arrived: no `'server ok'` is
      ever sent. */
  lemma {:induction false} NeverServerOk(st: State, inputs: seq<Input>, k: nat)
    requires k < |Run(st, inputs).1|
    ensures Run(st, inputs).1[k].event != ServerOk
    decreases |inputs|
  {
    if inputs != [] {
      var (st1, out1) := Step(st, inputs[0]);
      var out2 := Run(st1, inputs[1..]).1;
      assert Run(st, inputs).1 == out1 + out2;
      if k >= |out1| {
        NeverServerOk(st1, inputs[1..], k - |out1|);
      }
    }
  }

  /** Without a backend, actions and stray acks produce nothing at all. */
  lemma {:induction false} ActionsDroppedWithoutBackend(st: State, inputs: seq<Input>)
    requires st.backend.None? && forall t | t in st.pending :: st.pending[t].backend !in st.sockets
    requires forall k | 0 <= k < |inputs| :: inputs[k].Action? || inputs[k].BackendAck?
    ensures Run(st, inputs) == (st, [])
    decreases |inputs|
  {
    if inputs != [] {
      assert Step(st, inputs[0]) == (st, []);
      ActionsDroppedWithoutBackend(st, inputs[1..]);
      var out: seq<Message> := [];
      assert Run(st, inputs) == (st, out + out);
      assert out + out == out;
    }
  }

  /** The usual way to lose the backend meets ActionsDroppedWithoutBackend's
      precondition: the backend disconnects with calls still in flight, whose
      answers can no longer arrive. */
  lemma BackendLeavesCallsStranded(st: State, s: SocketId)
    requires Inv(st) && st.backend == Some(s)
    requires forall t | t in st.pending :: st.pending[t].backend == s
    ensures var st1 := Step(st, Disconnect(s)).0;
      && st1.backend.None? && st1.pending == st.pending
      && forall t | t in st1.pending :: st1.pending[t].backend !in st1.sockets
  {
    var st1 := Step(st, Disconnect(s)).0;
    assert st1 == OnDisconnect(st, s);
    assert s !in Without(st.sockets, s);
  }

  /** The module-level `snippetSocket`, the connected sockets, the acks in flight
      and everything emitted. */
  class Relay {
    var sockets: seq<SocketId>
    var backend: Option<SocketId>
    var pending: map<nat, Pending>
    var nextToken: nat
    var outbox: seq<Message>

    function Snapshot(): State
      reads this
    {
      State(sockets, backend, pending, nextToken)
    }

    ghost predicate Valid()
      reads this
    {
      Inv(Snapshot())
    }

    constructor ()
      ensures Valid() && Snapshot() == Init && outbox == []
    {
      sockets, backend, pending, nextToken := [], None, map[], 0;
      outbox := [];
    }

    method HandleConnect(s: SocketId)
      requires Valid() && s !in sockets
      modifies this
      ensures Valid()
      ensures Snapshot() == OnConnect(old(Snapshot()), s).0
      ensures outbox == old(outbox) + OnConnect(old(Snapshot()), s).1
    {
      sockets := sockets + [s];
      if backend.None? {
        outbox := outbox + [Message(s, NoServer)];
      }
      outbox := outbox + [Message(s, GetType)];
    }

    method HandleTypeReply(s: SocketId, kind: Json)
      requires Valid() && s in sockets
      modifies this`backend
      ensures Valid()
      ensures Snapshot() == OnTypeReply(old(Snapshot()), s, kind)
    {
      if kind == ServerRole {
        if backend.None? {
          backend := Some(s);
        }
      }
    }

    method HandleDisconnect(s: SocketId)
      requires Valid() && s in sockets
      modifies this`sockets, this`backend
      ensures Valid()
      ensures Snapshot() == OnDisconnect(old(Snapshot()), s)
    {
      if backend.Some? && backend.value == s {
        backend := None;
      }
      sockets := Without(sockets, s);
    }

    method HandleAction(s: SocketId, fn: string, args: Json, ack: nat)
      requires Valid() && s in sockets
      modifies this
      ensures Valid()
      ensures Snapshot() == OnAction(old(Snapshot()), s, fn, args, ack).0
      ensures outbox == old(outbox) + OnAction(old(Snapshot()), s, fn, args, ack).1
    {
      if backend.Some? {
        pending := pending[nextToken := Pending(backend.value, s, ack)];
        outbox := outbox + [Message(backend.value, Forward(fn, args, nextToken))];
        nextToken := nextToken + 1;
      }
    }

    method HandleBackendAck(s: SocketId, token: nat, err: Json, result: Json)
      requires Valid() && s in sockets
      modifies this
      ensures Valid()
      ensures Snapshot() == OnBackendAck(old(Snapshot()), s, token, err, result).0
      ensures outbox == old(outbox) + OnBackendAck(old(Snapshot()), s, token, err, result).1
    {
      if token in pending && pending[token].backend == s {
        var p := pending[token];
        pending := pending - {token};
        outbox := outbox + [Message(p.client, Reply(p.ack, err, result))];
      }
    }

    method HandlePush(s: SocketId, payload: map<string, Json>, complete: bool)
      requires Valid() && s in sockets
      modifies this`outbox
      ensures Valid()
      ensures outbox == old(outbox) + OnPush(Snapshot(), payload, complete)
    {
      var d, n := Field(payload, "data"), Field(payload, "name");
      if complete {
        outbox := outbox + Broadcast(sockets, SamplerComplete(d, n));
      } else {
        outbox := outbox + Broadcast(sockets, SingleSample(d, n));
      }
    }
  }
}
