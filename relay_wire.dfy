/** The socket-level vocabulary shared by the two relay brokers: which socket an
    event comes from, what the relay sends to which socket, and the bookkeeping of
    relayed calls waiting for the backend's acknowledgement. */
module RelayWire {
  import opened JsonValue

  /** A connected socket, by its transport id. */
  type SocketId = nat

  /** What the relay emits to one socket. */
  datatype Event =
    | NoServer
    | ServerOk
      /** The role query; the socket's answer arrives as a TypeReply input. */
    | GetType
      /** An `action` relayed to the backend under the event name `fn`; `token`
          names the acknowledgement callback the relay attached to the emit. */
    | Forward(fn: string, args: Json, token: nat)
      /** A call of the originating socket's own acknowledgement `ack`. */
    | Reply(ack: nat, err: Json, result: Json)
    | SingleSample(data: Json, name: Json)
    | SamplerComplete(data: Json, name: Json)

  datatype Message = Message(to: SocketId, event: Event)

  /** A relayed call: sent to `backend`, to be answered through `client`'s `ack`. */
  datatype Pending = Pending(backend: SocketId, client: SocketId, ack: nat)

  /** The transport events a relay reacts to. `data` payloads of the push events
      are the `{data, name}` objects the backend sends. */
  datatype Input =
    | Connect(s: SocketId)
    | TypeReply(s: SocketId, kind: Json)
    | Disconnect(s: SocketId)
    | Action(s: SocketId, fn: string, args: Json, ack: nat)
    | BackendAck(s: SocketId, token: nat, err: Json, result: Json)
    | SampleIn(s: SocketId, payload: map<string, Json>)
    | CompleteIn(s: SocketId, payload: map<string, Json>)
    | ParamInfoIn(s: SocketId, params: Json)

  /** The role string the relay accepts as a backend; the backend answers it. */
  const ServerRole: Json := Str("server")

  predicate NoDup(s: seq<SocketId>)
  {
    forall i, j | 0 <= i < j < |s| :: s[i] != s[j]
  }

  /** `io.sockets.emit(e)`: one message to every connected socket, in order. */
  function Broadcast(sockets: seq<SocketId>, e: Event): (out: seq<Message>)
    ensures |out| == |sockets|
    ensures forall i | 0 <= i < |sockets| :: out[i] == Message(sockets[i], e)
  {
    seq(|sockets|, i requires 0 <= i < |sockets| => Message(sockets[i], e))
  }

  /** The connected sockets once `s` has left. */
  function Without(sockets: seq<SocketId>, s: SocketId): (r: seq<SocketId>)
    ensures forall x :: x in r <==> x in sockets && x != s
    ensures NoDup(sockets) ==> NoDup(r)
    ensures |r| <= |sockets|
  {
    if sockets == [] then []
    else if sockets[0] == s then Without(sockets[1..], s)
    else
      assert NoDup(sockets) ==> sockets[0] !in sockets[1..] && NoDup(sockets[1..]);
      [sockets[0]] + Without(sockets[1..], s)
  }

  /** A transport only delivers a connect for a new id, and other events only
      from a socket that is still connected. */
  predicate Delivered(sockets: seq<SocketId>, i: Input)
  {
    match i
    case Connect(s) => s !in sockets
    case _ => i.s in sockets
  }
}
