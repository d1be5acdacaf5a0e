/**
 * The Server role (`Server.start` in src/ipc.ts) as an event-driven state machine: `start`
 * registers the socket's `error` and `listening` listeners and binds; whichever of the two events
 * comes first settles the call and removes both listeners; after a successful bind, every
 * request event is answered with one approve packet sent back to the requester.
 */
module IpcServer {
  import opened Base
  import opened Packets
  import opened Ipc
  import Ip

  /**
   * The Server's observable state: the address it asked to bind (once `start` is called), the
   * listeners on its socket and on its own event bus, how the latest `start`'s promise settled, and the
   * datagrams sent so far.
   */
  datatype ServerState = ServerState(
    bound: Option<Target>,
    socket: set<SocketListener>,
    bus: set<BusListener>,
    outcome: Option<Outcome>,
    sent: seq<Outgoing>)

  /** What the socket and the event bus deliver to the Server. */
  datatype ServerEvent = SocketError(error: Error) | Listening | Request(rinfo: RemoteInfo)

  /** Right after the constructor: only the `message` listener is on the socket. */
  function Initial(): ServerState {
    ServerState(None, {OnMessage}, {}, None, [])
  }

  /** The approve packet sent back to a requester. */
  function ApprovalTo(rinfo: RemoteInfo): Outgoing {
    Outgoing(ApproveIncommingConnection(), Some(rinfo.port), Some(rinfo.address))
  }

  /** The invariant every reachable state keeps. */
  predicate Inv(s: ServerState) {
    && OnMessage in s.socket
    && s.socket <= {OnMessage, OnError, OnListening}
    && s.bus <= {ApproveEachRequest}
    && (OnError in s.socket <==> OnListening in s.socket)
    // before `start`, nothing has happened
    && (s.bound.None? ==> s.socket == {OnMessage} && s.bus == {} && s.outcome.None? && s.sent == [])
    // while binding, the call is pending and nothing is answered
    && (OnError in s.socket ==> s.bound.Some? && s.outcome.None? && s.bus == {})
    // once the bind listeners are gone the call has settled, and its listeners are gone
    && (s.bound.Some? && OnError !in s.socket ==> s.outcome.Some?)
    && (s.outcome.Some? ==> s.socket == {OnMessage})
    && (s.outcome.Some? ==> s.outcome == Some(Resolved(None)) || s.outcome.value.Rejected?)
    // requests are answered exactly when the bind succeeded
    && (ApproveEachRequest in s.bus <==> s.outcome == Some(Resolved(None)))
    && (s.sent != [] ==> ApproveEachRequest in s.bus)
    && forall i :: 0 <= i < |s.sent| ==> s.sent[i].packet == ApproveIncommingConnection()
  }

  /**
   * `start` may be called on a socket that was never bound, or again after a bind error, which
   * leaves the socket unbound; a socket that is binding or bound would throw in `bind`.
   */
  predicate CanStart(s: ServerState) {
    s.bound.None? || (s.outcome.Some? && s.outcome.value.Rejected?)
  }

  /**
   * `start()` up to the bind call: both listeners registered, the bind to the configured address
   * and port requested, and a new call pending.
   */
  function StartBind(s: ServerState, config: Settings): (r: ServerState)
    requires CanStart(s)
    ensures Inv(s) ==> Inv(r) && r.socket == {OnMessage, OnError, OnListening} && r.bus == {}
    ensures r.bound == Some(Target(config.address, config.port)) && r.outcome.None? && r.sent == s.sent
  {
    s.(bound := Some(Target(config.address, config.port)),
       socket := s.socket + {OnError, OnListening},
       outcome := None)
  }

  /**
   * The reaction to one event: `onError`, `onListening` and the approving listener; an event with
   * no listener for it changes nothing.  A settled `start` stays settled, and the invariant is kept.
   */
  function Step(s: ServerState, ev: ServerEvent): (r: ServerState)
    ensures s.outcome.Some? ==> r.outcome == s.outcome
    ensures Inv(s) ==> Inv(r)
  {
    match ev
    case SocketError(e) =>
      if OnError in s.socket then
        s.(socket := s.socket - {OnError, OnListening}, outcome := Settle(s.outcome, Rejected(e)))
      else s
    case Listening =>
      if OnListening in s.socket then
        s.(socket := s.socket - {OnError, OnListening},
           outcome := Settle(s.outcome, Resolved(None)),
           bus := s.bus + {ApproveEachRequest})
      else s
    case Request(rinfo) =>
      if ApproveEachRequest in s.bus then s.(sent := s.sent + [ApprovalTo(rinfo)]) else s
  }

  /** The state after a sequence of events. */
  function Run(s: ServerState, evs: seq<ServerEvent>): ServerState
    decreases |evs|
  {
    if evs == [] then s else Run(Step(s, evs[0]), evs[1..])
  }

  function Requests(rinfos: seq<RemoteInfo>): (evs: seq<ServerEvent>)
    ensures |evs| == |rinfos|
    ensures forall i :: 0 <= i < |rinfos| ==> evs[i] == Request(rinfos[i])
  {
    seq(|rinfos|, i requires 0 <= i < |rinfos| => Request(rinfos[i]))
  }

  function Approvals(rinfos: seq<RemoteInfo>): (out: seq<Outgoing>)
    ensures |out| == |rinfos|
    ensures forall i :: 0 <= i < |rinfos| ==> out[i] == ApprovalTo(rinfos[i])
  {
    seq(|rinfos|, i requires 0 <= i < |rinfos| => ApprovalTo(rinfos[i]))
  }

  lemma InitialInv()
    ensures Inv(Initial())
  {
  }

  lemma {:induction false} RunInv(s: ServerState, evs: seq<ServerEvent>)
    requires Inv(s)
    ensures Inv(Run(s, evs))
    decreases |evs|
  {
    if evs != [] {
      RunInv(Step(s, evs[0]), evs[1..]);
    }
  }

  /** A bind error while binding rejects `start` with that error and removes both listeners. */
  lemma BindErrorRejects(s: ServerState, e: Error)
    requires Inv(s) && OnError in s.socket
    ensures Step(s, SocketError(e)).outcome == Some(Rejected(e))
    ensures Step(s, SocketError(e)).socket == {OnMessage}
    ensures ApproveEachRequest !in Step(s, SocketError(e)).bus
  {
  }

  /** `listening` while binding resolves `start`, removes both listeners, and starts approving. */
  lemma ListeningResolves(s: ServerState)
    requires Inv(s) && OnListening in s.socket
    ensures Step(s, Listening).outcome == Some(Resolved(None))
    ensures Step(s, Listening).socket == {OnMessage}
    ensures ApproveEachRequest in Step(s, Listening).bus
  {
  }

  /** Once `start` has settled, no later sequence of events changes how it settled. */
  lemma {:induction false} SettledIsFinal(s: ServerState, evs: seq<ServerEvent>)
    requires Inv(s) && s.outcome.Some?
    ensures Run(s, evs).outcome == s.outcome
    ensures Run(s, evs).socket == {OnMessage}
    ensures Run(s, evs).bus == s.bus
    decreases |evs|
  {
    if evs != [] {
      SettledIsFinal(Step(s, evs[0]), evs[1..]);
    }
  }

  /** Before a successful bind a request is not answered. */
  lemma NoApprovalBeforeListening(s: ServerState, rinfo: RemoteInfo)
    requires Inv(s) && s.outcome != Some(Resolved(None))
    ensures Step(s, Request(rinfo)) == s
  {
  }

  /**
   * After a successful bind, every request is answered by exactly one approve packet sent to the
   * requester's port and address, in order, with no deduplication.
   */
  lemma {:induction false} ApprovesEveryRequest(s: ServerState, rinfos: seq<RemoteInfo>)
    requires Inv(s) && ApproveEachRequest in s.bus
    ensures Run(s, Requests(rinfos)) == s.(sent := s.sent + Approvals(rinfos))
    decreases |rinfos|
  {
    if rinfos == [] {
      assert s.sent + Approvals(rinfos) == s.sent;
    } else {
      var evs := Requests(rinfos);
      var s' := Step(s, evs[0]);
      assert s' == s.(sent := s.sent + [ApprovalTo(rinfos[0])]);
      assert evs[1..] == Requests(rinfos[1..]);
      ApprovesEveryRequest(s', rinfos[1..]);
      assert s.sent + [ApprovalTo(rinfos[0])] + Approvals(rinfos[1..]) == s.sent + Approvals(rinfos);
    }
  }

  /** The handshake seen from the Server: bind, then one request, answered by one approval. */
  lemma AnswersRequestAfterListening(config: Settings, rinfo: RemoteInfo)
    ensures Run(StartBind(Initial(), config), [Listening, Request(rinfo)]).sent == [ApprovalTo(rinfo)]
    ensures Run(StartBind(Initial(), config), [Listening, Request(rinfo)]).outcome == Some(Resolved(None))
  {
    var s1 := Step(StartBind(Initial(), config), Listening);
    assert Run(s1, [Request(rinfo)]) == Run(Step(s1, Request(rinfo)), []);
  }

  /**
   * A bind error allows another `start`, which can then succeed and answer requests; a successful
   * bind does not allow another `start`.
   */
  lemma RetryAfterBindError(c1: Settings, c2: Settings, e: Error, rinfo: RemoteInfo)
    ensures CanStart(Step(StartBind(Initial(), c1), SocketError(e)))
    ensures !CanStart(Step(StartBind(Initial(), c1), Listening))
    ensures Run(StartBind(Step(StartBind(Initial(), c1), SocketError(e)), c2), [Listening, Request(rinfo)]) ==
            ServerState(Some(Target(c2.address, c2.port)), {OnMessage}, {ApproveEachRequest},
                        Some(Resolved(None)), [ApprovalTo(rinfo)])
  {
    var s0 := StartBind(Step(StartBind(Initial(), c1), SocketError(e)), c2);
    var s1 := Step(s0, Listening);
    assert Run(s0, [Listening, Request(rinfo)]) == Run(s1, [Request(rinfo)]);
    assert Run(s1, [Request(rinfo)]) == Run(Step(s1, Request(rinfo)), []);
  }

  /** A Server endpoint: the configuration the constructor assigns and the state `start` drives. */
  class Server {
    const family: string
    const address: string
    const port: int
    const socketType: SocketType
    const codec: Codec

    var bound: Option<Target>
    var socketListeners: set<SocketListener>
    var busListeners: set<BusListener>
    var started: Option<Outcome>
    var sent: seq<Outgoing>

    function Config(): Settings {
      Settings(family, address, port, socketType)
    }

    function State(): ServerState
      reads this
    {
      ServerState(bound, socketListeners, busListeners, started, sent)
    }

    predicate Valid()
      reads this
    {
      Inv(State())
    }

    /** `new Server(options)`, given that the options name a supported family. */
    constructor (options: Options, table: Ip.Table, codec: Codec)
      requires Configure(options, table).Ok?
      ensures Config() == Configure(options, table).value && this.codec == codec
      ensures Valid() && State() == Initial()
    {
      var fam := OrElse(options.family, "IPv4");
      var addr: string;
      if Falsy(options.address) {
        addr := Ip.GetIP(table, fam);
      } else {
        addr := options.address.value;
      }
      family := fam;
      address := addr;
      port := Coalesce(options.port, DefaultPort);
      socketType := ConvertFamilyToSocketType(fam).value;
      this.codec := codec;
      bound := None;
      socketListeners := {OnMessage};
      busListeners := {};
      started := None;
      sent := [];
    }

    /** `start()`: register `error` and `listening`, then bind to the configured address and port. */
    method Start()
      requires Valid() && CanStart(State())
      modifies this
      ensures Valid() && State() == StartBind(old(State()), Config())
    {
      started := None;
      socketListeners := socketListeners + {OnError};
      socketListeners := socketListeners + {OnListening};
      bound := Some(Target(address, port));
    }

    /** The socket reports an error. */
    method OnSocketError(e: Error)
      requires Valid()
      modifies this
      ensures Valid() && State() == Step(old(State()), SocketError(e))
    {
      if OnError in socketListeners {
        socketListeners := socketListeners - {OnError};
        socketListeners := socketListeners - {OnListening};
        started := Settle(started, Rejected(e));
      }
    }

    /** The socket reports that it is listening. */
    method OnSocketListening()
      requires Valid()
      modifies this
      ensures Valid() && State() == Step(old(State()), Listening)
    {
      if OnListening in socketListeners {
        socketListeners := socketListeners - {OnError};
        socketListeners := socketListeners - {OnListening};
        started := Settle(started, Resolved(None));
        busListeners := busListeners + {ApproveEachRequest};
      }
    }

    /**
     * A datagram arrives: it is decoded and dispatched; a request event is answered while the
     * approving listener is registered.  A decoding error escapes and changes nothing.
     */
    method OnSocketMessage(buffer: Bytes, rinfo: RemoteInfo) returns (r: Result<Emission, PacketError>)
      requires Valid()
      modifies this
      ensures r == Receive(codec, buffer, rinfo)
      ensures Valid()
      ensures State() == if r.Ok? && r.value.name == RequestTag then Step(old(State()), Request(rinfo))
                         else old(State())
    {
      r := Receive(codec, buffer, rinfo);
      if r.Ok? && r.value.name == RequestTag && ApproveEachRequest in busListeners {
        var peer := r.value.payload.rinfo;
        sent := sent + [Outgoing(ApproveIncommingConnection(), Some(peer.port), Some(peer.address))];
      }
    }
  }
}
