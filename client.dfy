/**
 * The Client role (`Client.connect` in src/ipc.ts) as an event-driven state machine in two
 * phases.  Connect phase: the socket's `error` and `connect` listeners are registered and the
 * socket connects; whichever event comes first ends the phase and removes both.  Handshake phase:
 * the approval listener is registered, then the request is sent; a successful send arms the
 * timer, an approval clears it and resolves, the timer rejects with `Connection Timeout`, and a
 * send error removes the listener and RESOLVES with the error.
 */
module IpcClient {
  import opened Base
  import opened Packets
  import opened Ipc
  import Ip

  /**
   * The Client's observable state during the latest `connect` call: the peer it connects to (once called),
   * the listeners on its socket and on its own event bus, whether the request's send callback is
   * still due, whether the timeout timer is armed, how the call settled, and what it sent.
   */
  datatype ClientState = ClientState(
    target: Option<Target>,
    socket: set<SocketListener>,
    bus: set<BusListener>,
    sendInFlight: bool,
    timerArmed: bool,
    outcome: Option<Outcome>,
    sent: seq<Outgoing>)

  /** What the socket, the send callback, the event bus and the timer deliver to the Client. */
  datatype ClientEvent =
    | SocketError(error: Error)
    | Connected
    | SendDone(failure: Option<Error>)
    | Approved
    | TimerFired

  /** The options of `connect`. */
  datatype ConnectOptions = ConnectOptions(address: Option<string>, port: Option<int>)

  /** The peer `connect` targets: `options.port ?? this.port`, `options.address || this.address`. */
  function ConnectTarget(options: ConnectOptions, config: Settings): (t: Target)
    ensures options.port.None? ==> t.port == config.port
    ensures options.port.Some? ==> t.port == options.port.value
    ensures Falsy(options.address) ==> t.address == config.address
    ensures !Falsy(options.address) ==> t.address == options.address.value
  {
    Target(OrElse(options.address, config.address), Coalesce(options.port, config.port))
  }

  /** Right after the constructor: only the `message` listener is on the socket. */
  function Initial(): ClientState {
    ClientState(None, {OnMessage}, {}, false, false, None, [])
  }

  /** The request sent on the connected socket, with no explicit destination. */
  function RequestDatagram(): Outgoing {
    Outgoing(RequestIncommingConnection(), None, None)
  }

  /** No bus listener, no pending send callback, no armed timer. */
  predicate Quiet(s: ClientState) {
    s.bus == {} && !s.sendInFlight && !s.timerArmed
  }

  /** The handshake phase has begun and has not settled. */
  predicate Handshaking(s: ClientState) {
    s.target.Some? && OnConnect !in s.socket && s.outcome.None?
  }

  /** The invariant every reachable state keeps. */
  predicate Inv(s: ClientState) {
    && OnMessage in s.socket
    && s.socket <= {OnMessage, OnError, OnConnect}
    && s.bus <= {AwaitApproval}
    && (OnError in s.socket <==> OnConnect in s.socket)
    // before `connect`, nothing has happened
    && (s.target.None? ==> s.socket == {OnMessage} && Quiet(s) && s.outcome.None? && s.sent == [])
    // in the connect phase nothing else is registered, armed or sent
    && (OnConnect in s.socket ==> s.target.Some? && Quiet(s) && s.outcome.None? && s.sent == [])
    // every exit has cleaned up every listener
    && (s.outcome.Some? ==> s.socket == {OnMessage} && s.bus == {})
    // a pending handshake has its listener and exactly one of the send callback and the timer
    && (Handshaking(s) ==> AwaitApproval in s.bus && s.sendInFlight != s.timerArmed)
    // the timer is armed only once the send has completed
    && (s.timerArmed ==> !s.sendInFlight)
    // the request is sent once, when the connect phase succeeds
    && (s.sent != [] ==> s.sent == [RequestDatagram()])
    && (s.sendInFlight || s.timerArmed || AwaitApproval in s.bus || Handshaking(s) ==>
          s.sent == [RequestDatagram()])
  }

  /**
   * `connect` may be called on a socket that never connected, or again after an error in the
   * connect phase (rejected before the request was sent), which leaves the socket disconnected;
   * a socket that is connecting or connected would throw in `connect`.
   */
  predicate CanConnect(s: ClientState) {
    s.target.None? || (s.outcome.Some? && s.outcome.value.Rejected? && s.sent == [])
  }

  /**
   * `connect(options)` up to the connect call: both socket listeners registered, the connect to
   * the chosen peer requested, nothing sent or armed yet, and a new call pending.
   */
  function StartConnect(s: ClientState, t: Target): (r: ClientState)
    requires CanConnect(s)
    ensures Inv(s) ==> Inv(r) && r.socket == {OnMessage, OnError, OnConnect} && Quiet(r)
    ensures r.target == Some(t) && r.outcome.None? && r.sent == s.sent
  {
    s.(target := Some(t), socket := s.socket + {OnError, OnConnect}, outcome := None)
  }

  /**
   * The reaction to one event: `onError` and `onConnected` of the connect phase, the send
   * callback, `onConnectionApproved` and `onTimeout`; an event with no listener, callback or timer
   * changes nothing.  A settled call stays settled, and the invariant is kept.
   */
  function Step(s: ClientState, ev: ClientEvent): (r: ClientState)
    ensures s.outcome.Some? ==> r.outcome == s.outcome
    ensures Inv(s) ==> Inv(r)
  {
    match ev
    case SocketError(e) =>
      if OnError in s.socket then
        s.(socket := s.socket - {OnError, OnConnect}, outcome := Settle(s.outcome, Rejected(e)))
      else s
    case Connected =>
      if OnConnect in s.socket then
        s.(socket := s.socket - {OnError, OnConnect},
           bus := s.bus + {AwaitApproval},
           sendInFlight := true,
           sent := s.sent + [RequestDatagram()])
      else s
    case SendDone(failure) =>
      if !s.sendInFlight then s
      else if failure.Some? then
        s.(sendInFlight := false,
           bus := s.bus - {AwaitApproval},
           outcome := Settle(s.outcome, Resolved(failure)))
      else
        s.(sendInFlight := false, timerArmed := true)
    case Approved =>
      if AwaitApproval in s.bus then
        s.(timerArmed := false, bus := s.bus - {AwaitApproval}, outcome := Settle(s.outcome, Resolved(None)))
      else s
    case TimerFired =>
      if s.timerArmed then
        s.(timerArmed := false,
           bus := s.bus - {AwaitApproval},
           outcome := Settle(s.outcome, Rejected(ConnectionTimeout)))
      else s
  }

  /** The state after a sequence of events. */
  function Run(s: ClientState, evs: seq<ClientEvent>): ClientState
    decreases |evs|
  {
    if evs == [] then s else Run(Step(s, evs[0]), evs[1..])
  }

  lemma InitialInv()
    ensures Inv(Initial())
  {
  }

  lemma {:induction false} RunInv(s: ClientState, evs: seq<ClientEvent>)
    requires Inv(s)
    ensures Inv(Run(s, evs))
    decreases |evs|
  {
    if evs != [] {
      RunInv(Step(s, evs[0]), evs[1..]);
    }
  }

  /** Once the call has settled, no later sequence of events changes how, or re-registers a listener. */
  lemma {:induction false} SettlesAtMostOnce(s: ClientState, evs: seq<ClientEvent>)
    requires Inv(s) && s.outcome.Some?
    ensures Run(s, evs).outcome == s.outcome
    ensures Run(s, evs).socket == {OnMessage} && Run(s, evs).bus == {}
    decreases |evs|
  {
    if evs != [] {
      SettlesAtMostOnce(Step(s, evs[0]), evs[1..]);
    }
  }

  /** A socket error in the connect phase rejects with that error and removes both listeners. */
  lemma ConnectErrorRejects(s: ClientState, e: Error)
    requires Inv(s) && OnConnect in s.socket
    ensures Step(s, SocketError(e)).outcome == Some(Rejected(e))
    ensures Step(s, SocketError(e)).socket == {OnMessage} && Quiet(Step(s, SocketError(e)))
    ensures Step(s, SocketError(e)).sent == []
  {
  }

  /**
   * `connect` in the connect phase removes both socket listeners, registers the approval listener
   * and sends the request; the timer is not armed yet.
   */
  lemma ConnectedSendsRequest(s: ClientState)
    requires Inv(s) && OnConnect in s.socket
    ensures Step(s, Connected).socket == {OnMessage}
    ensures AwaitApproval in Step(s, Connected).bus
    ensures Step(s, Connected).sendInFlight && !Step(s, Connected).timerArmed
    ensures Step(s, Connected).sent == [RequestDatagram()]
    ensures Step(s, Connected).outcome.None?
  {
  }

  /** The only event that arms the timer is the successful completion of the request's send. */
  lemma TimerArmedOnlyAfterSend(s: ClientState, ev: ClientEvent)
    requires Inv(s) && !s.timerArmed && Step(s, ev).timerArmed
    ensures ev == SendDone(None) && s.sendInFlight
  {
  }

  /** An approval while waiting clears the timer, removes the listener and resolves. */
  lemma ApprovalResolves(s: ClientState)
    requires Inv(s) && Handshaking(s)
    ensures Step(s, Approved).outcome == Some(Resolved(None))
    ensures Step(s, Approved).bus == {} && !Step(s, Approved).timerArmed
  {
  }

  /** The timer firing while waiting removes the listener and rejects with `Connection Timeout`. */
  lemma TimeoutRejects(s: ClientState)
    requires Inv(s) && Handshaking(s) && s.timerArmed
    ensures Step(s, TimerFired).outcome == Some(Rejected(ConnectionTimeout))
    ensures Quiet(Step(s, TimerFired))
  {
  }

  /** A send error removes the listener and resolves (not rejects), handing over the error. */
  lemma SendErrorResolves(s: ClientState, e: Error)
    requires Inv(s) && Handshaking(s) && s.sendInFlight
    ensures Step(s, SendDone(Some(e))).outcome == Some(Resolved(Some(e)))
    ensures Quiet(Step(s, SendDone(Some(e))))
  {
  }

  /** The handshake against a server that answers: resolved, with nothing left behind. */
  lemma HandshakeApproved(t: Target)
    ensures Run(StartConnect(Initial(), t), [Connected, SendDone(None), Approved]) ==
            ClientState(Some(t), {OnMessage}, {}, false, false, Some(Resolved(None)), [RequestDatagram()])
  {
    var s0 := StartConnect(Initial(), t);
    var s1 := Step(s0, Connected);
    var s2 := Step(s1, SendDone(None));
    assert Run(s0, [Connected, SendDone(None), Approved]) == Run(s1, [SendDone(None), Approved]);
    assert Run(s1, [SendDone(None), Approved]) == Run(s2, [Approved]);
  }

  /** The handshake against nobody: rejected with `Connection Timeout`, with nothing left behind. */
  lemma HandshakeTimesOut(t: Target)
    ensures Run(StartConnect(Initial(), t), [Connected, SendDone(None), TimerFired]) ==
            ClientState(Some(t), {OnMessage}, {}, false, false, Some(Rejected(ConnectionTimeout)),
                        [RequestDatagram()])
  {
    var s0 := StartConnect(Initial(), t);
    var s1 := Step(s0, Connected);
    var s2 := Step(s1, SendDone(None));
    assert Run(s0, [Connected, SendDone(None), TimerFired]) == Run(s1, [SendDone(None), TimerFired]);
    assert Run(s1, [SendDone(None), TimerFired]) == Run(s2, [TimerFired]);
  }

  /** A failed send: `connect` resolves, although the request never left. */
  lemma HandshakeSendFails(t: Target, e: Error)
    ensures Run(StartConnect(Initial(), t), [Connected, SendDone(Some(e))]) ==
            ClientState(Some(t), {OnMessage}, {}, false, false, Some(Resolved(Some(e))), [RequestDatagram()])
  {
    var s0 := StartConnect(Initial(), t);
    var s1 := Step(s0, Connected);
    assert Run(s0, [Connected, SendDone(Some(e))]) == Run(s1, [SendDone(Some(e))]);
    assert Run(s1, [SendDone(Some(e))]) == Run(Step(s1, SendDone(Some(e))), []);
  }

  /**
   * An approval that arrives before the send callback resolves the call; the callback then still
   * arms the timer, which outlives the call, and its firing changes nothing but the timer.
   */
  lemma ApprovalBeforeSendCallback(t: Target)
    ensures Run(StartConnect(Initial(), t), [Connected, Approved, SendDone(None)]) ==
            ClientState(Some(t), {OnMessage}, {}, false, true, Some(Resolved(None)), [RequestDatagram()])
    ensures Run(StartConnect(Initial(), t), [Connected, Approved, SendDone(None), TimerFired]) ==
            ClientState(Some(t), {OnMessage}, {}, false, false, Some(Resolved(None)), [RequestDatagram()])
  {
    var s0 := StartConnect(Initial(), t);
    var s1 := Step(s0, Connected);
    var s2 := Step(s1, Approved);
    var s3 := Step(s2, SendDone(None));
    assert Run(s0, [Connected, Approved, SendDone(None)]) == Run(s1, [Approved, SendDone(None)]);
    assert Run(s1, [Approved, SendDone(None)]) == Run(s2, [SendDone(None)]);
    assert Run(s0, [Connected, Approved, SendDone(None), TimerFired]) ==
           Run(s1, [Approved, SendDone(None), TimerFired]);
    assert Run(s1, [Approved, SendDone(None), TimerFired]) == Run(s2, [SendDone(None), TimerFired]);
    assert Run(s2, [SendDone(None), TimerFired]) == Run(s3, [TimerFired]);
  }

  /**
   * An error in the connect phase allows another `connect`, which can then complete the
   * handshake; a timeout after the request was sent, or an approval, does not.
   */
  lemma RetryAfterConnectError(t1: Target, t2: Target, e: Error)
    ensures CanConnect(Step(StartConnect(Initial(), t1), SocketError(e)))
    ensures !CanConnect(Run(StartConnect(Initial(), t1), [Connected, SendDone(None), TimerFired]))
    ensures !CanConnect(Run(StartConnect(Initial(), t1), [Connected, SendDone(None), Approved]))
    ensures Run(StartConnect(Step(StartConnect(Initial(), t1), SocketError(e)), t2),
                [Connected, SendDone(None), Approved]) ==
            ClientState(Some(t2), {OnMessage}, {}, false, false, Some(Resolved(None)), [RequestDatagram()])
  {
    HandshakeTimesOut(t1);
    HandshakeApproved(t1);
    var s0 := StartConnect(Step(StartConnect(Initial(), t1), SocketError(e)), t2);
    var s1 := Step(s0, Connected);
    var s2 := Step(s1, SendDone(None));
    assert Run(s0, [Connected, SendDone(None), Approved]) == Run(s1, [SendDone(None), Approved]);
    assert Run(s1, [SendDone(None), Approved]) == Run(s2, [Approved]);
  }

  /** A Client endpoint: the configuration the constructor assigns and the state `connect` drives. */
  class Client {
    const family: string
    const address: string
    const port: int
    const socketType: SocketType
    const codec: Codec

    var target: Option<Target>
    var socketListeners: set<SocketListener>
    var busListeners: set<BusListener>
    var sendInFlight: bool
    var timerArmed: bool
    var settled: Option<Outcome>
    var sent: seq<Outgoing>

    function Config(): Settings {
      Settings(family, address, port, socketType)
    }

    function State(): ClientState
      reads this
    {
      ClientState(target, socketListeners, busListeners, sendInFlight, timerArmed, settled, sent)
    }

    predicate Valid()
      reads this
    {
      Inv(State())
    }

    /** `new Client(options)`, given that the options name a supported family. */
    constructor (options: Options, table: Ip.Table, codec: Codec)
      requires Configure(options, table).Ok?
      ensures Config() == Configure(options, table).value && this.codec == codec
      ensures Valid() && State() == Initial()
    {
      var fam := OrElse(options.family, "IPv4");
      var addr: string;
      if Falsy(options.address) {
        addr := Ip.GetIP(table, fam);
      } else {
        addr := options.address.value;
      }
      family := fam;
      address := addr;
      port := Coalesce(options.port, DefaultPort);
      socketType := ConvertFamilyToSocketType(fam).value;
      this.codec := codec;
      target := None;
      socketListeners := {OnMessage};
      busListeners := {};
      sendInFlight := false;
      timerArmed := false;
      settled := None;
      sent := [];
    }

    /** `connect(options)`: register `error` and `connect`, then connect to the chosen peer. */
    method Connect(options: ConnectOptions)
      requires Valid() && CanConnect(State())
      modifies this
      ensures Valid() && State() == StartConnect(old(State()), ConnectTarget(options, Config()))
    {
      settled := None;
      var peerPort := Coalesce(options.port, port);
      var peerAddress := OrElse(options.address, address);
      socketListeners := socketListeners + {OnError};
      socketListeners := socketListeners + {OnConnect};
      target := Some(Target(peerAddress, peerPort));
    }

    /** The socket reports an error. */
    method OnSocketError(e: Error)
      requires Valid()
      modifies this
      ensures Valid() && State() == Step(old(State()), SocketError(e))
    {
      if OnError in socketListeners {
        socketListeners := socketListeners - {OnError};
        socketListeners := socketListeners - {OnConnect};
        settled := Settle(settled, Rejected(e));
      }
    }

    /**
     * The socket reports that it is connected: the connect phase ends, the approval listener is
     * registered and then the request is sent.
     */
    method OnSocketConnect()
      requires Valid()
      modifies this
      ensures Valid() && State() == Step(old(State()), Connected)
    {
      if OnConnect in socketListeners {
        socketListeners := socketListeners - {OnError};
        socketListeners := socketListeners - {OnConnect};
        busListeners := busListeners + {AwaitApproval};
        sent := sent + [Outgoing(RequestIncommingConnection(), None, None)];
        sendInFlight := true;
      }
    }

    /** The request's send callback runs, with or without an error. */
    method OnSendComplete(failure: Option<Error>)
      requires Valid()
      modifies this
      ensures Valid() && State() == Step(old(State()), SendDone(failure))
    {
      if sendInFlight {
        sendInFlight := false;
        if failure.Some? {
          busListeners := busListeners - {AwaitApproval};
          settled := Settle(settled, Resolved(failure));
        } else {
          timerArmed := true;
        }
      }
    }

    /** The timer fires. */
    method OnTimeout()
      requires Valid()
      modifies this
      ensures Valid() && State() == Step(old(State()), TimerFired)
    {
      if timerArmed {
        timerArmed := false;
        busListeners := busListeners - {AwaitApproval};
        settled := Settle(settled, Rejected(ConnectionTimeout));
      }
    }

    /**
     * A datagram arrives: it is decoded and dispatched; an approval event reaches the approval
     * listener when it is registered.  A decoding error escapes and changes nothing.
     */
    method OnSocketMessage(buffer: Bytes, rinfo: RemoteInfo) returns (r: Result<Emission, PacketError>)
      requires Valid()
      modifies this
      ensures r == Receive(codec, buffer, rinfo)
      ensures Valid()
      ensures State() == if r.Ok? && r.value.name == ApproveTag then Step(old(State()), Approved)
                         else old(State())
    {
      r := Receive(codec, buffer, rinfo);
      if r.Ok? && r.value.name == ApproveTag && AwaitApproval in busListeners {
        timerArmed := false;
        busListeners := busListeners - {AwaitApproval};
        settled := Settle(settled, Resolved(None));
      }
    }
  }
}
