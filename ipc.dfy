/**
 * The endpoint base (`IPC` in src/ipc.ts): choosing the socket type from the family, the option
 * defaulting of the constructor, the routing of every received datagram from its packet tag to
 * an event, and the vocabulary the Server and Client state machines share.
 */
module Ipc {
  import opened Base
  import opened Packets
  import Ip

  /** The two `dgram` socket types. */
  datatype SocketType = Udp4 | Udp6

  /** What `convertFamilyToSocketType` throws for a family it does not know. */
  datatype FamilyError = UnsupportedFamily

  /** `IPC.convertFamilyToSocketType`. */
  function ConvertFamilyToSocketType(family: string): (r: Result<SocketType, FamilyError>)
    ensures r == Ok(Udp4) <==> family == "IPv4"
    ensures r == Ok(Udp6) <==> family == "IPv6"
    ensures r.Err? <==> family != "IPv4" && family != "IPv6"
  {
    if family == "IPv4" then Ok(Udp4)
    else if family == "IPv6" then Ok(Udp6)
    else Err(UnsupportedFamily)
  }

  /** The family a socket type belongs to. */
  function FamilyOf(t: SocketType): string {
    match t
    case Udp4 => "IPv4"
    case Udp6 => "IPv6"
  }

  /** The mapping is a bijection between the two families and the two socket types. */
  lemma ConvertFamilyInverse(family: string, t: SocketType)
    ensures ConvertFamilyToSocketType(FamilyOf(t)) == Ok(t)
    ensures ConvertFamilyToSocketType(family) == Ok(t) <==> family == FamilyOf(t)
  {
  }

  /** The constructor's options; `None` stands for an absent (`undefined`) option. */
  datatype Options = Options(family: Option<string>, address: Option<string>, port: Option<int>)

  const DefaultPort: int := 9001

  /** JavaScript's falsiness for an optional string: absent or empty. */
  predicate Falsy(s: Option<string>) {
    s.None? || s.value == ""
  }

  /** `a || b` for an optional string. */
  function OrElse(a: Option<string>, b: string): string {
    if Falsy(a) then b else a.value
  }

  /** `a ?? b` for an optional number: only an absent value is replaced. */
  function Coalesce(a: Option<int>, b: int): int {
    match a
    case Some(n) => n
    case None => b
  }

  /** The fields the constructor assigns. */
  datatype Settings = Settings(family: string, address: string, port: int, socketType: SocketType)

  /**
   * The constructor's defaulting: a falsy family becomes IPv4, a falsy address becomes
   * `getIP(family)` over the interface table, and the port becomes 9001 only when it is absent.
   * The socket type is derived from the family last; an unknown family makes the constructor throw.
   */
  function Configure(options: Options, table: Ip.Table): (r: Result<Settings, FamilyError>)
    ensures r.Err? <==> !Falsy(options.family) && options.family.value !in {"IPv4", "IPv6"}
    ensures r.Ok? ==> r.value.family == (if Falsy(options.family) then "IPv4" else options.family.value)
    ensures r.Ok? && Falsy(options.address) ==>
              r.value.address == Ip.SelectIn(Ip.Flatten(table), r.value.family)
    ensures r.Ok? && !Falsy(options.address) ==> r.value.address == options.address.value
    ensures r.Ok? && options.port.None? ==> r.value.port == DefaultPort
    ensures r.Ok? && options.port.Some? ==> r.value.port == options.port.value
    ensures r.Ok? ==> FamilyOf(r.value.socketType) == r.value.family
  {
    var family := OrElse(options.family, "IPv4");
    var address := OrElse(options.address, Ip.SelectIn(Ip.Flatten(table), family));
    var port := Coalesce(options.port, DefaultPort);
    match ConvertFamilyToSocketType(family)
    case Ok(t) => Ok(Settings(family, address, port, t))
    case Err(e) => Err(e)
  }

  /** A port of 0 is kept, not replaced by the default. */
  lemma PortZeroKept(options: Options, table: Ip.Table)
    requires options.port == Some(0) && Configure(options, table).Ok?
    ensures Configure(options, table).value.port == 0
  {
  }

  /** With no options at all: IPv4, the selected IPv4 address, port 9001, a `udp4` socket. */
  lemma DefaultOptions(table: Ip.Table)
    ensures Configure(Options(None, None, None), table) ==
            Ok(Settings("IPv4", Ip.SelectIn(Ip.Flatten(table), "IPv4"), DefaultPort, Udp4))
  {
  }

  /** The sender of a datagram, as `dgram` reports it. */
  datatype RemoteInfo = RemoteInfo(address: string, family: string, port: int, size: int)

  /** The value an event is emitted with. */
  datatype Payload = Remote(rinfo: RemoteInfo) | NoPayload | Whole(packet: Packet)

  /** One `emit(name, payload)` call. */
  datatype Emission = Emission(name: string, payload: Payload)

  /**
   * The `message` handler's switch: the event name is always the packet's tag; a request carries
   * the sender's `rinfo`, an approval carries `null`, anything else carries the whole packet.
   */
  function Dispatch(p: Packet, rinfo: RemoteInfo): (e: Emission)
    ensures e.name == p.tag
    ensures p.tag == RequestTag <==> e.payload == Remote(rinfo)
    ensures p.tag == ApproveTag <==> e.payload == NoPayload
    ensures !IsReserved(p.tag) <==> e.payload == Whole(p)
  {
    if p.tag == RequestTag then Emission(p.tag, Remote(rinfo))
    else if p.tag == ApproveTag then Emission(p.tag, NoPayload)
    else Emission(p.tag, Whole(p))
  }

  /**
   * A received datagram: decode it, then dispatch it.  The handler has no `try`, so a version the
   * constructor rejects escapes as the error; nothing is emitted then.
   */
  function Receive(codec: Codec, buffer: Bytes, rinfo: RemoteInfo): (r: Result<Emission, PacketError>)
    ensures r.Ok? ==> r.value.name == codec.decode(buffer).tag
    ensures codec.decode(buffer).tag == RequestTag ==> r == Ok(Emission(RequestTag, Remote(rinfo)))
    ensures codec.decode(buffer).tag == ApproveTag ==> r == Ok(Emission(ApproveTag, NoPayload))
    ensures !IsReserved(codec.decode(buffer).tag) ==>
              (r.Err? <==> codec.decode(buffer).version !in {None, Some(1)})
    ensures !IsReserved(codec.decode(buffer).tag) && r.Ok? ==>
              r.value.payload == Whole(Packet(1, codec.decode(buffer).tag, codec.decode(buffer).data))
  {
    match Deserialize(codec, buffer)
    case Ok(p) => Ok(Dispatch(p, rinfo))
    case Err(e) => Err(e)
  }

  /** A request sent by a peer reaches the receiver as a request event carrying the sender. */
  lemma ReceiveRequest(codec: Codec, rinfo: RemoteInfo)
    requires Inverse(codec)
    ensures Receive(codec, Serialize(codec, RequestIncommingConnection()), rinfo) ==
            Ok(Emission(RequestTag, Remote(rinfo)))
  {
    RoundTrip(codec, RequestIncommingConnection());
  }

  /** An approval sent by a peer reaches the receiver as an approval event with no payload. */
  lemma ReceiveApprove(codec: Codec, rinfo: RemoteInfo)
    requires Inverse(codec)
    ensures Receive(codec, Serialize(codec, ApproveIncommingConnection()), rinfo) ==
            Ok(Emission(ApproveTag, NoPayload))
  {
    RoundTrip(codec, ApproveIncommingConnection());
  }

  /** An application packet of version 1 is emitted, whole, under its own tag. */
  lemma ReceiveApplicationPacket(codec: Codec, p: Packet, rinfo: RemoteInfo)
    requires Inverse(codec)
    requires p.version == 1 && !IsReserved(p.tag)
    ensures Receive(codec, Serialize(codec, p), rinfo) == Ok(Emission(p.tag, Whole(p)))
  {
    RoundTrip(codec, p);
  }

  // ---- The vocabulary of the two role state machines

  /** The listeners this core places on the socket. */
  datatype SocketListener = OnMessage | OnError | OnListening | OnConnect

  /** The listeners this core places on the endpoint's own event bus. */
  datatype BusListener = ApproveEachRequest | AwaitApproval

  /** An error value; socket errors are opaque, the timeout has a fixed message. */
  datatype Error = Error(message: string)

  const ConnectionTimeout: Error := Error("Connection Timeout")

  /** How a promise settled: resolved (with an optional value) or rejected with a reason. */
  datatype Outcome = Resolved(value: Option<Error>) | Rejected(reason: Error)

  /** A promise adopts the first settlement and ignores every later `resolve` or `reject`. */
  function Settle(current: Option<Outcome>, attempt: Outcome): Option<Outcome> {
    if current.Some? then current else Some(attempt)
  }

  /** An address and port a socket is bound or connected to. */
  datatype Target = Target(address: string, port: int)

  /**
   * A datagram handed to `socket.send`: the packet whose serialization is sent and, when given,
   * the destination port and address (a connected socket is sent to without them).
   */
  datatype Outgoing = Outgoing(packet: Packet, port: Option<int>, address: Option<string>)
}
