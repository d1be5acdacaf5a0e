# A verified model of a UDP request/approve handshake

The modelled system opens a peer connection over UDP with a two-message handshake: a client
sends a `request-incomming-connection` packet, and a server answers with an
`approve-incomming-connection` packet. Every datagram carries a versioned envelope
`{version: 1, type, data}`. Each endpoint routes every received datagram to an event named by the
packet's tag.

This Dafny project models three pieces:

- **Packet envelope** (`packet.dfy`, module `Packets`). The version-checking constructor, the
  two zero-payload packets, and `deserialize`'s dispatch on the tag. `serialize` is modelled
  too. Node's structured-clone serializer is a parameter here: a `Codec` value with an `encode`
  and a `decode` arrow. The round trip assumes `Inverse(codec)`: decoding inverts encoding.
- **Local-address selection** (`ip.dfy`, module `Ip`). `GetIP` is an imperative method with the
  source's nested loops, its early return and its step-by-step update of `internal`. The
  interface table is a parameter. The method is proved to compute the reference function
  `SelectIn`: the first non-internal candidate, else the last internal one, else the family's
  unspecified address. Lemmas about `SelectIn` state the selection rules.
- **Endpoints** (`ipc.dfy`, `server.dfy`, `client.dfy`). Module `Ipc` holds the parts the two
  roles share:
  - the family-to-socket-type mapping;
  - the constructor's option defaulting (`Configure`);
  - the routing of a datagram to an event (`Dispatch`, `Receive`).

  Modules `IpcServer` and `IpcClient` model the two roles as state machines. Each role has a
  pure state and a `Step` function per input event. It also has a class whose event methods are
  proved to make exactly that step and to keep the role's invariant `Inv`. The state records:
  - which listeners are on the socket and on the endpoint's own event bus;
  - whether the request's send callback is still due;
  - whether the timeout timer is armed;
  - how the pending promise settled;
  - which datagrams were sent.

  Sockets, timers and the event bus are inputs. Each socket event, the send callback, the timer
  and each datagram is a method call or a `ClientEvent`/`ServerEvent`.

Where it matters, the model follows the code as written:

- The tags are spelled `incomming`, as in the code.
- On a host whose only interfaces of the family are internal, `getIP` returns the last internal
  address (the loopback address), not `0.0.0.0` (`Ip.LoopbackOnlyHost`).
- When the request's send fails, the handshake promise resolves with the error, so `connect()`
  resolves (with `undefined`) instead of rejecting (`IpcClient.SendErrorResolves`,
  `IpcClient.HandshakeSendFails`).
- The `message` handler has no `try`. A datagram whose version the constructor rejects is not
  dropped quietly: the error escapes the handler (`Receive` returns `Err`) and nothing is emitted.
- `deserialize` throws away the payload of a reserved tag. A packet built with a reserved tag
  and non-null data does not survive the round trip unchanged (`Packets.ReservedTagDropsData`).
- An approval can arrive before the request's send callback has run. It then resolves the call,
  but the callback still arms the timer, so the timer outlives the call. When it fires it
  changes nothing else, because a promise settles only once
  (`IpcClient.ApprovalBeforeSendCallback`).

## Model

| member | source | states |
|---|---|---|
| `Packets.NewPacket` | src/packet.ts:17-29 | succeeds exactly when the version is absent or 1; the packet then has version 1 and the given type and data; otherwise the error names the given version |
| `Packets.RequestIncommingConnection` | src/packet.ts:37-41 | the request packet is version 1, tag `request-incomming-connection`, data null |
| `Packets.ApproveIncommingConnection` | src/packet.ts:42-46 | the approve packet is version 1, tag `approve-incomming-connection`, data null |
| `Packets.Serialize` | src/packet.ts:32-34 | when the decoder inverts the encoder, the bytes decode to the packet's own version, type and data |
| `Packets.Deserialize` | src/packet.ts:4-15 | a decoded reserved tag yields that zero-payload packet whatever the version and data; any other tag keeps type and data and fails exactly when the version is present and not 1, naming it |
| `Packets.RoundTrip` | src/packet.ts:4-34 | if the decoder inverts the encoder, deserializing a serialized version-1 packet succeeds, keeps the tag, and returns the packet itself unless its tag is reserved and its data non-null |
| `Packets.ReservedTagDropsData` | src/packet.ts:7-11 | a reserved-tag packet with a payload comes back with null data, so it differs from the packet sent |
| `Ip.GetIP` | src/ip.ts:5-19 | the nested loops with early return compute `SelectIn` over the table in visiting order |
| `Ip.Candidates` | src/ip.ts:12 | the addresses kept are exactly the ones of the requested family (all when no family is given) |
| `Ip.FirstExternal` | src/ip.ts:13-14 | none exactly when every candidate is internal; otherwise the first non-internal candidate |
| `Ip.LastInternal` | src/ip.ts:13 | none exactly when no candidate is internal; otherwise the last internal candidate |
| `Ip.SelectFirstExternal` | src/ip.ts:10-14 | when some address of the family is non-internal, the result is the first such address |
| `Ip.SelectLastInternal` | src/ip.ts:13-18 | when all addresses of the family are internal and one exists, the result is the last of them |
| `Ip.SelectDefault` | src/ip.ts:8-18 | with no address of the family, the result is `0.0.0.0` for IPv4 and `::` otherwise |
| `Ip.OtherFamilyIgnored` | src/ip.ts:12 | inserting an address of another family anywhere never changes the result |
| `Ip.SelectIsCandidateOrDefault` | src/ip.ts:8-18 | the result is the family default or the address of an interface of the family |
| `Ip.LoopbackOnlyHost` | src/ip.ts:13 | a host with only `127.0.0.1` (internal) gets `127.0.0.1`, not `0.0.0.0` |
| `Ipc.ConvertFamilyToSocketType` | src/ipc.ts:22-26 | IPv4 maps to `udp4`, IPv6 to `udp6`, every other family is an error |
| `Ipc.ConvertFamilyInverse` | src/ipc.ts:22-26 | the mapping is a bijection between the two families and the two socket types |
| `Ipc.Configure` | src/ipc.ts:31-36 | a falsy family becomes IPv4; a falsy address becomes the selected local address; the port is 9001 only when absent; fails exactly for a family other than IPv4/IPv6; the socket type matches the family |
| `Ipc.PortZeroKept` | src/ipc.ts:33 | a port of 0 is kept, not replaced by 9001 |
| `Ipc.DefaultOptions` | src/ipc.ts:31-36 | no options give IPv4, the selected IPv4 address, port 9001 and a `udp4` socket |
| `Ipc.Dispatch` | src/ipc.ts:41-51 | the event name is always the packet's tag; the payload is the sender's info exactly for a request, nothing exactly for an approval, and the whole packet exactly for any other tag |
| `Ipc.Receive` | src/ipc.ts:38-52 | a received reserved tag emits its event whatever its version or data; another tag fails exactly for a version other than absent or 1, else emits the packet under its tag |
| `Ipc.ReceiveRequest` | src/ipc.ts:38-44 | a peer's serialized request arrives as a request event carrying the sender |
| `Ipc.ReceiveApprove` | src/ipc.ts:45-47 | a peer's serialized approval arrives as an approval event with no payload |
| `Ipc.ReceiveApplicationPacket` | src/ipc.ts:48-50 | an application packet of version 1 arrives whole under its own tag |
| `IpcServer.StartBind` | src/ipc.ts:71-77 | `start` registers both listeners, binds to the configured address and port, leaves a new call pending, sends nothing, and keeps the invariant; it is allowed on a never-bound socket or after a bind error |
| `IpcServer.RetryAfterBindError` | src/ipc.ts:56-77 | after a bind error `start` may be called again and can then bind and answer requests; after a successful bind it may not |
| `IpcServer.Step` | src/ipc.ts:59-86 | the `onError` (59-63), `onListening` (65-69) and approve-on-request (80-86) listeners as one step per event: a settled `start` stays settled and the invariant is kept |
| `IpcServer.RunInv` | src/ipc.ts:58-86 | every sequence of events keeps the Server invariant: listeners present exactly while binding, approving exactly after a successful bind |
| `IpcServer.BindErrorRejects` | src/ipc.ts:59-63 | an error while binding rejects with it, removes both listeners, and no approving listener is added |
| `IpcServer.ListeningResolves` | src/ipc.ts:65-69 | `listening` while binding resolves, removes both listeners, and registers the approving listener |
| `IpcServer.SettledIsFinal` | src/ipc.ts:58-78 | once `start` has settled, no sequence of later events changes its outcome or re-registers a bind listener |
| `IpcServer.NoApprovalBeforeListening` | src/ipc.ts:78-80 | a request before a successful bind is not answered |
| `IpcServer.ApprovesEveryRequest` | src/ipc.ts:80-86 | after a successful bind, each request sends exactly one approve packet to its sender's port and address, in order, with no deduplication |
| `IpcServer.AnswersRequestAfterListening` | src/ipc.ts:57-86 | bind, listening, one request: exactly one approval to the requester, `start` resolved |
| `IpcServer.Server.constructor` | src/ipc.ts:28-38 | assigns the configuration `Configure` gives (address from `GetIP` when falsy); only the `message` listener is registered |
| `IpcServer.Server.Start` | src/ipc.ts:57-77 | makes the `start` step and keeps the invariant |
| `IpcServer.Server.OnSocketError` | src/ipc.ts:59-63 | makes the error step and keeps the invariant |
| `IpcServer.Server.OnSocketListening` | src/ipc.ts:65-69 | makes the listening step and keeps the invariant |
| `IpcServer.Server.OnSocketMessage` | src/ipc.ts:38-52 | returns what `Receive` gives; a request event makes the approve step; nothing else changes |
| `IpcClient.ConnectTarget` | src/ipc.ts:92-93 | the port is the option's when present (0 included), else the endpoint's; the address is the option's unless falsy |
| `IpcClient.StartConnect` | src/ipc.ts:108-111 | `connect` registers the `error` and `connect` listeners towards the chosen peer, with nothing on the bus, nothing sent or armed, a new call pending, and keeps the invariant; it is allowed on a never-connected socket or after an error in the connect phase |
| `IpcClient.RetryAfterConnectError` | src/ipc.ts:91-111 | after a connect-phase error `connect` may be called again and can then complete the handshake; after a timeout or an approval it may not |
| `IpcClient.Step` | src/ipc.ts:96-137 | `onError` (96-100), `onConnected` with the approval listener and the send (102-106, 128-130), the send callback (131-136), `onConnectionApproved` (122-126) and `onTimeout` (117-120) as one step per event: a settled call stays settled and the invariant is kept |
| `IpcClient.RunInv` | src/ipc.ts:91-139 | every sequence of events keeps the Client invariant: a settled call has no listener left; a pending handshake has its approval listener and exactly one of a due send callback and an armed timer; the timer is armed only after the send; the request is sent once |
| `IpcClient.SettlesAtMostOnce` | src/ipc.ts:95-138 | once the call has settled, no sequence of later events changes its outcome or registers a listener |
| `IpcClient.ConnectErrorRejects` | src/ipc.ts:96-100 | an error in the connect phase rejects with it, removes both listeners, and sends nothing |
| `IpcClient.ConnectedSendsRequest` | src/ipc.ts:102-106 | `connect` ends the connect phase, registers the approval listener and sends the request; the timer is not armed |
| `IpcClient.TimerArmedOnlyAfterSend` | src/ipc.ts:130-136 | the only event that arms the timer is a successful completion of the request's send |
| `IpcClient.ApprovalResolves` | src/ipc.ts:122-126 | an approval while waiting clears the timer, removes the listener and resolves |
| `IpcClient.TimeoutRejects` | src/ipc.ts:117-120 | the timer firing while waiting removes the listener and rejects with `Connection Timeout` |
| `IpcClient.SendErrorResolves` | src/ipc.ts:131-133 | a send error removes the listener and resolves with the error instead of rejecting |
| `IpcClient.HandshakeApproved` | src/ipc.ts:91-139 | connect, successful send, approval: resolved, timer cleared, no listener left, one request sent |
| `IpcClient.HandshakeTimesOut` | src/ipc.ts:114-137 | connect, successful send, timeout: rejected with `Connection Timeout`, no listener left |
| `IpcClient.HandshakeSendFails` | src/ipc.ts:128-133 | connect, failed send: resolved with the error, no listener left |
| `IpcClient.ApprovalBeforeSendCallback` | src/ipc.ts:122-136 | an approval before the send callback resolves; the callback still arms the timer, and its firing leaves the outcome unchanged |
| `IpcClient.Client.constructor` | src/ipc.ts:28-38 | assigns the configuration `Configure` gives; only the `message` listener is registered |
| `IpcClient.Client.Connect` | src/ipc.ts:91-111 | makes the `connect` step towards `ConnectTarget` and keeps the invariant |
| `IpcClient.Client.OnSocketError` | src/ipc.ts:96-100 | makes the error step and keeps the invariant |
| `IpcClient.Client.OnSocketConnect` | src/ipc.ts:102-106 | makes the connected step and keeps the invariant |
| `IpcClient.Client.OnSendComplete` | src/ipc.ts:130-137 | makes the send-callback step and keeps the invariant |
| `IpcClient.Client.OnTimeout` | src/ipc.ts:117-120 | makes the timer step and keeps the invariant |
| `IpcClient.Client.OnSocketMessage` | src/ipc.ts:38-52 | returns what `Receive` gives; an approval event makes the approval step; nothing else changes |

## Left out

- The structured-clone byte format of `v8.serialize`/`v8.deserialize` belongs to Node, not to
  this code. It is the `Codec` parameter, and the round trip assumes `Inverse(codec)`.
- Bytes that do not decode to an object of the envelope's shape are not modelled. This covers
  a rejected buffer, a decoded non-object and a missing `type`. `decode` is total and always
  yields a `Record`.
- A `version` that is not a number (for example the string `"1"`) is left out: versions are
  integers or absent. Packet subclass identity (`instanceof`) is left out too: the model keeps
  only a packet's fields.
- The `dgram` socket is left out. `createSocket`, `bind`, `connect` and `send` become state
  changes, and the socket's events and the send callback become inputs.
- An `error` event that arrives when no `error` listener is registered changes nothing in the
  model. Node's emitter would throw in that case.
- IpcServer.Server.Start: requires a socket that was never bound or whose last bind failed
  (`CanStart`). Calling `start` while a bind is pending or after it succeeded makes `bind`
  throw synchronously, which is covered by the next line.
- IpcClient.Client.Connect: requires a socket that never connected or whose last connect
  failed before the request was sent (`CanConnect`). Calling `connect` while connecting or once
  connected makes `connect` throw synchronously, which is covered below.
- IpcServer.Server.Start: a synchronous throw from `socket.bind` (for example on a socket that
  is binding or already bound) is not modelled. In the source it rejects `start` and leaves the `error` and
  `listening` listeners registered, because no `off` runs. The proved cleanup covers only exits
  through the socket's events.
- IpcClient.Client.Connect: a synchronous throw from `socket.connect` (for example a port that
  `dgram` refuses, such as 0, which `ConnectTarget` keeps) is not modelled. In the source it
  rejects `connect` and leaves the `error` and `connect` listeners registered. The proved cleanup
  covers only exits through the socket's events, the send callback and the timer.
- For both, a second call while the first is still pending is this synchronous-throw path too:
  `dgram` refuses to bind a socket that is binding or to connect one that is connecting. Node's
  `dgram` itself is not part of this model.
- IpcServer.Server.constructor: requires that `Configure` succeeds. For an unsupported family
  the source's constructor throws and creates no object; that path is `Configure`'s `Err`.
- IpcClient.Client.constructor: the same as the Server constructor.
- `setTimeout`/`clearTimeout` and the 30000 ms duration are left out. The model keeps a
  "timer armed" flag and a `TimerFired` input.
- The microtask gaps between a resolved `await` and the code after it are left out. Each
  step's reactions happen at once.
- The `EventEmitter` base class (src/event-emitter.ts) is not part of this model. Each
  registry is a set of this core's own listeners, so multiplicity, ordering and `off` are not
  modelled. Application listeners for other tags are left out: the emitted event is returned
  from `OnSocketMessage`.
- `connect()` is an `async` function. It throws away the value its second promise resolves
  with, so its caller sees `undefined` on both resolved paths. `Outcome` records the inner
  promise's value.
- `os.networkInterfaces()` is the `Table` parameter. Its visiting order is the sequence's order.
- src/cli.ts is command-line wiring and is not modelled.
