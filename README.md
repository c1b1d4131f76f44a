# Rings node: message dispatch, custom-message framing and tunnels

This project models four parts of the message layer of a Rings node (RingsNetwork `rings_portal`):

- **The relay dispatcher of rings-core.** This is `MessageHandler::handle_message_relay`.
  - Each Chord variant of `Message` goes to one sub-handler.
  - `MultiCall` fans out over its sub-messages. Each sub-relay keeps the outer relay's routing, and the errors of the sub-messages are discarded.
  - `CustomMessage` is a no-op, and every other variant is an error.
  - When a callback is configured, it runs only after a successful dispatch.
  - Around the dispatcher sit the native `listen` loop, the wasm `listen_once` and `send_message`.
- **The backend's receive path.** This is `Backend::on_payload`:
  - it filters by destination and by message kind;
  - it splits off the 4-byte custom-message header and branches on its flag byte (0 is a plain body, 1 is a chunk);
  - it decodes the backend message and dispatches it to one endpoint by message type;
  - it broadcasts the message and hands the endpoint's events to the swarm.
- **`service_names`.**
- **The tunnel layer.**
  - `wrap_custom_message` frames a tunnel message behind a flag-0 header.
  - `Tunnel` holds three optional fields: the channel to its listener, the listener task and the listener's cancel token.
  - The two halves of `TunnelListener::listen` are pumps:
    - the local half reads the local socket into a 30000-byte buffer, sends `TcpPackage`s, and ends with one `TcpClose`;
    - the remote half writes received bodies to the socket.
- **The simple-text endpoint.** It accepts a message exactly when its data is well-formed UTF-8. Well-formedness follows section 4 of RFC 3629. An accepted message asks for no events.

Code outside these files is not part of this model:

- the Chord sub-handlers;
- the user callback;
- the signing in `MessageRelay::new`;
- the swarm;
- the chunk list;
- bincode and the byte form of `BackendMessage`;
- the HTTP, TCP and extension endpoints.

Each of them is an *effect* answered by an oracle. The oracle is a function of the effects performed so far and of the new effect, so stateful collaborators are covered. Examples are a `FnMut` callback, or a chunk list that accumulates chunks.

Each operation is specified by a pure function of a run: an outcome plus the effect trace. An imperative method mirrors the source's control flow, with its loops, early returns and mutated fields. Its `ensures` ties the method to that function. Lemmas state what the source promises about the function.

Files:

- `wrappers.dfy`: bytes, `Option`, `Result`.
- `utf8.dfy`: the RFC 3629 well-formedness predicate and a reference encoder and decoder. Lemmas prove that the predicate holds exactly for encodings of scalar values.
- `handlers.dfy`: the rings-core dispatcher.
- `types.dfy`: the backend message types.
- `text.dfy`: the text endpoint.
- `proxy.dfy`: framing, `Tunnel`, `TunnelListener` and the pumps.
- `service.dfy`: `on_payload` and `service_names`.

Behaviour worth noting:

- A tunnel package carries no sequence number, and `on_payload` does no deduplication. What the TCP server does with a package is not part of this model.
- `Tunnel` holds its tid and three optional fields, and no connection state.
- A malformed inbound custom message is not always dropped quietly:
  - one shorter than 4 bytes panics in `array_refs!`, which is the `Panicked` outcome;
  - a chunk that does not decode is returned as `DecodeError`.

## Model

| member | source | states |
|---|---|---|
| Handlers.HandlerForInjective | rings-core/src/message/handlers/mod.rs:94-113 | two Chord variants go to the same sub-handler exactly when they are the same variant |
| Handlers.ChordDispatchedOnce | rings-core/src/message/handlers/mod.rs:94-113 | a Chord variant performs exactly one effect: it calls the sub-handler of its variant with the relay and `prev`, and the dispatch result is that handler's answer |
| Handlers.CustomMessageNoSubHandler | rings-core/src/message/handlers/mod.rs:128-138 | a custom message calls no sub-handler: it is `Ok`, or with a callback it is exactly the callback call and its answer |
| Handlers.UnsupportedIsError | rings-core/src/message/handlers/mod.rs:129-133 | an unsupported variant gives `MessageHandlerUnsupportMessageType` for that message and performs no effect, so no callback runs |
| Handlers.CallbackAfterSuccess | rings-core/src/message/handlers/mod.rs:133-138 | without a callback no callback effect ever happens; with one, a successful dispatch is followed by exactly one callback call with the original relay and `prev`, and its answer is the result; a failed dispatch returns unchanged |
| Handlers.MultiCallNoCallback | rings-core/src/message/handlers/mod.rs:114-137 | without a callback, handling MultiCall sub-messages at any depth never calls a callback, and the trace only grows |
| Handlers.HandleRelayRouting | rings-core/src/message/handlers/mod.rs:114-124 | every effect of handling a relay concerns a relay with the same to_path, from_path and method and the same `prev`, including nested MultiCalls; the trace only grows |
| Handlers.MultiCallRouting | rings-core/src/message/handlers/mod.rs:115-124 | each sub-relay is built with `Some(to_path)`, `Some(from_path)` and the method of the outer relay, and is handled with them |
| Handlers.MultiCallFailsOnlyOnSigning | rings-core/src/message/handlers/mod.rs:116-124 | the MultiCall arm fails only when building a sub-relay fails: the last effect is that build, and the error is its answer |
| Handlers.MultiCallIgnoresSubErrors | rings-core/src/message/handlers/mod.rs:124-126 | when every sub-relay can be built, the MultiCall arm returns `Ok` whatever the sub-messages' handling answers |
| Handlers.MultiCallInOrder | rings-core/src/message/handlers/mod.rs:115-125 | handling `ms1 + ms2` is handling `ms1`, then `ms2` from the resulting trace, unless building a sub-relay of `ms1` failed |
| Handlers.AcceptedOnly | rings-core/src/message/handlers/mod.rs:174-178 | the native loop keeps exactly the received relays that are unexpired and verified, and no more of them than were received |
| Handlers.AcceptedOnlyAppend | rings-core/src/message/handlers/mod.rs:174-178 | the kept relays stay in the order received: filtering `a + b` gives the kept relays of `a`, then those of `b` |
| Handlers.AcceptedOnlyOne | rings-core/src/message/handlers/mod.rs:175-178 | one relay is kept, exactly once, when it is unexpired and verified, and dropped otherwise |
| Handlers.ListenSkipsRejected | rings-core/src/message/handlers/mod.rs:174-178 | the native loop over all received relays does exactly what it does over the accepted ones: rejected relays leave no trace |
| Handlers.ListenRunConcat | rings-core/src/message/handlers/mod.rs:171-185 | the native loop handles the relays in the order received: listening to `a + b` is listening to `a`, then to `b` from the trace left behind |
| Handlers.ListenContinuesAfterError | rings-core/src/message/handlers/mod.rs:179-183 | a handler error does not stop the loop: after an accepted relay the loop goes on with the next one from the trace its handling left, whatever the handling answered |
| Handlers.MessageHandler.New | rings-core/src/message/handlers/mod.rs:45-51 | a handler built by `new` has no callback |
| Handlers.MessageHandler.NewWithCallback | rings-core/src/message/handlers/mod.rs:33-43 | a handler built by `new_with_callback` has a callback |
| Handlers.MessageHandler.HandleMessageRelay | rings-core/src/message/handlers/mod.rs:88-139 | the match, the MultiCall `for` loop with its recursive calls and the callback produce exactly the outcome and trace of `HandleRelay` |
| Handlers.MessageHandler.ListenOnce | rings-core/src/message/handlers/mod.rs:143-156 | returns the polled relay, or `None` when none was polled; a polled relay is handled even when unverified, and its error is swallowed |
| Handlers.MessageHandler.Listen | rings-core/src/message/handlers/mod.rs:171-185 | the `while let` loop with its two `continue`s performs exactly the trace of `ListenRun` |
| Handlers.MessageHandler.SendMessage | rings-core/src/message/handlers/mod.rs:66-84 | builds the relay with the given paths and method, then sends it to the address; a build error is returned and nothing is sent |
| Handlers.MessageHandler.SendMessageDefault | rings-core/src/message/handlers/mod.rs:61-64 | performs exactly the run of sending the default draft of the message |
| Handlers.DefaultDraftRouting | rings-core/src/message/handlers/mod.rs:61-64 | the default draft carries the message itself with method SEND and no to_path or from_path |
| Utf8.CharWidth | node/src/backend/service/text.rs:24 | a character of well-formed UTF-8 is at most 4 bytes and fits in the input; a byte below 0x80 is a one-byte character |
| Utf8.EncodeScalarIsChar | node/src/backend/service/text.rs:24 | the encoding of a scalar value is read back as one character of the same width and value |
| Utf8.DecodeCharEncodes | node/src/backend/service/text.rs:24 | a character accepted by the syntax re-encodes to exactly its own bytes |
| Utf8.EncodeIsWellFormed | node/src/backend/service/text.rs:24 | every encoding of scalar values is accepted |
| Utf8.DecodeEncode | node/src/backend/service/text.rs:24 | decoding an encoding gives back the scalar values |
| Utf8.EncodeDecode | node/src/backend/service/text.rs:24 | a well-formed byte string is the encoding of what it decodes to |
| Utf8.WellFormedIffEncoding | node/src/backend/service/text.rs:24 | a byte string is well formed exactly when it encodes some sequence of Unicode scalar values |
| Utf8.AsciiIsWellFormed | node/src/backend/service/text.rs:24 | US-ASCII text, the empty string included, is well formed |
| Text.HandleMessage | node/src/backend/service/text.rs:19-31 | the result is `Err(InvalidMessage)` exactly when the data is not well-formed UTF-8; otherwise it is an empty event list |
| Text.IgnoresContext | node/src/backend/service/text.rs:19-31 | the answer does not depend on the payload |
| Text.AcceptsExactlyEncodedText | node/src/backend/service/text.rs:24 | a message is accepted exactly when its data encodes a sequence of scalar values |
| Text.AcceptsAscii | node/src/backend/service/text.rs:24 | empty and US-ASCII data are accepted with no events |
| Text.RejectsMalformed | node/src/backend/service/text.rs:24 | a lone continuation byte, an overlong form, an encoded surrogate and a truncated character are refused as `InvalidMessage` |
| Proxy.WrapCustomMessage | node/src/backend/service/proxy.rs:210-224 | the output is a custom message of length body + 4: byte 0 is 0, bytes 1 to 3 are 0, and the rest is the encoded backend message of type TunnelMessage |
| Proxy.LocalPumpPackages | node/src/backend/service/proxy.rs:128-141 | package `i` is the tunnel's own tid with the bytes of read `i`, in read order; it is sent only for a read of more than 0 bytes |
| Proxy.PackagesFitBuffer | node/src/backend/service/proxy.rs:128-137 | every package body has at most 30000 bytes |
| Proxy.LocalPumpStops | node/src/backend/service/proxy.rs:124-146 | the loop breaks at the first step that ends it: cancellation or an empty read give ConnectionClosed, a read error gives its converted kind, and a failed send gives WebrtcDatachannelSendFailed; it has sent one package per earlier step, plus the package whose send failed |
| Proxy.LocalPumpRuns | node/src/backend/service/proxy.rs:122-149 | while no step ends it, the loop keeps running and sends one package per step |
| Proxy.OneCloseAtTheEnd | node/src/backend/service/proxy.rs:167-177 | once the local half has ended, exactly one TcpClose is sent, last, with the tunnel's tid and the defeat; none is sent while it runs |
| Proxy.RemotePumpWritesInOrder | node/src/backend/service/proxy.rs:152-165 | the remote half writes the received bodies in the order received, all of them unless it stopped; it stops only on cancellation (ConnectionClosed) or a failed write (an I/O defeat) |
| Proxy.RemotePumpStops | node/src/backend/service/proxy.rs:152-165 | at the first cancellation or failed write the remote loop breaks, with ConnectionClosed or the write's converted error kind, having handed to `write_all` every body received before it and, on a failed write, the body whose write failed |
| Proxy.CancellationToken.Cancel | node/src/backend/service/proxy.rs:53 | the token is cancelled afterwards |
| Proxy.Channel.Send | node/src/backend/service/proxy.rs:79 | appends the bytes to the queue when the receiver is alive, and otherwise fails without change |
| Proxy.TunnelListener.constructor | node/src/backend/service/proxy.rs:102-113 | a new listener has a fresh, empty channel and a fresh, uncancelled token |
| Proxy.TunnelListener.LocalIteration | node/src/backend/service/proxy.rs:124-147 | one iteration reads into a fresh 30000-byte buffer and gives the package, its wrapped message and the step's defeat |
| Proxy.TunnelListener.ListenLocal | node/src/backend/service/proxy.rs:122-150 | the loop sends exactly the wrapped packages of `LocalPump` and breaks with its defeat |
| Proxy.TunnelListener.ListenLocalSide | node/src/backend/service/proxy.rs:167-178 | the local half sends the wrapped packages, then the wrapped TcpClose with the defeat |
| Proxy.TunnelListener.ListenRemote | node/src/backend/service/proxy.rs:152-165 | the loop writes exactly the bodies of `RemotePump` and breaks with its defeat |
| Proxy.TunnelListener.ListenRemoteSide | node/src/backend/service/proxy.rs:179-187 | after the remote half ends, the wrapped TcpClose with the tunnel's tid and the defeat is sent |
| Proxy.Tunnel.constructor | node/src/backend/service/proxy.rs:67-75 | a new tunnel has no channel, no listener and no cancel token |
| Proxy.Tunnel.Send | node/src/backend/service/proxy.rs:77-83 | the bytes are queued on the listener's channel exactly when a channel is present and its receiver alive, and the receiver's liveness is unchanged; with no channel nothing changes |
| Proxy.Tunnel.Listen | node/src/backend/service/proxy.rs:85-98 | with a listener present nothing changes; otherwise the channel, listener and token of one fresh listener are set together, and all three fields stay all-None or all-Some |
| Proxy.Tunnel.Drop | node/src/backend/service/proxy.rs:50-65 | the token, if any, is cancelled and cleared; the listener is taken and handed back for the delayed abort; the channel is untouched |
| Service.Registered | node/src/backend/service/mod.rs:103-115 | the present register names, no more of them than services; a name is listed exactly when some service registers it |
| Service.RegisteredAppend | node/src/backend/service/mod.rs:117 | the names of `a` chained with `b` are the names of `a` followed by those of `b` |
| Service.RegisteredOne | node/src/backend/service/mod.rs:108 | a service contributes its name if present, and nothing otherwise |
| Service.Backend.ServiceNames | node/src/backend/service/mod.rs:102-118 | the names of the HTTP services followed by those of the TCP services, in order; no more names than services; a name is listed exactly when some HTTP or TCP service registers it |
| Service.SplitHeader | node/src/backend/service/mod.rs:138-139 | `None` (the panic) exactly for fewer than 4 bytes; otherwise the flag, three reserved bytes and the body join back to the input |
| Service.SplitJoin | node/src/backend/service/mod.rs:138-139 | splitting inverts joining for every header of three reserved bytes |
| Service.PlainHeaderSplits | node/src/backend/service/mod.rs:138-149 | a message framed with the flag-0 header splits into flag 0 and the unchanged body |
| Service.EndpointForInjective | node/src/backend/service/mod.rs:162-166 | each endpoint serves exactly one message type |
| Service.OnPayloadExtends | node/src/backend/service/mod.rs:124-190 | handling a payload only appends effects to the trace |
| Service.NotForThisNode | node/src/backend/service/mod.rs:128-130 | a payload for another destination is `Ok` with no effect: no decode, no dispatch, no broadcast |
| Service.OnlyCustomMessages | node/src/backend/service/mod.rs:132-136 | transaction data that does not decode is an error; any non-custom message is `Ok` with no effect |
| Service.ShortMessagePanics | node/src/backend/service/mod.rs:138-139 | a custom message panics exactly when it has fewer than 4 bytes |
| Service.OtherFlagsIgnored | node/src/backend/service/mod.rs:150-153 | a flag other than 0 or 1 gives `Ok` with no effect |
| Service.DecodeFailures | node/src/backend/service/mod.rs:141-158 | on flag 1, a body that is no chunk is `DecodeError` and a chunk the list cannot complete is `Ok` after only the chunk handling; a backend message that does not decode is `Ok` with no dispatch or broadcast on either path |
| Service.DecodedMessagesDelivered | node/src/backend/service/mod.rs:141-149 | on flag 0 a body that decodes as a backend message is delivered from the unchanged trace; on flag 1 a chunk the list completes into a decodable message is delivered after the chunk handling |
| Service.DeliverCallsOneEndpoint | node/src/backend/service/mod.rs:162-177 | a decoded message goes to exactly the one endpoint of its type, or to none for an unknown type, and is then broadcast exactly once, whatever the endpoint answered |
| Service.DeliverErrorPolicy | node/src/backend/service/mod.rs:175-189 | an endpoint error becomes `Ok` with no events handled; on success the events are handled once, after the broadcast, and their error is the outcome |
| Service.UnknownTypeNoEvents | node/src/backend/service/mod.rs:167-173 | an unknown message type calls no endpoint and hands an empty event list to the swarm |
| Service.TextMessages | node/src/backend/service/mod.rs:163 | a text message goes to the text endpoint and is broadcast; non-UTF-8 text is swallowed as `Ok`, and valid text hands no events |
| Service.TunnelMessageReachesTcpServer | node/src/backend/service/mod.rs:148-165 | a tunnel message framed by `wrap_custom_message` and addressed to this node reaches the TCP server unchanged on the unchunked path, then is broadcast, provided the backend decoder reads back what the encoder wrote |
| Service.Backend.constructor | node/src/backend/service/mod.rs:78-92 | a new backend has the given did, collaborators and services, and has done nothing yet |
| Service.Backend.HandleChunkData | node/src/backend/service/mod.rs:94-99 | a body that is no chunk is `DecodeError`; otherwise the chunk list handles the chunk and its answer is returned |
| Service.Backend.OnPayload | node/src/backend/service/mod.rs:124-190 | the early returns, the flag branch and the dispatch produce exactly the outcome and trace of `OnPayloadRun` |
| Service.Backend.HandleBackendMessage | node/src/backend/service/mod.rs:162-189 | the endpoint call, broadcast and event handling produce exactly the outcome and trace of `Deliver` |

## Left out

- `tcp_connect` and `tcp_connect_with_timeout` (node/src/backend/service/proxy.rs:192-208) are left out. They are a socket connect and a wall-clock timeout.
- The `tokio::select!` race between the two pump halves, `tokio::spawn`, and the 3-second delayed `abort` of the listener task in `drop` are left out. They are concurrency and timing. Each half is a sequential loop, and `Drop` hands back the task that would be aborted.
- The sockets, the `mpsc` receiver, the swarm's `send_message`, `poll_message` and `iter_messages`, and the tracing output are abstract. Each pump sees a script of steps: a cancellation seen, a read result and whether the send succeeded, a received body and the outcome of its write. The two loops have a fixed observation order among the events they await.
- Proxy.TunnelListener.ListenRemoteSide: the answers of the final `send_message` calls are not modelled, because the source discards them.
- The conversion `e.kind().into()` from `std::io::ErrorKind` to `TunnelDefeat` (node/src/backend/service/proxy.rs:131, 161) is not in the modelled files. It is modelled as the constructor `Io(kind)`. So an I/O error kind is assumed never to convert to one of the named defeats `ConnectionClosed`, `WebrtcDatachannelSendFailed` or `ConnectionTimeout`. `RemotePumpWritesInOrder`'s "a failed write stops with an `Io` defeat" rests on this assumption.
- bincode, `BackendMessage`'s byte form, `Chunk::from_bincode`, `ChunkList::handle` and the HTTP, TCP and extension endpoints are uninterpreted functions of a `World`. `handle_message_handler_events` and the Chord sub-handlers are also uninterpreted. Their own behaviour is not part of this model.
- The user callback and `MessageRelay::new` (signing with the session key) are effects answered by an oracle. The model keeps their outcomes, their order and the arguments passed to `MessageRelay::new`. It does not keep the relay that `MessageRelay::new` builds; see `Handlers.SubRelay` below.
- Handlers.SubRelay: the relay built for a MultiCall sub-message is assumed to carry exactly the to_path, from_path and method passed to `MessageRelay::new`, with the sub-message as its data. `MessageRelay::new` is not in the modelled files. Its new signature, addr, transaction id and timestamp are dropped. `HandleRelayRouting` and the "handled with them" half of `MultiCallRouting` rest on this assumption.
- Proxy.TunnelListener.ListenLocal, Proxy.TunnelListener.ListenLocalSide, Proxy.TunnelListener.ListenRemoteSide: every message these send goes to the tunnel's `peer_did` (node/src/backend/service/proxy.rs:143, 175, 186). The results carry only the messages, not their destination, so "sent to the tunnel's peer" is not stated. `peerDid` is stored on the listener but no contract mentions it.
- Proxy.WrapCustomMessage: the panics of the two `unwrap()`s (node/src/backend/service/proxy.rs:211 and 223) are not modelled. A bincode serialisation that fails, or a `Message::custom` that fails, would panic in the source. In the model `Codec.serialize` is total and the framing always succeeds.
- `relay.verify()` and `is_expired()` are given booleans, and the `Address` conversion of `addr` stands as the sender's did.
- `MessageRelay` is reduced to its data, to_path, from_path and method. Other relay fields, and how `MessageRelay::new` fills them for a sub-message, are not modelled.
- The locking of the callback and the chunk list, the `Arc`s, and the wasm `poll!` scheduler of the wasm `listen` (rings-core/src/message/handlers/mod.rs:189-) are left out. The wasm `listen` loop is represented by `listen_once`.
- `Backend::new` and the extension configuration are modelled only as the stored fields, because they are constructors of abstract collaborators.
- Service.Backend.constructor cannot fail, while `Backend::new` fails when `Extension::new(..)?` fails (node/src/backend/service/mod.rs:89). The extension loader is not part of this model.
- Proxy.Channel.Send: the capacity of `mpsc::channel(1024)` (node/src/backend/service/proxy.rs:103) is dropped. In the source `send` waits while the queue is full; `Channel.queue` is unbounded, because the waiting is scheduling, not a result.
- The broadcast `sender.send`'s own failure is not modelled, because the source only logs it.
- Integer widths do not matter here: the flag is a byte, and identifiers are unbounded naturals.
