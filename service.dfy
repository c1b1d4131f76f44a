/**
 * The node backend's handling of custom messages
 * (node/src/backend/service/mod.rs): `Backend::on_payload`, which filters a
 * received payload, splits off the 4-byte header of a custom message,
 * reassembles chunks, decodes the backend message, dispatches it to one
 * endpoint by type, broadcasts it and hands the endpoint's events to the
 * swarm; and `service_names`.
 *
 * The collaborators that are not part of this model (the chunk list, the
 * byte form of backend messages, the HTTP, TCP and extension endpoints,
 * the broadcast channel and the swarm's event handling) are a `World`:
 * decoders are functions, and stateful collaborators answer from the trace
 * of the effects performed so far, so a chunk list that accumulates chunks
 * is covered.
 */
module Service {
  import opened Wrappers
  import opened BackendTypes
  import Handlers
  import Text
  import Utf8
  import Proxy

  // ---------------------------------------------------------------------
  // Service names.

  /** The part of `HttpServiceConfig` and `TcpServiceConfig` that `service_names` reads. */
  datatype ServiceConfig = ServiceConfig(registerService: Option<string>)

  /**
   * `filter_map(|b| b.register_service)`: the present names, in order. There
   * are never more names than services, and a name is listed exactly when
   * some service registers it.
   */
  function Registered(services: seq<ServiceConfig>): (r: seq<string>)
    ensures |r| <= |services|
    ensures forall n :: n in r <==> exists i :: 0 <= i < |services| && services[i].registerService == Some(n)
    decreases |services|
  {
    if services == [] then []
    else
      var rest := Registered(services[1..]);
      assert forall i :: 1 <= i < |services| ==> services[i] == services[1..][i - 1];
      match services[0].registerService
      case Some(n) => [n] + rest
      case None => rest
  }

  /** Names are listed in the order of the services: the names of a concatenation are the concatenated names. */
  lemma {:induction false} RegisteredAppend(a: seq<ServiceConfig>, b: seq<ServiceConfig>)
    ensures Registered(a + b) == Registered(a) + Registered(b)
    decreases |a|
  {
    if a == [] {
      assert a + b == b;
    } else {
      assert (a + b)[0] == a[0] && (a + b)[1..] == a[1..] + b;
      RegisteredAppend(a[1..], b);
    }
  }

  /** A service without a registered name contributes nothing; one with a name contributes exactly that name. */
  lemma RegisteredOne(s: ServiceConfig)
    ensures Registered([s]) == if s.registerService.Some? then [s.registerService.value] else []
  {
    assert [s][1..] == [];
  }

  // ---------------------------------------------------------------------
  // The 4-byte header of a custom message.

  /** A custom message taken apart: the flag byte, three ignored bytes and the body. */
  datatype Framed = Framed(flag: byte, reserved: seq<byte>, body: seq<byte>)

  /** The bytes of a framed message. */
  function Join(f: Framed): seq<byte> {
    [f.flag] + f.reserved + f.body
  }

  /**
   * The two `array_refs!`: the first 4 bytes are the header, byte 0 of it
   * the flag, and the body is everything after the header. `None` stands
   * for the panic on a message shorter than 4 bytes.
   */
  function SplitHeader(bytes: seq<byte>): (r: Option<Framed>)
    ensures r.None? <==> |bytes| < 4
    ensures r.Some? ==> |r.value.reserved| == 3 && Join(r.value) == bytes
  {
    if |bytes| < 4 then None
    else
      assert bytes == [bytes[0]] + bytes[1..4] + bytes[4..];
      Some(Framed(bytes[0], bytes[1..4], bytes[4..]))
  }

  /** Splitting inverts joining for every header of three reserved bytes. */
  lemma SplitJoin(f: Framed)
    requires |f.reserved| == 3
    ensures SplitHeader(Join(f)) == Some(f)
  {
    var s := Join(f);
    assert s[0] == f.flag && s[1..4] == f.reserved && s[4..] == f.body;
  }

  /** What `wrap_custom_message` writes is read back on the unchunked path, with its body unchanged. */
  lemma PlainHeaderSplits(body: seq<byte>)
    ensures SplitHeader(Proxy.PlainHeader + body) == Some(Framed(0, [0, 0, 0], body))
  {
    assert Proxy.PlainHeader + body == Join(Framed(0, [0, 0, 0], body));
    SplitJoin(Framed(0, [0, 0, 0], body));
  }

  // ---------------------------------------------------------------------
  // The world around the backend.

  /** The endpoint a backend message goes to. */
  datatype Endpoint = TextEndpoint | HttpServer | TcpServer | ExtensionEndpoint

  /** A decoded `Chunk`; its fields are the chunk list's business and are not interpreted here. */
  datatype Chunk = Chunk(content: seq<byte>)

  /** What the backend does that others see, in order. */
  datatype BackendEffect =
    | ChunkHandled(chunk: Chunk)
    | EndpointCall(endpoint: Endpoint, msg: BackendMessage)
    | Broadcast(msg: BackendMessage)
    | EventsHandled(events: seq<Event>)

  /**
   * The collaborators: `Chunk::from_bincode`, `ChunkList::handle` (answering
   * from the trace so far), `BackendMessage::try_from`, the HTTP, TCP and
   * extension endpoints, and `handle_message_handler_events`.
   */
  datatype World = World(
    decodeChunk: seq<byte> -> Option<Chunk>,
    chunkAnswer: (seq<BackendEffect>, Chunk) -> Option<seq<byte>>,
    decodeBackend: seq<byte> -> Option<BackendMessage>,
    endpointAnswer: (seq<BackendEffect>, Endpoint, MessagePayload, BackendMessage) -> Result<seq<Event>, Error>,
    eventsAnswer: (seq<BackendEffect>, seq<Event>) -> Result<Unit, Error>)

  /** How `on_payload` ends: `Ok(())`, an error, or the panic of `array_refs!`. */
  datatype Outcome = Done | Failed(error: Error) | Panicked

  datatype PayloadRun = PayloadRun(outcome: Outcome, trace: seq<BackendEffect>)

  datatype ChunkRun = ChunkRun(result: Result<Option<seq<byte>>, Error>, trace: seq<BackendEffect>)

  /** The endpoint for a message type; `None` for a type no endpoint handles. */
  function EndpointFor(t: MessageType): Option<Endpoint> {
    match t
    case SimpleText => Some(TextEndpoint)
    case HttpRequest => Some(HttpServer)
    case TunnelMessage => Some(TcpServer)
    case Extension => Some(ExtensionEndpoint)
    case OtherType(_) => None
  }

  /** Every endpoint serves exactly one message type. */
  lemma EndpointForInjective(t1: MessageType, t2: MessageType)
    requires EndpointFor(t1).Some? && EndpointFor(t1) == EndpointFor(t2)
    ensures t1 == t2
  {
  }

  /** `handle_chunk_data`: a body that is no chunk is a `DecodeError`; otherwise the chunk list sees the chunk and answers. */
  function ChunkData(w: World, t: seq<BackendEffect>, data: seq<byte>): ChunkRun {
    match w.decodeChunk(data)
    case None => ChunkRun(Err(DecodeError), t)
    case Some(chunk) => ChunkRun(Ok(w.chunkAnswer(t, chunk)), t + [ChunkHandled(chunk)])
  }

  /** The answer of the endpoint chosen for `msg`; the text endpoint is the one of this model. */
  function EndpointResult(w: World, t: seq<BackendEffect>, payload: MessagePayload, msg: BackendMessage): Result<seq<Event>, Error> {
    match EndpointFor(msg.messageType)
    case None => Ok([])
    case Some(TextEndpoint) => Text.HandleMessage(payload, msg)
    case Some(e) => w.endpointAnswer(t, e, payload, msg)
  }

  /**
   * The second half of `on_payload`, once a backend message is decoded: the
   * endpoint call, the broadcast, and the events, whose error propagates,
   * while an endpoint error is swallowed.
   */
  function Deliver(w: World, t: seq<BackendEffect>, payload: MessagePayload, msg: BackendMessage): PayloadRun {
    var result := EndpointResult(w, t, payload, msg);
    var ep := EndpointFor(msg.messageType);
    var t1 := if ep.Some? then t + [EndpointCall(ep.value, msg)] else t;
    var t2 := t1 + [Broadcast(msg)];
    match result
    case Err(_) => PayloadRun(Done, t2)
    case Ok(events) =>
      var handled := w.eventsAnswer(t2, events);
      PayloadRun(if handled.Ok? then Done else Failed(handled.error), t2 + [EventsHandled(events)])
  }

  /** `on_payload`, as the run it makes from the trace `t`. */
  function OnPayloadRun(w: World, did: Handlers.Did, t: seq<BackendEffect>, payload: MessagePayload): PayloadRun {
    if payload.destination != did then PayloadRun(Done, t)
    else if payload.data.None? then PayloadRun(Failed(TransactionDataError), t)
    else if !payload.data.value.CustomMessage? then PayloadRun(Done, t)
    else match SplitHeader(payload.data.value.bytes)
      case None => PayloadRun(Panicked, t)
      case Some(f) =>
        if f.flag == 1 then
          var c := ChunkData(w, t, f.body);
          match c.result
          case Err(e) => PayloadRun(Failed(e), c.trace)
          case Ok(None) => PayloadRun(Done, c.trace)
          case Ok(Some(data)) =>
            match w.decodeBackend(data)
            case None => PayloadRun(Done, c.trace)
            case Some(msg) => Deliver(w, c.trace, payload, msg)
        else if f.flag == 0 then
          match w.decodeBackend(f.body)
          case None => PayloadRun(Done, t)
          case Some(msg) => Deliver(w, t, payload, msg)
        else PayloadRun(Done, t)
  }

  // ---------------------------------------------------------------------
  // Properties of `on_payload`.

  /** The effects of a run follow the effects before it. */
  lemma OnPayloadExtends(w: World, did: Handlers.Did, t: seq<BackendEffect>, payload: MessagePayload)
    ensures var r := OnPayloadRun(w, did, t, payload);
      |t| <= |r.trace| && r.trace[..|t|] == t
  {
  }

  /** Not addressed to this node: `Ok`, and nothing is done. */
  lemma NotForThisNode(w: World, did: Handlers.Did, t: seq<BackendEffect>, payload: MessagePayload)
    requires payload.destination != did
    ensures OnPayloadRun(w, did, t, payload) == PayloadRun(Done, t)
  {
  }

  /** Transaction data that does not decode is the one error before the header; anything but a custom message is `Ok` with nothing done. */
  lemma OnlyCustomMessages(w: World, did: Handlers.Did, t: seq<BackendEffect>, payload: MessagePayload)
    requires payload.destination == did
    ensures payload.data.None? ==> OnPayloadRun(w, did, t, payload) == PayloadRun(Failed(TransactionDataError), t)
    ensures payload.data.Some? && !payload.data.value.CustomMessage? ==> OnPayloadRun(w, did, t, payload) == PayloadRun(Done, t)
  {
  }

  /** A custom message of fewer than 4 bytes panics. */
  lemma ShortMessagePanics(w: World, did: Handlers.Did, t: seq<BackendEffect>, payload: MessagePayload)
    requires payload.destination == did && payload.data.Some? && payload.data.value.CustomMessage?
    ensures OnPayloadRun(w, did, t, payload).outcome == Panicked <==> |payload.data.value.bytes| < 4
  {
  }

  /** Flags other than 0 and 1 are ignored: `Ok` with nothing done. */
  lemma OtherFlagsIgnored(w: World, did: Handlers.Did, t: seq<BackendEffect>, payload: MessagePayload)
    requires payload.destination == did && payload.data.Some? && payload.data.value.CustomMessage?
    requires |payload.data.value.bytes| >= 4 && payload.data.value.bytes[0] != 0 && payload.data.value.bytes[0] != 1
    ensures OnPayloadRun(w, did, t, payload) == PayloadRun(Done, t)
  {
  }

  /**
   * The two decode failures differ: a body that is no chunk is a
   * `DecodeError`, while a backend message that does not decode, on either
   * path, is `Ok` with no endpoint call and no broadcast. A chunk the list
   * cannot complete yet is `Ok` with nothing dispatched.
   */
  lemma DecodeFailures(w: World, did: Handlers.Did, t: seq<BackendEffect>, payload: MessagePayload)
    requires payload.destination == did && payload.data.Some? && payload.data.value.CustomMessage?
    requires SplitHeader(payload.data.value.bytes).Some?
    ensures var f := SplitHeader(payload.data.value.bytes).value;
      var r := OnPayloadRun(w, did, t, payload);
      (f.flag == 1 && w.decodeChunk(f.body).None? ==> r == PayloadRun(Failed(DecodeError), t)) &&
      (f.flag == 1 && w.decodeChunk(f.body).Some? ==>
        var chunk := w.decodeChunk(f.body).value;
        var t1 := t + [ChunkHandled(chunk)];
        (w.chunkAnswer(t, chunk).None? ==> r == PayloadRun(Done, t1)) &&
        (w.chunkAnswer(t, chunk).Some? && w.decodeBackend(w.chunkAnswer(t, chunk).value).None? ==> r == PayloadRun(Done, t1))) &&
      (f.flag == 0 && w.decodeBackend(f.body).None? ==> r == PayloadRun(Done, t))
  {
  }

  /**
   * The two success paths: on flag 0 the body is the backend message and is
   * delivered from the trace as it was; on flag 1 the body is a chunk, and
   * once the chunk list completes a message, that message is delivered
   * after the chunk handling.
   */
  lemma DecodedMessagesDelivered(w: World, did: Handlers.Did, t: seq<BackendEffect>, payload: MessagePayload)
    requires payload.destination == did && payload.data.Some? && payload.data.value.CustomMessage?
    requires SplitHeader(payload.data.value.bytes).Some?
    ensures var f := SplitHeader(payload.data.value.bytes).value;
      var r := OnPayloadRun(w, did, t, payload);
      (f.flag == 0 && w.decodeBackend(f.body).Some? ==>
        r == Deliver(w, t, payload, w.decodeBackend(f.body).value)) &&
      (f.flag == 1 && w.decodeChunk(f.body).Some? ==>
        var chunk := w.decodeChunk(f.body).value;
        var data := w.chunkAnswer(t, chunk);
        data.Some? && w.decodeBackend(data.value).Some? ==>
          r == Deliver(w, t + [ChunkHandled(chunk)], payload, w.decodeBackend(data.value).value))
  {
  }

  /**
   * A decoded message goes to the one endpoint of its type (to none for an
   * unknown type, which counts as no events), and is then broadcast,
   * whatever the endpoint answered.
   */
  lemma DeliverCallsOneEndpoint(w: World, t: seq<BackendEffect>, payload: MessagePayload, msg: BackendMessage)
    ensures var r := Deliver(w, t, payload, msg);
      var ep := EndpointFor(msg.messageType);
      var n := if ep.Some? then 1 else 0;
      |r.trace| >= |t| + n + 1 && r.trace[..|t|] == t &&
      (ep.Some? ==> r.trace[|t|] == EndpointCall(ep.value, msg)) &&
      r.trace[|t| + n] == Broadcast(msg) &&
      (forall i :: |t| <= i < |r.trace| ==> (r.trace[i].EndpointCall? <==> ep.Some? && i == |t|)) &&
      (forall i :: |t| <= i < |r.trace| ==> (r.trace[i].Broadcast? <==> i == |t| + n))
  {
  }

  /**
   * An endpoint error becomes `Ok` and no events are handled; on success the
   * events are handled, once, after the broadcast, and their error is the
   * outcome.
   */
  lemma DeliverErrorPolicy(w: World, t: seq<BackendEffect>, payload: MessagePayload, msg: BackendMessage)
    ensures var r := Deliver(w, t, payload, msg);
      var result := EndpointResult(w, t, payload, msg);
      var before := t + (if EndpointFor(msg.messageType).Some? then [EndpointCall(EndpointFor(msg.messageType).value, msg)] else []) + [Broadcast(msg)];
      (result.Err? ==> r == PayloadRun(Done, before)) &&
      (result.Ok? ==>
        r.trace == before + [EventsHandled(result.value)] &&
        (r.outcome == Done <==> w.eventsAnswer(before, result.value).Ok?) &&
        (r.outcome.Failed? ==> r.outcome.error == w.eventsAnswer(before, result.value).error))
  {
    if EndpointFor(msg.messageType).None? {
      assert t + [] == t;
    }
  }

  /** A message of a type no endpoint serves handles an empty list of events. */
  lemma UnknownTypeNoEvents(w: World, t: seq<BackendEffect>, payload: MessagePayload, msg: BackendMessage)
    requires msg.messageType.OtherType?
    ensures Deliver(w, t, payload, msg).trace == t + [Broadcast(msg), EventsHandled([])]
  {
  }

  /** A text message that is not UTF-8 is broadcast and its error swallowed; valid text asks for no events. */
  lemma TextMessages(w: World, t: seq<BackendEffect>, payload: MessagePayload, msg: BackendMessage)
    requires msg.messageType == SimpleText
    ensures var r := Deliver(w, t, payload, msg);
      r.trace[..|t| + 2] == t + [EndpointCall(TextEndpoint, msg), Broadcast(msg)] &&
      (!Utf8.WellFormed(msg.data) ==> r == PayloadRun(Done, t + [EndpointCall(TextEndpoint, msg), Broadcast(msg)])) &&
      (Utf8.WellFormed(msg.data) ==> r.trace == t + [EndpointCall(TextEndpoint, msg), Broadcast(msg), EventsHandled([])])
  {
    var r := Deliver(w, t, payload, msg);
    assert r.trace[..|t| + 2] == t + [EndpointCall(TextEndpoint, msg), Broadcast(msg)];
  }

  /**
   * A tunnel message framed by `wrap_custom_message` and addressed to this
   * node, where the backend decoder reads back what the encoder wrote, is
   * delivered to the TCP server, unchanged, and then broadcast.
   */
  lemma TunnelMessageReachesTcpServer(w: World, c: Proxy.Codec, did: Handlers.Did, t: seq<BackendEffect>, m: Proxy.TunnelMessage, origin: Handlers.Did)
    requires w.decodeBackend(c.encode(Proxy.Carrier(c, m))) == Some(Proxy.Carrier(c, m))
    ensures var payload := MessagePayload(did, Some(Proxy.Wrapped(c, m)), origin);
      var r := OnPayloadRun(w, did, t, payload);
      r == Deliver(w, t, payload, Proxy.Carrier(c, m)) &&
      r.trace[..|t| + 2] == t + [EndpointCall(TcpServer, Proxy.Carrier(c, m)), Broadcast(Proxy.Carrier(c, m))]
  {
    PlainHeaderSplits(c.encode(Proxy.Carrier(c, m)));
    var r := Deliver(w, t, MessagePayload(did, Some(Proxy.Wrapped(c, m)), origin), Proxy.Carrier(c, m));
    assert r.trace[..|t| + 2] == t + [EndpointCall(TcpServer, Proxy.Carrier(c, m)), Broadcast(Proxy.Carrier(c, m))];
  }

  // ---------------------------------------------------------------------
  // The backend.

  /** `Backend`: this node's did, its collaborators, its configured services, and the effects it has performed. */
  class Backend {
    const did: Handlers.Did
    const world: World
    const httpServices: seq<ServiceConfig>
    const tcpServices: seq<ServiceConfig>
    var trace: seq<BackendEffect>

    constructor (did: Handlers.Did, world: World, httpServices: seq<ServiceConfig>, tcpServices: seq<ServiceConfig>)
      ensures this.did == did && this.world == world && this.httpServices == httpServices && this.tcpServices == tcpServices
      ensures trace == []
    {
      this.did := did;
      this.world := world;
      this.httpServices := httpServices;
      this.tcpServices := tcpServices;
      trace := [];
    }

    /**
     * `service_names`: the registered names of the HTTP services, then those
     * of the TCP services, each in configuration order; no more names than
     * services, and every listed name is registered by some service.
     */
    function ServiceNames(): (r: seq<string>)
      ensures r == Registered(httpServices + tcpServices)
      ensures |r| <= |httpServices| + |tcpServices|
      ensures forall n :: n in r <==>
        (exists i :: 0 <= i < |httpServices| && httpServices[i].registerService == Some(n)) ||
        (exists i :: 0 <= i < |tcpServices| && tcpServices[i].registerService == Some(n))
    {
      RegisteredAppend(httpServices, tcpServices);
      Registered(httpServices) + Registered(tcpServices)
    }

    /** `handle_chunk_data`. */
    method HandleChunkData(data: seq<byte>) returns (r: Result<Option<seq<byte>>, Error>)
      modifies this
      ensures ChunkRun(r, trace) == ChunkData(world, old(trace), data)
    {
      var decoded := world.decodeChunk(data);
      if decoded.None? {
        return Err(DecodeError);
      }
      var chunkItem := decoded.value;
      var answer := world.chunkAnswer(trace, chunkItem);
      trace := trace + [ChunkHandled(chunkItem)];
      r := Ok(answer);
    }

    /** `on_payload`. */
    method OnPayload(payload: MessagePayload) returns (outcome: Outcome)
      modifies this
      ensures PayloadRun(outcome, trace) == OnPayloadRun(world, did, old(trace), payload)
    {
      if payload.destination != did {
        return Done;
      }
      if payload.data.None? {
        return Failed(TransactionDataError);
      }
      var data := payload.data.value;
      if !data.CustomMessage? {
        return Done;
      }
      var split := SplitHeader(data.bytes);
      if split.None? {
        return Panicked;
      }
      var flag, msg := split.value.flag, split.value.body;
      var decoded: Option<BackendMessage>;
      if flag == 1 {
        var chunked := HandleChunkData(msg);
        if chunked.Err? {
          return Failed(chunked.error);
        }
        if chunked.value.None? {
          return Done;
        }
        decoded := world.decodeBackend(chunked.value.value);
      } else if flag == 0 {
        decoded := world.decodeBackend(msg);
      } else {
        return Done;
      }
      if decoded.None? {
        return Done;
      }
      outcome := HandleBackendMessage(payload, decoded.value);
    }

    /** The dispatch, broadcast and event handling of `on_payload` for a decoded message. */
    method HandleBackendMessage(payload: MessagePayload, msg: BackendMessage) returns (outcome: Outcome)
      modifies this
      ensures PayloadRun(outcome, trace) == Deliver(world, old(trace), payload, msg)
    {
      var result := EndpointResult(world, trace, payload, msg);
      var endpoint := EndpointFor(msg.messageType);
      if endpoint.Some? {
        trace := trace + [EndpointCall(endpoint.value, msg)];
      }
      trace := trace + [Broadcast(msg)];
      match result {
        case Ok(events) =>
          var handled := world.eventsAnswer(trace, events);
          trace := trace + [EventsHandled(events)];
          outcome := if handled.Ok? then Done else Failed(handled.error);
        case Err(_) =>
          outcome := Done;
      }
    }
  }
}
