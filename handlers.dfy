/**
 * The relay-message dispatcher of rings-core (`MessageHandler` in
 * rings-core/src/message/handlers/mod.rs).
 *
 * The Chord sub-handlers, the user callback, the signing done by
 * `MessageRelay::new` and the swarm are not part of this model. Each of
 * them is an *effect*: the dispatcher hands it a request, and an oracle
 * answers with an outcome that may depend on every effect performed
 * before (so a stateful `FnMut` callback or a DHT that changes as
 * messages arrive is covered). What the dispatcher does is then exactly
 * the trace of effects it performs and the outcome it returns.
 */
module Handlers {
  import opened Wrappers

  /** A peer's decentralised identifier; also stands for the `Address` of a peer. */
  type Did = nat

  /** `MessageRelayMethod`. */
  datatype RelayMethod = Send | Report

  /** The eleven variants of `Message` that a Chord sub-handler serves. */
  datatype ChordKind =
    | JoinDht | ConnectNodeSend | ConnectNodeReport | AlreadyConnected
    | FindSuccessorSend | FindSuccessorReport
    | NotifyPredecessorSend | NotifyPredecessorReport
    | SearchVNode | FoundVNode | StoreVNode

  /** The sub-handlers of `MessageHandler`: `join_chord`, `connect_node`, ... */
  datatype SubHandler =
    | JoinChord | ConnectNode | ConnectedNode | AlreadyConnectedHandler
    | FindSuccessor | FoundSuccessor
    | NotifyPredecessor | NotifiedPredecessor
    | SearchVNodeHandler | FoundVNodeHandler | StoreVNodeHandler

  /**
   * rings-core's `Message`. A Chord variant carries its payload struct as
   * uninterpreted bytes; `Unsupported` stands for every variant that
   * `handle_message_relay` has no arm for.
   */
  datatype Message =
    | Chord(kind: ChordKind, body: seq<byte>)
    | MultiCall(messages: seq<Message>)
    | CustomMessage(bytes: seq<byte>)
    | Unsupported(tag: nat)

  /** The routing part of `MessageRelay<Message>` that the dispatcher reads and passes on. */
  datatype MessageRelay = MessageRelay(data: Message, toPath: seq<Did>, fromPath: seq<Did>, relayMethod: RelayMethod)

  /** The arguments given to `MessageRelay::new` (the ttl argument is always `None` here). */
  datatype RelayDraft = RelayDraft(data: Message, toPath: Option<seq<Did>>, fromPath: Option<seq<Did>>, relayMethod: RelayMethod)

  /** A relay as it comes out of the swarm: the sender's address and the outcomes of `verify()` and `is_expired()`. */
  datatype Received = Received(relay: MessageRelay, addr: Did, verified: bool, expired: bool)

  datatype Error =
    | MessageHandlerUnsupportMessageType(message: Message)
    | Collaborator(code: nat)

  type Outcome = Result<Unit, Error>

  /** A request the dispatcher hands to code outside this model. */
  datatype Effect =
    | SubHandlerCall(handler: SubHandler, relay: MessageRelay, prev: Did)
    | NewRelay(draft: RelayDraft)
    | CallbackCall(relay: MessageRelay, prev: Did)
    | SendRelay(address: Did, draft: RelayDraft)

  /** How the outside answers an effect, given every effect performed before it. */
  type Oracle = (seq<Effect>, Effect) -> Outcome

  /** An outcome together with the trace of effects performed so far. */
  datatype Run = Run(result: Outcome, trace: seq<Effect>)

  function Perform(o: Oracle, t: seq<Effect>, e: Effect): Run {
    Run(o(t, e), t + [e])
  }

  /** The sub-handler each Chord variant is dispatched to. */
  function HandlerFor(k: ChordKind): SubHandler {
    match k
    case JoinDht => JoinChord
    case ConnectNodeSend => ConnectNode
    case ConnectNodeReport => ConnectedNode
    case AlreadyConnected => AlreadyConnectedHandler
    case FindSuccessorSend => FindSuccessor
    case FindSuccessorReport => FoundSuccessor
    case NotifyPredecessorSend => NotifyPredecessor
    case NotifyPredecessorReport => NotifiedPredecessor
    case SearchVNode => SearchVNodeHandler
    case FoundVNode => FoundVNodeHandler
    case StoreVNode => StoreVNodeHandler
  }

  /** Distinct variants go to distinct sub-handlers. */
  lemma HandlerForInjective(k1: ChordKind, k2: ChordKind)
    ensures HandlerFor(k1) == HandlerFor(k2) <==> k1 == k2
  {
  }

  /** The number of messages in a message, counting those nested in a MultiCall. */
  function Size(m: Message): nat
    decreases m
  {
    match m
    case MultiCall(ms) => 1 + SizeOfAll(ms)
    case _ => 1
  }

  function SizeOfAll(ms: seq<Message>): nat
    decreases ms
  {
    if ms == [] then 0 else Size(ms[0]) + SizeOfAll(ms[1..])
  }

  lemma {:induction false} ElementSize(ms: seq<Message>, i: nat)
    requires i < |ms|
    ensures Size(ms[i]) <= SizeOfAll(ms)
  {
    if i > 0 {
      ElementSize(ms[1..], i - 1);
    }
  }

  /** The arguments of `MessageRelay::new` for a sub-message of a MultiCall. */
  function SubDraft(outer: MessageRelay, m: Message): RelayDraft {
    RelayDraft(m, Some(outer.toPath), Some(outer.fromPath), outer.relayMethod)
  }

  /** The relay built for a sub-message of a MultiCall: the outer routing with the sub-message as data. */
  function SubRelay(outer: MessageRelay, m: Message): MessageRelay {
    MessageRelay(m, outer.toPath, outer.fromPath, outer.relayMethod)
  }

  /** The `match` of `handle_message_relay`, before the callback. */
  function Dispatch(o: Oracle, hasCallback: bool, t: seq<Effect>, relay: MessageRelay, prev: Did): Run
    decreases Size(relay.data), 1
  {
    match relay.data
    case Chord(k, _) => Perform(o, t, SubHandlerCall(HandlerFor(k), relay, prev))
    case MultiCall(ms) => MultiCallRun(o, hasCallback, t, relay, ms, prev)
    case CustomMessage(_) => Run(Ok(Unit), t)
    case Unsupported(_) => Run(Err(MessageHandlerUnsupportMessageType(relay.data)), t)
  }

  /** `handle_message_relay`: dispatch, then the callback when one is set and the dispatch succeeded. */
  function HandleRelay(o: Oracle, hasCallback: bool, t: seq<Effect>, relay: MessageRelay, prev: Did): Run
    decreases Size(relay.data), 2
  {
    var body := Dispatch(o, hasCallback, t, relay, prev);
    if body.result.Err? || !hasCallback then body
    else Perform(o, body.trace, CallbackCall(relay, prev))
  }

  /**
   * The `for` loop of the MultiCall arm over the sub-messages `ms` of `outer`:
   * a failure to build a sub-relay ends the loop with that error; the result
   * of handling a sub-relay is discarded.
   */
  function MultiCallRun(o: Oracle, hasCallback: bool, t: seq<Effect>, outer: MessageRelay, ms: seq<Message>, prev: Did): Run
    decreases SizeOfAll(ms), 3
  {
    if ms == [] then Run(Ok(Unit), t)
    else
      var signed := Perform(o, t, NewRelay(SubDraft(outer, ms[0])));
      if signed.result.Err? then signed
      else
        var sub := HandleRelay(o, hasCallback, signed.trace, SubRelay(outer, ms[0]), prev);
        MultiCallRun(o, hasCallback, sub.trace, outer, ms[1..], prev)
  }

  /** A relay that leads to a routing `to_path`, `from_path` and `method`. */
  predicate RoutedLike(relay: MessageRelay, outer: MessageRelay) {
    relay.toPath == outer.toPath && relay.fromPath == outer.fromPath && relay.relayMethod == outer.relayMethod
  }

  /**
   * Every effect performed while handling `relay` concerns a relay routed
   * like `relay` and received from `prev`: sub-messages inherit the outer
   * `to_path`, `from_path` and `method`, at every depth.
   */
  predicate InheritsRouting(e: Effect, outer: MessageRelay, prev: Did) {
    match e
    case SubHandlerCall(_, r, p) => RoutedLike(r, outer) && p == prev
    case CallbackCall(r, p) => RoutedLike(r, outer) && p == prev
    case NewRelay(d) => d.toPath == Some(outer.toPath) && d.fromPath == Some(outer.fromPath) && d.relayMethod == outer.relayMethod
    case SendRelay(_, _) => false
  }

  lemma {:induction false} HandleRelayRouting(o: Oracle, cb: bool, t: seq<Effect>, relay: MessageRelay, prev: Did)
    ensures var r := HandleRelay(o, cb, t, relay, prev);
      |t| <= |r.trace| && r.trace[..|t|] == t &&
      forall i :: |t| <= i < |r.trace| ==> InheritsRouting(r.trace[i], relay, prev)
    decreases Size(relay.data), 2
  {
    var body := Dispatch(o, cb, t, relay, prev);
    match relay.data {
      case MultiCall(ms) => MultiCallRouting(o, cb, t, relay, ms, prev);
      case _ =>
    }
  }

  lemma {:induction false} MultiCallRouting(o: Oracle, cb: bool, t: seq<Effect>, outer: MessageRelay, ms: seq<Message>, prev: Did)
    ensures var r := MultiCallRun(o, cb, t, outer, ms, prev);
      |t| <= |r.trace| && r.trace[..|t|] == t &&
      forall i :: |t| <= i < |r.trace| ==> InheritsRouting(r.trace[i], outer, prev)
    decreases SizeOfAll(ms), 3
  {
    if ms != [] {
      var signed := Perform(o, t, NewRelay(SubDraft(outer, ms[0])));
      if signed.result.Ok? {
        var sr := SubRelay(outer, ms[0]);
        var sub := HandleRelay(o, cb, signed.trace, sr, prev);
        HandleRelayRouting(o, cb, signed.trace, sr, prev);
        assert forall i :: |signed.trace| <= i < |sub.trace| ==> InheritsRouting(sub.trace[i], outer, prev) by {
          forall i | |signed.trace| <= i < |sub.trace|
            ensures InheritsRouting(sub.trace[i], outer, prev)
          {
            assert InheritsRouting(sub.trace[i], sr, prev);
          }
        }
        MultiCallRouting(o, cb, sub.trace, outer, ms[1..], prev);
        var r := MultiCallRun(o, cb, sub.trace, outer, ms[1..], prev);
        assert r.trace[..|sub.trace|] == sub.trace;
        assert sub.trace[..|signed.trace|] == signed.trace;
        forall i | |t| <= i < |r.trace|
          ensures InheritsRouting(r.trace[i], outer, prev)
        {
          if i < |sub.trace| {
            assert r.trace[i] == sub.trace[i];
            if i < |signed.trace| {
              assert sub.trace[i] == signed.trace[i];
            }
          }
        }
      }
    }
  }

  /**
   * The MultiCall loop fails only when building a sub-relay fails: then the
   * last effect is that `NewRelay` and the result is its answer. Failures of
   * the sub-messages' own handling never surface.
   */
  lemma {:induction false} MultiCallFailsOnlyOnSigning(o: Oracle, cb: bool, t: seq<Effect>, outer: MessageRelay, ms: seq<Message>, prev: Did)
    ensures var r := MultiCallRun(o, cb, t, outer, ms, prev);
      r.result.Err? ==>
        |r.trace| > 0 && r.trace[|r.trace| - 1].NewRelay? &&
        r.result == o(r.trace[..|r.trace| - 1], r.trace[|r.trace| - 1])
    decreases |ms|
  {
    if ms != [] {
      var signed := Perform(o, t, NewRelay(SubDraft(outer, ms[0])));
      if signed.result.Ok? {
        var sub := HandleRelay(o, cb, signed.trace, SubRelay(outer, ms[0]), prev);
        MultiCallFailsOnlyOnSigning(o, cb, sub.trace, outer, ms[1..], prev);
      } else {
        assert signed.trace[..|signed.trace| - 1] == t;
      }
    }
  }

  /** When every sub-relay can be built, the MultiCall arm succeeds, whatever its sub-messages' handlers answer. */
  lemma MultiCallIgnoresSubErrors(o: Oracle, cb: bool, t: seq<Effect>, outer: MessageRelay, ms: seq<Message>, prev: Did)
    requires forall t', d :: o(t', NewRelay(d)).Ok?
    ensures MultiCallRun(o, cb, t, outer, ms, prev).result.Ok?
  {
    MultiCallFailsOnlyOnSigning(o, cb, t, outer, ms, prev);
    var r := MultiCallRun(o, cb, t, outer, ms, prev);
    if |r.trace| > 0 && r.trace[|r.trace| - 1].NewRelay? {
      var last := r.trace[|r.trace| - 1];
      assert o(r.trace[..|r.trace| - 1], NewRelay(last.draft)).Ok?;
    }
  }

  /**
   * The sub-messages are handled in order: handling `ms1 + ms2` is handling
   * `ms1`, then, unless building a sub-relay failed, handling `ms2` after it.
   */
  lemma {:induction false} MultiCallInOrder(o: Oracle, cb: bool, t: seq<Effect>, outer: MessageRelay, ms1: seq<Message>, ms2: seq<Message>, prev: Did)
    ensures var r1 := MultiCallRun(o, cb, t, outer, ms1, prev);
      MultiCallRun(o, cb, t, outer, ms1 + ms2, prev) ==
        if r1.result.Err? then r1 else MultiCallRun(o, cb, r1.trace, outer, ms2, prev)
    decreases |ms1|
  {
    if ms1 == [] {
      assert ms1 + ms2 == ms2;
    } else {
      var ms := ms1 + ms2;
      assert ms[0] == ms1[0] && ms[1..] == ms1[1..] + ms2;
      var signed := Perform(o, t, NewRelay(SubDraft(outer, ms1[0])));
      if signed.result.Ok? {
        var sub := HandleRelay(o, cb, signed.trace, SubRelay(outer, ms1[0]), prev);
        MultiCallInOrder(o, cb, sub.trace, outer, ms1[1..], ms2, prev);
      }
    }
  }

  /**
   * The callback: without one, no callback effect is ever performed; with one,
   * a successful handling ends with exactly the callback for this relay and
   * `prev`, and the result is the callback's answer.
   */
  lemma {:induction false} CallbackAfterSuccess(o: Oracle, cb: bool, t: seq<Effect>, relay: MessageRelay, prev: Did)
    ensures var r := HandleRelay(o, cb, t, relay, prev);
      var body := Dispatch(o, cb, t, relay, prev);
      (!cb ==> r == body && forall i :: |t| <= i < |r.trace| ==> !r.trace[i].CallbackCall?) &&
      (cb && body.result.Ok? ==>
        r.trace == body.trace + [CallbackCall(relay, prev)] && r.result == o(body.trace, CallbackCall(relay, prev))) &&
      (body.result.Err? ==> r == body)
    decreases Size(relay.data), 2
  {
    if !cb {
      match relay.data {
        case MultiCall(ms) => MultiCallNoCallback(o, t, relay, ms, prev);
        case _ =>
      }
    }
  }

  lemma {:induction false} MultiCallNoCallback(o: Oracle, t: seq<Effect>, outer: MessageRelay, ms: seq<Message>, prev: Did)
    ensures var r := MultiCallRun(o, false, t, outer, ms, prev);
      |t| <= |r.trace| && r.trace[..|t|] == t &&
      forall i :: |t| <= i < |r.trace| ==> !r.trace[i].CallbackCall?
    decreases SizeOfAll(ms), 3
  {
    if ms != [] {
      var signed := Perform(o, t, NewRelay(SubDraft(outer, ms[0])));
      if signed.result.Ok? {
        var sr := SubRelay(outer, ms[0]);
        var sub := HandleRelay(o, false, signed.trace, sr, prev);
        CallbackAfterSuccess(o, false, signed.trace, sr, prev);
        HandleRelayRouting(o, false, signed.trace, sr, prev);
        MultiCallNoCallback(o, sub.trace, outer, ms[1..], prev);
        var r := MultiCallRun(o, false, sub.trace, outer, ms[1..], prev);
        assert r.trace[..|sub.trace|] == sub.trace;
        assert sub.trace[..|signed.trace|] == signed.trace;
        forall i | |t| <= i < |r.trace|
          ensures !r.trace[i].CallbackCall?
        {
          if i < |sub.trace| {
            assert r.trace[i] == sub.trace[i];
            if i < |signed.trace| {
              assert sub.trace[i] == signed.trace[i];
            }
          }
        }
      }
    }
  }

  /** A Chord variant performs one call, to its own sub-handler, before the callback. */
  lemma ChordDispatchedOnce(o: Oracle, cb: bool, t: seq<Effect>, relay: MessageRelay, prev: Did)
    requires relay.data.Chord?
    ensures var call := SubHandlerCall(HandlerFor(relay.data.kind), relay, prev);
      Dispatch(o, cb, t, relay, prev) == Run(o(t, call), t + [call])
  {
  }

  /** A custom message succeeds without any sub-handler; only the callback, if set, sees it. */
  lemma CustomMessageNoSubHandler(o: Oracle, cb: bool, t: seq<Effect>, relay: MessageRelay, prev: Did)
    requires relay.data.CustomMessage?
    ensures var r := HandleRelay(o, cb, t, relay, prev);
      r == if cb then Perform(o, t, CallbackCall(relay, prev)) else Run(Ok(Unit), t)
  {
  }

  /** An unsupported variant is an error, with no effect at all (in particular no callback). */
  lemma UnsupportedIsError(o: Oracle, cb: bool, t: seq<Effect>, relay: MessageRelay, prev: Did)
    requires relay.data.Unsupported?
    ensures HandleRelay(o, cb, t, relay, prev) == Run(Err(MessageHandlerUnsupportMessageType(relay.data)), t)
  {
  }

  /** Whether the native listen loop hands a received relay to the dispatcher. */
  predicate Accepted(m: Received) {
    !m.expired && m.verified
  }

  /** The native `listen` loop over the relays the swarm yields, as a trace. */
  function ListenRun(o: Oracle, cb: bool, t: seq<Effect>, incoming: seq<Received>): seq<Effect>
    decreases |incoming|
  {
    if incoming == [] then t
    else
      var m := incoming[0];
      var t' := if Accepted(m) then HandleRelay(o, cb, t, m.relay, m.addr).trace else t;
      ListenRun(o, cb, t', incoming[1..])
  }

  function AcceptedOnly(incoming: seq<Received>): (r: seq<Received>)
    ensures |r| <= |incoming|
    ensures forall i :: 0 <= i < |r| ==> Accepted(r[i])
    ensures forall m :: m in r <==> m in incoming && Accepted(m)
    decreases |incoming|
  {
    if incoming == [] then []
    else if Accepted(incoming[0]) then [incoming[0]] + AcceptedOnly(incoming[1..])
    else AcceptedOnly(incoming[1..])
  }

  /** The kept relays stay in the order received: filtering a concatenation concatenates the filtered parts. */
  lemma {:induction false} AcceptedOnlyAppend(a: seq<Received>, b: seq<Received>)
    ensures AcceptedOnly(a + b) == AcceptedOnly(a) + AcceptedOnly(b)
    decreases |a|
  {
    if a == [] {
      assert a + b == b;
    } else {
      assert (a + b)[0] == a[0] && (a + b)[1..] == a[1..] + b;
      AcceptedOnlyAppend(a[1..], b);
    }
  }

  /** A single relay is kept, once, exactly when it is accepted. */
  lemma AcceptedOnlyOne(m: Received)
    ensures AcceptedOnly([m]) == if Accepted(m) then [m] else []
  {
    assert [m][1..] == [];
  }

  /**
   * Expired or unverified relays are skipped without a trace: listening to
   * `incoming` does exactly what listening to its accepted relays alone does.
   */
  lemma {:induction false} ListenSkipsRejected(o: Oracle, cb: bool, t: seq<Effect>, incoming: seq<Received>)
    ensures ListenRun(o, cb, t, incoming) == ListenRun(o, cb, t, AcceptedOnly(incoming))
    decreases |incoming|
  {
    if incoming != [] {
      var m := incoming[0];
      var t' := if Accepted(m) then HandleRelay(o, cb, t, m.relay, m.addr).trace else t;
      ListenSkipsRejected(o, cb, t', incoming[1..]);
      if Accepted(m) {
        var acc := AcceptedOnly(incoming);
        assert acc[0] == m && acc[1..] == AcceptedOnly(incoming[1..]);
      }
    }
  }

  /**
   * The loop runs through the relays in order: listening to `a + b` is
   * listening to `a`, then to `b` from the trace that left.
   */
  lemma {:induction false} ListenRunConcat(o: Oracle, cb: bool, t: seq<Effect>, a: seq<Received>, b: seq<Received>)
    ensures ListenRun(o, cb, t, a + b) == ListenRun(o, cb, ListenRun(o, cb, t, a), b)
    decreases |a|
  {
    if a == [] {
      assert a + b == b;
    } else {
      var m := a[0];
      var t' := if Accepted(m) then HandleRelay(o, cb, t, m.relay, m.addr).trace else t;
      assert (a + b)[0] == m && (a + b)[1..] == a[1..] + b;
      ListenRunConcat(o, cb, t', a[1..], b);
    }
  }

  /**
   * A handler error does not stop the loop: after an accepted relay, the
   * loop goes on with the next relay from the trace its handling left,
   * whether that handling succeeded or failed.
   */
  lemma ListenContinuesAfterError(o: Oracle, cb: bool, t: seq<Effect>, m: Received, rest: seq<Received>)
    requires Accepted(m)
    ensures var h := HandleRelay(o, cb, t, m.relay, m.addr);
      ListenRun(o, cb, t, [m] + rest) == ListenRun(o, cb, h.trace, rest)
  {
    ListenRunConcat(o, cb, t, [m], rest);
    assert [m][1..] == [];
  }

  /** Sending: build and sign the relay, then hand it to the swarm. */
  function SendRun(o: Oracle, t: seq<Effect>, address: Did, draft: RelayDraft): Run {
    var signed := Perform(o, t, NewRelay(draft));
    if signed.result.Err? then signed else Perform(o, signed.trace, SendRelay(address, draft))
  }

  /** `send_message_default` sends the message itself, with method SEND and neither a to-path nor a from-path. */
  lemma DefaultDraftRouting(message: Message)
    ensures var d := DefaultDraft(message);
      d.data == message && d.relayMethod == Send && d.toPath.None? && d.fromPath.None?
  {
  }

  /** The default routing of `send_message_default`: method SEND, no to-path, no from-path. */
  function DefaultDraft(message: Message): RelayDraft {
    RelayDraft(message, None, None, Send)
  }

  /** Where effects are performed: the swarm, the DHT and the callback together. */
  class Runtime {
    var trace: seq<Effect>
    const oracle: Oracle

    constructor (oracle: Oracle)
      ensures this.oracle == oracle && trace == []
    {
      this.oracle := oracle;
      trace := [];
    }

    method Perform(e: Effect) returns (r: Outcome)
      modifies this
      ensures r == oracle(old(trace), e) && trace == old(trace) + [e]
    {
      r := oracle(trace, e);
      trace := trace + [e];
    }
  }

  class MessageHandler {
    const runtime: Runtime
    const hasCallback: bool

    /** `MessageHandler::new`: no callback. */
    constructor New(runtime: Runtime)
      ensures this.runtime == runtime && !hasCallback
    {
      this.runtime := runtime;
      hasCallback := false;
    }

    /** `MessageHandler::new_with_callback`: the callback answers `CallbackCall` effects. */
    constructor NewWithCallback(runtime: Runtime)
      ensures this.runtime == runtime && hasCallback
    {
      this.runtime := runtime;
      hasCallback := true;
    }

    method HandleMessageRelay(relay: MessageRelay, prev: Did) returns (r: Outcome)
      modifies runtime
      ensures Run(r, runtime.trace) == HandleRelay(runtime.oracle, hasCallback, old(runtime.trace), relay, prev)
      decreases Size(relay.data)
    {
      match relay.data {
        case Chord(k, _) =>
          r := runtime.Perform(SubHandlerCall(HandlerFor(k), relay, prev));
        case MultiCall(ms) =>
          ghost var t0 := runtime.trace;
          var i := 0;
          while i < |ms|
            invariant 0 <= i <= |ms|
            invariant MultiCallRun(runtime.oracle, hasCallback, t0, relay, ms, prev)
                   == MultiCallRun(runtime.oracle, hasCallback, runtime.trace, relay, ms[i..], prev)
          {
            assert ms[i..][0] == ms[i] && ms[i..][1..] == ms[i + 1..];
            var signed := runtime.Perform(NewRelay(SubDraft(relay, ms[i])));
            if signed.Err? {
              r := signed;
              return;
            }
            ElementSize(ms, i);
            var ignored := HandleMessageRelay(SubRelay(relay, ms[i]), prev);
            i := i + 1;
          }
          r := Ok(Unit);
        case CustomMessage(_) =>
          r := Ok(Unit);
        case Unsupported(_) =>
          r := Err(MessageHandlerUnsupportMessageType(relay.data));
          return;
      }
      if r.Ok? && hasCallback {
        r := runtime.Perform(CallbackCall(relay, prev));
      }
    }

    /** The wasm `listen_once`: a polled relay is handled even when it does not verify. */
    method ListenOnce(polled: Option<Received>) returns (r: Option<Received>)
      modifies runtime
      ensures r == polled
      ensures runtime.trace ==
        if polled.None? then old(runtime.trace)
        else HandleRelay(runtime.oracle, hasCallback, old(runtime.trace), polled.value.relay, polled.value.addr).trace
    {
      if polled.Some? {
        var m := polled.value;
        var ignored := HandleMessageRelay(m.relay, m.addr);
      }
      r := polled;
    }

    /** The native `listen`: skips expired or unverified relays and carries on after errors. */
    method Listen(incoming: seq<Received>)
      modifies runtime
      ensures runtime.trace == ListenRun(runtime.oracle, hasCallback, old(runtime.trace), incoming)
    {
      var i := 0;
      while i < |incoming|
        invariant 0 <= i <= |incoming|
        invariant ListenRun(runtime.oracle, hasCallback, old(runtime.trace), incoming)
               == ListenRun(runtime.oracle, hasCallback, runtime.trace, incoming[i..])
      {
        assert incoming[i..][0] == incoming[i] && incoming[i..][1..] == incoming[i + 1..];
        var m := incoming[i];
        i := i + 1;
        if !Accepted(m) {
          continue;
        }
        var result := HandleMessageRelay(m.relay, m.addr);
        if result.Err? {
          continue;
        }
      }
    }

    method SendMessage(address: Did, toPath: Option<seq<Did>>, fromPath: Option<seq<Did>>, relayMethod: RelayMethod, message: Message)
      returns (r: Outcome)
      modifies runtime
      ensures Run(r, runtime.trace) == SendRun(runtime.oracle, old(runtime.trace), address, RelayDraft(message, toPath, fromPath, relayMethod))
    {
      var draft := RelayDraft(message, toPath, fromPath, relayMethod);
      r := runtime.Perform(NewRelay(draft));
      if r.Err? {
        return;
      }
      r := runtime.Perform(SendRelay(address, draft));
    }

    method SendMessageDefault(address: Did, message: Message) returns (r: Outcome)
      modifies runtime
      ensures Run(r, runtime.trace) == SendRun(runtime.oracle, old(runtime.trace), address, DefaultDraft(message))
    {
      r := SendMessage(address, None, None, Send, message);
    }
  }
}
