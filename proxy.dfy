/**
 * Tunnels of the node backend (node/src/backend/service/proxy.rs): the
 * framing of tunnel messages as custom messages, the `Tunnel` record of a
 * tunnel's channel, listener task and cancellation token, and the two
 * halves of a tunnel listener's pump, each as a sequential loop.
 *
 * The socket, the swarm and the channels are replaced by what the pump
 * observes of them, one step per loop iteration: a script of steps.
 */
module Proxy {
  import opened Wrappers
  import BackendTypes
  import Handlers

  /** The size of the read buffer of the local pump. */
  const BufferSize: nat := 30000

  /** `TunnelId` (a UUID). */
  type TunnelId = nat

  /** `std::io::ErrorKind`, left uninterpreted. */
  datatype IoErrorKind = IoErrorKind(code: nat)

  /** `TunnelDefeat`: why a tunnel closed. `Io(k)` is the defeat an I/O error of kind `k` converts into. */
  datatype TunnelDefeat =
    | ConnectionClosed
    | WebrtcDatachannelSendFailed
    | ConnectionTimeout
    | Io(kind: IoErrorKind)

  /** `TunnelMessage`. */
  datatype TunnelMessage =
    | TcpDial(tid: TunnelId, service: string)
    | TcpClose(tid: TunnelId, reason: TunnelDefeat)
    | TcpPackage(tid: TunnelId, body: seq<byte>)

  /**
   * The two serialisers `wrap_custom_message` relies on: bincode for tunnel
   * messages, and the byte form of a backend message.
   */
  datatype Codec = Codec(serialize: TunnelMessage -> seq<byte>, encode: BackendTypes.BackendMessage -> seq<byte>)

  /** The backend message that carries a tunnel message. */
  function Carrier(c: Codec, m: TunnelMessage): BackendTypes.BackendMessage {
    BackendTypes.BackendMessage(BackendTypes.MessageType.TunnelMessage, c.serialize(m))
  }

  /** The header of an unchunked custom message: flag 0, then three zero bytes. */
  const PlainHeader: seq<byte> := [0, 0, 0, 0]

  /** The custom message `wrap_custom_message` produces for `m`. */
  function Wrapped(c: Codec, m: TunnelMessage): Handlers.Message {
    Handlers.CustomMessage(PlainHeader + c.encode(Carrier(c, m)))
  }

  /** `wrap_custom_message`: the 4-byte header, starting with flag 0, then the backend message's bytes. */
  method WrapCustomMessage(c: Codec, message: TunnelMessage) returns (r: Handlers.Message)
    ensures r == Wrapped(c, message)
    ensures r.CustomMessage? && |r.bytes| == |c.encode(Carrier(c, message))| + 4
    ensures r.bytes[0] == 0 && r.bytes[1..4] == [0, 0, 0] && r.bytes[4..] == c.encode(Carrier(c, message))
  {
    var messageBytes := c.serialize(message);
    var backendMsg := BackendTypes.BackendMessage(BackendTypes.MessageType.TunnelMessage, messageBytes);
    var backendMsgBytes := c.encode(backendMsg);
    var newBytes: seq<byte> := [];
    newBytes := newBytes + [0];
    newBytes := newBytes + [0, 0, 0];
    newBytes := newBytes + backendMsgBytes;
    r := Handlers.CustomMessage(newBytes);
  }

  function WrapAll(c: Codec, ms: seq<TunnelMessage>): (r: seq<Handlers.Message>)
    ensures |r| == |ms|
  {
    if ms == [] then [] else [Wrapped(c, ms[0])] + WrapAll(c, ms[1..])
  }

  // ---------------------------------------------------------------------
  // The local half of the pump: local socket to remote peer.

  /** What one `read` into the buffer returned. */
  datatype ReadResult = ReadError(kind: IoErrorKind) | ReadData(data: seq<byte>)

  /**
   * One iteration of the local loop as it is observed: either the cancel
   * token is seen cancelled, or a read returned, and if it returned bytes,
   * whether handing the package to the swarm succeeded.
   */
  datatype LocalStep = LocalCancelSeen | ReadReturned(read: ReadResult, sendOk: bool)

  /** A `read` never returns more bytes than the buffer holds. */
  predicate ReadsFitBuffer(steps: seq<LocalStep>) {
    forall i :: 0 <= i < |steps| ==> steps[i].ReadReturned? && steps[i].read.ReadData? ==> |steps[i].read.data| <= BufferSize
  }

  /** The packages handed to the swarm, and the defeat the loop broke with (`None`: still running when the script ends). */
  datatype PumpRun = PumpRun(sent: seq<TunnelMessage>, stop: Option<TunnelDefeat>)

  /** The `listen_local` loop over a script of observations. */
  function LocalPump(tid: TunnelId, steps: seq<LocalStep>): PumpRun
    decreases |steps|
  {
    if steps == [] then PumpRun([], None)
    else match steps[0]
      case LocalCancelSeen => PumpRun([], Some(ConnectionClosed))
      case ReadReturned(ReadError(k), _) => PumpRun([], Some(Io(k)))
      case ReadReturned(ReadData(d), ok) =>
        if |d| == 0 then PumpRun([], Some(ConnectionClosed))
        else if !ok then PumpRun([TcpPackage(tid, d)], Some(WebrtcDatachannelSendFailed))
        else
          var rest := LocalPump(tid, steps[1..]);
          PumpRun([TcpPackage(tid, d)] + rest.sent, rest.stop)
  }

  /** The package a step of the local loop sends, if any. */
  function PackageOf(tid: TunnelId, s: LocalStep): seq<TunnelMessage> {
    if s.ReadReturned? && s.read.ReadData? && |s.read.data| > 0 then [TcpPackage(tid, s.read.data)] else []
  }

  /** One step of the local loop: the package the step sends, if any, and then either its defeat or the rest of the loop. */
  lemma LocalPumpHead(tid: TunnelId, steps: seq<LocalStep>)
    requires steps != []
    ensures LocalPump(tid, steps).sent ==
      PackageOf(tid, steps[0]) + if LocalStopAt(steps[0]).Some? then [] else LocalPump(tid, steps[1..]).sent
    ensures LocalPump(tid, steps).stop ==
      if LocalStopAt(steps[0]).Some? then LocalStopAt(steps[0]) else LocalPump(tid, steps[1..]).stop
  {
  }

  /** What a loop over `steps[i..]` sends, after the first of those steps. */
  lemma LocalLoopStep(c: Codec, tid: TunnelId, steps: seq<LocalStep>, i: nat)
    requires i < |steps|
    ensures WrapAll(c, LocalPump(tid, steps[i..]).sent) ==
      WrapAll(c, PackageOf(tid, steps[i])) + if LocalStopAt(steps[i]).Some? then [] else WrapAll(c, LocalPump(tid, steps[i + 1..]).sent)
    ensures LocalPump(tid, steps[i..]).stop ==
      if LocalStopAt(steps[i]).Some? then LocalStopAt(steps[i]) else LocalPump(tid, steps[i + 1..]).stop
  {
    var rest := steps[i..];
    assert rest[0] == steps[i] && rest[1..] == steps[i + 1..];
    LocalPumpHead(tid, rest);
    WrapAllConcat(c, PackageOf(tid, rest[0]), if LocalStopAt(rest[0]).Some? then [] else LocalPump(tid, rest[1..]).sent);
  }

  /** The defeat a step ends the local loop with, if it ends it. */
  function LocalStopAt(s: LocalStep): Option<TunnelDefeat> {
    match s
    case LocalCancelSeen => Some(ConnectionClosed)
    case ReadReturned(ReadError(k), _) => Some(Io(k))
    case ReadReturned(ReadData(d), ok) =>
      if |d| == 0 then Some(ConnectionClosed)
      else if !ok then Some(WebrtcDatachannelSendFailed)
      else None
  }

  /**
   * Package `i` is the `i`-th read, in read order, with the tunnel's own id
   * and exactly the bytes that read returned (never none).
   */
  lemma {:induction false} LocalPumpPackages(tid: TunnelId, steps: seq<LocalStep>)
    ensures var r := LocalPump(tid, steps);
      |r.sent| <= |steps| &&
      forall i :: 0 <= i < |r.sent| ==>
        steps[i].ReadReturned? && steps[i].read.ReadData? && |steps[i].read.data| > 0 &&
        r.sent[i] == TcpPackage(tid, steps[i].read.data)
    decreases |steps|
  {
    if steps != [] && steps[0].ReadReturned? && steps[0].read.ReadData? && |steps[0].read.data| > 0 && steps[0].sendOk {
      LocalPumpPackages(tid, steps[1..]);
      var r := LocalPump(tid, steps);
      var rest := LocalPump(tid, steps[1..]);
      forall i | 0 < i < |r.sent|
        ensures r.sent[i] == TcpPackage(tid, steps[i].read.data)
      {
        assert r.sent[i] == rest.sent[i - 1];
      }
    }
  }

  /** Every package body fits the 30000-byte buffer. */
  lemma PackagesFitBuffer(tid: TunnelId, steps: seq<LocalStep>)
    requires ReadsFitBuffer(steps)
    ensures forall m :: m in LocalPump(tid, steps).sent ==> m.TcpPackage? && |m.body| <= BufferSize
  {
    LocalPumpPackages(tid, steps);
  }

  /**
   * The loop breaks at the first step that ends it, with that step's
   * defeat: a cancellation or an empty read gives ConnectionClosed, a read
   * error its converted kind, a failed send WebrtcDatachannelSendFailed. By
   * then it has sent one package per earlier step, plus the one whose send
   * failed.
   */
  lemma {:induction false} LocalPumpStops(tid: TunnelId, steps: seq<LocalStep>, j: nat)
    requires j < |steps| && LocalStopAt(steps[j]).Some?
    requires forall i :: 0 <= i < j ==> LocalStopAt(steps[i]).None?
    ensures var r := LocalPump(tid, steps);
      r.stop == LocalStopAt(steps[j]) &&
      |r.sent| == j + |PackageOf(tid, steps[j])|
    decreases j
  {
    if j > 0 {
      LocalPumpStops(tid, steps[1..], j - 1);
    }
  }

  /** While no step ends it, the loop sends one package per step and keeps running. */
  lemma {:induction false} LocalPumpRuns(tid: TunnelId, steps: seq<LocalStep>)
    requires forall i :: 0 <= i < |steps| ==> LocalStopAt(steps[i]).None?
    ensures LocalPump(tid, steps).stop.None? && |LocalPump(tid, steps).sent| == |steps|
    decreases |steps|
  {
    if steps != [] {
      LocalPumpRuns(tid, steps[1..]);
    }
  }

  /** What the local half sends: its packages, then one TcpClose with the defeat it ended with. */
  function LocalSide(tid: TunnelId, steps: seq<LocalStep>): seq<TunnelMessage> {
    var r := LocalPump(tid, steps);
    r.sent + if r.stop.Some? then [TcpClose(tid, r.stop.value)] else []
  }

  /** Exactly one TcpClose is sent once the loop has ended, last, with the tunnel's id and the defeat; none while it runs. */
  lemma OneCloseAtTheEnd(tid: TunnelId, steps: seq<LocalStep>)
    ensures var r := LocalPump(tid, steps);
      var out := LocalSide(tid, steps);
      (forall i :: 0 <= i < |out| ==> (out[i].TcpClose? <==> r.stop.Some? && i == |out| - 1)) &&
      (r.stop.Some? ==> out[|out| - 1] == TcpClose(tid, r.stop.value))
  {
    LocalPumpPackages(tid, steps);
  }

  /** Copies what a read returned into the buffer, as the read call does. */
  method ReadInto(buf: array<byte>, data: seq<byte>) returns (n: nat)
    requires |data| <= buf.Length
    modifies buf
    ensures n == |data| && buf[..n] == data
  {
    n := |data|;
    for j := 0 to n
      invariant buf[..j] == data[..j]
    {
      buf[j] := data[j];
    }
  }

  // ---------------------------------------------------------------------
  // The remote half of the pump: remote peer to local socket.

  /**
   * One iteration of the remote loop as it is observed: the cancel token
   * seen cancelled, a body received from the channel and the outcome of
   * writing it to the local socket, or `recv` returning nothing.
   */
  datatype RemoteStep = RemoteCancelSeen | BodyReceived(body: seq<byte>, writeError: Option<IoErrorKind>) | ChannelEmpty

  datatype RemoteRun = RemoteRun(written: seq<seq<byte>>, stop: Option<TunnelDefeat>)

  /** The `listen_remote` loop: bodies written to the local socket, and the defeat it broke with. */
  function RemotePump(steps: seq<RemoteStep>): RemoteRun
    decreases |steps|
  {
    if steps == [] then RemoteRun([], None)
    else match steps[0]
      case RemoteCancelSeen => RemoteRun([], Some(ConnectionClosed))
      case BodyReceived(b, Some(k)) => RemoteRun([b], Some(Io(k)))
      case BodyReceived(b, None) =>
        var rest := RemotePump(steps[1..]);
        RemoteRun([b] + rest.written, rest.stop)
      case ChannelEmpty => RemotePump(steps[1..])
  }

  /** All bodies received in a script, in order. */
  function Received(steps: seq<RemoteStep>): seq<seq<byte>>
    decreases |steps|
  {
    if steps == [] then []
    else if steps[0].BodyReceived? then [steps[0].body] + Received(steps[1..])
    else Received(steps[1..])
  }

  /**
   * The remote half writes the received bodies in the order received: a
   * prefix of them, all of them unless it stopped, and it stops only on a
   * cancellation (ConnectionClosed) or a failed write (its converted kind).
   */
  lemma {:induction false} RemotePumpWritesInOrder(steps: seq<RemoteStep>)
    ensures var r := RemotePump(steps);
      |r.written| <= |Received(steps)| && r.written == Received(steps)[..|r.written|] &&
      (r.stop.None? ==> r.written == Received(steps)) &&
      (r.stop.Some? ==> r.stop == Some(ConnectionClosed) || r.stop.value.Io?)
    decreases |steps|
  {
    if steps != [] {
      RemotePumpWritesInOrder(steps[1..]);
    }
  }

  /** Whether a step ends the remote loop: a cancellation, or a body whose write failed. */
  predicate RemoteStopsAt(s: RemoteStep) {
    s.RemoteCancelSeen? || (s.BodyReceived? && s.writeError.Some?)
  }

  /**
   * The remote loop breaks at its first ending step `j`: with
   * ConnectionClosed on a cancellation, or with the converted kind of a
   * failed write, after writing every body received before `j` and, on a
   * failed write, the body whose write failed.
   */
  lemma {:induction false} RemotePumpStops(steps: seq<RemoteStep>, j: nat)
    requires j < |steps| && RemoteStopsAt(steps[j])
    requires forall k :: 0 <= k < j ==> !RemoteStopsAt(steps[k])
    ensures RemotePump(steps).stop ==
      if steps[j].RemoteCancelSeen? then Some(ConnectionClosed) else Some(Io(steps[j].writeError.value))
    ensures RemotePump(steps).written ==
      Received(steps[..j]) + if steps[j].BodyReceived? then [steps[j].body] else []
    decreases j
  {
    if j == 0 {
      assert steps[..0] == [];
    } else {
      var tail := steps[1..];
      assert forall k :: 0 <= k < j - 1 ==> tail[k] == steps[k + 1];
      RemotePumpStops(tail, j - 1);
      assert steps[..j][0] == steps[0] && steps[..j][1..] == tail[..j - 1];
    }
  }

  // ---------------------------------------------------------------------
  // Objects: the cancel token, the channel, the listener and the tunnel.

  /** `CancellationToken`. */
  class CancellationToken {
    var cancelled: bool

    constructor ()
      ensures !cancelled
    {
      cancelled := false;
    }

    method Cancel()
      modifies this
      ensures cancelled
    {
      cancelled := true;
    }
  }

  /** The tunnel's `mpsc` channel towards its listener: what was queued, and whether the receiving side is still alive. */
  class Channel {
    var queue: seq<seq<byte>>
    var receiverAlive: bool

    constructor ()
      ensures queue == [] && receiverAlive
    {
      queue := [];
      receiverAlive := true;
    }

    /** `Sender::send`: fails, queuing nothing, once the receiver is gone. */
    method Send(bytes: seq<byte>) returns (ok: bool)
      modifies this
      ensures ok == receiverAlive && receiverAlive == old(receiverAlive)
      ensures queue == if ok then old(queue) + [bytes] else old(queue)
    {
      ok := receiverAlive;
      if ok {
        queue := queue + [bytes];
      }
    }
  }

  /** `TunnelListener`: the pump of one tunnel, running as a task. */
  class TunnelListener {
    const tid: TunnelId
    const remoteStreamTx: Channel
    const cancelToken: CancellationToken
    const peerDid: Handlers.Did

    /** `TunnelListener::new`: a fresh channel and a fresh, uncancelled token. */
    constructor (tid: TunnelId, peerDid: Handlers.Did)
      ensures this.tid == tid && this.peerDid == peerDid
      ensures fresh(remoteStreamTx) && fresh(cancelToken)
      ensures remoteStreamTx.queue == [] && remoteStreamTx.receiverAlive && !cancelToken.cancelled
    {
      this.tid := tid;
      this.peerDid := peerDid;
      remoteStreamTx := new Channel();
      cancelToken := new CancellationToken();
    }

    /**
     * One iteration of the local loop: a read into a fresh 30000-byte buffer
     * and, when it returned bytes, the package handed to the swarm.
     */
    method LocalIteration(c: Codec, step: LocalStep) returns (package: Option<TunnelMessage>, message: Option<Handlers.Message>, stop: Option<TunnelDefeat>)
      requires step.ReadReturned? && step.read.ReadData? ==> |step.read.data| <= BufferSize
      ensures stop == LocalStopAt(step)
      ensures (if package.Some? then [package.value] else []) == PackageOf(tid, step)
      ensures message.Some? == package.Some? && (if message.Some? then [message.value] else []) == WrapAll(c, PackageOf(tid, step))
    {
      package, message, stop := None, None, None;
      if step.LocalCancelSeen? {
        stop := Some(ConnectionClosed);
        return;
      }
      if step.read.ReadError? {
        stop := Some(Io(step.read.kind));
        return;
      }
      var buf := new byte[BufferSize];
      var n := ReadInto(buf, step.read.data);
      if n == 0 {
        stop := Some(ConnectionClosed);
        return;
      }
      var m := TcpPackage(tid, buf[..n]);
      var customMsg := WrapCustomMessage(c, m);
      package, message := Some(m), Some(customMsg);
      if !step.sendOk {
        stop := Some(WebrtcDatachannelSendFailed);
      }
    }

    /** The local loop, one iteration per observed step, until a step ends it. */
    method ListenLocal(c: Codec, steps: seq<LocalStep>) returns (sent: seq<Handlers.Message>, stop: Option<TunnelDefeat>)
      requires ReadsFitBuffer(steps)
      ensures sent == WrapAll(c, LocalPump(tid, steps).sent) && stop == LocalPump(tid, steps).stop
    {
      sent, stop := [], None;
      var i := 0;
      while i < |steps|
        invariant 0 <= i <= |steps| && stop.None?
        invariant WrapAll(c, LocalPump(tid, steps).sent) == sent + WrapAll(c, LocalPump(tid, steps[i..]).sent)
        invariant LocalPump(tid, steps).stop == LocalPump(tid, steps[i..]).stop
      {
        LocalLoopStep(c, tid, steps, i);
        var package, message;
        package, message, stop := LocalIteration(c, steps[i]);
        ghost var rest := if stop.Some? then [] else WrapAll(c, LocalPump(tid, steps[i + 1..]).sent);
        var now := if message.Some? then [message.value] else [];
        ConcatAssoc(sent, now, rest);
        sent := sent + now;
        if stop.Some? {
          return;
        }
        i := i + 1;
      }
      assert steps[i..] == [];
    }

    /** The local half of `listen`: the pump, then one TcpClose with the defeat once it has ended. */
    method ListenLocalSide(c: Codec, steps: seq<LocalStep>) returns (sent: seq<Handlers.Message>)
      requires ReadsFitBuffer(steps)
      ensures sent == WrapAll(c, LocalSide(tid, steps))
    {
      var stop;
      sent, stop := ListenLocal(c, steps);
      if stop.Some? {
        var close := WrapCustomMessage(c, TcpClose(tid, stop.value));
        WrapAllAppend(c, LocalPump(tid, steps).sent, TcpClose(tid, stop.value));
        sent := sent + [close];
      } else {
        assert LocalSide(tid, steps) == LocalPump(tid, steps).sent;
      }
    }

    /** The remote loop: each body received from the channel is written to the local socket. */
    method ListenRemote(steps: seq<RemoteStep>) returns (written: seq<seq<byte>>, stop: Option<TunnelDefeat>)
      ensures RemoteRun(written, stop) == RemotePump(steps)
    {
      written, stop := [], None;
      var i := 0;
      while i < |steps|
        invariant 0 <= i <= |steps|
        invariant RemotePump(steps) == RemoteRun(written + RemotePump(steps[i..]).written, RemotePump(steps[i..]).stop)
      {
        assert steps[i..][0] == steps[i] && steps[i..][1..] == steps[i + 1..];
        match steps[i] {
          case RemoteCancelSeen =>
            stop := Some(ConnectionClosed);
            return;
          case BodyReceived(b, err) =>
            written := written + [b];
            if err.Some? {
              stop := Some(Io(err.value));
              return;
            }
          case ChannelEmpty =>
        }
        i := i + 1;
      }
    }

    /** The remote half of `listen`: the pump, then one TcpClose with the defeat once it has ended. */
    method ListenRemoteSide(c: Codec, steps: seq<RemoteStep>) returns (written: seq<seq<byte>>, close: Option<Handlers.Message>)
      ensures written == RemotePump(steps).written
      ensures close == if RemotePump(steps).stop.Some? then Some(Wrapped(c, TcpClose(tid, RemotePump(steps).stop.value))) else None
    {
      var stop;
      written, stop := ListenRemote(steps);
      close := None;
      if stop.Some? {
        var m := WrapCustomMessage(c, TcpClose(tid, stop.value));
        close := Some(m);
      }
    }
  }

  /**
   * Concatenation regroups; the local loop uses it to move the message of
   * one iteration from the rest of the run into what has been sent.
   */
  lemma ConcatAssoc<T>(a: seq<T>, b: seq<T>, c: seq<T>)
    ensures (a + b) + c == a + (b + c)
  {
  }

  lemma {:induction false} WrapAllConcat(c: Codec, ms: seq<TunnelMessage>, ns: seq<TunnelMessage>)
    ensures WrapAll(c, ms + ns) == WrapAll(c, ms) + WrapAll(c, ns)
    decreases |ms|
  {
    if ms == [] {
      assert ms + ns == ns;
    } else {
      assert (ms + ns)[0] == ms[0] && (ms + ns)[1..] == ms[1..] + ns;
      WrapAllConcat(c, ms[1..], ns);
    }
  }

  lemma {:induction false} WrapAllAppend(c: Codec, ms: seq<TunnelMessage>, m: TunnelMessage)
    ensures WrapAll(c, ms + [m]) == WrapAll(c, ms) + [Wrapped(c, m)]
    decreases |ms|
  {
    if ms != [] {
      assert (ms + [m])[1..] == ms[1..] + [m];
      WrapAllAppend(c, ms[1..], m);
    }
  }

  /** `Tunnel`: the channel towards its listener, the listener task and the listener's cancel token. */
  class Tunnel {
    const tid: TunnelId
    var remoteStreamTx: Option<Channel>
    var listenerCancelToken: Option<CancellationToken>
    var listener: Option<TunnelListener>

    /** The three optional fields are set together, and belong to one listener of this tunnel. */
    ghost predicate Valid()
      reads this
    {
      (listener.None? && remoteStreamTx.None? && listenerCancelToken.None?) ||
      (listener.Some? && listener.value.tid == tid &&
       remoteStreamTx == Some(listener.value.remoteStreamTx) &&
       listenerCancelToken == Some(listener.value.cancelToken))
    }

    /** `Tunnel::new`: no channel, no listener, no token. */
    constructor (tid: TunnelId)
      ensures this.tid == tid && Valid()
      ensures remoteStreamTx.None? && listener.None? && listenerCancelToken.None?
    {
      this.tid := tid;
      remoteStreamTx := None;
      listener := None;
      listenerCancelToken := None;
    }

    /** `send`: forwards the bytes into the listener's channel when there is one; otherwise nothing happens. */
    method Send(bytes: seq<byte>)
      requires Valid()
      modifies if remoteStreamTx.Some? then {remoteStreamTx.value} else {}
      ensures Valid()
      ensures remoteStreamTx.Some? ==>
        remoteStreamTx.value.queue ==
          if old(remoteStreamTx.value.receiverAlive) then old(remoteStreamTx.value.queue) + [bytes]
          else old(remoteStreamTx.value.queue)
      ensures remoteStreamTx.Some? ==> remoteStreamTx.value.receiverAlive == old(remoteStreamTx.value.receiverAlive)
    {
      if remoteStreamTx.Some? {
        var tx := remoteStreamTx.value;
        var ignored := tx.Send(bytes);
      }
    }

    /** `listen`: does nothing when a listener exists; otherwise starts one and keeps its channel and token. */
    method Listen(peerDid: Handlers.Did)
      requires Valid()
      modifies this
      ensures Valid()
      ensures old(listener).Some? ==>
        listener == old(listener) && remoteStreamTx == old(remoteStreamTx) && listenerCancelToken == old(listenerCancelToken)
      ensures old(listener).None? ==>
        listener.Some? && fresh(listener.value) && listener.value.peerDid == peerDid &&
        fresh(listener.value.remoteStreamTx) && fresh(listener.value.cancelToken) &&
        !listener.value.cancelToken.cancelled && listener.value.remoteStreamTx.queue == []
    {
      if listener.Some? {
        return;
      }
      var l := new TunnelListener(tid, peerDid);
      var token := l.cancelToken;
      var tx := l.remoteStreamTx;
      remoteStreamTx := Some(tx);
      listener := Some(l);
      listenerCancelToken := Some(token);
    }

    /**
     * `drop`: cancels the listener's token and clears it, and takes the
     * listener, which is handed back for the delayed abort.
     */
    method Drop() returns (aborting: Option<TunnelListener>)
      requires Valid()
      modifies this, if listenerCancelToken.Some? then {listenerCancelToken.value} else {}
      ensures listenerCancelToken.None? && listener.None? && remoteStreamTx == old(remoteStreamTx)
      ensures aborting == old(listener)
      ensures old(listenerCancelToken).Some? ==> old(listenerCancelToken).value.cancelled
      ensures aborting.Some? ==> aborting.value.cancelToken.cancelled
    {
      if listenerCancelToken.Some? {
        var token := listenerCancelToken.value;
        listenerCancelToken := None;
        token.Cancel();
      }
      aborting := listener;
      listener := None;
    }
  }
}
