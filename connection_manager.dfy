/** Bridging one accepted client connection to its backend
    (ConnectionManager.cs): choose the backend from the routing table, build
    the outbound QUIC options, run the stream-accept loop (QUIC backend) or
    the single-stream relay (TCP backend), and release what was opened.

    Network operations are replaced by their outcomes, given as parameters:
    whether connecting to the backend throws, the successive results of
    accepting an inbound stream, and what each stream direction reads. */
module ConnectionManager {
  import opened Common
  import opened Settings
  import opened Routing
  import opened StreamProxy

  // ------------------------------------------------------------------
  // Dispatch

  datatype Route = Unrouted | ToQuicBackend(mapping: HostMapping) | ToTcpBackend(mapping: HostMapping)

  /** No mapping: give up before contacting any backend. Protocol `Quic`:
      the QUIC backend path. Any other protocol: the TCP path. */
  function SelectRoute(resolved: Option<HostMapping>): (r: Route)
    ensures r == Unrouted <==> resolved.None?
    ensures r.ToQuicBackend? <==> resolved.Some? && resolved.value.internalServerProtocolType == Quic
    ensures r.ToTcpBackend? <==> resolved.Some? && resolved.value.internalServerProtocolType != Quic
    ensures !r.Unrouted? ==> r.mapping == resolved.value
  {
    match resolved
    case None => Unrouted
    case Some(m) => if m.internalServerProtocolType == Quic then ToQuicBackend(m) else ToTcpBackend(m)
  }

  // ------------------------------------------------------------------
  // Outbound QUIC options

  /** The exceptions raised while building connection options: a null
      mapping or null QuicSettings dereferenced (NullReferenceException),
      an ALPN name SslApplicationProtocol refuses (ArgumentException), a host
      the certificate resolver has no entry for (KeyNotFoundException). */
  datatype OptionsError = UnknownHost | MissingQuicSettings | InvalidAlpn | MissingCertificate

  datatype QuicClientOptions = QuicClientOptions(
    defaultCloseErrorCode: int,
    defaultStreamErrorCode: int,
    handshakeTimeout: TimeSpan,
    idleTimeout: TimeSpan,
    remoteHost: string,
    remotePort: int32,
    /** What the backend-certificate validation callback answers; it ignores its arguments. */
    backendCertificateAccepted: bool,
    applicationProtocols: seq<ApplicationProtocol>,
    targetHost: string)

  /** The QuicClientOptions that ConnectToInternalQuicServerAsync builds.
      The idle timeout is `TimeSpan.FromMinutes` of the field named
      `IdleTimeoutInSeconds`, as the code is written. */
  function ClientConnectionOptions(m: HostMapping): (r: Result<QuicClientOptions, OptionsError>)
    ensures r.Err? <==> m.quicSettings.None? || NewApplicationProtocol(m.quicSettings.value.alpn).None?
    ensures r.Err? ==> r.error == if m.quicSettings.None? then MissingQuicSettings else InvalidAlpn
    ensures r.Ok? ==>
      var qs := m.quicSettings.value;
      var o := r.value;
      && o.defaultCloseErrorCode == qs.defaultCloseErrorCode as int
      && o.defaultStreamErrorCode == qs.defaultStreamErrorCode as int
      && o.handshakeTimeout.totalSeconds == qs.handshakeTimeoutInSeconds as int
      && o.idleTimeout.totalSeconds == 60 * qs.idleTimeoutInSeconds as int
      && o.remoteHost == m.internalServerIp && o.remotePort == m.internalServerPort
      && o.backendCertificateAccepted
      && o.applicationProtocols == [ApplicationProtocol(qs.alpn)]
      && o.targetHost == m.hostName
  {
    match m.quicSettings
    case None => Err(MissingQuicSettings)
    case Some(qs) =>
      match NewApplicationProtocol(qs.alpn)
      case None => Err(InvalidAlpn)
      case Some(alpn) =>
        Ok(QuicClientOptions(
          qs.defaultCloseErrorCode as int, qs.defaultStreamErrorCode as int,
          FromSeconds(qs.handshakeTimeoutInSeconds), FromMinutes(qs.idleTimeoutInSeconds),
          m.internalServerIp, m.internalServerPort, true, [alpn], m.hostName))
  }

  /** The idle timeout is not the number of seconds its setting is named
      after: any non-zero value gives a span sixty times as long. */
  lemma IdleTimeoutReadAsMinutes(m: HostMapping)
    requires ClientConnectionOptions(m).Ok?
    requires m.quicSettings.value.idleTimeoutInSeconds != 0
    ensures ClientConnectionOptions(m).value.idleTimeout != FromSeconds(m.quicSettings.value.idleTimeoutInSeconds)
  {
  }

  // ------------------------------------------------------------------
  // The stream-accept loop of a QUIC-to-QUIC connection

  datatype StreamType = Unidirectional | Bidirectional

  /** One `AcceptInboundStreamAsync` outcome. */
  datatype StreamAccept = Inbound(streamType: StreamType) | AcceptFailure(fault: Fault)

  /** Why the loop stopped: the loop head saw the cancellation, a
      QuicException broke out of it (the client connection is gone), or it is
      still waiting for the next stream. */
  datatype StreamLoopEnd = CancellationObserved | ConnectionClosed | AwaitingStream

  datatype StreamLoopResult = StreamLoopResult(spawned: seq<StreamType>, end: StreamLoopEnd)

  /** The loop of ProxyQuicConnectionStreamsAsync run over `accepts`, where
      the loop-head test finds the token cancelled from test number
      `cancelAfter` (counting from 0) on. `spawned` lists the type of each
      stream handed to its own handler task. */
  function StreamLoop(accepts: seq<StreamAccept>, cancelAfter: nat): (r: StreamLoopResult)
    // at most one handler per accept, and the loop makes at most `cancelAfter` iterations
    ensures |r.spawned| <= |accepts| && |r.spawned| <= cancelAfter
    // it waits only once every outcome has been used before the cancellation is seen
    ensures r.end == AwaitingStream ==> cancelAfter > |accepts|
    decreases |accepts|
  {
    if cancelAfter == 0 then StreamLoopResult([], CancellationObserved)
    else if accepts == [] then StreamLoopResult([], AwaitingStream)
    else match accepts[0]
      case Inbound(t) =>
        var rest := StreamLoop(accepts[1..], cancelAfter - 1);
        StreamLoopResult([t] + rest.spawned, rest.end)
      case AcceptFailure(f) =>
        // a QuicException breaks out; an IOException or any other exception is logged and the loop goes on
        if f == QuicError then StreamLoopResult([], ConnectionClosed)
        else StreamLoop(accepts[1..], cancelAfter - 1)
  }

  /** Index of the first QuicException among the outcomes, or their number. */
  function FirstConnectionError(accepts: seq<StreamAccept>): (k: nat)
    ensures k <= |accepts|
  {
    if accepts == [] || accepts[0] == AcceptFailure(QuicError) then 0
    else 1 + FirstConnectionError(accepts[1..])
  }

  /** The types of the streams that were accepted, in order; failed accepts
      contribute nothing. */
  function InboundTypes(accepts: seq<StreamAccept>): seq<StreamType> {
    if accepts == [] then []
    else (if accepts[0].Inbound? then [accepts[0].streamType] else []) + InboundTypes(accepts[1..])
  }

  function Min(a: nat, b: nat): nat {
    if a <= b then a else b
  }

  /** What the loop does, stated without recursion: every stream accepted
      before the cancellation is seen and before the first QuicException
      gets a handler, in order; I/O and other errors are skipped; the loop
      stops for the earlier of those two events, or is still waiting. */
  lemma {:induction false} StreamLoopSpawnsEveryAcceptedStream(accepts: seq<StreamAccept>, cancelAfter: nat)
    ensures StreamLoop(accepts, cancelAfter).spawned
            == InboundTypes(accepts[..Min(cancelAfter, FirstConnectionError(accepts))])
    ensures StreamLoop(accepts, cancelAfter).end
            == if cancelAfter <= FirstConnectionError(accepts) then CancellationObserved
               else if FirstConnectionError(accepts) == |accepts| then AwaitingStream
               else ConnectionClosed
  {
    if cancelAfter == 0 {
      assert accepts[..0] == [];
    } else if accepts == [] {
    } else if accepts[0] == AcceptFailure(QuicError) {
      assert accepts[..0] == [];
    } else {
      StreamLoopSpawnsEveryAcceptedStream(accepts[1..], cancelAfter - 1);
      var k := Min(cancelAfter, FirstConnectionError(accepts));
      assert k == 1 + Min(cancelAfter - 1, FirstConnectionError(accepts[1..]));
      assert accepts[..k][0] == accepts[0];
      assert accepts[..k][1..] == accepts[1..][..k - 1];
    }
  }

  /** ProxyQuicConnectionStreamsAsync: accept inbound streams until the
      token is cancelled or a QuicException ends the loop, handing each
      stream to a handler task of its own (HandleQuicStream). */
  method ProxyQuicConnectionStreams(accepts: seq<StreamAccept>, cancelAfter: nat)
    returns (spawned: seq<StreamType>, end: StreamLoopEnd)
    ensures StreamLoopResult(spawned, end) == StreamLoop(accepts, cancelAfter)
  {
    spawned := [];
    end := CancellationObserved;
    var i := 0;
    while i < cancelAfter
      invariant i <= cancelAfter && i <= |accepts|
      invariant end == CancellationObserved
      invariant StreamLoop(accepts, cancelAfter).spawned == spawned + StreamLoop(accepts[i..], cancelAfter - i).spawned
      invariant StreamLoop(accepts, cancelAfter).end == StreamLoop(accepts[i..], cancelAfter - i).end
    {
      if i == |accepts| {
        assert accepts[i..] == [];
        end := AwaitingStream;
        break;
      }
      assert accepts[i..][0] == accepts[i] && accepts[i..][1..] == accepts[i + 1..];
      match accepts[i] {
        case Inbound(t) =>
          spawned := spawned + [t];
        case AcceptFailure(f) =>
          if f == QuicError {
            end := ConnectionClosed;
            break;
          }
      }
      i := i + 1;
    }
    assert end == CancellationObserved ==> i == cancelAfter;
    assert spawned + [] == spawned;
  }

  // ------------------------------------------------------------------
  // One proxied QUIC stream

  /** The outcome of `OpenOutboundStreamAsync` on the backend connection. */
  datatype OpenOutcome = Opened | OpenFailed(fault: Fault)

  /** HandleQuicStreamAsync: open one backend stream of the client stream's
      type and relay between the two; every exception is logged and
      swallowed, so the task only ever completes normally. */
  method HandleQuicStream(clientStreamType: StreamType, open: OpenOutcome,
                          clientReads: seq<ReadStep>, serverReads: seq<ReadStep>,
                          clientStream: Destination, serverStream: Destination)
    returns (outbound: Option<StreamType>, end: TaskEnd)
    requires clientStream != serverStream
    modifies clientStream, serverStream
    ensures outbound == if open == Opened then Some(clientStreamType) else None
    ensures open.OpenFailed? ==> end == RanToCompletion && unchanged(clientStream, serverStream)
    ensures open == Opened ==>
      && serverStream.ops == old(serverStream.ops) + QuicPumpOps(clientReads, serverStream.completeWritesFault)
      && clientStream.ops == old(clientStream.ops) + QuicPumpOps(serverReads, clientStream.completeWritesFault)
      && serverStream.writesCompleted == (old(serverStream.writesCompleted) || QuicPumpHalfCloses(clientReads, serverStream.completeWritesFault))
      && clientStream.writesCompleted == (old(clientStream.writesCompleted) || QuicPumpHalfCloses(serverReads, clientStream.completeWritesFault))
      && end == (if RelayEnd(clientReads, serverReads, serverStream.completeWritesFault, clientStream.completeWritesFault) == Pending
                 then Pending else RanToCompletion)
  {
    if open.OpenFailed? {
      outbound := None;
      end := RanToCompletion;
      return;
    }
    outbound := Some(clientStreamType);
    var relay := ProxyQuicStreams(clientReads, serverReads, clientStream, serverStream);
    end := if relay == Pending then Pending else RanToCompletion;
  }

  // ------------------------------------------------------------------
  // The single-stream relay of a QUIC-to-TCP connection

  /** ProxyQuicToTcpAsync: accept one inbound client stream and run the two
      generic pumps between it and the backend's network stream; every
      exception is logged and swallowed. */
  method ProxyQuicToTcp(firstStream: StreamAccept, clientReads: seq<ReadStep>, backendReads: seq<ReadStep>,
                        clientStream: Destination, networkStream: Destination)
    returns (accepted: Option<StreamType>, end: TaskEnd)
    requires clientStream != networkStream
    modifies clientStream, networkStream
    ensures accepted == if firstStream.Inbound? then Some(firstStream.streamType) else None
    ensures firstStream.AcceptFailure? ==> end == RanToCompletion && unchanged(clientStream, networkStream)
    ensures firstStream.Inbound? ==>
      && networkStream.ops == old(networkStream.ops) + CopyOps(Forwarded(clientReads))
      && clientStream.ops == old(clientStream.ops) + CopyOps(Forwarded(backendReads))
      && networkStream.writesCompleted == old(networkStream.writesCompleted)
      && clientStream.writesCompleted == old(clientStream.writesCompleted)
      && end == (if TcpRelayEnd(clientReads, backendReads) == Pending then Pending else RanToCompletion)
  {
    if firstStream.AcceptFailure? {
      accepted := None;
      end := RanToCompletion;
      return;
    }
    accepted := Some(firstStream.streamType);
    var clientToServer, _ := ProxyStream(clientReads, networkStream);
    var serverToClient, _ := ProxyStream(backendReads, clientStream);
    var relay := WhenAll(clientToServer, serverToClient);
    end := if relay == Pending then Pending else RanToCompletion;
  }

  // ------------------------------------------------------------------
  // One client connection

  /** What the backend side does for one connection: whether connecting
      throws, and then, for a QUIC backend, the client's successive stream
      accepts and the cancellation point of the loop; for a TCP backend, the
      first client-stream accept and what each direction reads. */
  datatype Backend = Backend(
    connectFault: Option<Fault>,
    streamAccepts: seq<StreamAccept>,
    cancelAfter: nat,
    firstStream: StreamAccept,
    clientReads: seq<ReadStep>,
    backendReads: seq<ReadStep>)

  /** The observable steps of a connection handler. */
  datatype HandlerEvent =
    | QuicConnectAttempt(options: QuicClientOptions)
    | TcpConnectAttempt(host: string, port: int32)
    | StreamHandlerSpawned(streamType: StreamType)
    | BackendConnectionDisposed
    | TcpStreamAccepted(streamType: StreamType)
    | NetworkStreamDisposed
    | TcpClientDisposed

  datatype Handled = Handled(events: seq<HandlerEvent>, end: TaskEnd)

  function Spawns(types: seq<StreamType>): (events: seq<HandlerEvent>)
    ensures |events| == |types|
    ensures forall i :: 0 <= i < |types| ==> events[i] == StreamHandlerSpawned(types[i])
  {
    if types == [] then [] else [StreamHandlerSpawned(types[0])] + Spawns(types[1..])
  }

  /** The QUIC path: build the options, connect, run the stream-accept loop
      and dispose of the backend connection in a `finally`; the surrounding
      catch clauses take every exception. */
  function QuicBackendPath(m: HostMapping, b: Backend): (h: Handled)
    // options that cannot be built: no connect attempt
    ensures ClientConnectionOptions(m).Err? ==> h == Handled([], RanToCompletion)
    // otherwise exactly one connect attempt, first, with those options
    ensures ClientConnectionOptions(m).Ok? ==>
              |h.events| > 0 && h.events[0] == QuicConnectAttempt(ClientConnectionOptions(m).value)
              && (forall i :: 0 < i < |h.events| ==> !h.events[i].QuicConnectAttempt?)
    // a failed connect is caught: nothing after the attempt
    ensures ClientConnectionOptions(m).Ok? && b.connectFault.Some? ==> h.events == [QuicConnectAttempt(ClientConnectionOptions(m).value)]
    // no exception leaves this path, and no TCP step is taken
    ensures h.end == RanToCompletion || h.end == Pending
    ensures forall e :: e in h.events ==> !e.TcpConnectAttempt? && !e.TcpStreamAccepted? && !e.NetworkStreamDisposed? && !e.TcpClientDisposed?
  {
    match ClientConnectionOptions(m)
    case Err(_) => Handled([], RanToCompletion)
    case Ok(o) =>
      if b.connectFault.Some? then Handled([QuicConnectAttempt(o)], RanToCompletion)
      else
        var loop := StreamLoop(b.streamAccepts, b.cancelAfter);
        if loop.end == AwaitingStream then Handled([QuicConnectAttempt(o)] + Spawns(loop.spawned), Pending)
        else Handled([QuicConnectAttempt(o)] + Spawns(loop.spawned) + [BackendConnectionDisposed], RanToCompletion)
  }

  /** The TCP path: a failed connect is not caught here and ends the
      handler's task with that exception; otherwise the `using` declarations
      dispose of the network stream and then of the client once the relay
      is over. */
  function TcpBackendPath(m: HostMapping, b: Backend): (h: Handled)
    // exactly one connect attempt, first, to the mapped address
    ensures |h.events| > 0 && h.events[0] == TcpConnectAttempt(m.internalServerIp, m.internalServerPort)
    ensures forall i :: 0 < i < |h.events| ==> !h.events[i].TcpConnectAttempt?
    // a connect failure is not caught: it is the handler's end, and nothing follows
    ensures b.connectFault.Some? ==>
              h == Handled([TcpConnectAttempt(m.internalServerIp, m.internalServerPort)], Escaped(b.connectFault.value))
    // once connected, no exception leaves the path; it ends iff both pumps have
    ensures b.connectFault.None? ==> h.end == RanToCompletion || h.end == Pending
    ensures b.connectFault.None? && b.firstStream.Inbound? ==>
              (h.end != Pending <==> StopReason(b.clientReads) != StillReading && StopReason(b.backendReads) != StillReading)
    // the network stream and the client are disposed iff the path has ended after connecting
    ensures b.connectFault.None? ==> (TcpClientDisposed in h.events <==> h.end != Pending)
    ensures forall e :: e in h.events ==> !e.QuicConnectAttempt? && !e.StreamHandlerSpawned? && !e.BackendConnectionDisposed?
  {
    var connect := [TcpConnectAttempt(m.internalServerIp, m.internalServerPort)];
    if b.connectFault.Some? then Handled(connect, Escaped(b.connectFault.value))
    else match b.firstStream
      case AcceptFailure(_) => Handled(connect + [NetworkStreamDisposed, TcpClientDisposed], RanToCompletion)
      case Inbound(t) =>
        if TcpRelayEnd(b.clientReads, b.backendReads) == Pending
        then Handled(connect + [TcpStreamAccepted(t)], Pending)
        else Handled(connect + [TcpStreamAccepted(t), NetworkStreamDisposed, TcpClientDisposed], RanToCompletion)
  }

  /** HandleClientConnectionAsync, as a function of what the routing table
      answered for the connection's target host. */
  function HandlerSpec(resolved: Option<HostMapping>, b: Backend): (h: Handled)
    // an unknown host: nothing is attempted
    ensures resolved.None? ==> h == Handled([], RanToCompletion)
    // a QUIC backend: never a TCP step, and no exception leaves the handler
    ensures resolved.Some? && resolved.value.internalServerProtocolType == Quic ==>
              (forall e :: e in h.events ==> !e.TcpConnectAttempt? && !e.TcpStreamAccepted?)
              && (h.end == RanToCompletion || h.end == Pending)
    // a TCP backend: the connect attempt to the mapped address comes first, and never a QUIC step
    ensures resolved.Some? && resolved.value.internalServerProtocolType != Quic ==>
              |h.events| > 0 && h.events[0] == TcpConnectAttempt(resolved.value.internalServerIp, resolved.value.internalServerPort)
              && (forall e :: e in h.events ==> !e.QuicConnectAttempt? && !e.StreamHandlerSpawned?)
  {
    match SelectRoute(resolved)
    case Unrouted => Handled([], RanToCompletion)
    case ToQuicBackend(m) => QuicBackendPath(m, b)
    case ToTcpBackend(m) => TcpBackendPath(m, b)
  }

  /** The TCP path of the handler: one connect attempt to the mapped
      address; a connect failure is not caught and becomes the handler's
      end; once connected, the handler ends exactly when both pumps have. */
  lemma TcpPathConnectsOnceAndLetsConnectFailuresEscape(m: HostMapping, b: Backend)
    requires m.internalServerProtocolType != Quic
    ensures var h := HandlerSpec(Some(m), b);
      var attempt := TcpConnectAttempt(m.internalServerIp, m.internalServerPort);
      && multiset(h.events)[attempt] == 1
      && (b.connectFault.Some? ==> h == Handled([attempt], Escaped(b.connectFault.value)))
      && (b.connectFault.None? && b.firstStream.Inbound? ==>
            (h.end != Pending <==> StopReason(b.clientReads) != StillReading && StopReason(b.backendReads) != StillReading))
  {
    var h := TcpBackendPath(m, b);
    assert HandlerSpec(Some(m), b) == h;
    var attempt := TcpConnectAttempt(m.internalServerIp, m.internalServerPort);
    assert h.events == [attempt] + h.events[1..];
    assert attempt !in h.events[1..] by {
      forall i | 0 <= i < |h.events[1..]|
        ensures h.events[1..][i] != attempt
      {
        assert h.events[1..][i] == h.events[i + 1];
      }
    }
  }

  /** The QUIC backend connection is disposed on every way out of stream
      proxying, exactly once and as the last step: whenever the handler has
      ended after connecting. */
  lemma QuicBackendDisposedOnEveryExit(m: HostMapping, b: Backend)
    requires m.internalServerProtocolType == Quic
    requires ClientConnectionOptions(m).Ok? && b.connectFault.None?
    ensures var h := HandlerSpec(Some(m), b);
      && (BackendConnectionDisposed in h.events <==> h.end != Pending)
      && (h.end != Pending ==> h.events[|h.events| - 1] == BackendConnectionDisposed
                               && multiset(h.events)[BackendConnectionDisposed] == 1)
  {
    var o := ClientConnectionOptions(m).value;
    var loop := StreamLoop(b.streamAccepts, b.cancelAfter);
    var spawns := Spawns(loop.spawned);
    assert BackendConnectionDisposed !in spawns;
    assert multiset([QuicConnectAttempt(o)] + spawns)[BackendConnectionDisposed] == 0;
  }

  /** In QUIC mode every stream the client opens before the loop stops gets
      its own handler, in the order accepted, one after the connect attempt. */
  lemma QuicModeSpawnsOneHandlerPerStream(m: HostMapping, b: Backend)
    requires m.internalServerProtocolType == Quic
    requires ClientConnectionOptions(m).Ok? && b.connectFault.None?
    ensures var h := HandlerSpec(Some(m), b);
      var types := InboundTypes(b.streamAccepts[..Min(b.cancelAfter, FirstConnectionError(b.streamAccepts))]);
      && h.events[0] == QuicConnectAttempt(ClientConnectionOptions(m).value)
      && |h.events| == 1 + |types| + (if h.end != Pending then 1 else 0)
      && (forall i :: 0 <= i < |types| ==> h.events[1 + i] == StreamHandlerSpawned(types[i]))
      && (h.end != Pending ==> h.events[1 + |types|] == BackendConnectionDisposed)
  {
    StreamLoopSpawnsEveryAcceptedStream(b.streamAccepts, b.cancelAfter);
  }

  /** The QUIC branch of HandleClientConnectionAsync, from building the
      outbound options to the disposal of the backend connection. */
  method ServeQuicBackend(m: HostMapping, b: Backend) returns (events: seq<HandlerEvent>, end: TaskEnd)
    ensures Handled(events, end) == QuicBackendPath(m, b)
  {
    var options := ClientConnectionOptions(m);
    if options.Err? {
      events, end := [], RanToCompletion;
      return;
    }
    events := [QuicConnectAttempt(options.value)];
    if b.connectFault.Some? {
      end := RanToCompletion;
      return;
    }
    var spawned, loopEnd := ProxyQuicConnectionStreams(b.streamAccepts, b.cancelAfter);
    events := events + Spawns(spawned);
    if loopEnd == AwaitingStream {
      end := Pending;
    } else {
      events := events + [BackendConnectionDisposed];
      end := RanToCompletion;
    }
  }

  /** The TCP branch of HandleClientConnectionAsync: connect, relay over the
      network stream, and the two `using` disposals. */
  method ServeTcpBackend(m: HostMapping, b: Backend, clientStream: Destination, networkStream: Destination)
    returns (events: seq<HandlerEvent>, end: TaskEnd)
    requires clientStream != networkStream
    modifies clientStream, networkStream
    ensures Handled(events, end) == TcpBackendPath(m, b)
    ensures if b.connectFault.None? && b.firstStream.Inbound? then
        && networkStream.ops == old(networkStream.ops) + CopyOps(Forwarded(b.clientReads))
        && clientStream.ops == old(clientStream.ops) + CopyOps(Forwarded(b.backendReads))
        && networkStream.writesCompleted == old(networkStream.writesCompleted)
        && clientStream.writesCompleted == old(clientStream.writesCompleted)
      else unchanged(clientStream, networkStream)
  {
    events := [TcpConnectAttempt(m.internalServerIp, m.internalServerPort)];
    if b.connectFault.Some? {
      end := Escaped(b.connectFault.value);
      return;
    }
    var accepted, relayEnd := ProxyQuicToTcp(b.firstStream, b.clientReads, b.backendReads, clientStream, networkStream);
    if accepted.Some? {
      events := events + [TcpStreamAccepted(accepted.value)];
    }
    if relayEnd == Pending {
      end := Pending;
    } else {
      events := events + [NetworkStreamDisposed, TcpClientDisposed];
      end := RanToCompletion;
    }
    assert Handled(events, end) == TcpBackendPath(m, b) by {
      match b.firstStream
      case AcceptFailure(_) =>
      case Inbound(t) =>
    }
  }

  /** HandleClientConnectionAsync: resolve the connection's target host and
      run the path its mapping selects. Only the TCP path writes to the two
      streams given here (the client's first stream and the backend's
      network stream); QUIC-mode streams belong to their handler tasks. */
  method HandleClientConnection(resolver: HostResolver, targetHostName: string, b: Backend,
                                clientStream: Destination, networkStream: Destination)
    returns (events: seq<HandlerEvent>, end: TaskEnd)
    requires clientStream != networkStream
    modifies clientStream, networkStream
    ensures Handled(events, end) == HandlerSpec(resolver.ResolveHostname(targetHostName), b)
    ensures var route := SelectRoute(resolver.ResolveHostname(targetHostName));
      if route.ToTcpBackend? && b.connectFault.None? && b.firstStream.Inbound? then
        && networkStream.ops == old(networkStream.ops) + CopyOps(Forwarded(b.clientReads))
        && clientStream.ops == old(clientStream.ops) + CopyOps(Forwarded(b.backendReads))
        && networkStream.writesCompleted == old(networkStream.writesCompleted)
        && clientStream.writesCompleted == old(clientStream.writesCompleted)
      else unchanged(clientStream, networkStream)
  {
    var hostMapping := resolver.ResolveHostname(targetHostName);
    match SelectRoute(hostMapping) {
      case Unrouted =>
        events, end := [], RanToCompletion;
      case ToQuicBackend(m) =>
        events, end := ServeQuicBackend(m, b);
      case ToTcpBackend(m) =>
        events, end := ServeTcpBackend(m, b, clientStream, networkStream);
    }
  }
}
