/** The listening side of the proxy (QuicProxyServer.cs): the client
    certificate policy, the per-handshake connection options chosen by SNI
    host name, the Start/Stop/Dispose life cycle of the listener, and the
    loop that accepts client connections and hands each to its own task. */
module ProxyServer {
  import opened Common
  import opened Settings
  import opened Routing
  import opened StreamProxy
  import opened ConnectionManager

  // ------------------------------------------------------------------
  // Client certificate policy

  /** The flags of .NET's SslPolicyErrors; `SslPolicyErrors.None` is the empty set. */
  datatype PolicyError = RemoteCertificateNotAvailable | RemoteCertificateNameMismatch | RemoteCertificateChainErrors

  /** The source indexes the last chain element without checking that there
      is one: the callback is defined only for inputs that reach that index
      with a non-empty chain. */
  predicate ChainReadable(certificatePresent: bool, chain: Option<seq<string>>, sslPolicyErrors: set<PolicyError>) {
    certificatePresent && chain.Some? && sslPolicyErrors == {} ==> |chain.value| > 0
  }

  /** ClientCertValidationCallback. The chain is the sequence of thumbprints
      of its elements, leaf first and root last; `chain == None` is a null
      chain. Thumbprints are compared ordinally, character by character. */
  function ClientCertValidationCallback(hostMapping: HostMapping, certificatePresent: bool,
                                        chain: Option<seq<string>>, sslPolicyErrors: set<PolicyError>): (accepted: bool)
    requires ChainReadable(certificatePresent, chain, sslPolicyErrors)
    // no certificate or no chain: refused
    ensures !certificatePresent || chain.None? ==> !accepted
    // any policy error: refused, whatever the thumbprints
    ensures sslPolicyErrors != {} ==> !accepted
    // otherwise exactly the chains whose root is the configured CA
    ensures certificatePresent && chain.Some? && sslPolicyErrors == {} ==>
              (accepted <==> chain.value[|chain.value| - 1] == hostMapping.certValidationSettings.rootCAThumbprint)
  {
    if !certificatePresent || chain.None? then false
    else if sslPolicyErrors != {} then false
    else
      var rootCAThumbprint := chain.value[|chain.value| - 1];
      rootCAThumbprint == hostMapping.certValidationSettings.rootCAThumbprint
  }

  /** The Entra tenant and group settings, and everything else in the
      mapping but the root thumbprint, play no part in the decision. */
  lemma TenantAndGroupsNeverConsulted(m1: HostMapping, m2: HostMapping, certificatePresent: bool,
                                      chain: Option<seq<string>>, sslPolicyErrors: set<PolicyError>)
    requires ChainReadable(certificatePresent, chain, sslPolicyErrors)
    requires m1.certValidationSettings.rootCAThumbprint == m2.certValidationSettings.rootCAThumbprint
    ensures ClientCertValidationCallback(m1, certificatePresent, chain, sslPolicyErrors)
            == ClientCertValidationCallback(m2, certificatePresent, chain, sslPolicyErrors)
  {
  }

  /** Only the root of the chain is looked at: the leaf and intermediates may
      be anything, and a leaf carrying the configured thumbprint is not
      enough on its own. */
  lemma OnlyTheRootIsConsulted(m: HostMapping, chain1: seq<string>, chain2: seq<string>)
    requires |chain1| > 0 && |chain2| > 0
    requires chain1[|chain1| - 1] == chain2[|chain2| - 1]
    ensures ClientCertValidationCallback(m, true, Some(chain1), {}) == ClientCertValidationCallback(m, true, Some(chain2), {})
    ensures |chain1| > 1 && chain1[0] == m.certValidationSettings.rootCAThumbprint
            && chain1[|chain1| - 1] != m.certValidationSettings.rootCAThumbprint
            ==> !ClientCertValidationCallback(m, true, Some(chain1), {})
  {
  }

  // ------------------------------------------------------------------
  // Per-handshake options

  /** The QuicServerConnectionOptions built for one handshake. The client
      certificate validation callback captures `clientPolicy`, the mapping
      resolved for the handshake's server name. */
  datatype QuicServerOptions = QuicServerOptions(
    defaultStreamErrorCode: int,
    defaultCloseErrorCode: int,
    handshakeTimeout: TimeSpan,
    idleTimeout: TimeSpan,
    applicationProtocols: seq<ApplicationProtocol>,
    serverCertificate: Certificate,
    clientCertificateRequired: bool,
    clientPolicy: HostMapping)

  /** The validation callback the options carry. */
  function ValidateClient(o: QuicServerOptions, certificatePresent: bool, chain: Option<seq<string>>,
                          sslPolicyErrors: set<PolicyError>): (accepted: bool)
    requires ChainReadable(certificatePresent, chain, sslPolicyErrors)
    ensures accepted <==> certificatePresent && chain.Some? && sslPolicyErrors == {}
                          && chain.value[|chain.value| - 1] == o.clientPolicy.certValidationSettings.rootCAThumbprint
  {
    ClientCertValidationCallback(o.clientPolicy, certificatePresent, chain, sslPolicyErrors)
  }

  // ------------------------------------------------------------------
  // The accept loop

  /** An accepted client connection: an identity and the SNI host name it asked for. */
  datatype ClientConnection = ClientConnection(id: nat, targetHostName: string)

  /** One `AcceptConnectionAsync` outcome. */
  datatype ListenerAccept = Accepted(connection: ClientConnection) | AcceptThrew(fault: Fault)

  /** Why the accept loop ended: the loop head saw the cancellation, the
      accept was cancelled (both silent), the accept threw something else
      (logged), or the loop is still waiting for a connection. */
  datatype AcceptLoopEnd = LoopCancelled | AcceptCanceled | AcceptError(fault: Fault) | AwaitingConnection

  datatype AcceptLoopResult = AcceptLoopResult(dispatched: seq<ClientConnection>, end: AcceptLoopEnd)

  /** The loop of AcceptConnectionsAsync over `accepts`, the token being
      found cancelled from loop-head test number `cancelAfter` on. */
  function AcceptLoop(accepts: seq<ListenerAccept>, cancelAfter: nat): (r: AcceptLoopResult)
    // at most one dispatch per accept, and at most `cancelAfter` iterations
    ensures |r.dispatched| <= |accepts| && |r.dispatched| <= cancelAfter
    // it waits only once every outcome has been used before the cancellation is seen
    ensures r.end == AwaitingConnection ==> cancelAfter > |accepts|
    decreases |accepts|
  {
    if cancelAfter == 0 then AcceptLoopResult([], LoopCancelled)
    else if accepts == [] then AcceptLoopResult([], AwaitingConnection)
    else match accepts[0]
      case Accepted(c) =>
        var rest := AcceptLoop(accepts[1..], cancelAfter - 1);
        AcceptLoopResult([c] + rest.dispatched, rest.end)
      case AcceptThrew(f) =>
        AcceptLoopResult([], if f == Cancelled then AcceptCanceled else AcceptError(f))
  }

  /** Index of the first accept that threw, or the number of outcomes. */
  function FirstAcceptFailure(accepts: seq<ListenerAccept>): (k: nat)
    ensures k <= |accepts|
    ensures forall i :: 0 <= i < k ==> accepts[i].Accepted?
    ensures k < |accepts| ==> accepts[k].AcceptThrew?
  {
    if accepts == [] || accepts[0].AcceptThrew? then 0
    else 1 + FirstAcceptFailure(accepts[1..])
  }

  /** Every connection accepted before the loop stops is dispatched exactly
      once, in the order accepted; any exception from an accept ends the
      loop, logged unless it is a cancellation. */
  lemma {:induction false} AcceptLoopDispatchesEachConnectionOnce(accepts: seq<ListenerAccept>, cancelAfter: nat)
    ensures var r := AcceptLoop(accepts, cancelAfter);
      var k := FirstAcceptFailure(accepts);
      && |r.dispatched| == Min(cancelAfter, k)
      && (forall i :: 0 <= i < |r.dispatched| ==> accepts[i] == Accepted(r.dispatched[i]))
      && r.end == (if cancelAfter <= k then LoopCancelled
                   else if k == |accepts| then AwaitingConnection
                   else if accepts[k].fault == Cancelled then AcceptCanceled
                   else AcceptError(accepts[k].fault))
  {
    if cancelAfter == 0 || accepts == [] || accepts[0].AcceptThrew? {
    } else {
      AcceptLoopDispatchesEachConnectionOnce(accepts[1..], cancelAfter - 1);
      var r := AcceptLoop(accepts, cancelAfter);
      var rest := AcceptLoop(accepts[1..], cancelAfter - 1);
      assert r.dispatched == [accepts[0].connection] + rest.dispatched;
      forall i | 0 <= i < |r.dispatched|
        ensures accepts[i] == Accepted(r.dispatched[i])
      {
        if i > 0 {
          assert accepts[1..][i - 1] == accepts[i];
        }
      }
    }
  }

  /** A server started again after StopAsync runs its accept loop with a
      token that is already cancelled, so it takes no connection at all. */
  lemma RestartedLoopAcceptsNothing(accepts: seq<ListenerAccept>)
    ensures AcceptLoop(accepts, 0).dispatched == []
    ensures AcceptLoop(accepts, 0).end == LoopCancelled
  {
  }

  /** AcceptConnectionsAsync. */
  method AcceptConnections(accepts: seq<ListenerAccept>, cancelAfter: nat)
    returns (dispatched: seq<ClientConnection>, end: AcceptLoopEnd)
    ensures AcceptLoopResult(dispatched, end) == AcceptLoop(accepts, cancelAfter)
  {
    dispatched := [];
    end := LoopCancelled;
    var i := 0;
    while i < cancelAfter
      invariant i <= cancelAfter && i <= |accepts|
      invariant end == LoopCancelled
      invariant AcceptLoop(accepts, cancelAfter).dispatched == dispatched + AcceptLoop(accepts[i..], cancelAfter - i).dispatched
      invariant AcceptLoop(accepts, cancelAfter).end == AcceptLoop(accepts[i..], cancelAfter - i).end
    {
      if i == |accepts| {
        assert accepts[i..] == [];
        end := AwaitingConnection;
        break;
      }
      assert accepts[i..][0] == accepts[i] && accepts[i..][1..] == accepts[i + 1..];
      match accepts[i] {
        case Accepted(c) =>
          dispatched := dispatched + [c];
        case AcceptThrew(f) =>
          end := if f == Cancelled then AcceptCanceled else AcceptError(f);
          break;
      }
      i := i + 1;
    }
    assert dispatched + [] == dispatched;
  }

  /** The end of the accept task: both catch clauses swallow every
      exception, so it never faults and is never canceled. */
  function AcceptTaskEnd(end: AcceptLoopEnd): (t: TaskEnd)
    ensures t == Pending <==> end == AwaitingConnection
    ensures t != Pending ==> t == RanToCompletion
  {
    if end == AwaitingConnection then Pending else RanToCompletion
  }

  /** The task each accepted connection runs: the connection handler, then
      the connection's disposal in a `finally`, on every way out of the
      handler. The handler's exception, if any, is the task's end. */
  method ServeConnection(resolver: HostResolver, connection: ClientConnection, b: Backend,
                         clientStream: Destination, networkStream: Destination)
    returns (events: seq<HandlerEvent>, end: TaskEnd, connectionDisposed: bool)
    requires clientStream != networkStream
    modifies clientStream, networkStream
    ensures Handled(events, end) == HandlerSpec(resolver.ResolveHostname(connection.targetHostName), b)
    ensures connectionDisposed <==> end != Pending
  {
    events, end := HandleClientConnection(resolver, connection.targetHostName, b, clientStream, networkStream);
    connectionDisposed := end != Pending;
  }

  // ------------------------------------------------------------------
  // The server object

  /** A QuicListener, numbered in creation order. */
  datatype Listener = Listener(generation: nat, ip: string, port: int32, applicationProtocols: seq<ApplicationProtocol>)

  /** The running AcceptConnectionsAsync task of the listener with the same
      generation, and whether its token was already cancelled when it began. */
  datatype AcceptTask = AcceptTask(generation: nat, tokenCancelledAtStart: bool)

  datatype StartOutcome = Started | AlreadyRunning | ObjectDisposed | ListenFailed(fault: Fault)

  /** The end of the StartAsync task: InvalidOperationException when a
      listener exists, ObjectDisposedException once the token source is
      disposed, or whatever listening threw. */
  function StartTaskEnd(outcome: StartOutcome): (t: TaskEnd)
    ensures t == RanToCompletion <==> outcome == Started
    ensures t != Pending
    // InvalidOperationException and ObjectDisposedException fault the task
    ensures outcome == AlreadyRunning || outcome == ObjectDisposed ==> t == Faulted(OtherError)
    ensures outcome.ListenFailed? ==> t == Escaped(outcome.fault)
  {
    match outcome
    case Started => RanToCompletion
    case AlreadyRunning => Faulted(OtherError)
    case ObjectDisposed => Faulted(OtherError)
    case ListenFailed(f) => Escaped(f)
  }

  /** NotRunning: no listener, nothing done. StillWaiting: cancellation was
      requested but the accept task has not ended, so StopAsync has not
      returned. Stopped: the listener was disposed; `errorLogged` when the
      awaited task faulted. */
  datatype StopOutcome = NotRunning | StillWaiting | Stopped(errorLogged: bool)

  class QuicProxyServer {
    const alpnList: seq<ApplicationProtocol>
    const hostResolver: HostResolver
    /** `certResolver`, answering None where the C# delegate throws. */
    const certResolver: string -> Option<Certificate>

    /** Whether `_cts` has been cancelled; nothing ever resets it. */
    var cancellationRequested: bool
    /** Whether `_cts` has been disposed. */
    var ctsDisposed: bool
    var listener: Option<Listener>
    var listenerTask: Option<AcceptTask>
    /** How many listeners StartAsync has created. */
    var listenersCreated: nat
    /** The generations of the listeners disposed of, in order. */
    var disposedListeners: seq<nat>

    /** The listener and its accept task exist together and belong to the
        newest listener; every older listener has been disposed exactly
        once, in creation order; after disposal nothing is listening. */
    ghost predicate Valid()
      reads this
    {
      && (listener.Some? <==> listenerTask.Some?)
      && (listener.Some? ==> listenersCreated > 0
                             && listener.value.generation == listenersCreated - 1
                             && listenerTask.value.generation == listenersCreated - 1)
      && |disposedListeners| == (if listener.Some? then listenersCreated - 1 else listenersCreated)
      && (forall i :: 0 <= i < |disposedListeners| ==> disposedListeners[i] == i)
      && (ctsDisposed ==> listener.None?)
    }

    constructor (alpnList: seq<ApplicationProtocol>, hostResolver: HostResolver, certResolver: string -> Option<Certificate>)
      ensures Valid()
      ensures this.alpnList == alpnList && this.hostResolver == hostResolver && this.certResolver == certResolver
      ensures !cancellationRequested && !ctsDisposed && listener.None? && listenerTask.None?
      ensures listenersCreated == 0 && disposedListeners == []
    {
      this.alpnList := alpnList;
      this.hostResolver := hostResolver;
      this.certResolver := certResolver;
      cancellationRequested := false;
      ctsDisposed := false;
      listener := None;
      listenerTask := None;
      listenersCreated := 0;
      disposedListeners := [];
    }

    /** StartAsync. `listenFault` is what QuicListener.ListenAsync throws, if anything. */
    method StartAsync(ipAddress: string, port: int32, listenFault: Option<Fault>) returns (outcome: StartOutcome)
      requires Valid()
      modifies this
      ensures Valid()
      ensures old(listener).Some? ==> outcome == AlreadyRunning
      ensures old(listener).None? && old(ctsDisposed) ==> outcome == ObjectDisposed
      ensures old(listener).None? && !old(ctsDisposed) ==>
                outcome == if listenFault.Some? then ListenFailed(listenFault.value) else Started
      ensures outcome != Started ==> unchanged(this)
      ensures outcome == Started ==>
        && listener == Some(Listener(old(listenersCreated), ipAddress, port, alpnList))
        && listenerTask == Some(AcceptTask(old(listenersCreated), cancellationRequested))
        && listenersCreated == old(listenersCreated) + 1
        && disposedListeners == old(disposedListeners)
        && cancellationRequested == old(cancellationRequested) && ctsDisposed == old(ctsDisposed)
    {
      if listener.Some? {
        return AlreadyRunning;
      }
      if ctsDisposed {
        // reading `_cts.Token` to pass it to ListenAsync
        return ObjectDisposed;
      }
      if listenFault.Some? {
        return ListenFailed(listenFault.value);
      }
      listener := Some(Listener(listenersCreated, ipAddress, port, alpnList));
      listenerTask := Some(AcceptTask(listenersCreated, cancellationRequested));
      listenersCreated := listenersCreated + 1;
      outcome := Started;
    }

    /** StopAsync. `acceptTaskEnd` is the state the awaited accept task is
        in once cancellation has been requested. */
    method StopAsync(acceptTaskEnd: TaskEnd) returns (outcome: StopOutcome)
      requires Valid()
      modifies this
      ensures Valid()
      ensures old(listener).None? ==> outcome == NotRunning && unchanged(this)
      ensures old(listener).Some? && acceptTaskEnd == Pending ==>
        && outcome == StillWaiting && cancellationRequested
        && listener == old(listener) && listenerTask == old(listenerTask)
        && disposedListeners == old(disposedListeners)
      ensures old(listener).Some? && acceptTaskEnd != Pending ==>
        && outcome == Stopped(acceptTaskEnd.Faulted?) && cancellationRequested
        && listener.None? && listenerTask.None?
        && disposedListeners == old(disposedListeners) + [old(listener).value.generation]
      ensures listenersCreated == old(listenersCreated) && ctsDisposed == old(ctsDisposed)
    {
      if listener.None? || listenerTask.None? {
        return NotRunning;
      }
      cancellationRequested := true;
      if acceptTaskEnd == Pending {
        return StillWaiting;
      }
      // a Canceled task is swallowed silently, a Faulted one logged
      var errorLogged := acceptTaskEnd.Faulted?;
      disposedListeners := disposedListeners + [listener.value.generation];
      listener := None;
      listenerTask := None;
      outcome := Stopped(errorLogged);
    }

    /** DisposeAsync: stop, then dispose of the token source. */
    method DisposeAsync(acceptTaskEnd: TaskEnd) returns (outcome: StopOutcome)
      requires Valid()
      modifies this
      ensures Valid()
      ensures old(listener).None? ==> outcome == NotRunning
      ensures old(listener).Some? ==>
                outcome == if acceptTaskEnd == Pending then StillWaiting else Stopped(acceptTaskEnd.Faulted?)
      ensures cancellationRequested == (old(cancellationRequested) || old(listener).Some?)
      ensures ctsDisposed <==> old(ctsDisposed) || outcome != StillWaiting
      ensures outcome != StillWaiting ==> listener.None? && listenerTask.None?
      ensures outcome == StillWaiting ==> listener == old(listener) && listenerTask == old(listenerTask)
      ensures old(listener).None? ==> disposedListeners == old(disposedListeners)
      ensures old(listener).Some? && outcome != StillWaiting ==>
                disposedListeners == old(disposedListeners) + [old(listener).value.generation]
      ensures listenersCreated == old(listenersCreated)
    {
      outcome := StopAsync(acceptTaskEnd);
      if outcome != StillWaiting {
        ctsDisposed := true;
      }
    }

    /** GetConnectionOptions for the server name of a client hello. The
        failures are the exceptions the callback raises, earliest first:
        no mapping, no QuicSettings, an ALPN name that is not 1 to 255
        UTF-8 bytes, no certificate for the name. */
    function GetConnectionOptions(serverName: string): (r: Result<QuicServerOptions, OptionsError>)
      reads hostResolver
      ensures var m := hostResolver.ResolveHostname(serverName);
        && (r == Err(UnknownHost) <==> m.None?)
        && (r == Err(MissingQuicSettings) <==> m.Some? && m.value.quicSettings.None?)
        && (r == Err(InvalidAlpn) <==> m.Some? && m.value.quicSettings.Some?
                                       && NewApplicationProtocol(m.value.quicSettings.value.alpn).None?)
        && (r == Err(MissingCertificate) <==> m.Some? && m.value.quicSettings.Some?
                                              && NewApplicationProtocol(m.value.quicSettings.value.alpn).Some?
                                              && certResolver(serverName).None?)
        && (r.Ok? <==> m.Some? && m.value.quicSettings.Some?
                       && NewApplicationProtocol(m.value.quicSettings.value.alpn).Some?
                       && certResolver(serverName).Some?)
      ensures r.Ok? ==>
        var m := hostResolver.ResolveHostname(serverName).value;
        var qs := m.quicSettings.value;
        && r.value.defaultStreamErrorCode == qs.defaultStreamErrorCode as int
        && r.value.defaultCloseErrorCode == qs.defaultCloseErrorCode as int
        && r.value.handshakeTimeout.totalSeconds == qs.handshakeTimeoutInSeconds as int
        && r.value.idleTimeout.totalSeconds == 60 * qs.idleTimeoutInSeconds as int
        && r.value.applicationProtocols == [ApplicationProtocol(qs.alpn)]
        && Some(r.value.serverCertificate) == certResolver(serverName)
        && r.value.clientCertificateRequired
        && r.value.clientPolicy == m
    {
      match hostResolver.ResolveHostname(serverName)
      case None => Err(UnknownHost)
      case Some(hostMapping) =>
        match hostMapping.quicSettings
        case None => Err(MissingQuicSettings)
        case Some(quicSettings) =>
          match NewApplicationProtocol(quicSettings.alpn)
          case None => Err(InvalidAlpn)
          case Some(alpn) =>
            match certResolver(serverName)
            case None => Err(MissingCertificate)
            case Some(certificate) =>
              Ok(QuicServerOptions(
                quicSettings.defaultStreamErrorCode as int, quicSettings.defaultCloseErrorCode as int,
                FromSeconds(quicSettings.handshakeTimeoutInSeconds), FromMinutes(quicSettings.idleTimeoutInSeconds),
                [alpn], certificate, true, hostMapping))
    }
  }

  /** The client leg and the backend leg of a QUIC-to-QUIC host are set up
      from the same QuicSettings: the same error codes, timeouts and ALPN. */
  lemma BothLegsShareTheHostSettings(server: QuicProxyServer, m: HostMapping)
    requires server.hostResolver.ResolveHostname(m.hostName) == Some(m)
    requires ClientConnectionOptions(m).Ok? && server.certResolver(m.hostName).Some?
    ensures server.GetConnectionOptions(m.hostName).Ok?
    ensures var s := server.GetConnectionOptions(m.hostName).value;
      var c := ClientConnectionOptions(m).value;
      && s.defaultStreamErrorCode == c.defaultStreamErrorCode
      && s.defaultCloseErrorCode == c.defaultCloseErrorCode
      && s.handshakeTimeout == c.handshakeTimeout && s.idleTimeout == c.idleTimeout
      && s.applicationProtocols == c.applicationProtocols
  {
  }

  /** The accept task a StopAsync awaits never faults, so stopping never
      logs an error. */
  lemma StoppingNeverLogsForTheAcceptLoop(accepts: seq<ListenerAccept>, cancelAfter: nat)
    ensures !AcceptTaskEnd(AcceptLoop(accepts, cancelAfter).end).Faulted?
  {
  }

  /** Start, stop, start again with the same server: the second listener is
      a new one, the first has been disposed of, and the second accept loop
      begins with its token cancelled. */
  method RestartAfterStop(server: QuicProxyServer, ipAddress: string, port: int32)
    requires server.Valid() && server.listener.None? && !server.ctsDisposed
    modifies server
    ensures server.Valid()
    ensures server.listener.Some? && server.listenerTask == Some(AcceptTask(old(server.listenersCreated) + 1, true))
    ensures server.disposedListeners == old(server.disposedListeners) + [old(server.listenersCreated)]
  {
    var first := server.StartAsync(ipAddress, port, None);
    var stopped := server.StopAsync(RanToCompletion);
    var second := server.StartAsync(ipAddress, port, None);
  }
}
