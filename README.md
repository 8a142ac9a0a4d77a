# QuicProxy core in Dafny

QuicProxy is a reverse proxy that terminates client QUIC connections. It
picks a backend from the TLS server name (SNI) of each handshake and relays
every client stream to that backend. A QUIC backend gets one outbound QUIC
stream per client stream. A TCP backend gets one TCP connection, with the
first client stream relayed over it.

This project models the decision and state logic of that proxy. It proves
what each part does.

- `Common` (`common.dfy`) holds the shared vocabulary:
  - Option and Result.
  - The 32-bit integer widths of the configuration.
  - The exception kinds the catch clauses tell apart. A QuicException is an IOException, as in .NET.
  - Task end states and `Task.WhenAll`.
  - Time spans.
  - TLS application-protocol names, which must be 1 to 255 UTF-8 bytes.
- `Settings` (`settings.dfy`) holds the configuration records.
- `Routing` (`host_resolver.dfy`) is the routing table: a class over a map from host name to mapping.
- `StreamProxy` (`stream_proxy.dfy`) contains:
  - the two byte pumps, as methods that consume a scripted source and call `Write`, `Flush` and `CompleteWrites` on a `Destination` object;
  - the duplex relay.
- `ConnectionManager` (`connection_manager.dfy`) covers one client connection:
  - the dispatch on the resolved mapping;
  - the outbound QUIC options;
  - the stream-accept loop;
  - the per-stream handler;
  - the QUIC-to-TCP relay.
- `ProxyServer` (`quic_proxy_server.dfy`) contains:
  - the client-certificate decision;
  - the per-handshake options;
  - the `QuicProxyServer` class with its Start/Stop/Dispose state machine;
  - the connection-accept loop and the task run for each connection.
- `Startup` (`program.dfy`) covers the configuration loops of `Main` and the certificate resolver handed to the server.

## How the network is represented

The network is replaced by the outcomes it delivers.

- **Byte pumps.** A pump's source is a sequence of `ReadStep`s, one per loop iteration:
  - `Chunk(bytes)` is a read; an empty chunk is end of stream;
  - `Failure(fault)` is the exception raised by that iteration's read, write or flush.
- **Accept loops.** An accept loop gets the sequence of its accept outcomes.
- **Cancellation.** A loop also gets `cancelAfter`: loop-head tests number `cancelAfter` and later find the token cancelled.
- **Backend connection.** Connecting to a backend either succeeds or throws a given fault.
- **Running out of outcomes.** When a sequence of outcomes runs out, the operation is still waiting. Its task is `Pending`, and nothing in a `finally` after it has happened yet.
- **Concurrency.** The two directions of a relay update disjoint objects, so they are run one after the other. `Task.WhenAll` is a function of the two end states.

## Behaviour of the code worth knowing

- **Idle timeout.** Both legs compute it as `TimeSpan.FromMinutes` of the setting named `IdleTimeoutInSeconds`, so the configured number is read as minutes. The model computes it as the code does. `ConnectionManager.IdleTimeoutReadAsMinutes` states the consequence.
- **Duplicate host names.** The routing table itself is last-write-wins. Start-up, however, stores each certificate with `Dictionary.Add`, which throws on a second entry for the same host name. So a duplicate host name aborts start-up, after the second entry's route has already replaced the first. A duplicate is therefore never silently overwritten at start-up (`Startup.FirstRejectedEntryAborts`).
- **TCP entries without QuicSettings.** Start-up requires QuicSettings only for QUIC entries. The handshake options read them for every host. A TCP entry without QuicSettings therefore passes start-up and is then refused at every handshake (`Startup.TcpEntryWithoutQuicSettingsIsUnreachable`).
- **Restart.** `StopAsync` cancels the server's one token source, and nothing resets it. A server started again afterwards runs an accept loop whose token is already cancelled, so that loop accepts nothing (`ProxyServer.RestartAfterStop`, `ProxyServer.RestartedLoopAcceptsNothing`). After `DisposeAsync`, reading the token throws ObjectDisposedException, so `StartAsync` fails.
- **Root thumbprint.** The comparison is ordinal. .NET reports thumbprints in upper-case hexadecimal, so a configured thumbprint in lower case never matches. In the model, thumbprints are opaque strings.

## Model

| member | source | states |
|---|---|---|
| Routing.HostResolver.constructor | HostResolver.cs:7 | the table starts empty and every entry is filed under its own host name |
| Routing.HostResolver.AddMapping | HostResolver.cs:9-22 | the name now resolves to a mapping holding exactly the arguments; any earlier entry for it is replaced without error (last write wins); every other name resolves as before |
| Routing.HostResolver.ResolveHostname | HostResolver.cs:24-27 | a mapping is found iff the exact (ordinal) name is a key, and then it is that key's entry, filed under that name; otherwise None (null); reading changes nothing |
| Common.WhenAll | StreamProxy.cs:22 | the joined task ends iff both have; it succeeds iff both do; it faults iff either faults, with one of their faults (the first's when both fault) |
| Common.Escaped | ConnectionManager.cs:58-63 | an exception leaving an async method ends its task: canceled exactly for an OperationCanceledException, faulted otherwise; never pending or successful |
| Common.NewApplicationProtocol | Program.cs:54 | a protocol name is accepted iff it is non-empty and at most 255 bytes in UTF-8, and it is kept unchanged |
| StreamProxy.Forwarded | StreamProxy.cs:34-39 | the pump forwards at most one chunk per read, never more chunks than there are reads |
| StreamProxy.ForwardedAreTheLeadingReads | StreamProxy.cs:34 | the k-th forwarded chunk is the k-th read, and it is non-empty |
| StreamProxy.ForwardedStopsAtFirstEnd | StreamProxy.cs:34-39 | the pump forwards every read up to the first one that is empty or fails, and none after it; that read decides the stop reason (end of stream or its fault); still reading iff no read ended the loop |
| StreamProxy.StopReason | StreamProxy.cs:34-46 | the loop is still reading iff every read so far returned a non-empty chunk |
| StreamProxy.Destination.Write | StreamProxy.cs:37 | one write call carrying exactly the chunk is recorded; the half-close state is unchanged |
| StreamProxy.Destination.Flush | StreamProxy.cs:38 | one flush call is recorded; the half-close state is unchanged |
| StreamProxy.Destination.CompleteWrites | StreamProxy.cs:72 | one CompleteWrites call is recorded; it throws the stream's scripted fault, if any, and the stream is half-closed iff it already was or the call succeeded |
| StreamProxy.CopyUntilEnd | StreamProxy.cs:34-39 | the copy loop stops for the reason named by the source (end of stream, failure, still reading), issues exactly the write/flush calls of the forwarded reads, and leaves the half-close state alone |
| StreamProxy.ByteOrderPreserved | StreamProxy.cs:34-39 | the bytes written are the forwarded reads concatenated in read order |
| StreamProxy.EachReadWrittenThenFlushed | StreamProxy.cs:65-70 | the k-th read is the k-th write, alone and of exactly its length (no coalescing), and is followed at once by a flush |
| StreamProxy.DeliveryIndependentOfChunking | StreamProxy.cs:34-39 | two sources delivering the same bytes before end of stream leave the same bytes at the destination, however the reads are sized |
| StreamProxy.StreamPumpEnd | StreamProxy.cs:41-46 | the generic pump ends normally on end of stream or an IOException (QuicException included); any other exception escapes; it is pending iff the source is |
| StreamProxy.ProxyStream | StreamProxy.cs:25-54 | the generic pump writes exactly the forwarded reads, never half-closes its destination, ends as StreamPumpEnd says, and returns its buffer iff it has ended |
| StreamProxy.QuicHalfClose | StreamProxy.cs:72-96 | end of stream gives exactly one CompleteWrites and a clean end on a working stream; an IOException or QuicException gives one best-effort CompleteWrites; another exception escapes without a half-close; never more than two attempts |
| StreamProxy.BestEffortClose | StreamProxy.cs:78-84 | one more CompleteWrites attempt; the pump ends normally iff it succeeds or throws a QuicException |
| StreamProxy.ProxyQuicStream | StreamProxy.cs:56-104 | the QUIC pump writes exactly the forwarded reads, then makes the CompleteWrites attempts QuicHalfClose counts; the destination is half-closed iff one of them succeeded; the buffer is returned iff the pump has ended |
| StreamProxy.ProxyQuicStreams | StreamProxy.cs:14-23 | each stream receives exactly what the QUIC pump from the other stream gives it; the relay's end is WhenAll of the two pumps' ends |
| StreamProxy.RelayWaitsForBoth | StreamProxy.cs:19-22 | the relay has ended iff both directions have stopped reading |
| StreamProxy.TcpRelayEnd | ConnectionManager.cs:105-108 | the two generic pumps of the TCP path end iff both directions have stopped reading, and succeed iff both pumps do |
| ConnectionManager.SelectRoute | ConnectionManager.cs:21-30 | no mapping: no backend; protocol Quic: the QUIC path; any other protocol: the TCP path; the resolved mapping is the one used |
| ConnectionManager.ClientConnectionOptions | ConnectionManager.cs:76-90 | builds the outbound options iff QuicSettings exist and the ALPN name is valid; they copy both error codes, take the handshake timeout in seconds and the idle timeout in minutes of the setting, target the mapping's IP and port, accept any backend certificate, offer the single configured ALPN, and use the host name as the TLS target |
| ConnectionManager.IdleTimeoutReadAsMinutes | ConnectionManager.cs:82 | for any non-zero setting, the idle timeout is not that number of seconds |
| ConnectionManager.ProxyQuicConnectionStreams | ConnectionManager.cs:116-158 | the accept loop spawns handlers for exactly the stream types, and stops for exactly the reason, that StreamLoop gives |
| ConnectionManager.StreamLoop | ConnectionManager.cs:123-144 | the loop spawns at most one handler per accept and per iteration before the cancellation is seen; it waits only after every scripted accept has been used |
| ConnectionManager.StreamLoopSpawnsEveryAcceptedStream | ConnectionManager.cs:123-144 | every stream accepted before the cancellation is seen and before the first QuicException gets one handler, in order; IOExceptions and other exceptions are skipped; the loop ends on the earlier of the two events, or is still waiting |
| ConnectionManager.HandleQuicStream | ConnectionManager.cs:160-179 | opens one outbound stream of the client stream's own type and runs the QUIC relay between them; an open failure is swallowed with the streams untouched; the task never faults |
| ConnectionManager.ProxyQuicToTcp | ConnectionManager.cs:98-114 | accepts one client stream and runs the two generic pumps between it and the network stream; it ends only when both directions have; every exception is swallowed |
| ConnectionManager.HandlerSpec | ConnectionManager.cs:14-64 | an unknown host attempts nothing; a QUIC backend never takes a TCP step and no exception leaves the handler; a TCP backend attempts the connect to the mapped address first, and takes no QUIC step |
| ConnectionManager.QuicBackendPath | ConnectionManager.cs:30-57 | invalid outbound options end the handler at once with no step; otherwise the one connect attempt comes first, a connect failure is its only step, no TCP step is ever taken, and the handler never faults |
| ConnectionManager.TcpBackendPath | ConnectionManager.cs:58-72 | the connect to the mapped IP and port is attempted first and exactly once; a connect failure escapes the handler as its end; otherwise the handler never faults, with an accepted client stream it ends iff both directions have stopped reading, and the TcpClient is disposed iff the handler has ended; no QUIC step |
| ConnectionManager.TcpPathConnectsOnceAndLetsConnectFailuresEscape | ConnectionManager.cs:58-63 | for a non-QUIC mapping the handler connects exactly once to the mapped address; a connect failure is the handler's only step and escapes as its end; with an accepted client stream the handler ends iff both pumps have |
| ConnectionManager.ServeQuicBackend | ConnectionManager.cs:30-57 | the QUIC branch takes exactly the steps and end of QuicBackendPath |
| ConnectionManager.ServeTcpBackend | ConnectionManager.cs:58-72 | the TCP branch takes exactly the steps and end of TcpBackendPath; once connected with an accepted client stream, the network stream receives exactly the client's forwarded reads and the client stream the backend's, with no half-close; otherwise neither stream is touched |
| ConnectionManager.HandleClientConnection | ConnectionManager.cs:14-64 | the handler's steps and end are those of HandlerSpec on what the table resolves for the target host; only the TCP path writes to the client stream and the network stream, exactly what its two pumps forward |
| ConnectionManager.QuicBackendDisposedOnEveryExit | ConnectionManager.cs:36-43 | once connected, the QUIC backend connection is disposed iff the handler has ended, exactly once, as its last step |
| ConnectionManager.QuicModeSpawnsOneHandlerPerStream | ConnectionManager.cs:123-144 | after the connect attempt, the handler spawns one stream handler per stream accepted before the loop stopped, in order at the positions right after it; the disposal follows iff the handler has ended, and there is no other step |
| ProxyServer.ClientCertValidationCallback | QuicProxyServer.cs:105-133 | refuses a missing certificate or chain and any policy error; otherwise accepts iff the root (last) thumbprint of the chain equals the configured one, character for character |
| ProxyServer.TenantAndGroupsNeverConsulted | QuicProxyServer.cs:122-132 | the decision depends on the policy only through the root thumbprint; the tenant and group identifiers never matter |
| ProxyServer.OnlyTheRootIsConsulted | QuicProxyServer.cs:119-124 | chains with the same root get the same decision; a leaf carrying the configured thumbprint does not help |
| ProxyServer.ValidateClient | QuicProxyServer.cs:98 | the callback in the handshake options accepts iff the certificate is present with a chain, there are no policy errors, and the root is that of the policy it captured |
| ProxyServer.QuicProxyServer.GetConnectionOptions | QuicProxyServer.cs:81-103 | fails with exactly one error, checked in this order: iff the server name is unknown; iff QuicSettings are missing; iff the ALPN name is invalid; iff no certificate resolves for the name; otherwise it succeeds, copies both codes, the handshake seconds and the idle minutes, offers the one ALPN, presents the certificate resolved for the name, requires a client certificate, and validates it against the mapping resolved for the name |
| ProxyServer.BothLegsShareTheHostSettings | QuicProxyServer.cs:87-95 | for a reachable QUIC host, the client leg and the backend leg get the same error codes, timeouts and ALPN |
| ProxyServer.QuicProxyServer.constructor | QuicProxyServer.cs:12-24 | a new server keeps its ALPN list, routing table and certificate resolver; nothing is listening, cancelled or disposed |
| ProxyServer.QuicProxyServer.StartAsync | QuicProxyServer.cs:26-43 | when a listener exists, fails (InvalidOperationException) and changes nothing; after disposal, fails (ObjectDisposedException); if listening throws, fails with that; otherwise creates a new listener on the endpoint with the ALPN list and starts its accept task, whose token is cancelled iff stop had already been requested |
| ProxyServer.StartTaskEnd | QuicProxyServer.cs:28-40 | StartAsync completes normally iff it started a listener; an existing listener or a disposed server faults its task; a listening failure is its task's end |
| ProxyServer.QuicProxyServer.StopAsync | QuicProxyServer.cs:45-73 | with no listener, does nothing; otherwise requests cancellation and, once the accept task has ended, disposes the current listener exactly once and clears both fields, logging an error only for a faulted task; the invariant keeps every listener disposed at most once, in order |
| ProxyServer.QuicProxyServer.DisposeAsync | QuicProxyServer.cs:75-79 | returns StopAsync's outcome (not running; still waiting, with listener and task kept; stopped, faulted or not); requests cancellation iff a listener existed; then disposes the token source unless the stop is still waiting |
| ProxyServer.RestartAfterStop | QuicProxyServer.cs:26-73 | start, stop, start: the first listener is disposed, and the second accept task starts with its token already cancelled |
| ProxyServer.AcceptConnections | QuicProxyServer.cs:135-164 | the accept loop dispatches exactly the connections, and ends for exactly the reason, that AcceptLoop gives |
| ProxyServer.AcceptLoop | QuicProxyServer.cs:139-163 | the loop dispatches at most one connection per accept and per iteration before the cancellation is seen; it waits only after every scripted accept has been used |
| ProxyServer.AcceptLoopDispatchesEachConnectionOnce | QuicProxyServer.cs:139-163 | every connection accepted before cancellation is seen and before the first accept exception is dispatched exactly once, in order; any exception ends the loop, logged unless it is a cancellation |
| ProxyServer.RestartedLoopAcceptsNothing | QuicProxyServer.cs:139 | a loop begun with a cancelled token dispatches nothing |
| ProxyServer.AcceptTaskEnd | QuicProxyServer.cs:157-163 | the accept task never faults and is never canceled; it is pending iff it is still waiting for a connection |
| ProxyServer.StoppingNeverLogsForTheAcceptLoop | QuicProxyServer.cs:54-64 | the task StopAsync awaits never faults, so StopAsync's error-logging branch is never taken |
| ProxyServer.ServeConnection | QuicProxyServer.cs:144-154 | a dispatched connection runs the handler, and is disposed iff the handler has ended, whichever way it ended |
| Startup.LoadServerConfigs | Program.cs:35-49 | the routing table and certificate dictionary end as the entry-by-entry fold Load gives, stopping at the first rejected entry |
| Startup.Step | Program.cs:37-48 | an entry is taken iff it has its settings and a new host name, otherwise the error names it; a QUIC entry without settings touches neither table; any other entry's route is stored, replacing only that host's earlier route; a certificate is added only for a taken entry, and none is replaced |
| Startup.Load | Program.cs:35-49 | a failure is final; routes and certificates are only ever added, and no certificate is replaced |
| Startup.LoadSucceedsIffAllAcceptable | Program.cs:41-48 | start-up gets through the entries iff no QUIC entry lacks QuicSettings and the host names are distinct |
| Startup.LoadedWhenNoEntryRejected | Program.cs:47-48 | after a successful pass, every entry is registered under its host name, with its own mapping and its own certificate; nothing else is added |
| Startup.LoadedKeys | Program.cs:47-48 | after a successful pass, both tables hold exactly the earlier keys and the entries' host names, and other hosts keep their routes |
| Startup.LoadedEntries | Program.cs:47-48 | after a successful pass, each entry's host holds that entry's mapping and certificate |
| Startup.FirstRejectedEntryAborts | Program.cs:41-48 | the first rejected entry aborts start-up with its own error and nothing after it is read; a QUIC entry without settings leaves the tables as they were; a duplicate name has already replaced its route but keeps the first certificate |
| Startup.BuildAlpnList | Program.cs:51-55 | one protocol per configured name, with the same length and order; otherwise the index of the first invalid name |
| Startup.CertificateResolver | Program.cs:57 | the resolver finds a certificate exactly for the host names in the dictionary, and it is that host's certificate |
| Startup.CreateServer | Program.cs:35-57 | a rejected entry stops start-up with its error iff the entries fail to load; after a successful load, start-up stops exactly when some ALPN name is invalid, at the first such name; otherwise a server over the loaded table, with the ordered ALPN list and the dictionary resolver, is created and is not yet listening |
| Startup.TcpEntryWithoutQuicSettingsIsUnreachable | Program.cs:41-47 | a TCP entry without QuicSettings passes start-up but is refused at every handshake |

## Left out

- Real QUIC, TLS and TCP I/O: the listener, the connections, the streams, TcpClient and NetworkStream are replaced by scripted outcomes.
- Logging. The only log fact kept is whether StopAsync logs an error.
- JSON deserialisation and file reading at start-up, and the console interaction after the server starts. Loading an X.509 certificate from its file always succeeds in the model, and a certificate stands for the path it came from.
- `IPAddress.Parse` and `IPEndPoint` construction, including their exceptions. The IP stays a string and the port a 32-bit integer. A listening failure is the `listenFault` parameter of StartAsync.
- X.509 parsing and thumbprint computation. A chain is its sequence of thumbprints, leaf first.
- ArrayPool internals. "The buffer is returned" is a flag set on every exit path. The rented array may be larger than the requested 8192 bytes, so reads are not bounded.
- The `ProtocolType` enumeration is not part of this model's sources. It is modelled as `Quic` and one other value, and every value other than `Quic` takes the TCP path.
- Disposal of the accepted client QuicStreams, and of the TcpClient when connecting to a TCP backend throws. Neither is modelled.
- ProxyServer.AcceptConnections: does not model `Task.Run` being handed a token cancelled just after an accept. There the connection's task never runs, so the connection is never disposed.
- ConnectionManager.ProxyQuicConnectionStreams: does not model the same `Task.Run` race for an accepted stream.
- ConnectionManager.ProxyQuicConnectionStreams: `cancelAfter` is independent of the accept outcomes. An accept that throws OperationCanceledException does not force the next loop-head test to see the cancellation.
- ProxyServer.ClientCertValidationCallback: requires a non-empty chain on the path that reads its last element. The code indexes the chain without checking, and the model does not say what .NET passes there.
- StreamProxy.ProxyStream and StreamProxy.ProxyQuicStream: a failed write or flush counts as a failure of that loop iteration. What a partly failed write delivered is not modelled, and neither is the log message that follows a read.
- Stream writes and half-closes are recorded as calls on a `Destination`. What the peer then reads is not modelled.
- ConnectionManager.HandleClientConnection: connecting to the backend (`TcpClient.ConnectAsync` at ConnectionManager.cs:69, `QuicConnection.ConnectAsync` at ConnectionManager.cs:92) and the single `AcceptInboundStreamAsync` of the TCP path (ConnectionManager.cs:102) always complete or throw in the model. In the code each can wait forever, leaving the handler pending before its first pump.
- ConnectionManager.HandleQuicStream: `OpenOutboundStreamAsync` (ConnectionManager.cs:164) always completes or throws in the model; in the code it can wait forever.
