/** The byte pump (StreamProxy.cs): copy one direction of a stream until end
    of stream or failure, writing and flushing every read at once, and the
    duplex relay that runs one pump per direction and waits for both.

    A source is the sequence of outcomes of the pump's loop iterations: a
    `Chunk` is the data one read returned (an empty chunk is end of stream)
    and a `Failure` is the exception raised by that iteration's read, write
    or flush. A source that runs out without either is a stream that has not
    ended yet. */
module StreamProxy {
  import opened Common

  datatype ReadStep = Chunk(data: seq<byte>) | Failure(fault: Fault)

  /** What the write side of a stream is asked to do. */
  datatype WriteOp = WriteCall(data: seq<byte>) | FlushCall | CompleteWritesCall

  /** The write side of a stream, recording every call made on it. */
  class Destination {
    var ops: seq<WriteOp>
    /** Whether the write side has been half-closed (QuicStream.CompleteWrites succeeded). */
    var writesCompleted: bool
    /** None if CompleteWrites succeeds on this stream; otherwise the exception it throws. */
    const completeWritesFault: Option<Fault>

    constructor (completeWritesFault: Option<Fault>)
      ensures ops == [] && !writesCompleted
      ensures this.completeWritesFault == completeWritesFault
    {
      ops := [];
      writesCompleted := false;
      this.completeWritesFault := completeWritesFault;
    }

    method Write(data: seq<byte>)
      modifies this
      ensures ops == old(ops) + [WriteCall(data)]
      ensures writesCompleted == old(writesCompleted)
    {
      ops := ops + [WriteCall(data)];
    }

    method Flush()
      modifies this
      ensures ops == old(ops) + [FlushCall]
      ensures writesCompleted == old(writesCompleted)
    {
      ops := ops + [FlushCall];
    }

    method CompleteWrites() returns (thrown: Option<Fault>)
      modifies this
      ensures thrown == completeWritesFault
      ensures ops == old(ops) + [CompleteWritesCall]
      ensures writesCompleted == (old(writesCompleted) || completeWritesFault.None?)
    {
      ops := ops + [CompleteWritesCall];
      thrown := completeWritesFault;
      if thrown.None? {
        writesCompleted := true;
      }
    }
  }

  // ------------------------------------------------------------------
  // Specification of one copy loop

  /** The chunks the loop forwards: every read before the first empty read
      or failure. */
  function Forwarded(source: seq<ReadStep>): (chunks: seq<seq<byte>>)
    ensures |chunks| <= |source|
  {
    if source == [] then []
    else match source[0]
      case Chunk(d) => if d == [] then [] else [d] + Forwarded(source[1..])
      case Failure(_) => []
  }

  /** Why the copy loop stops. */
  datatype Stop = EndOfStream | Failed(fault: Fault) | StillReading

  function StopReason(source: seq<ReadStep>): (r: Stop)
    // still reading exactly when every step so far was a non-empty read
    ensures r == StillReading <==> forall i :: 0 <= i < |source| ==> source[i].Chunk? && source[i].data != []
  {
    if source == [] then StillReading
    else match source[0]
      case Chunk(d) => if d == [] then EndOfStream else StopReason(source[1..])
      case Failure(f) => Failed(f)
  }

  /** Each forwarded chunk becomes one write of exactly that chunk followed by
      one flush. */
  function CopyOps(chunks: seq<seq<byte>>): seq<WriteOp> {
    if chunks == [] then [] else [WriteCall(chunks[0]), FlushCall] + CopyOps(chunks[1..])
  }

  function Concat(chunks: seq<seq<byte>>): seq<byte> {
    if chunks == [] then [] else chunks[0] + Concat(chunks[1..])
  }

  /** The bytes a sequence of calls writes, in order. */
  function WrittenBytes(ops: seq<WriteOp>): seq<byte> {
    if ops == [] then []
    else (if ops[0].WriteCall? then ops[0].data else []) + WrittenBytes(ops[1..])
  }

  lemma {:induction false} CopyOpsAppend(chunks: seq<seq<byte>>, d: seq<byte>)
    ensures CopyOps(chunks + [d]) == CopyOps(chunks) + [WriteCall(d), FlushCall]
  {
    if chunks != [] {
      assert (chunks + [d])[1..] == chunks[1..] + [d];
      CopyOpsAppend(chunks[1..], d);
    }
  }

  lemma {:induction false} WrittenBytesAppend(a: seq<WriteOp>, b: seq<WriteOp>)
    ensures WrittenBytes(a + b) == WrittenBytes(a) + WrittenBytes(b)
  {
    if a != [] {
      assert (a + b)[0] == a[0];
      assert (a + b)[1..] == a[1..] + b;
      WrittenBytesAppend(a[1..], b);
    } else {
      assert a + b == b;
    }
  }

  /** Byte-order preservation: the destination receives exactly the bytes
      of the forwarded reads, concatenated in read order. */
  lemma {:induction false} ByteOrderPreserved(chunks: seq<seq<byte>>)
    ensures WrittenBytes(CopyOps(chunks)) == Concat(chunks)
  {
    if chunks != [] {
      ByteOrderPreserved(chunks[1..]);
      WrittenBytesAppend([WriteCall(chunks[0]), FlushCall], CopyOps(chunks[1..]));
    }
  }

  /** No coalescing and flush before the next read: the k-th forwarded read
      is the k-th write, alone, and a flush follows it immediately. */
  lemma {:induction false} EachReadWrittenThenFlushed(chunks: seq<seq<byte>>, k: nat)
    requires k < |chunks|
    ensures |CopyOps(chunks)| == 2 * |chunks|
    ensures CopyOps(chunks)[2 * k] == WriteCall(chunks[k])
    ensures CopyOps(chunks)[2 * k + 1] == FlushCall
  {
    if k > 0 {
      EachReadWrittenThenFlushed(chunks[1..], k - 1);
    } else if |chunks| > 1 {
      EachReadWrittenThenFlushed(chunks[1..], 0);
    }
  }

  /** Whatever sizes the individual reads have (one large buffer or many
      small ones), two sources that deliver the same bytes before end of
      stream leave the same bytes at the destination. */
  lemma DeliveryIndependentOfChunking(s1: seq<ReadStep>, s2: seq<ReadStep>)
    requires Concat(Forwarded(s1)) == Concat(Forwarded(s2))
    ensures WrittenBytes(CopyOps(Forwarded(s1))) == WrittenBytes(CopyOps(Forwarded(s2)))
  {
    ByteOrderPreserved(Forwarded(s1));
    ByteOrderPreserved(Forwarded(s2));
  }

  /** One iteration of the copy loop, seen on the remaining source. */
  lemma StepAt(source: seq<ReadStep>, i: nat)
    requires i < |source|
    ensures source[i].Chunk? && source[i].data != [] ==>
              Forwarded(source[i..]) == [source[i].data] + Forwarded(source[i + 1..])
              && StopReason(source[i..]) == StopReason(source[i + 1..])
    ensures !(source[i].Chunk? && source[i].data != []) ==>
              Forwarded(source[i..]) == []
              && StopReason(source[i..]) == (if source[i].Chunk? then EndOfStream else Failed(source[i].fault))
  {
    assert source[i..][0] == source[i];
    assert source[i..][1..] == source[i + 1..];
  }

  /** One iteration of the copy loop, on the ghost record of what has been
      sent: the chunk read at `i` joins it, and what remains to forward and
      the stop reason are those of the rest of the source. */
  lemma CopyStep(source: seq<ReadStep>, i: nat, sent: seq<seq<byte>>)
    requires i < |source| && source[i].Chunk? && source[i].data != []
    requires Forwarded(source) == sent + Forwarded(source[i..])
    requires StopReason(source) == StopReason(source[i..])
    ensures Forwarded(source) == (sent + [source[i].data]) + Forwarded(source[i + 1..])
    ensures StopReason(source) == StopReason(source[i + 1..])
    ensures CopyOps(sent + [source[i].data]) == CopyOps(sent) + [WriteCall(source[i].data), FlushCall]
  {
    StepAt(source, i);
    CopyOpsAppend(sent, source[i].data);
  }

  /** The copy loop's exit: the step at `i` (or the end of the source)
      decides the stop reason, and everything forwarded has been sent. */
  lemma CopyExit(source: seq<ReadStep>, i: nat, sent: seq<seq<byte>>)
    requires i <= |source| && (i == |source| || !(source[i].Chunk? && source[i].data != []))
    requires Forwarded(source) == sent + Forwarded(source[i..])
    requires StopReason(source) == StopReason(source[i..])
    ensures Forwarded(source) == sent
    ensures StopReason(source) == if i == |source| then StillReading
                                  else if source[i].Chunk? then EndOfStream else Failed(source[i].fault)
  {
    if i == |source| {
      assert source[i..] == [];
    } else {
      StepAt(source, i);
    }
    assert sent + [] == sent;
  }

  /** The copy loop shared by both pumps: `while ((bytesRead = read()) > 0)
      { write(buffer[..bytesRead]); flush(); }`. */
  method CopyUntilEnd(source: seq<ReadStep>, destination: Destination) returns (stop: Stop)
    modifies destination
    ensures stop == StopReason(source)
    ensures destination.ops == old(destination.ops) + CopyOps(Forwarded(source))
    ensures destination.writesCompleted == old(destination.writesCompleted)
  {
    var i := 0;
    ghost var sent: seq<seq<byte>> := [];
    while i < |source| && source[i].Chunk? && source[i].data != []
      invariant 0 <= i <= |source|
      invariant Forwarded(source) == sent + Forwarded(source[i..])
      invariant StopReason(source) == StopReason(source[i..])
      invariant destination.ops == old(destination.ops) + CopyOps(sent)
      invariant destination.writesCompleted == old(destination.writesCompleted)
    {
      var bytesRead := source[i].data;
      CopyStep(source, i, sent);
      destination.Write(bytesRead);
      destination.Flush();
      sent := sent + [bytesRead];
      i := i + 1;
    }
    CopyExit(source, i, sent);
    stop := if i == |source| then StillReading else if source[i].Chunk? then EndOfStream else Failed(source[i].fault);
  }

  // ------------------------------------------------------------------
  // The two pumps

  /** How ProxyStreamAsync ends: it catches only IOException (QuicException
      included); any other exception escapes to its task. */
  function StreamPumpEnd(stop: Stop): (t: TaskEnd)
    ensures t == Pending <==> stop == StillReading
    ensures t == RanToCompletion <==> stop == EndOfStream || (stop.Failed? && IsIOException(stop.fault))
    ensures stop.Failed? && !IsIOException(stop.fault) ==> t == Escaped(stop.fault)
  {
    match stop
    case StillReading => Pending
    case EndOfStream => RanToCompletion
    case Failed(f) => if IsIOException(f) then RanToCompletion else Escaped(f)
  }

  /** ProxyStreamAsync: the generic pump. It never half-closes its destination. */
  method ProxyStream(source: seq<ReadStep>, destination: Destination) returns (end: TaskEnd, bufferReturned: bool)
    modifies destination
    ensures destination.ops == old(destination.ops) + CopyOps(Forwarded(source))
    ensures destination.writesCompleted == old(destination.writesCompleted)
    ensures end == StreamPumpEnd(StopReason(source))
    ensures bufferReturned <==> end != Pending
  {
    var stop := CopyUntilEnd(source, destination);
    end := StreamPumpEnd(stop);
    // the `finally` returns the rented buffer once the method has ended
    bufferReturned := end != Pending;
  }

  /** How the catch clauses of ProxyQuicStreamAsync end it: `attempts` is the
      number of CompleteWrites calls made after the copy loop stopped. */
  datatype Closing = Closing(attempts: nat, end: TaskEnd)

  function QuicHalfClose(stop: Stop, closeFault: Option<Fault>): (c: Closing)
    ensures c.end == Pending <==> stop == StillReading
    ensures c.attempts == 0 <==> stop == StillReading || (stop.Failed? && !IsIOException(stop.fault))
    ensures c.attempts <= 2
    // end of stream with a working stream: exactly one half-close, a clean end
    ensures stop == EndOfStream && closeFault.None? ==> c == Closing(1, RanToCompletion)
    // a transport error: one best-effort half-close whose QuicException is swallowed
    ensures stop.Failed? && IsIOException(stop.fault) ==> c.attempts == 1
    ensures (stop.Failed? && IsIOException(stop.fault) && (closeFault.None? || closeFault == Some(QuicError)))
            ==> c.end == RanToCompletion
    // any other exception escapes without a half-close
    ensures stop.Failed? && !IsIOException(stop.fault) ==> c.end == Escaped(stop.fault)
  {
    match stop
    case StillReading => Closing(0, Pending)
    case EndOfStream =>
      (match closeFault
       case None => Closing(1, RanToCompletion)
       // the handler for this exception makes a second, best-effort attempt
       case Some(g) => if IsIOException(g) then BestEffortClose(1, closeFault) else Closing(1, Escaped(g)))
    case Failed(f) =>
      if IsIOException(f) then BestEffortClose(0, closeFault) else Closing(0, Escaped(f))
  }

  /** `try { destination.CompleteWrites(); } catch (QuicException) { }` after
      `made` earlier attempts. */
  function BestEffortClose(made: nat, closeFault: Option<Fault>): (c: Closing)
    ensures c.attempts == made + 1
    ensures c.end == RanToCompletion <==> closeFault.None? || closeFault == Some(QuicError)
    ensures c.end != Pending
  {
    match closeFault
    case None => Closing(made + 1, RanToCompletion)
    case Some(g) => Closing(made + 1, if g == QuicError then RanToCompletion else Escaped(g))
  }

  function Repeat(op: WriteOp, n: nat): (s: seq<WriteOp>)
    ensures |s| == n && forall i :: 0 <= i < n ==> s[i] == op
  {
    if n == 0 then [] else [op] + Repeat(op, n - 1)
  }

  /** The calls the QUIC pump makes on its destination: the copy loop's
      writes and flushes, then its half-close attempts. */
  function QuicPumpOps(source: seq<ReadStep>, closeFault: Option<Fault>): seq<WriteOp> {
    CopyOps(Forwarded(source)) + Repeat(CompleteWritesCall, QuicHalfClose(StopReason(source), closeFault).attempts)
  }

  /** Whether the QUIC pump leaves its destination half-closed. */
  predicate QuicPumpHalfCloses(source: seq<ReadStep>, closeFault: Option<Fault>) {
    QuicHalfClose(StopReason(source), closeFault).attempts > 0 && closeFault.None?
  }

  function QuicPumpEnd(source: seq<ReadStep>, closeFault: Option<Fault>): TaskEnd {
    QuicHalfClose(StopReason(source), closeFault).end
  }

  /** ProxyQuicStreamAsync: the pump towards a QUIC stream, which half-closes
      the destination once its source ends or fails. */
  method ProxyQuicStream(source: seq<ReadStep>, destination: Destination) returns (end: TaskEnd, bufferReturned: bool)
    modifies destination
    ensures destination.ops == old(destination.ops) + QuicPumpOps(source, destination.completeWritesFault)
    ensures destination.writesCompleted == (old(destination.writesCompleted) || QuicPumpHalfCloses(source, destination.completeWritesFault))
    ensures end == QuicPumpEnd(source, destination.completeWritesFault)
    ensures bufferReturned <==> end != Pending
  {
    ghost var copied := old(destination.ops) + CopyOps(Forwarded(source));
    var stop := CopyUntilEnd(source, destination);
    var caught: Option<Fault> := None;  // the exception taken by `catch (QuicException)` or `catch (IOException)`
    end := Pending;
    match stop {
      case StillReading =>
      case EndOfStream =>
        var thrown := destination.CompleteWrites();
        if thrown.None? {
          end := RanToCompletion;
        } else if IsIOException(thrown.value) {
          caught := thrown;
        } else {
          end := Escaped(thrown.value);
        }
      case Failed(f) =>
        if IsIOException(f) {
          caught := Some(f);
        } else {
          end := Escaped(f);
        }
    }
    if caught.Some? {
      var thrown := destination.CompleteWrites();
      end := if thrown.None? || thrown == Some(QuicError) then RanToCompletion else Escaped(thrown.value);
    }
    // the `finally` returns the rented buffer once the method has ended
    bufferReturned := end != Pending;
    assert Repeat(CompleteWritesCall, 2) == [CompleteWritesCall, CompleteWritesCall];
    assert Repeat(CompleteWritesCall, 1) == [CompleteWritesCall];
  }

  /** The end of the duplex relay between a client stream and a server stream. */
  function RelayEnd(clientReads: seq<ReadStep>, serverReads: seq<ReadStep>,
                    serverCloseFault: Option<Fault>, clientCloseFault: Option<Fault>): TaskEnd {
    WhenAll(QuicPumpEnd(clientReads, serverCloseFault), QuicPumpEnd(serverReads, clientCloseFault))
  }

  /** ProxyQuicStreamsAsync: one QUIC pump per direction, client to server and
      server to client, joined with Task.WhenAll. The two directions share no
      state, so running them one after the other gives the same final state
      as any interleaving. */
  method ProxyQuicStreams(clientReads: seq<ReadStep>, serverReads: seq<ReadStep>,
                          clientStream: Destination, serverStream: Destination) returns (end: TaskEnd)
    requires clientStream != serverStream
    modifies clientStream, serverStream
    ensures serverStream.ops == old(serverStream.ops) + QuicPumpOps(clientReads, serverStream.completeWritesFault)
    ensures serverStream.writesCompleted == (old(serverStream.writesCompleted) || QuicPumpHalfCloses(clientReads, serverStream.completeWritesFault))
    ensures clientStream.ops == old(clientStream.ops) + QuicPumpOps(serverReads, clientStream.completeWritesFault)
    ensures clientStream.writesCompleted == (old(clientStream.writesCompleted) || QuicPumpHalfCloses(serverReads, clientStream.completeWritesFault))
    ensures end == RelayEnd(clientReads, serverReads, serverStream.completeWritesFault, clientStream.completeWritesFault)
  {
    var clientToServer, _ := ProxyQuicStream(clientReads, serverStream);
    var serverToClient, _ := ProxyQuicStream(serverReads, clientStream);
    end := WhenAll(clientToServer, serverToClient);
  }

  /** Completion symmetry of the relay: it is over exactly when both
      directions are, so a direction that reached end of stream first does
      not cut off data still flowing the other way. */
  lemma RelayWaitsForBoth(clientReads: seq<ReadStep>, serverReads: seq<ReadStep>,
                          serverCloseFault: Option<Fault>, clientCloseFault: Option<Fault>)
    ensures RelayEnd(clientReads, serverReads, serverCloseFault, clientCloseFault) != Pending
            <==> StopReason(clientReads) != StillReading && StopReason(serverReads) != StillReading
  {
  }

  /** The relay between a QUIC client stream and a TCP network stream
      (two generic pumps joined with Task.WhenAll). */
  function TcpRelayEnd(clientReads: seq<ReadStep>, backendReads: seq<ReadStep>): (t: TaskEnd)
    ensures t != Pending <==> StopReason(clientReads) != StillReading && StopReason(backendReads) != StillReading
    ensures t == RanToCompletion <==>
              StreamPumpEnd(StopReason(clientReads)) == RanToCompletion && StreamPumpEnd(StopReason(backendReads)) == RanToCompletion
  {
    WhenAll(StreamPumpEnd(StopReason(clientReads)), StreamPumpEnd(StopReason(backendReads)))
  }

  /** The loop stops at the first step that is not a non-empty read: every
      step before it was forwarded, and that step alone decides why the loop
      stopped. With ForwardedAreTheLeadingReads this pins down Forwarded: it
      is all the non-empty reads up to the first empty read or failure. */
  lemma {:induction false} ForwardedStopsAtFirstEnd(source: seq<ReadStep>)
    ensures var k := |Forwarded(source)|;
      && k <= |source|
      && (forall i :: 0 <= i < k ==> source[i].Chunk? && source[i].data != [])
      && (k == |source| ==> StopReason(source) == StillReading)
      && (k < |source| ==> !(source[k].Chunk? && source[k].data != [])
                           && StopReason(source) == if source[k].Chunk? then EndOfStream else Failed(source[k].fault))
  {
    if source != [] && source[0].Chunk? && source[0].data != [] {
      ForwardedStopsAtFirstEnd(source[1..]);
      var k := |Forwarded(source)|;
      assert k == 1 + |Forwarded(source[1..])|;
      forall i | 0 <= i < k
        ensures source[i].Chunk? && source[i].data != []
      {
        if i > 0 { assert source[i] == source[1..][i - 1]; }
      }
      if k < |source| {
        assert source[k] == source[1..][k - 1];
      }
    }
  }

  lemma {:induction false} ForwardedAreTheLeadingReads(source: seq<ReadStep>, k: nat)
    requires k < |Forwarded(source)|
    ensures source[k] == Chunk(Forwarded(source)[k]) && Forwarded(source)[k] != []
  {
    if k > 0 {
      ForwardedAreTheLeadingReads(source[1..], k - 1);
    }
  }
}
