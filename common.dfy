/** Vocabulary shared by the whole proxy model: optional values and results,
    the machine integer widths of the configuration, the exception kinds that
    the proxy's catch clauses tell apart, the end states of an asynchronous
    task (with Task.WhenAll), time spans, and TLS application protocol names. */
module Common {

  datatype Option<T> = None | Some(value: T)

  datatype Result<T, E> = Ok(value: T) | Err(error: E)

  newtype byte = x: int | 0 <= x < 0x100

  /** C# `uint`. */
  newtype uint32 = x: int | 0 <= x < 0x1_0000_0000

  /** C# `int`. */
  newtype int32 = x: int | -0x8000_0000 <= x < 0x8000_0000

  /** The kinds of exception the proxy's handlers distinguish. In .NET a
      QuicException is an IOException, so a `catch (IOException)` also takes
      `QuicError`; `Cancelled` is an OperationCanceledException and
      `OtherError` any other exception. */
  datatype Fault = QuicError | IOError | Cancelled | OtherError

  predicate IsIOException(f: Fault) {
    f == QuicError || f == IOError
  }

  /** The state a Task is in when it is observed: still running (the model
      ran out of outcomes before the task ended), or ended in one of the
      three ways .NET distinguishes. */
  datatype TaskEnd = Pending | RanToCompletion | Canceled | Faulted(fault: Fault)

  /** The end of an async method out of which exception `f` escapes: an
      OperationCanceledException cancels the task, any other exception faults it. */
  function Escaped(f: Fault): (t: TaskEnd)
    ensures t != Pending && t != RanToCompletion
    ensures t == Canceled <==> f == Cancelled
  {
    if f == Cancelled then Canceled else Faulted(f)
  }

  /** Task.WhenAll over two tasks: it ends only once both have ended; it is
      faulted if either is (the first one's exception is the one an `await`
      rethrows), otherwise canceled if either is. */
  function WhenAll(first: TaskEnd, second: TaskEnd): (r: TaskEnd)
    ensures r != Pending <==> first != Pending && second != Pending
    ensures r == RanToCompletion <==> first == RanToCompletion && second == RanToCompletion
    ensures r.Faulted? ==> r == first || r == second
    ensures r.Faulted? <==> first != Pending && second != Pending && (first.Faulted? || second.Faulted?)
    ensures first.Faulted? && second != Pending ==> r == first
  {
    if first == Pending || second == Pending then Pending
    else if first.Faulted? then first
    else if second.Faulted? then second
    else if first == Canceled || second == Canceled then Canceled
    else RanToCompletion
  }

  /** A TimeSpan, kept as a whole number of seconds (every span the proxy
      builds comes from a 32-bit count of seconds or minutes, so it is exact
      and far inside TimeSpan's range). */
  datatype TimeSpan = TimeSpan(totalSeconds: int)

  function FromSeconds(n: int32): TimeSpan {
    TimeSpan(n as int)
  }

  function FromMinutes(n: int32): TimeSpan {
    TimeSpan(60 * (n as int))
  }

  /** An SslApplicationProtocol: a TLS ALPN protocol name. */
  datatype ApplicationProtocol = ApplicationProtocol(name: string)

  /** Number of bytes in the UTF-8 encoding of `s` (a Dafny `char` is a
      Unicode scalar value, so every string encodes). */
  function Utf8Length(s: string): (n: nat)
    ensures |s| <= n <= 4 * |s|
  {
    if s == [] then 0
    else
      var c := s[0] as int;
      (if c < 0x80 then 1 else if c < 0x800 then 2 else if c < 0x1_0000 then 3 else 4) + Utf8Length(s[1..])
  }

  /** `new SslApplicationProtocol(name)`: the constructor throws an
      ArgumentException unless the UTF-8 encoding of the name is 1 to 255
      bytes long (the bound of section 3.1 of RFC 7301). */
  function NewApplicationProtocol(name: string): (r: Option<ApplicationProtocol>)
    ensures r.Some? <==> name != [] && Utf8Length(name) <= 255
    ensures r.Some? ==> r.value.name == name
  {
    if 1 <= Utf8Length(name) <= 255 then Some(ApplicationProtocol(name)) else None
  }
}
