/** One connection as a value: its state, its channel, its two buffers as byte queues, and the
    histories the properties are about.  The class in TcpConnection.dfy is proved against these
    functions.  Calls that the code makes on the loop's own thread only. */
module ConnSpec {
  import opened Common
  import opened EpollSpec

  const HIGH_WATER_MARK: nat := 64 * 1024 * 1024

  datatype State = Connecting | Connected | Disconnected

  datatype Change = Up | Down

  /** A functor queued on the connection's loop by the output path. */
  datatype Note = WriteComplete | HighWater(size: nat)

  datatype Conn = Conn(
    state: State,
    chan: Chan,
    input: seq<byte>,
    output: seq<byte>,
    wantsComplete: bool,     // a write-complete callback is set
    wantsHigh: bool,         // a high-water callback is set
    unheard: nat,            // climbs over the mark before it was set
    received: seq<byte>,     // all bytes read from the socket
    accepted: seq<byte>,     // all bytes taken over by `send`
    refused: nat,            // bytes of sends given up on because of EPIPE or ECONNRESET
    delivered: seq<byte>,    // all bytes the kernel took
    fins: nat,               // how often the write side was shut down
    changes: seq<Change>,    // history of the connection callback
    established: nat,        // calls of connectEstablished
    closes: nat,             // calls of the close callback
    destroyed: nat,          // calls of connectDestroyed
    drains: nat,             // drains that took the output from the mark or more to below it
    notes: seq<Note>)        // functors queued so far

  function Fresh(wantsComplete: bool): Conn {
    Conn(Connecting, NEW_CHAN, [], [], wantsComplete, false, 0, [], [], 0, [], 0, [], 0, 0, 0, 0, [])
  }

  function SetInterest(c: Conn, i: Interest): Conn {
    c.(chan := Changed(i, c.chan))
  }

  function Queue(c: Conn, wanted: bool, n: Note): Conn {
    if wanted then c.(notes := c.notes + [n]) else c
  }

  // ---------------------------------------------------------------- sending

  predicate Idle(c: Conn) {
    !c.chan.IsWriting() && c.output == []
  }

  /** Buffers what the socket did not take; a climb over the mark is announced. */
  function Buffered(c: Conn, rest: seq<byte>): Conn {
    var size := |c.output| + |rest|;
    var c1 := Queue(c, c.wantsHigh && |c.output| < HIGH_WATER_MARK <= size, HighWater(size));
    c1.(output := c1.output + rest)
  }

  /** Buffers the rest, if there is one, and asks for write events. */
  function Enqueue(c: Conn, rest: seq<byte>): Conn {
    if rest == [] then c
    else if c.chan.IsWriting() then Buffered(c, rest)
    else SetInterest(Buffered(c, rest), EnableWriting)
  }

  /** `sendInLoop` as it is meant: 0 when nothing was written directly, and any result but -1 of
      the direct write is a success. */
  function SendInLoop(c: Conn, data: seq<byte>, w: WriteResult): Conn {
    if !Idle(c) then Enqueue(c.(accepted := c.accepted + data), data)
    else match w
      case Room(_) =>
        var n := w.Taken(|data|);
        var c1 := c.(accepted := c.accepted + data, delivered := c.delivered + data[..n]);
        Enqueue(Queue(c1, c.wantsComplete && n == |data|, WriteComplete), data[n..])
      case WriteFailed(e) =>
        if e.IsFault() then c.(refused := c.refused + |data|)
        else Enqueue(c.(accepted := c.accepted + data), data)
  }

  function Send(c: Conn, data: seq<byte>, w: WriteResult): Conn {
    if c.state == Connected then SendInLoop(c, data, w) else c
  }

  function ShutdownInLoop(c: Conn): Conn {
    if c.chan.IsWriting() then c else c.(fins := c.fins + 1)
  }

  function Shutdown(c: Conn): Conn {
    if c.state == Connected then ShutdownInLoop(c.(state := Disconnected)) else c
  }

  // ---------------------------------------------------------------- application callbacks

  /** What a callback may do with its own connection. */
  datatype Call =
    | CallSend(data: seq<byte>, w: WriteResult)
    | CallShutdown
    | CallTake(len: nat)
    | CallEcho(w: WriteResult)  // take the whole input and send it back
    | CallWatch                 // set the high-water callback

  function Climbed(c: Conn): nat {
    c.drains + if |c.output| >= HIGH_WATER_MARK then 1 else 0
  }

  function WatchHighWater(c: Conn): Conn {
    if c.wantsHigh then c else c.(wantsHigh := true, unheard := Climbed(c))
  }

  function RunCall(c: Conn, call: Call): Conn {
    match call
    case CallSend(data, w) => Send(c, data, w)
    case CallShutdown => Shutdown(c)
    case CallTake(len) => c.(input := if len < |c.input| then c.input[len..] else [])
    case CallEcho(w) => Send(c.(input := []), c.input, w)
    case CallWatch => WatchHighWater(c)
  }

  function RunCalls(c: Conn, calls: seq<Call>): Conn
    decreases |calls|
  {
    if calls == [] then c
    else RunCall(RunCalls(c, calls[..|calls| - 1]), calls[|calls| - 1])
  }

  // ---------------------------------------------------------------- life cycle and events

  function MarkUp(c: Conn): Conn {
    c.(state := Connected, established := c.established + 1, changes := c.changes + [Up])
  }

  function MarkDown(c: Conn): Conn {
    c.(state := Disconnected, changes := c.changes + [Down])
  }

  function Unregister(c: Conn): Conn {
    c.(chan := Left(c.chan))
  }

  function ConnectEstablished(c: Conn, calls: seq<Call>): Conn {
    RunCalls(SetInterest(MarkUp(c), EnableReading), calls)
  }

  /** Disconnected, no events wanted, and the connection callback told. */
  function GoDown(c: Conn, calls: seq<Call>): Conn {
    RunCalls(SetInterest(MarkDown(c), DisableAll), calls)
  }

  function CountDestroy(c: Conn): Conn {
    c.(destroyed := c.destroyed + 1)
  }

  function ConnectDestroyed(c: Conn, calls: seq<Call>): Conn {
    Unregister(if c.state == Connected then GoDown(CountDestroy(c), calls) else CountDestroy(c))
  }

  function HandleClose(c: Conn, calls: seq<Call>): Conn {
    var c1 := GoDown(c, calls);
    c1.(closes := c1.closes + 1)
  }

  function HandleRead(c: Conn, r: ReadResult, onMessage: seq<Call>, onDown: seq<Call>): Conn {
    match r
    case Got(bytes) =>
      if bytes == [] then HandleClose(c, onDown)
      else RunCalls(c.(input := c.input + bytes, received := c.received + bytes), onMessage)
    case ReadFailed(_) => c
  }

  /** The socket took the first n bytes of the output. */
  function Drained(c: Conn, n: nat): Conn
    requires n <= |c.output|
  {
    c.(delivered := c.delivered + c.output[..n], output := c.output[n..],
       drains := c.drains + if |c.output| - n < HIGH_WATER_MARK <= |c.output| then 1 else 0)
  }

  /** The output is empty: no more write events, and a deferred half-close is due. */
  function FinishWrite(c: Conn): Conn {
    var c1 := Queue(SetInterest(c, DisableWriting), c.wantsComplete, WriteComplete);
    if c1.state == Disconnected then ShutdownInLoop(c1) else c1
  }

  function HandleWrite(c: Conn, w: WriteResult): Conn {
    if c.chan.IsWriting() && w.Room? && w.Taken(|c.output|) > 0 then
      var c1 := Drained(c, w.Taken(|c.output|));
      if c1.output != [] then c1 else FinishWrite(c1)
    else c
  }

  /** What the environment supplies to one dispatched event. */
  datatype Event = Event(mask: Mask, r: ReadResult, w: WriteResult, onMessage: seq<Call>, onDown: seq<Call>)

  function RunCallback(c: Conn, cb: Callback, e: Event): Conn {
    match cb
    case OnError => c
    case OnRead => HandleRead(c, e.r, e.onMessage, e.onDown)
    case OnWrite => HandleWrite(c, e.w)
    case OnClose => HandleClose(c, e.onDown)
  }

  function RunCallbacks(c: Conn, cbs: seq<Callback>, e: Event): Conn
    decreases |cbs|
  {
    if cbs == [] then c
    else RunCallback(RunCallbacks(c, cbs[..|cbs| - 1], e), cbs[|cbs| - 1], e)
  }

  function HandleEvent(c: Conn, e: Event): Conn {
    RunCallbacks(c, Callbacks(e.mask), e)
  }

  // ---------------------------------------------------------------- sendInLoop as it is written

  /** What the text of `sendInLoop` leaves open: the value an uninitialised `nwrote` happens to
      hold, the errno left over from earlier calls, and the memory around the caller's data.
      `signTest` says how the result of the direct write is tested: as written, any value but 0
      counts as a success. */
  datatype Text = Text(junk: int, signTest: bool, stale: Errno, around: int -> byte)

  /** The reading under which `sendInLoop` is `SendInLoop`. */
  const INTENT := Text(0, true, EWOULDBLOCK, (k: int) => 0)

  predicate AsWritten(t: Text) {
    !t.signTest
  }

  /** The bytes at offset `from` of the caller's data, some of which may lie outside it. */
  function Memory(data: seq<byte>, t: Text, from: int, len: nat): seq<byte> {
    seq(len, i requires 0 <= i => if 0 <= from + i < |data| then data[from + i] else t.around(from + i))
  }

  /** The value of `nwrote` after the direct write, or without one. */
  function Returned(c: Conn, data: seq<byte>, w: WriteResult, t: Text): int {
    if !Idle(c) then t.junk else if w.Room? then w.Taken(|data|) else -1
  }

  /** The direct write was made and counts as a success. */
  predicate Direct(c: Conn, data: seq<byte>, w: WriteResult, t: Text) {
    Idle(c) && if t.signTest then Returned(c, data, w, t) >= 0 else Returned(c, data, w, t) != 0
  }

  function Remaining(c: Conn, data: seq<byte>, w: WriteResult, t: Text): int {
    if Direct(c, data, w, t) then |data| - Returned(c, data, w, t) else |data|
  }

  /** The direct write was made and given up on. */
  predicate GivenUp(c: Conn, data: seq<byte>, w: WriteResult, t: Text) {
    Idle(c) && !Direct(c, data, w, t) && (if w.WriteFailed? then w.errno else t.stale).IsFault()
  }

  /** The connection after the system call `write`, if it is made. */
  function Tried(c: Conn, data: seq<byte>, w: WriteResult): Conn {
    if !Idle(c) then c.(accepted := c.accepted + data)
    else if w.Room? then
      c.(accepted := c.accepted + data, delivered := c.delivered + data[..w.Taken(|data|)])
    else if w.errno.IsFault() then c.(refused := c.refused + |data|)
    else c.(accepted := c.accepted + data)
  }

  /** The connection after the first half of `sendInLoop`. */
  function DirectWrite(c: Conn, data: seq<byte>, w: WriteResult, t: Text): Conn {
    Queue(Tried(c, data, w), c.wantsComplete && Direct(c, data, w, t) && Remaining(c, data, w, t) == 0, WriteComplete)
  }

  function SendInLoopText(c: Conn, data: seq<byte>, w: WriteResult, t: Text): Conn {
    var remaining := Remaining(c, data, w, t);
    var from := if Idle(c) && !Direct(c, data, w, t) then 0 else Returned(c, data, w, t);
    if GivenUp(c, data, w, t) || remaining <= 0 then DirectWrite(c, data, w, t)
    else Enqueue(DirectWrite(c, data, w, t), Memory(data, t, from, remaining))
  }
}
