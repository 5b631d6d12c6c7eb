/** What one operation of a sound connection does, in bytes, bits and system calls, whichever functions
    it is made of; and what a row of drains delivers. */
module ConnSteps {
  import opened Common
  import opened EpollSpec
  import opened ConnSpec
  import opened ConnRuns

  /** The two errors after which a send is given up. */
  predicate Broken(w: WriteResult) {
    w == WriteFailed(EPIPE) || w == WriteFailed(ECONNRESET)
  }

  /** How many bytes of `len` a write takes. */
  function Took(w: WriteResult, len: nat): nat {
    Least(RoomOf(w), len)
  }

  function RoomOf(w: WriteResult): nat {
    match w case Room(room) => room case WriteFailed(_) => 0
  }

  function Least(a: nat, b: nat): (n: nat)
    ensures n <= a && n <= b && (n == a || n == b)
  {
    if a < b then a else b
  }

  // ---------------------------------------------------------------- sending

  /** What a send adds to the notices: completion, when the socket took everything at once, and the
      climb to 64 MiB or more of waiting output, with its size. */
  function SendNotices(c: Conn, waiting: nat, atOnce: bool): seq<Note> {
    (if c.wantsComplete && atOnce then [WriteComplete] else [])
    + if c.wantsHigh && |c.output| < 67_108_864 <= waiting then [HighWater(waiting)] else []
  }

  /** From `c` to `d` all data was accepted: the first n bytes of it are delivered, the rest stands at
      the end of the output, write events are wanted exactly while output waits, and nothing else
      happened but the notices due. */
  predicate Sent(c: Conn, d: Conn, data: seq<byte>, n: nat, atOnce: bool)
    requires n <= |data|
  {
    && d == c.(accepted := c.accepted + data, delivered := c.delivered + data[..n],
               output := c.output + data[n..], chan := d.chan, notes := d.notes)
    && d.chan.events == c.chan.events.(pollOut := d.output != [])
    && d.notes == c.notes + SendNotices(c, |d.output|, atOnce)
  }

  /** A send is refused exactly when nothing waits and the write meets EPIPE or ECONNRESET.  Else its
      bytes are accepted, and what the socket takes of them, nothing waiting, is delivered. */
  lemma SendOutcome(c: Conn, data: seq<byte>, w: WriteResult)
    requires Inv(c) && c.state == Connected
    ensures var d := SendInLoop(c, data, w);
      if c.output == [] && Broken(w) then d == c.(refused := c.refused + |data|)
      else
        var n := if c.output == [] then Took(w, |data|) else 0;
        Sent(c, d, data, n, c.output == [] && w.Room? && n == |data|)
  {
    SoundIdle(c);
    if !(c.output == [] && Broken(w)) {
      var n := if c.output == [] then Took(w, |data|) else 0;
      var d := Taken(c, data, n, c.wantsComplete && c.output == [] && w.Room? && n == |data|);
      SendSplits(c, data, w, n, d);
      EnqueueOutcome(d, data[n..]);
      SendJoins(c, d, SendInLoop(c, data, w), data, n, c.output == [] && w.Room? && n == |data|);
    }
  }

  lemma SendJoins(c: Conn, d: Conn, e: Conn, data: seq<byte>, n: nat, atOnce: bool)
    requires n <= |data| && d == Taken(c, data, n, c.wantsComplete && atOnce)
    requires e == d.(output := d.output + data[n..], chan := e.chan, notes := e.notes)
    requires e.chan.events == d.chan.events.(pollOut := e.output != [])
    requires e.notes == d.notes + SendNotices(d, |e.output|, false)
    ensures Sent(c, e, data, n, atOnce)
  {
    assert d.notes == c.notes + if c.wantsComplete && atOnce then [WriteComplete] else [];
  }

  lemma SoundIdle(c: Conn)
    requires Inv(c) && c.state == Connected
    ensures Idle(c) <==> c.output == []
    ensures c.chan.events.pollOut <==> c.output != []
  {
  }

  /** The socket took the first n bytes of a send. */
  function Taken(c: Conn, data: seq<byte>, n: nat, complete: bool): Conn
    requires n <= |data|
  {
    c.(accepted := c.accepted + data, delivered := c.delivered + data[..n],
       notes := if complete then c.notes + [WriteComplete] else c.notes)
  }

  lemma SendSplits(c: Conn, data: seq<byte>, w: WriteResult, n: nat, d: Conn)
    requires (Idle(c) <==> c.output == []) && !(c.output == [] && Broken(w))
    requires n == if c.output == [] then Took(w, |data|) else 0
    requires d == Taken(c, data, n, c.wantsComplete && c.output == [] && w.Room? && n == |data|)
    ensures SendInLoop(c, data, w) == Enqueue(d, data[n..])
  {
    if n == 0 {
      assert data[..n] == [] && data[n..] == data && c.delivered + [] == c.delivered;
    }
  }

  lemma EnqueueOutcome(c: Conn, rest: seq<byte>)
    requires c.chan.events.pollOut <==> c.output != []
    ensures var d := Enqueue(c, rest);
      && d == c.(output := c.output + rest, chan := d.chan, notes := d.notes)
      && d.chan.events == c.chan.events.(pollOut := d.output != [])
      && d.notes == c.notes + SendNotices(c, |d.output|, false)
  {
  }

  /** No send of these calls meets EPIPE or ECONNRESET. */
  predicate NoneBreaks(calls: seq<Call>) {
    forall i :: 0 <= i < |calls| ==> (calls[i].CallSend? || calls[i].CallEcho? ==> !Broken(calls[i].w))
  }

  predicate NoneBreaksIn(l: Label) {
    match l
    case Dispatch(e) => NoneBreaks(e.onMessage) && NoneBreaks(e.onDown)
    case _ => NoneBreaks(l.calls)
  }

  lemma CallRefusesNothing(c: Conn, call: Call)
    requires call.CallSend? || call.CallEcho? ==> !Broken(call.w)
    ensures RunCall(c, call).refused == c.refused
  {
  }

  lemma {:induction false} CallsRefuseNothing(c: Conn, calls: seq<Call>)
    requires NoneBreaks(calls)
    ensures RunCalls(c, calls).refused == c.refused
    decreases |calls|
  {
    if calls != [] {
      var last := |calls| - 1;
      CallsRefuseNothing(c, calls[..last]);
      CallRefusesNothing(RunCalls(c, calls[..last]), calls[last]);
    }
  }

  lemma ReadRefusesNothing(c: Conn, r: ReadResult, onMessage: seq<Call>, onDown: seq<Call>)
    requires NoneBreaks(onMessage) && NoneBreaks(onDown)
    ensures HandleRead(c, r, onMessage, onDown).refused == c.refused
  {
    if r.Got? {
      CallsRefuseNothing(c.(input := c.input + r.bytes, received := c.received + r.bytes), onMessage);
      CallsRefuseNothing(SetInterest(MarkDown(c), DisableAll), onDown);
    }
  }

  lemma StepRefusesNothing(c: Conn, l: Label)
    requires NoneBreaksIn(l)
    ensures Do(c, l).refused == c.refused
  {
    match l
    case Establish(calls) => CallsRefuseNothing(SetInterest(MarkUp(c), EnableReading), calls);
    case Calls(calls) => CallsRefuseNothing(c, calls);
    case Destroy(calls) => CallsRefuseNothing(SetInterest(MarkDown(CountDestroy(c)), DisableAll), calls);
    case Dispatch(e) =>
      EventUnfolds(c, e);
      ReadRefusesNothing(c, e.r, e.onMessage, e.onDown);
      WriteRefusesNothing(AfterRead(c, e), e.w);
      CallsRefuseNothing(SetInterest(MarkDown(AfterWrite(c, e)), DisableAll), e.onDown);
  }

  lemma WriteRefusesNothing(c: Conn, w: WriteResult)
    ensures HandleWrite(c, w).refused == c.refused
  {
  }

  predicate NothingBreaks(ls: seq<Label>) {
    forall l <- ls :: NoneBreaksIn(l)
  }

  /** Over every run of any application in which no send meets EPIPE or ECONNRESET, full sockets and
      other errors notwithstanding, no byte of any send is given up. */
  lemma {:induction false} RunRefusesNothing(c: Conn, ls: seq<Label>)
    requires LegalRun(c, ls) && NothingBreaks(ls)
    ensures Exec(c, ls).refused == c.refused
    decreases |ls|
  {
    if ls != [] {
      assert ls[0] in ls;
      StepRefusesNothing(c, ls[0]);
      RunRefusesNothing(Do(c, ls[0]), ls[1..]);
    }
  }

  // ---------------------------------------------------------------- draining

  /** From `c` to `d` the first n bytes of the output were delivered and nothing else happened; with
      the last of them write events go off, completion is announced if that is wanted, and a deferred
      half-close is made. */
  predicate DrainedBy(c: Conn, d: Conn, n: nat)
    requires n <= |c.output|
  {
    var all := 0 < n == |c.output|;
    && d == c.(delivered := c.delivered + c.output[..n], output := c.output[n..], chan := d.chan,
               notes := c.notes + EndNotice(c, all),
               fins := c.fins + (if all && c.state == Disconnected then 1 else 0), drains := d.drains)
    && d.chan.events == (if all then c.chan.events.(pollOut := false) else c.chan.events)
  }

  /** Delivered as far as that much room went. */
  predicate Drains(c: Conn, d: Conn, room: nat) {
    DrainedBy(c, d, Least(room, |c.output|))
  }

  lemma FinishOutcome(c: Conn)
    ensures var d := FinishWrite(c);
      && d == c.(chan := d.chan, notes := c.notes + (if c.wantsComplete then [WriteComplete] else []),
                 fins := c.fins + (if c.state == Disconnected then 1 else 0))
      && d.chan.events == c.chan.events.(pollOut := false)
  {
  }

  /** A drain delivers as much of the output as the socket takes, and changes nothing when it takes
      nothing. */
  lemma DrainOutcome(c: Conn, w: WriteResult)
    requires Inv(c) && Open(c)
    ensures Drains(c, HandleWrite(c, w), RoomOf(w))
    ensures Least(RoomOf(w), |c.output|) == 0 ==> HandleWrite(c, w) == c
  {
    assert c.chan.events.pollOut <==> c.output != [];
    var n := Least(RoomOf(w), |c.output|);
    if n == 0 {
      DrainedNone(c);
    } else {
      assert w.Room? && w.Taken(|c.output|) == n && HandleWrite(c, w) ==
        if n < |c.output| then Drained(c, n) else FinishWrite(Drained(c, n));
      FinishOutcome(Drained(c, n));
    }
  }

  lemma DrainedNone(c: Conn)
    ensures Drains(c, c, 0)
  {
    assert c.delivered + c.output[..0] == c.delivered && c.notes + [] == c.notes;
  }

  lemma SlicesJoin(a: seq<byte>, b: seq<byte>, n: nat, m: nat)
    requires n + m <= |b|
    ensures a + b[..n] + b[n..][..m] == a + b[..n + m]
    ensures b[n..][m..] == b[n + m..]
  {
    assert b[..n] + b[n..][..m] == b[..n + m];
    assert a + b[..n] + b[n..][..m] == a + (b[..n] + b[n..][..m]);
  }

  /** What the last byte of the output brings. */
  function EndNotice(c: Conn, all: bool): seq<Note> {
    if all && c.wantsComplete then [WriteComplete] else []
  }

  lemma NoticesJoin(notes: seq<Note>, c: Conn, first: bool, second: bool)
    requires !(first && second)
    ensures notes + EndNotice(c, first) + EndNotice(c, second) == notes + EndNotice(c, first || second)
  {
  }

  lemma DrainsTwice(c: Conn, d: Conn, e: Conn, a: nat, b: nat)
    requires Drains(c, d, a) && Drains(d, e, b)
    ensures Drains(c, e, a + b)
  {
    var n, m := Least(a, |c.output|), Least(b, |d.output|);
    assert d.output == c.output[n..] && d.delivered == c.delivered + c.output[..n];
    SlicesJoin(c.delivered, c.output, n, m);
    var first, second := 0 < n == |c.output|, 0 < m == |d.output|;
    assert Least(a + b, |c.output|) == n + m;
    assert (0 < n + m == |c.output|) == (first || second);
    NoticesJoin(c.notes, c, first, second);
    assert d.notes == c.notes + EndNotice(c, first) && e.notes == d.notes + EndNotice(c, second);
  }

  /** epoll reports the socket writable, and nothing else but perhaps an error. */
  predicate IsWritable(l: Label) {
    l.Dispatch? && l.e.mask.pollOut && !l.e.mask.pollIn && !l.e.mask.pollPri && !l.e.mask.pollHup
  }

  predicate AllWritable(ls: seq<Label>) {
    forall l <- ls :: IsWritable(l)
  }

  /** What the socket can take over a row of such events. */
  function Rooms(ls: seq<Label>): nat
    requires AllWritable(ls)
    decreases |ls|
  {
    if ls == [] then 0
    else
      assert ls[0] in ls;
      RoomOf(ls[0].e.w) + Rooms(ls[1..])
  }

  lemma WritableIsDrain(c: Conn, l: Label)
    requires Inv(c) && IsUp(c) && IsWritable(l)
    ensures Legal(c, l) && Inv(Do(c, l)) && IsUp(Do(c, l))
    ensures Drains(c, Do(c, l), RoomOf(l.e.w))
  {
    EventUnfolds(c, l.e);
    WriteEffect(c, l.e.w);
    WriteCounts(c, 0, l.e);
    DrainOutcome(c, l.e.w);
  }

  lemma {:induction false} WritableStaysUp(c: Conn, ls: seq<Label>)
    requires Inv(c) && IsUp(c) && AllWritable(ls)
    ensures LegalRun(c, ls) && Inv(Exec(c, ls)) && IsUp(Exec(c, ls))
    decreases |ls|
  {
    if ls != [] {
      assert ls[0] in ls;
      WritableIsDrain(c, ls[0]);
      WritableStaysUp(Do(c, ls[0]), ls[1..]);
    }
  }

  lemma {:induction false} DrainsTo(c: Conn, ls: seq<Label>, e: Conn, room: nat)
    requires Inv(c) && IsUp(c) && AllWritable(ls) && LegalRun(c, ls) && e == Exec(c, ls) && room == Rooms(ls)
    ensures Drains(c, e, room)
    decreases |ls|
  {
    if ls == [] {
      DrainedNone(c);
    } else {
      assert ls[0] in ls;
      var d := Do(c, ls[0]);
      WritableIsDrain(c, ls[0]);
      DrainsTo(d, ls[1..], e, Rooms(ls[1..]));
      DrainsTwice(c, d, e, RoomOf(ls[0].e.w), Rooms(ls[1..]));
    }
  }

  /** However the socket takes it, in whatever portions and with whatever failures between, a row of
      writable events delivers the output from its front, as far as the room goes. */
  lemma WritableEventsDrain(c: Conn, ls: seq<Label>)
    requires Inv(c) && IsUp(c) && AllWritable(ls)
    ensures LegalRun(c, ls) && Drains(c, Exec(c, ls), Rooms(ls))
  {
    WritableStaysUp(c, ls);
    DrainsTo(c, ls, Exec(c, ls), Rooms(ls));
  }

  /** With room for all that waits, everything accepted is delivered, and no more write events are
      wanted. */
  lemma EnoughRoomDeliversAll(c: Conn, ls: seq<Label>)
    requires Inv(c) && IsUp(c) && AllWritable(ls) && Rooms(ls) >= |c.output|
    ensures LegalRun(c, ls)
    ensures var d := Exec(c, ls);
      d.delivered == d.accepted == c.accepted && d.output == [] && !d.chan.events.pollOut
  {
    WritableEventsDrain(c, ls);
    WritableStaysUp(c, ls);
    assert c.output[..|c.output|] == c.output;
  }

  // ---------------------------------------------------------------- half-close

  /** `shutdown` of a connected connection ends sending; the write side is shut down at once when
      nothing waits.  Any other connection it leaves alone. */
  lemma ShutdownOutcome(c: Conn)
    requires Inv(c)
    ensures c.state == Connected ==>
      c.fins == 0 && Shutdown(c) == c.(state := Disconnected, fins := if c.output == [] then 1 else 0)
    ensures c.state != Connected ==> Shutdown(c) == c
  {
  }

  /** The half-close is deferred, not lost: after `shutdown`, once the socket took all that waited, the
      write side is shut down, once, behind everything accepted. */
  lemma HalfCloseFollows(c: Conn, ls: seq<Label>)
    requires Inv(c) && IsUp(c) && c.state == Connected
    requires AllWritable(ls) && Rooms(ls) >= |c.output|
    ensures var d := Exec(Shutdown(c), ls);
      d.fins == 1 && d.state == Disconnected && d.delivered == d.accepted == c.accepted && d.output == []
  {
    ShutdownOutcome(c);
    ShutdownEffect(c);
    WritableEventsDrain(Shutdown(c), ls);
    EnoughRoomDeliversAll(Shutdown(c), ls);
  }

  // ---------------------------------------------------------------- the input

  /** What waits in the input is the end of what was read. */
  predicate InputIsTail(c: Conn) {
    |c.input| <= |c.received| && c.input == c.received[|c.received| - |c.input|..]
  }

  /** Taking drops that many bytes, or all there are, from the front of the input, and nothing else. */
  lemma TakeOutcome(c: Conn, len: nat)
    ensures var d := RunCall(c, CallTake(len));
      d == c.(input := d.input) && c.input[..Least(len, |c.input|)] + d.input == c.input
  {
  }

  lemma CallKeepsTail(c: Conn, call: Call)
    requires InputIsTail(c)
    ensures InputIsTail(RunCall(c, call)) && RunCall(c, call).received == c.received
  {
    match call
    case CallTake(len) => TakeOutcome(c, len);
    case CallSend(data, w) => SendKeepsInput(c, data, w);
    case CallEcho(w) => SendKeepsInput(c.(input := []), c.input, w);
    case _ =>
  }

  lemma SendKeepsInput(c: Conn, data: seq<byte>, w: WriteResult)
    ensures Send(c, data, w).input == c.input && Send(c, data, w).received == c.received
  {
  }

  lemma {:induction false} CallsKeepTail(c: Conn, calls: seq<Call>)
    requires InputIsTail(c)
    ensures InputIsTail(RunCalls(c, calls)) && RunCalls(c, calls).received == c.received
    decreases |calls|
  {
    if calls != [] {
      var last := |calls| - 1;
      CallsKeepTail(c, calls[..last]);
      CallKeepsTail(RunCalls(c, calls[..last]), calls[last]);
    }
  }

  lemma ReadKeepsTail(c: Conn, r: ReadResult, onMessage: seq<Call>, onDown: seq<Call>)
    requires InputIsTail(c)
    ensures InputIsTail(HandleRead(c, r, onMessage, onDown))
    ensures HandleRead(c, r, onMessage, onDown).received == c.received + if r.Got? then r.bytes else []
    ensures r.ReadFailed? ==> HandleRead(c, r, onMessage, onDown) == c
    ensures r.Got? && r.bytes != [] && onMessage == [] ==>
      HandleRead(c, r, onMessage, onDown) == c.(input := c.input + r.bytes, received := c.received + r.bytes)
  {
    if r == Got([]) {
      CloseKeepsTail(c, onDown);
    } else if r.Got? {
      CallsKeepTail(c.(input := c.input + r.bytes, received := c.received + r.bytes), onMessage);
    }
  }

  lemma WriteKeepsTail(c: Conn, w: WriteResult)
    ensures HandleWrite(c, w).input == c.input && HandleWrite(c, w).received == c.received
  {
  }

  lemma CloseKeepsTail(c: Conn, onDown: seq<Call>)
    requires InputIsTail(c)
    ensures InputIsTail(HandleClose(c, onDown)) && HandleClose(c, onDown).received == c.received
  {
    CallsKeepTail(SetInterest(MarkDown(c), DisableAll), onDown);
  }

  lemma EventKeepsTail(c: Conn, e: Event)
    requires InputIsTail(c)
    ensures InputIsTail(HandleEvent(c, e))
  {
    EventUnfolds(c, e);
    ReadKeepsTail(c, e.r, e.onMessage, e.onDown);
    var c1, c2 := AfterRead(c, e), AfterWrite(c, e);
    assert InputIsTail(c1);
    WriteKeepsTail(c1, e.w);
    assert InputIsTail(c2);
    CloseKeepsTail(c2, e.onDown);
  }

  lemma StepKeepsTail(c: Conn, l: Label)
    requires InputIsTail(c)
    ensures InputIsTail(Do(c, l))
  {
    match l
    case Establish(calls) => CallsKeepTail(SetInterest(MarkUp(c), EnableReading), calls);
    case Calls(calls) => CallsKeepTail(c, calls);
    case Destroy(calls) => CallsKeepTail(SetInterest(MarkDown(CountDestroy(c)), DisableAll), calls);
    case Dispatch(e) => EventKeepsTail(c, e);
  }

  /** Over every run, with any reads and any takes: no byte read is lost, repeated or moved before the
      application takes it from the front. */
  lemma {:induction false} InputStaysTail(c: Conn, ls: seq<Label>)
    requires InputIsTail(c) && LegalRun(c, ls)
    ensures InputIsTail(Exec(c, ls))
    decreases |ls|
  {
    if ls != [] {
      StepKeepsTail(c, ls[0]);
      InputStaysTail(Do(c, ls[0]), ls[1..]);
    }
  }

  // ---------------------------------------------------------------- up and down

  predicate NoShutdown(calls: seq<Call>) {
    CallShutdown !in calls
  }

  lemma FewerCalls(calls: seq<Call>)
    requires calls != [] && NoShutdown(calls)
    ensures NoShutdown(calls[..|calls| - 1])
  {
    assert calls == calls[..|calls| - 1] + [calls[|calls| - 1]];
  }

  lemma {:induction false} StaysConnected(c: Conn, calls: seq<Call>)
    requires Inv(c) && c.state == Connected && NoShutdown(calls)
    ensures RunCalls(c, calls).state == Connected
    decreases |calls|
  {
    if calls != [] {
      var before, call := RunCalls(c, calls[..|calls| - 1]), calls[|calls| - 1];
      FewerCalls(calls);
      StaysConnected(c, calls[..|calls| - 1]);
      CallsEffect(c, calls[..|calls| - 1]);
      assert call in calls;
      OneStaysConnected(before, call);
    }
  }

  lemma OneStaysConnected(c: Conn, call: Call)
    requires Inv(c) && c.state == Connected && call != CallShutdown
    ensures RunCall(c, call).state == Connected
  {
    match call
    case CallSend(data, w) => SendOutcome(c, data, w);
    case CallEcho(w) => SendOutcome(c.(input := []), c.input, w);
    case _ =>
  }

  /** Established, a connection can send, unless its own callback shuts it down. */
  lemma UpOutcome(c: Conn, calls: seq<Call>)
    requires Inv(c) && c.state == Connecting
    ensures ConnectEstablished(c, calls).state == if NoShutdown(calls) then Connected else Disconnected
  {
    var d := SetInterest(MarkUp(c), EnableReading);
    assert Inv(d);
    if NoShutdown(calls) {
      StaysConnected(d, calls);
    } else {
      ShutDownStays(d, calls);
    }
  }

  lemma {:induction false} ShutDownStays(c: Conn, calls: seq<Call>)
    requires Inv(c) && c.state != Connecting && CallShutdown in calls
    ensures RunCalls(c, calls).state == Disconnected
    decreases |calls|
  {
    var before, call := RunCalls(c, calls[..|calls| - 1]), calls[|calls| - 1];
    CallsEffect(c, calls[..|calls| - 1]);
    if call != CallShutdown {
      assert CallShutdown in calls[..|calls| - 1];
      ShutDownStays(c, calls[..|calls| - 1]);
      CallEffect(before, call);
    } else {
      ShutdownOutcome(before);
    }
  }

  /** Closed, it neither sends nor wants any event. */
  lemma CloseOutcome(c: Conn, calls: seq<Call>)
    requires Inv(c)
    ensures var d := HandleClose(c, calls);
      d.state == Disconnected && d.chan.events == Mask(false, false, false, false, false)
  {
    CloseEffect(c, calls);
  }

  /** A completion callback set when the connection is made stays set over every run. */
  lemma CompletionStaysWanted(complete: bool, ls: seq<Label>)
    requires LegalRun(Fresh(complete), ls)
    ensures Exec(Fresh(complete), ls).wantsComplete == complete
  {
    FreshIsSound(complete);
    ConnectionRun(Fresh(complete), ls);
  }

  /** Once asked for, climbs are heard of. */
  lemma WatchIsHeard(c: Conn)
    ensures RunCall(c, CallWatch) == c.(wantsHigh := true, unheard := RunCall(c, CallWatch).unheard)
    ensures !c.wantsHigh && |c.output| < 67_108_864 ==> RunCall(c, CallWatch).unheard == c.drains
  {
  }
}
