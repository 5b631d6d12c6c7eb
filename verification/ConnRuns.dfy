/** What holds of a connection over whole runs: its outbound stream, the deferred half-close, the
    high-water notifications, its life cycle, and the echo application. */
module ConnRuns {
  import opened Common
  import opened EpollSpec
  import opened ConnSpec

  // ---------------------------------------------------------------- the invariant

  function HighAt(notes: seq<Note>): set<nat> {
    set i: nat | i < |notes| && notes[i].HighWater?
  }

  /** How many high-water notifications were queued. */
  function CountHigh(notes: seq<Note>): nat {
    |HighAt(notes)|
  }

  predicate Open(c: Conn) {
    c.closes == 0 && c.destroyed == 0
  }

  /** No accepted byte is lost, duplicated or reordered. */
  predicate Stream(c: Conn) {
    c.delivered + c.output == c.accepted
  }

  /** Write events are wanted exactly while there is output to write. */
  predicate WriteInterest(c: Conn) {
    c.chan.IsWriting() <==> Open(c) && c.output != []
  }

  /** The write side is shut down at most once, and then at once or when the output is drained. */
  predicate HalfClose(c: Conn) {
    && c.fins <= 1
    && (c.fins == 1 ==> c.state == Disconnected && c.output == [])
    && (c.state == Disconnected && Open(c) ==> (c.fins == 1 <==> c.output == []))
    && (!Open(c) ==> c.state == Disconnected)
  }

  /** One notification per climb over the mark since the callback was set. */
  predicate HighWaterCount(c: Conn) {
    if c.wantsHigh then CountHigh(c.notes) + c.unheard == Climbed(c) else CountHigh(c.notes) == 0
  }

  predicate Inv(c: Conn) {
    Stream(c) && WriteInterest(c) && HalfClose(c) && HighWaterCount(c)
  }

  function Rank(s: State): nat {
    match s case Connecting => 0 case Connected => 1 case Disconnected => 2
  }

  /** How a later value of the same connection relates to an earlier one. */
  predicate Later(c: Conn, d: Conn) {
    && Rank(c.state) <= Rank(d.state)
    && c.accepted <= d.accepted
    && c.delivered <= d.delivered
    && c.received <= d.received
    && c.changes <= d.changes
    && c.notes <= d.notes
    && (c.state == Disconnected ==> d.accepted == c.accepted)
    && (c.fins == 1 ==> d.fins == 1 && d.delivered == c.delivered)
    && c.refused <= d.refused
    && d.wantsComplete == c.wantsComplete
    && (c.wantsHigh ==> d.wantsHigh && d.unheard == c.unheard)
  }

  lemma Chain(a: Conn, b: Conn, c: Conn)
    requires Later(a, b) && Later(b, c)
    ensures Later(a, c)
  {
  }

  lemma CountHighAppend(notes: seq<Note>, n: Note)
    ensures CountHigh(notes + [n]) == CountHigh(notes) + if n.HighWater? then 1 else 0
  {
    assert HighAt(notes + [n]) == HighAt(notes) + if n.HighWater? then {|notes|} else {};
  }

  // ---------------------------------------------------------------- single operations

  /** `Enqueue` alone: the stream gets the bytes, the other clauses come out right. */
  lemma EnqueueEffect(c: Conn, rest: seq<byte>)
    requires c.chan.IsWriting() <==> c.output != []
    requires HighWaterCount(c)
    ensures var d := Enqueue(c, rest);
      && d.output == c.output + rest
      && (d.chan.IsWriting() <==> d.output != [])
      && (d.chan.IsReading() <==> c.chan.IsReading())
      && (c.chan.index == Added ==> d.chan.index == Added)
      && HighWaterCount(d)
      && c.notes <= d.notes
      && d == c.(output := d.output, chan := d.chan, notes := d.notes)
  {
    if rest != [] {
      var b := Buffered(c, rest);
      CountHighAppend(c.notes, HighWater(|c.output| + |rest|));
      assert HighWaterCount(b);
      assert b == c.(output := b.output, notes := b.notes);
    }
  }

  /** A send whose first part the socket took and whose rest is waiting. */
  lemma TakenOver(c: Conn, d: Conn, taken: seq<byte>, rest: seq<byte>)
    requires Inv(c) && c.state == Connected && (taken == [] || c.output == [])
    requires d == c.(accepted := c.accepted + (taken + rest), delivered := c.delivered + taken,
                     output := c.output + rest, chan := d.chan, notes := d.notes)
    requires HighWaterCount(d) && c.notes <= d.notes
    requires d.chan.IsWriting() <==> d.output != []
    requires d.chan.IsReading() <==> c.chan.IsReading()
    requires c.chan.index == Added ==> d.chan.index == Added
    ensures Inv(d) && Later(c, d) && SameLife(c, d)
  {
    assert c.delivered + taken + (c.output + rest) == c.delivered + c.output + (taken + rest);
  }

  /** A send whose first part the socket takes, when nothing is waiting, and whose rest is
      buffered. */
  lemma SplitEffect(c: Conn, d: Conn, taken: seq<byte>, rest: seq<byte>, complete: bool)
    requires Inv(c) && c.state == Connected && (taken == [] || c.output == [])
    requires d == Enqueue(Queue(c.(accepted := c.accepted + (taken + rest), delivered := c.delivered + taken),
                                complete, WriteComplete), rest)
    ensures Inv(d) && Later(c, d) && SameLife(c, d) && d.state == Connected
    ensures d.input == c.input && d.refused == c.refused && d.accepted == c.accepted + (taken + rest)
  {
    var c1 := c.(accepted := c.accepted + (taken + rest), delivered := c.delivered + taken);
    CountHighAppend(c1.notes, WriteComplete);
    EnqueueEffect(Queue(c1, complete, WriteComplete), rest);
    TakenOver(c, d, taken, rest);
  }

  lemma SendEffect(c: Conn, data: seq<byte>, w: WriteResult)
    requires Inv(c) && c.state == Connected
    ensures var d := SendInLoop(c, data, w);
      && Inv(d) && Later(c, d) && d.state == Connected
      && d.input == c.input && SameLife(c, d)
      && ((d.accepted == c.accepted + data && d.refused == c.refused)
          || (d.accepted == c.accepted && d.refused == c.refused + |data|))
  {
    if Idle(c) && w.Room? {
      var n := w.Taken(|data|);
      assert data[..n] + data[n..] == data;
      SplitEffect(c, SendInLoop(c, data, w), data[..n], data[n..], c.wantsComplete && n == |data|);
    } else if Idle(c) && w.errno.IsFault() {
    } else {
      assert [] + data == data && c.delivered + [] == c.delivered;
      SplitEffect(c, SendInLoop(c, data, w), [], data, false);
    }
  }

  /** The counters of the life cycle and what hangs on them. */
  predicate SameLife(c: Conn, d: Conn) {
    && d.changes == c.changes && d.established == c.established
    && d.closes == c.closes && d.destroyed == c.destroyed
    && (d.chan.IsReading() <==> c.chan.IsReading())
    && (c.chan.index == Added && c.chan.IsReading() ==> d.chan.index == Added)
    && (c.state == Disconnected ==> d.chan == c.chan)
    && d.received == c.received
    && (c.state == Connecting ==> d.state == Connecting && d.chan == c.chan)
    && (c.state != Connecting ==> d.state != Connecting)
  }

  /** Sending, perhaps after the input was taken. */
  lemma SendCallEffect(c: Conn, taken: Conn, data: seq<byte>, w: WriteResult)
    requires Inv(c) && taken == c.(input := taken.input)
    ensures var d := Send(taken, data, w);
      Inv(d) && Later(c, d) && SameLife(c, d)
  {
    assert Inv(taken);
    if c.state == Connected {
      SendEffect(taken, data, w);
    }
  }

  lemma ShutdownEffect(c: Conn)
    requires Inv(c)
    ensures var d := Shutdown(c);
      Inv(d) && Later(c, d) && SameLife(c, d)
  {
  }

  lemma CallEffect(c: Conn, call: Call)
    requires Inv(c)
    ensures var d := RunCall(c, call);
      Inv(d) && Later(c, d) && SameLife(c, d)
  {
    match call
    case CallSend(data, w) => SendCallEffect(c, c, data, w);
    case CallEcho(w) => SendCallEffect(c, c.(input := []), c.input, w);
    case CallShutdown => ShutdownEffect(c);
    case CallTake(_) =>
    case CallWatch =>
  }

  lemma {:induction false} CallsEffect(c: Conn, calls: seq<Call>)
    requires Inv(c)
    ensures var d := RunCalls(c, calls);
      Inv(d) && Later(c, d) && SameLife(c, d)
    decreases |calls|
  {
    if calls != [] {
      var last := |calls| - 1;
      var before := RunCalls(c, calls[..last]);
      CallsEffect(c, calls[..last]);
      CallEffect(before, calls[last]);
      Chain(c, before, RunCall(before, calls[last]));
    }
  }

  lemma EstablishEffect(c: Conn, calls: seq<Call>)
    requires Inv(c) && c.state == Connecting
    ensures var d := ConnectEstablished(c, calls);
      && Inv(d) && Later(c, d) && d.state != Connecting
      && d.changes == c.changes + [Up] && d.established == c.established + 1
      && d.closes == c.closes && d.destroyed == c.destroyed && d.received == c.received
      && d.chan.IsReading() && d.chan.index == Added
  {
    CallsEffect(SetInterest(MarkUp(c), EnableReading), calls);
  }

  lemma CloseEffect(c: Conn, calls: seq<Call>)
    requires Inv(c)
    ensures var d := HandleClose(c, calls);
      && Inv(d) && Later(c, d) && d.state == Disconnected
      && d.changes == c.changes + [Down] && d.established == c.established
      && d.closes == c.closes + 1 && d.destroyed == c.destroyed && d.received == c.received
      && d.chan == Changed(DisableAll, c.chan)
  {
    ClosedCalls(SetInterest(MarkDown(c), DisableAll), calls);
  }

  /** Once disconnected, calls change nothing but the input, and whether climbs are heard of. */
  lemma {:induction false} ClosedCalls(c: Conn, calls: seq<Call>)
    requires c.state == Disconnected
    ensures var d := RunCalls(c, calls);
      && d == c.(input := d.input, wantsHigh := d.wantsHigh, unheard := d.unheard)
      && (c.input == [] ==> d.input == [])
      && (HighWaterCount(c) ==> HighWaterCount(d)) && (c.wantsHigh ==> d.wantsHigh && d.unheard == c.unheard)
    decreases |calls|
  {
    if calls != [] {
      ClosedCalls(c, calls[..|calls| - 1]);
    }
  }

  /** Whether destroying leaves the connection as a closed one should be: not when it was never up,
      or was shut down with output waiting, where write events stay wanted. */
  predicate DestroyedInOrder(c: Conn) {
    !Open(c) || c.state == Connected || (c.state == Disconnected && c.output == [])
  }

  lemma DestroyEffect(c: Conn, calls: seq<Call>)
    requires Inv(c)
    ensures var d := ConnectDestroyed(c, calls);
      && Stream(d) && HighWaterCount(d) && Later(c, d) && d.chan.index == New
      && (Inv(d) <==> DestroyedInOrder(c))
      && d.destroyed == c.destroyed + 1 && d.closes == c.closes && d.established == c.established
      && d.state == (if c.state == Connecting then Connecting else Disconnected) && d.received == c.received
      && d.changes == c.changes + if c.state == Connected then [Down] else []
  {
    if c.state == Connected {
      ClosedCalls(SetInterest(MarkDown(CountDestroy(c)), DisableAll), calls);
    }
  }

  lemma DrainedEffect(c: Conn, n: nat)
    requires Inv(c) && c.chan.IsWriting() && n <= |c.output|
    ensures var d := Drained(c, n);
      Stream(d) && HighWaterCount(d) && Later(c, d) && (d.output != [] ==> Inv(d))
  {
    assert c.output[..n] + c.output[n..] == c.output;
  }

  lemma FinishEffect(c: Conn)
    requires Stream(c) && HighWaterCount(c) && Open(c) && c.chan.IsWriting() && c.output == []
    requires c.fins == 0
    ensures var d := FinishWrite(c);
      Inv(d) && Later(c, d) && SameLife(c.(chan := d.chan), d)
      && (d.chan.IsReading() <==> c.chan.IsReading())
      && (c.chan.index == Added && c.chan.IsReading() ==> d.chan.index == Added)
      && d.input == c.input && d.accepted == c.accepted && d.refused == c.refused && d.state == c.state
  {
    CountHighAppend(c.notes, WriteComplete);
  }

  lemma WriteEffect(c: Conn, w: WriteResult)
    requires Inv(c)
    ensures var d := HandleWrite(c, w);
      && Inv(d) && Later(c, d)
      && d.state == c.state && d.input == c.input && d.received == c.received
      && d.accepted == c.accepted && d.refused == c.refused
      && d.changes == c.changes && d.established == c.established
      && d.closes == c.closes && d.destroyed == c.destroyed
      && (d.chan.IsReading() <==> c.chan.IsReading())
      && (c.chan.index == Added && c.chan.IsReading() ==> d.chan.index == Added)
      && (!Open(c) ==> d == c)
  {
    if c.chan.IsWriting() && w.Room? && w.Taken(|c.output|) > 0 {
      var c1 := Drained(c, w.Taken(|c.output|));
      DrainedEffect(c, w.Taken(|c.output|));
      if c1.output == [] {
        FinishEffect(c1);
        Chain(c, c1, FinishWrite(c1));
      }
    }
  }

  lemma ReadEffect(c: Conn, r: ReadResult, onMessage: seq<Call>, onDown: seq<Call>)
    requires Inv(c)
    ensures var d := HandleRead(c, r, onMessage, onDown);
      && Inv(d) && Later(c, d)
      && (r != Got([]) ==>
            d.received == c.received + (if r.Got? then r.bytes else [])
            && SameLife(c.(received := d.received), d))
  {
    if r.Got? && r.bytes != [] {
      CallsEffect(c.(input := c.input + r.bytes, received := c.received + r.bytes), onMessage);
    } else if r.Got? {
      CloseEffect(c, onDown);
    }
  }

  // ---------------------------------------------------------------- one dispatched event

  /** The one case in which an event closes twice: urgent data and hang-up without readable, and
      the read finds end of stream. */
  predicate ClosesTwice(e: Event) {
    e.mask.pollPri && e.mask.pollHup && !e.mask.pollIn && e.r == Got([])
  }

  function ReadCloses(e: Event): nat {
    if (e.mask.pollIn || e.mask.pollPri) && e.r == Got([]) then 1 else 0
  }

  function HangUpCloses(e: Event): nat {
    if e.mask.pollHup && !e.mask.pollIn then 1 else 0
  }

  /** The connection between the callbacks of one event. */
  function AfterRead(c: Conn, e: Event): Conn {
    if e.mask.pollIn || e.mask.pollPri then HandleRead(c, e.r, e.onMessage, e.onDown) else c
  }

  function AfterWrite(c: Conn, e: Event): Conn {
    if e.mask.pollOut then HandleWrite(AfterRead(c, e), e.w) else AfterRead(c, e)
  }

  lemma EventUnfolds(c: Conn, e: Event)
    ensures HandleEvent(c, e) ==
      if e.mask.pollHup && !e.mask.pollIn then HandleClose(AfterWrite(c, e), e.onDown) else AfterWrite(c, e)
  {
    var m := e.mask;
    var p1 := if m.pollErr then [OnError] else [];
    var p2 := p1 + if m.pollIn || m.pollPri then [OnRead] else [];
    var p3 := p2 + if m.pollOut then [OnWrite] else [];
    assert [] + p1 == p1;
    CallbacksLast(c, [], m.pollErr, OnError, e);
    CallbacksLast(c, p1, m.pollIn || m.pollPri, OnRead, e);
    CallbacksLast(c, p2, m.pollOut, OnWrite, e);
    CallbacksLast(c, p3, m.pollHup && !m.pollIn, OnClose, e);
  }

  lemma CallbacksLast(c: Conn, cbs: seq<Callback>, due: bool, cb: Callback, e: Event)
    ensures var before := RunCallbacks(c, cbs, e);
      RunCallbacks(c, cbs + (if due then [cb] else []), e) == if due then RunCallback(before, cb, e) else before
  {
    assert (cbs + [cb])[..|cbs|] == cbs && cbs + [] == cbs;
  }

  lemma EventKeepsInv(c: Conn, e: Event)
    requires Inv(c)
    ensures Inv(HandleEvent(c, e)) && Later(c, HandleEvent(c, e))
  {
    EventUnfolds(c, e);
    var c1 := AfterRead(c, e);
    var c2 := AfterWrite(c, e);
    ReadEffect(c, e.r, e.onMessage, e.onDown);
    WriteEffect(c1, e.w);
    CloseEffect(c2, e.onDown);
    Chain(c, c1, c2);
    Chain(c, c2, HandleEvent(c, e));
  }

  // ---------------------------------------------------------------- the life cycle

  /** Told up once, then down n times. */
  predicate UpThenDowns(changes: seq<Change>, n: nat) {
    |changes| == n + 1 && changes[0] == Up && forall i :: 1 <= i <= n ==> changes[i] == Down
  }

  /** Every close takes the channel out of the kernel set or puts it back. */
  function IndexAfter(closes: nat): Index {
    if closes % 2 == 0 then Added else Deleted
  }

  predicate IsWaiting(c: Conn) {
    c.established == 0 && Open(c) && c.changes == [] && c.state == Connecting && c.chan == NEW_CHAN
  }

  /** Established, closed `n` times so far, and not destroyed; reading until the first close. */
  predicate IsClosed(c: Conn, n: nat) {
    && c.established == 1 && c.destroyed == 0 && c.closes == n
    && UpThenDowns(c.changes, n)
    && c.state != Connecting
    && c.chan.index == IndexAfter(n)
    && if n == 0 then c.chan.IsReading() else c.state == Disconnected && c.chan.events == NONE_EVENT
  }

  predicate IsUp(c: Conn) {
    IsClosed(c, 0)
  }

  /** Established, not destroyed, and in the kernel set. */
  predicate IsWatched(c: Conn) {
    IsClosed(c, c.closes) && c.chan.index == Added
  }

  /** Closed and destroyed, and destroyed no more often than closed. */
  predicate IsGone(c: Conn) {
    && c.established == 1 && 1 <= c.destroyed <= c.closes
    && UpThenDowns(c.changes, c.closes) && c.state == Disconnected
    && c.chan.index == New && c.chan.events == NONE_EVENT
  }

  /** Where a connection can be in its life, whatever masks the kernel returns. */
  predicate Life(c: Conn) {
    IsWaiting(c) || IsClosed(c, c.closes) || IsGone(c)
  }

  /** A life in order: at most one close. */
  predicate OrderlyLife(c: Conn) {
    Life(c) && c.closes <= 1
  }

  lemma OrderlyChanges(c: Conn)
    requires OrderlyLife(c)
    ensures c.changes <= [Up, Down] && c.destroyed <= c.closes <= c.established <= 1
    ensures c.changes == if c.established == 0 then [] else if c.closes == 0 then [Up] else [Up, Down]
  {
  }

  lemma FreshIsSound(complete: bool)
    ensures Inv(Fresh(complete)) && OrderlyLife(Fresh(complete)) && Started(Fresh(complete))
  {
    assert HighAt([]) == {};
  }

  lemma CloseCounts(c: Conn, n: nat, calls: seq<Call>)
    requires Inv(c) && IsClosed(c, n)
    ensures IsClosed(HandleClose(c, calls), n + 1)
  {
    CloseEffect(c, calls);
  }

  lemma ReadCounts(c: Conn, n: nat, e: Event)
    requires Inv(c) && IsClosed(c, n)
    ensures Inv(AfterRead(c, e)) && IsClosed(AfterRead(c, e), n + ReadCloses(e))
  {
    ReadEffect(c, e.r, e.onMessage, e.onDown);
    if e.r == Got([]) {
      CloseCounts(c, n, e.onDown);
    }
  }

  lemma WriteCounts(c: Conn, n: nat, e: Event)
    requires Inv(c) && IsClosed(c, n)
    ensures Inv(AfterWrite(c, e)) && IsClosed(AfterWrite(c, e), n + ReadCloses(e))
  {
    ReadCounts(c, n, e);
    WriteEffect(AfterRead(c, e), e.w);
  }

  lemma HangUpCounts(c: Conn, d: Conn, n: nat, e: Event)
    requires Inv(c) && IsClosed(c, n)
    requires d == if e.mask.pollHup && !e.mask.pollIn then HandleClose(c, e.onDown) else c
    ensures IsClosed(d, n + HangUpCloses(e))
  {
    if HangUpCloses(e) == 1 {
      CloseCounts(c, n, e.onDown);
    }
  }

  /** The number of closes one event makes, and what each of them leaves. */
  lemma EventCloses(c: Conn, n: nat, e: Event)
    requires Inv(c) && IsClosed(c, n)
    ensures IsClosed(HandleEvent(c, e), n + ReadCloses(e) + HangUpCloses(e))
  {
    EventUnfolds(c, e);
    WriteCounts(c, n, e);
    HangUpCounts(AfterWrite(c, e), HandleEvent(c, e), n + ReadCloses(e), e);
  }

  lemma OrderlyUntilTwo(c: Conn, n: nat)
    requires IsClosed(c, n) && n <= 2
    ensures OrderlyLife(c) <==> n < 2
    ensures n == 2 ==> c.changes == [Up, Down, Down] && c.chan.index == Added
  {
  }

  /** An event keeps the life of an open connection in order exactly when it does not close twice;
      a second close even puts the channel back into the kernel set. */
  lemma LifeKeptIff(c: Conn, e: Event)
    requires Inv(c) && IsUp(c)
    ensures OrderlyLife(HandleEvent(c, e)) <==> !ClosesTwice(e)
    ensures ClosesTwice(e) ==> HandleEvent(c, e).changes == [Up, Down, Down]
                               && HandleEvent(c, e).chan.index == Added
  {
    EventCloses(c, 0, e);
    OrderlyUntilTwo(HandleEvent(c, e), ReadCloses(e) + HangUpCloses(e));
  }

  /** Urgent data and a hang-up without readable, at end of stream, on a fresh connection. */
  lemma ClosedTwice(complete: bool)
    ensures var c := ConnectEstablished(Fresh(complete), []);
      var d := HandleEvent(c, Event(Mask(false, true, false, false, true), Got([]), Room(0), [], []));
      && IsUp(c) && d.changes == [Up, Down, Down] && d.closes == 2
      && d.chan.index == Added && d.chan.events == NONE_EVENT
  {
    var c := ConnectEstablished(Fresh(complete), []);
    var e := Event(Mask(false, true, false, false, true), Got([]), Room(0), [], []);
    FreshIsSound(complete);
    EstablishEffect(Fresh(complete), []);
    ClosedTwiceIn(c, e);
  }

  lemma ClosedTwiceIn(c: Conn, e: Event)
    requires Inv(c) && c.established == 1 && c.destroyed == 0 && c.closes == 0 && c.changes == [Up]
    requires c.state != Connecting && c.chan.index == Added && c.chan.IsReading() && ClosesTwice(e)
    ensures IsUp(c)
    ensures var d := HandleEvent(c, e);
      d.changes == [Up, Down, Down] && d.closes == 2 && d.chan.index == Added && d.chan.events == NONE_EVENT
  {
    assert IsUp(c);
    LifeKeptIff(c, e);
    EventCloses(c, 0, e);
  }

  // ---------------------------------------------------------------- whole runs

  datatype Label =
    | Establish(calls: seq<Call>)
    | Dispatch(e: Event)
    | Calls(calls: seq<Call>)
    | Destroy(calls: seq<Call>)

  /** The order the loops enforce: established once and first, events only from the kernel set,
      destroyed after a close and no more often. */
  predicate Legal(c: Conn, l: Label) {
    match l
    case Establish(_) => c.established == 0
    case Dispatch(_) => c.established == 1 && c.chan.index == Added
    case Calls(_) => true
    case Destroy(_) => c.destroyed < c.closes
  }

  function Do(c: Conn, l: Label): Conn {
    match l
    case Establish(calls) => ConnectEstablished(c, calls)
    case Dispatch(e) => HandleEvent(c, e)
    case Calls(calls) => RunCalls(c, calls)
    case Destroy(calls) => ConnectDestroyed(c, calls)
  }

  predicate LegalRun(c: Conn, ls: seq<Label>)
    decreases |ls|
  {
    ls == [] || (Legal(c, ls[0]) && LegalRun(Do(c, ls[0]), ls[1..]))
  }

  function Exec(c: Conn, ls: seq<Label>): Conn
    decreases |ls|
  {
    if ls == [] then c else Exec(Do(c, ls[0]), ls[1..])
  }

  predicate Started(c: Conn) {
    c.state == Connecting <==> c.established == 0
  }

  lemma StepKeepsInv(c: Conn, l: Label)
    requires Inv(c) && Started(c) && Legal(c, l)
    ensures Inv(Do(c, l)) && Started(Do(c, l)) && Later(c, Do(c, l))
  {
    match l
    case Establish(calls) => EstablishEffect(c, calls);
    case Calls(calls) => CallsEffect(c, calls);
    case Destroy(calls) => DestroyEffect(c, calls);
    case Dispatch(e) =>
      EventKeepsInv(c, e);
      EventEstablished(c, e);
  }

  lemma EventEstablished(c: Conn, e: Event)
    requires Inv(c) && c.state != Connecting
    ensures HandleEvent(c, e).established == c.established
  {
    EventUnfolds(c, e);
    ReadEffect(c, e.r, e.onMessage, e.onDown);
    CloseEffect(c, e.onDown);
    WriteEffect(AfterRead(c, e), e.w);
    CloseEffect(AfterWrite(c, e), e.onDown);
  }

  /** Over every run, with any application calls, any read sizes and any partial or failed
      writes: the stream, the write interest, the half-close and the high-water count are right,
      and every later value extends the earlier ones. */
  lemma {:induction false} ConnectionRun(c: Conn, ls: seq<Label>)
    requires Inv(c) && Started(c) && LegalRun(c, ls)
    ensures Inv(Exec(c, ls)) && Started(Exec(c, ls)) && Later(c, Exec(c, ls))
    decreases |ls|
  {
    if ls != [] {
      var d := Do(c, ls[0]);
      StepKeepsInv(c, ls[0]);
      ConnectionRun(d, ls[1..]);
      Chain(c, d, Exec(d, ls[1..]));
    }
  }

  predicate NoDoubleClose(ls: seq<Label>) {
    forall l <- ls :: l.Dispatch? ==> !ClosesTwice(l.e)
  }

  lemma EstablishKeepsLife(c: Conn, d: Conn, calls: seq<Call>)
    requires Inv(c) && Life(c) && c.established == 0 && d == ConnectEstablished(c, calls)
    ensures IsUp(d) && d.closes == c.closes
  {
    EstablishEffect(c, calls);
  }

  lemma CallsKeepLife(c: Conn, d: Conn, calls: seq<Call>)
    requires Inv(c) && Life(c) && d == RunCalls(c, calls)
    ensures Inv(d) && Life(d) && SameLife(c, d)
    ensures c.chan.index != New ==> d.chan.index == c.chan.index
    ensures IsWatched(c) ==> IsWatched(d)
  {
    CallsEffect(c, calls);
  }

  lemma DestroyKeepsLife(c: Conn, d: Conn, calls: seq<Call>)
    requires Inv(c) && Life(c) && c.destroyed < c.closes && d == ConnectDestroyed(c, calls)
    ensures IsGone(d) && d.closes == c.closes
  {
    DestroyEffect(c, calls);
  }

  lemma DispatchKeepsLife(c: Conn, d: Conn, e: Event)
    requires Inv(c) && Life(c) && c.chan.index == Added && d == HandleEvent(c, e)
    ensures IsClosed(c, c.closes) && IsClosed(d, c.closes + ReadCloses(e) + HangUpCloses(e))
    ensures c.closes <= 1 && !ClosesTwice(e) ==> d.closes <= 1
  {
    EventCloses(c, c.closes, e);
  }

  lemma StepKeepsLife(c: Conn, d: Conn, l: Label)
    requires Inv(c) && Life(c) && Legal(c, l) && d == Do(c, l)
    ensures Life(d)
    ensures c.closes <= 1 && (l.Dispatch? ==> !ClosesTwice(l.e)) ==> d.closes <= 1
  {
    match l
    case Establish(calls) => EstablishKeepsLife(c, d, calls);
    case Calls(calls) => CallsKeepLife(c, d, calls);
    case Destroy(calls) => DestroyKeepsLife(c, d, calls);
    case Dispatch(e) => DispatchKeepsLife(c, d, e);
  }

  /** Over every run a connection is waiting, up, closed some number of times, or destroyed after
      that, with one down per close; and over every run without a doubly closing event once at
      most, so that the callback history is a prefix of up, down. */
  lemma {:induction false} LifeCycleRun(c: Conn, ls: seq<Label>)
    requires Inv(c) && Life(c) && LegalRun(c, ls)
    ensures Life(Exec(c, ls))
    ensures c.closes <= 1 && NoDoubleClose(ls) ==> OrderlyLife(Exec(c, ls)) && Exec(c, ls).changes <= [Up, Down]
    decreases |ls|
  {
    if ls == [] {
      if c.closes <= 1 {
        OrderlyChanges(c);
      }
    } else {
      var l := ls[0];
      StepKeepsInv(c, l);
      StepKeepsLife(c, Do(c, l), l);
      if NoDoubleClose(ls) {
        forall k <- ls[1..] ensures k.Dispatch? ==> !ClosesTwice(k.e) {
          assert k in ls;
        }
      }
      LifeCycleRun(Do(c, l), ls[1..]);
    }
  }

  /** Only connectDestroyed takes a channel out of the poller's table. */
  lemma OthersKeepRegistered(c: Conn, l: Label)
    requires Inv(c) && Life(c) && Legal(c, l) && !l.Destroy? && c.chan.index != New
    ensures Do(c, l).chan.index != New
  {
    match l
    case Establish(calls) => EstablishKeepsLife(c, Do(c, l), calls);
    case Calls(calls) => CallsKeepLife(c, Do(c, l), calls);
    case Dispatch(e) => DispatchKeepsLife(c, Do(c, l), e);
  }

  lemma HalfCloseFrom(c: Conn, after: seq<Label>)
    requires Inv(c) && Started(c) && LegalRun(c, after)
    ensures var d := Exec(c, after);
      && c.fins <= 1
      && (c.state == Disconnected && Open(c) ==> (c.fins == 1 <==> c.delivered == c.accepted))
      && (c.fins == 1 ==> d.fins == 1 && d.delivered == c.delivered == c.accepted == d.accepted)
      && (c.state == Disconnected ==> d.accepted == c.accepted)
  {
    ConnectionRun(c, after);
    assert c.delivered == c.accepted <==> c.output == [] by {
      assert |c.delivered| + |c.output| == |c.accepted|;
    }
  }

  /** The half-close in one sentence: once shut down and until closed, either everything accepted
      was delivered and the write side was shut down once, or neither. */
  lemma HalfCloseWaitsForOutput(complete: bool, before: seq<Label>, after: seq<Label>)
    requires LegalRun(Fresh(complete), before)
    requires LegalRun(Exec(Fresh(complete), before), after)
    ensures var c := Exec(Fresh(complete), before);
      var d := Exec(c, after);
      && c.fins <= 1
      && (c.state == Disconnected && Open(c) ==> (c.fins == 1 <==> c.delivered == c.accepted))
      && (c.fins == 1 ==> d.fins == 1 && d.delivered == c.delivered == c.accepted == d.accepted)
      && (c.state == Disconnected ==> d.accepted == c.accepted)
  {
    FreshIsSound(complete);
    ConnectionRun(Fresh(complete), before);
    HalfCloseFrom(Exec(Fresh(complete), before), after);
  }
}
