/** The connection object: two buffers, a channel and a state, changed step by step by its
    handlers.  Every handler is proved against the function of the same name in ConnSpec. */
module TcpConn {
  import opened Common
  import opened EpollSpec
  import opened Registration
  import opened ByteBuffer
  import opened Epoll
  import opened ConnSpec
  import BufferSpec
  import ConnRuns
  import SendText

  /** The histories a connection's properties speak of. */
  datatype Log = Log(
    received: seq<byte>, accepted: seq<byte>, refused: nat, delivered: seq<byte>, fins: nat,
    changes: seq<Change>, established: nat, closes: nat, destroyed: nat, drains: nat, unheard: nat)

  ghost predicate AllApart(conns: set<TcpConnection>)
    reads (set c <- conns :: c.inputBuffer), set c <- conns :: c.outputBuffer
  {
    forall c: TcpConnection <- conns, d: TcpConnection <- conns :: c != d ==> c.ApartFrom(d)
  }

  class TcpConnection {
    const channel: Channel
    const inputBuffer: Buffer
    const outputBuffer: Buffer
    const wantsComplete: bool
    var wantsHigh: bool
    var state: State
    var notes: seq<Note>
    ghost var log: Log

    constructor (poller: EpollPoller, fd: int, wantsComplete: bool)
      requires poller.Valid() && fd !in poller.all
      modifies poller`all
      ensures Valid() && View() == Fresh(wantsComplete)
      ensures channel.poller == poller && channel.fd == fd && fresh(channel)
      ensures poller.Valid() && poller.all == old(poller.all)[fd := channel]
      ensures poller.View() == old(poller.View()).(chans := old(poller.View()).chans[fd := NEW_CHAN])
      ensures fresh(inputBuffer) && fresh(inputBuffer.data) && fresh(outputBuffer) && fresh(outputBuffer.data)
    {
      state, notes, wantsHigh := Connecting, [], false;
      channel := new Channel(poller, fd);
      inputBuffer := new Buffer();
      outputBuffer := new Buffer();
      this.wantsComplete := wantsComplete;
      log := Log([], [], 0, [], 0, [], 0, 0, 0, 0, 0);
      new;
    }

    ghost predicate Valid()
      reads this, inputBuffer, outputBuffer, channel, channel.poller
    {
      && inputBuffer.Valid() && outputBuffer.Valid()
      && inputBuffer != outputBuffer && inputBuffer.data != outputBuffer.data
      && channel.Valid()
    }

    ghost function View(): Conn
      requires inputBuffer.Valid() && outputBuffer.Valid()
      reads this, inputBuffer, inputBuffer.data, outputBuffer, outputBuffer.data, channel
    {
      Conn(state, channel.View(), inputBuffer.View().bytes, outputBuffer.View().bytes, wantsComplete, wantsHigh,
           log.unheard, log.received, log.accepted, log.refused, log.delivered, log.fins, log.changes, log.established,
           log.closes, log.destroyed, log.drains, notes)
    }

    /** The buffers' storage is the old one or a new one. */
    twostate predicate OwnData()
      reads inputBuffer, outputBuffer
    {
      && (inputBuffer.data == old(inputBuffer.data) || fresh(inputBuffer.data))
      && (outputBuffer.data == old(outputBuffer.data) || fresh(outputBuffer.data))
    }

    /** In the poller, nothing of any other connection changed; and when its table, its kernel set
        and the indices agreed, they still do, so that they are determined by the channels. */
    twostate predicate OnlyMine()
      reads channel.poller, channel.poller.all.Values
    {
      && OnlyTouches(old(channel.poller.View()), channel.poller.View(), channel.fd)
      && forall fd :: fd != channel.fd ==> (fd in channel.poller.channels <==> fd in old(channel.poller.channels))
    }

    twostate predicate PollerKept()
      reads channel.poller, channel.poller.all.Values
    {
      channel.poller.View() == old(channel.poller.View())
    }

    // ---------------------------------------------------------------- among other connections

    ghost predicate ApartFrom(d: TcpConnection)
      reads inputBuffer, outputBuffer, d.inputBuffer, d.outputBuffer
    {
      && channel != d.channel
      && inputBuffer != d.inputBuffer && inputBuffer != d.outputBuffer
      && outputBuffer != d.inputBuffer && outputBuffer != d.outputBuffer
      && inputBuffer.data != d.inputBuffer.data && inputBuffer.data != d.outputBuffer.data
      && outputBuffer.data != d.inputBuffer.data && outputBuffer.data != d.outputBuffer.data
    }

    /** Sound before and after, and looking the same. */
    twostate predicate Kept()
      reads this, channel, channel.poller, inputBuffer, inputBuffer.data, outputBuffer, outputBuffer.data
    {
      old(Valid()) && Valid() && View() == old(View())
    }

    /** Another connection that was neither written nor lost its entry in the poller is kept. */
    twostate lemma LeavesAlone(d: TcpConnection)
      requires old(Valid()) && old(d.Valid())
      requires channel.poller == d.channel.poller && channel != d.channel
      requires channel.poller.Valid() && channel.poller.all == old(channel.poller.all)
      requires forall fd :: fd != channel.fd ==> (fd in channel.poller.channels <==> fd in old(channel.poller.channels))
      requires d.Unwritten()
      ensures d.Kept()
    {
      assert d.inputBuffer.View() == old(d.inputBuffer.View());
      assert d.outputBuffer.View() == old(d.outputBuffer.View());
    }

    /** All other connections of the poller, none of which was written, are kept; and all are still
        apart. */
    twostate lemma LeavesAllAlone(conns: set<TcpConnection>)
      requires this in conns && old(AllApart(conns)) && OnlyMine() && OwnData()
      requires channel.poller.Valid() && channel.poller.all == old(channel.poller.all)
      requires forall d: TcpConnection <- conns :: old(d.Valid()) && d.channel.poller == channel.poller
      requires forall d: TcpConnection <- conns :: d != this ==> d.Unwritten()
      ensures AllApart(conns) && forall d: TcpConnection <- conns :: d != this ==> d.Kept()
    {
      forall d: TcpConnection <- conns | d != this ensures d.Kept() {
        assert old(ApartFrom(d));
        LeavesAlone(d);
      }
      StayApart(conns);
    }

    twostate predicate Unwritten()
      reads this, channel, inputBuffer, inputBuffer.data, outputBuffer, outputBuffer.data
    {
      && unchanged(this) && unchanged(channel) && unchanged(inputBuffer) && unchanged(outputBuffer)
      && unchanged(inputBuffer.data) && unchanged(outputBuffer.data)
    }

    twostate lemma StayApart(conns: set<TcpConnection>)
      requires this in conns && old(AllApart(conns)) && OwnData()
      requires forall d <- conns :: d != this ==>
        d.inputBuffer.data == old(d.inputBuffer.data) && d.outputBuffer.data == old(d.outputBuffer.data)
      ensures AllApart(conns)
    {
      forall a: TcpConnection <- conns, b: TcpConnection <- conns | a != b ensures a.ApartFrom(b) {
        assert old(a.ApartFrom(b));
      }
    }

    // ---------------------------------------------------------------- methods

    /** Changes what the channel wants and tells the poller. */
    method SetInterest(i: Interest)
      requires Valid()
      modifies channel`events, channel`index, channel`asks
      modifies channel.poller`channels, channel.poller`kernel, channel.poller`refused
      ensures Valid() && OnlyMine() && View() == ConnSpec.SetInterest(old(View()), i)
    {
      ChangeTouches(channel.poller.View(), channel.fd, i);
      channel.SetInterest(i);
    }

    method BufferRest(rest: seq<byte>)
      requires Valid()
      modifies this`notes, outputBuffer, outputBuffer.data
      ensures Valid() && PollerKept() && OwnData() && View() == Buffered(old(View()), rest)
    {
      var oldLen := outputBuffer.ReadableBytes();
      if oldLen + |rest| >= HIGH_WATER_MARK && oldLen < HIGH_WATER_MARK && wantsHigh {
        notes := notes + [HighWater(oldLen + |rest|)];
      }
      AppendOutput(rest);
    }

    method AppendOutput(rest: seq<byte>)
      requires Valid()
      modifies outputBuffer, outputBuffer.data
      ensures Valid() && PollerKept() && OwnData()
      ensures View() == old(View()).(output := old(View()).output + rest)
    {
      BufferSpec.AppendFits(outputBuffer.View(), rest);
      outputBuffer.Append(rest);
    }

    /** Buffers bytes and asks for write events. */
    method Enqueue(rest: seq<byte>)
      requires Valid() && rest != []
      modifies this`notes, outputBuffer, outputBuffer.data
      modifies channel`events, channel`index, channel`asks
      modifies channel.poller`channels, channel.poller`kernel, channel.poller`refused
      ensures Valid() && OnlyMine() && OwnData() && View() == ConnSpec.Enqueue(old(View()), rest)
    {
      BufferRest(rest);
      if !channel.IsWriting() {
        SetInterest(EnableWriting);
      }
    }

    /** `sendInLoop`, under any reading of its text; its log-only test of the state is left out. */
    method SendInLoop(data: seq<byte>, w: WriteResult, t: Text)
      requires Valid()
      modifies this`notes, this`log, outputBuffer, outputBuffer.data
      modifies channel`events, channel`index, channel`asks
      modifies channel.poller`channels, channel.poller`kernel, channel.poller`refused
      ensures Valid() && OnlyMine() && OwnData() && View() == SendInLoopText(old(View()), data, w, t)
    {
      var nwrote, remaining, faultError := DirectWrite(data, w, t);
      if !faultError && remaining > 0 {
        Enqueue(Memory(data, t, nwrote, remaining));
      }
    }

    /** The first half of `sendInLoop`: with nothing waiting, write at once. */
    method DirectWrite(data: seq<byte>, w: WriteResult, t: Text)
      returns (nwrote: int, remaining: int, faultError: bool)
      requires Valid()
      modifies this`notes, this`log
      ensures Valid() && PollerKept() && View() == ConnSpec.DirectWrite(old(View()), data, w, t)
      ensures remaining == Remaining(old(View()), data, w, t)
      ensures faultError == GivenUp(old(View()), data, w, t)
      ensures nwrote == if Idle(old(View())) && !Direct(old(View()), data, w, t) then 0
                        else Returned(old(View()), data, w, t)
    {
      nwrote, remaining, faultError := t.junk, |data|, false;
      if !channel.IsWriting() && outputBuffer.ReadableBytes() == 0 {
        var errno;
        nwrote, errno := Write(data, w, t.stale);
        if (t.signTest && nwrote >= 0) || (!t.signTest && nwrote != 0) {
          remaining := |data| - nwrote;
          if remaining == 0 && wantsComplete {
            notes := notes + [WriteComplete];
          }
        } else {
          nwrote := 0;
          if errno != EWOULDBLOCK {
            if errno == EPIPE || errno == ECONNRESET {
              faultError := true;
            }
          }
        }
      } else {
        TakeOver(data);
      }
    }

    /** The system call; without a failure errno keeps its old value. */
    method Write(data: seq<byte>, w: WriteResult, stale: Errno) returns (n: int, errno: Errno)
      requires Valid() && Idle(View())
      modifies this`log
      ensures Valid() && PollerKept() && View() == Tried(old(View()), data, w)
      ensures n == if w.Room? then w.Taken(|data|) else -1
      ensures errno == if w.Room? then stale else w.errno
    {
      if w.Room? {
        n, errno := w.Taken(|data|), stale;
        log := log.(accepted := log.accepted + data, delivered := log.delivered + data[..n]);
      } else {
        n, errno := -1, w.errno;
        log := if errno.IsFault() then log.(refused := log.refused + |data|)
               else log.(accepted := log.accepted + data);
      }
    }

    ghost method TakeOver(data: seq<byte>)
      requires Valid()
      modifies this`log
      ensures Valid() && PollerKept() && View() == old(View()).(accepted := old(View()).accepted + data)
    {
      log := log.(accepted := log.accepted + data);
    }

    method Send(data: seq<byte>, w: WriteResult, t: Text)
      requires Valid()
      modifies this`notes, this`log, outputBuffer, outputBuffer.data
      modifies channel`events, channel`index, channel`asks
      modifies channel.poller`channels, channel.poller`kernel, channel.poller`refused
      ensures Valid() && OnlyMine() && OwnData()
      ensures View() == if old(state) == Connected then SendInLoopText(old(View()), data, w, t) else old(View())
    {
      if state == Connected {
        SendInLoop(data, w, t);
      }
    }

    method Shutdown()
      requires Valid()
      modifies this`state, this`log
      ensures Valid() && PollerKept() && View() == ConnSpec.Shutdown(old(View()))
    {
      if state == Connected {
        state := Disconnected;
        ShutdownInLoop();
      }
    }

    method ShutdownInLoop()
      requires Valid()
      modifies this`log
      ensures Valid() && PollerKept() && View() == ConnSpec.ShutdownInLoop(old(View()))
    {
      if !channel.IsWriting() {
        log := log.(fins := log.fins + 1);
      }
    }

    /** A send on the loop's own thread, read as it is meant. */
    method SendAsMeant(data: seq<byte>, w: WriteResult)
      requires Valid()
      modifies this`notes, this`log, outputBuffer, outputBuffer.data
      modifies channel`events, channel`index, channel`asks
      modifies channel.poller`channels, channel.poller`kernel, channel.poller`refused
      ensures Valid() && OnlyMine() && OwnData() && View() == ConnSpec.Send(old(View()), data, w)
    {
      SendText.IntentIsSendInLoop(View(), data, w);
      Send(data, w, INTENT);
    }

    method TakeInput(len: nat)
      requires Valid()
      modifies inputBuffer
      ensures Valid() && PollerKept() && inputBuffer.data == old(inputBuffer.data)
      ensures var c := old(View());
        View() == c.(input := if len < |c.input| then c.input[len..] else [])
    {
      inputBuffer.Retrieve(len);
      assert outputBuffer.View() == old(outputBuffer.View());
      ghost var bytes := old(inputBuffer.View()).bytes;
      assert inputBuffer.View().bytes == if len < |bytes| then bytes[len..] else [];
    }

    method TakeAllInput() returns (res: seq<byte>)
      requires Valid()
      modifies inputBuffer
      ensures Valid() && PollerKept() && inputBuffer.data == old(inputBuffer.data)
      ensures View() == old(View()).(input := []) && res == old(View()).input
    {
      res := inputBuffer.RetrieveAllAsString();
    }

    /** The callback is heard of every climb over the mark from now on. */
    method SetHighWaterMarkCallback()
      requires Valid()
      modifies this`wantsHigh, this`log
      ensures Valid() && PollerKept() && View() == WatchHighWater(old(View()))
    {
      if !wantsHigh {
        log := log.(unheard := Climbed(View()));
      }
      wantsHigh := true;
    }

    /** What the application's callback does; `CallEcho` is the `onMessage` of main.cpp. */
    method RunCall(call: Call)
      requires Valid()
      modifies this`state, this`wantsHigh, this`notes, this`log
      modifies inputBuffer, outputBuffer, outputBuffer.data
      modifies channel`events, channel`index, channel`asks
      modifies channel.poller`channels, channel.poller`kernel, channel.poller`refused
      ensures Valid() && OnlyMine() && OwnData() && inputBuffer.data == old(inputBuffer.data)
      ensures View() == ConnSpec.RunCall(old(View()), call)
    {
      match call {
        case CallSend(data, w) =>
          SendAsMeant(data, w);
        case CallShutdown =>
          Shutdown();
        case CallTake(len) =>
          TakeInput(len);
        case CallWatch =>
          SetHighWaterMarkCallback();
        case CallEcho(w) =>
          var res := TakeAllInput();
          SendAsMeant(res, w);
      }
    }

    method RunCalls(calls: seq<Call>)
      requires Valid()
      modifies this`state, this`wantsHigh, this`notes, this`log
      modifies inputBuffer, outputBuffer, outputBuffer.data
      modifies channel`events, channel`index, channel`asks
      modifies channel.poller`channels, channel.poller`kernel, channel.poller`refused
      ensures Valid() && OnlyMine() && OwnData() && inputBuffer.data == old(inputBuffer.data)
      ensures View() == ConnSpec.RunCalls(old(View()), calls)
      decreases |calls|
    {
      if calls != [] {
        ghost var first := channel.poller.View();
        RunCalls(calls[..|calls| - 1]);
        ghost var second := channel.poller.View();
        RunCall(calls[|calls| - 1]);
        TouchesAgain(first, second, channel.poller.View(), channel.fd);
      }
    }

    method ConnectEstablished(calls: seq<Call>)
      requires Valid()
      modifies this`state, this`wantsHigh, this`notes, this`log, inputBuffer, outputBuffer, outputBuffer.data
      modifies channel`tied, channel`events, channel`index, channel`asks
      modifies channel.poller`channels, channel.poller`kernel, channel.poller`refused
      ensures Valid() && OnlyMine() && OwnData() && channel.tied
      ensures View() == ConnSpec.ConnectEstablished(old(View()), calls)
    {
      ghost var first := channel.poller.View();
      Open();
      ghost var second := channel.poller.View();
      RunCalls(calls);
      TouchesAgain(first, second, channel.poller.View(), channel.fd);
    }

    method Open()
      requires Valid()
      modifies this`state, this`log, channel`tied, channel`events, channel`index, channel`asks
      modifies channel.poller`channels, channel.poller`kernel, channel.poller`refused
      ensures Valid() && OnlyMine() && channel.tied
      ensures View() == ConnSpec.SetInterest(ConnSpec.MarkUp(old(View())), EnableReading)
    {
      MarkUp();
      SetInterest(EnableReading);
    }

    method MarkUp()
      requires Valid()
      modifies this`state, this`log, channel`tied
      ensures Valid() && PollerKept() && channel.tied
      ensures View() == ConnSpec.MarkUp(old(View()))
    {
      state := Connected;
      log := log.(established := log.established + 1, changes := log.changes + [Up]);
      channel.tied := true;
    }

    method ConnectDestroyed(calls: seq<Call>)
      requires Valid()
      modifies this`state, this`wantsHigh, this`notes, this`log, inputBuffer, outputBuffer, outputBuffer.data
      modifies channel`events, channel`index, channel`asks
      modifies channel.poller`channels, channel.poller`kernel, channel.poller`refused
      ensures Valid() && OnlyMine() && OwnData()
      ensures View() == ConnSpec.ConnectDestroyed(old(View()), calls)
    {
      CountDestroy();
      ghost var first := channel.poller.View();
      if state == Connected {
        GoDown(calls);
      }
      ghost var second := channel.poller.View();
      Unregister();
      TouchesAgain(first, second, channel.poller.View(), channel.fd);
    }

    ghost method CountDestroy()
      requires Valid()
      modifies this`log
      ensures Valid() && PollerKept() && View() == ConnSpec.CountDestroy(old(View()))
    {
      log := log.(destroyed := log.destroyed + 1);
    }

    method Unregister()
      requires Valid()
      modifies channel`events, channel`index, channel`asks
      modifies channel.poller`channels, channel.poller`kernel, channel.poller`refused
      ensures Valid() && OnlyMine() && View() == ConnSpec.Unregister(old(View()))
    {
      RemoveTouches(channel.poller.View(), channel.fd);
      channel.Remove();
    }

    method GoDown(calls: seq<Call>)
      requires Valid()
      modifies this`state, this`wantsHigh, this`notes, this`log, inputBuffer, outputBuffer, outputBuffer.data
      modifies channel`events, channel`index, channel`asks
      modifies channel.poller`channels, channel.poller`kernel, channel.poller`refused
      ensures Valid() && OnlyMine() && OwnData() && inputBuffer.data == old(inputBuffer.data)
      ensures View() == ConnSpec.GoDown(old(View()), calls)
    {
      MarkDown();
      ghost var first := channel.poller.View();
      SetInterest(DisableAll);
      ghost var second := channel.poller.View();
      RunCalls(calls);
      TouchesAgain(first, second, channel.poller.View(), channel.fd);
    }

    method MarkDown()
      requires Valid()
      modifies this`state, this`log
      ensures Valid() && PollerKept()
      ensures View() == ConnSpec.MarkDown(old(View()))
    {
      state := Disconnected;
      log := log.(changes := log.changes + [Down]);
    }

    method HandleClose(calls: seq<Call>)
      requires Valid()
      modifies this`state, this`wantsHigh, this`notes, this`log, inputBuffer, outputBuffer, outputBuffer.data
      modifies channel`events, channel`index, channel`asks
      modifies channel.poller`channels, channel.poller`kernel, channel.poller`refused
      ensures Valid() && OnlyMine() && OwnData() && View() == ConnSpec.HandleClose(old(View()), calls)
    {
      GoDown(calls);
      CountClose();
    }

    ghost method CountClose()
      requires Valid()
      modifies this`log
      ensures Valid() && PollerKept() && View() == old(View()).(closes := old(View()).closes + 1)
    {
      log := log.(closes := log.closes + 1);
    }

    method HandleRead(r: ReadResult, onMessage: seq<Call>, onDown: seq<Call>)
      requires Valid() && (r.Got? ==> |r.bytes| <= BufferSpec.ReadLimit(inputBuffer.View()))
      modifies this`state, this`wantsHigh, this`notes, this`log
      modifies inputBuffer, inputBuffer.data, outputBuffer, outputBuffer.data
      modifies channel`events, channel`index, channel`asks
      modifies channel.poller`channels, channel.poller`kernel, channel.poller`refused
      ensures Valid() && OnlyMine() && OwnData()
      ensures View() == ConnSpec.HandleRead(old(View()), r, onMessage, onDown)
    {
      var n := ReadIn(r);
      if n > 0 {
        RunCalls(onMessage);
      } else if n == 0 {
        HandleClose(onDown);
      }
    }

    /** Reads into the input buffer. */
    method ReadIn(r: ReadResult) returns (n: int)
      requires Valid() && (r.Got? ==> |r.bytes| <= BufferSpec.ReadLimit(inputBuffer.View()))
      modifies this`log, inputBuffer, inputBuffer.data
      ensures Valid() && PollerKept() && OwnData() && outputBuffer.data == old(outputBuffer.data)
      ensures n == if r.Got? then |r.bytes| else -1
      ensures var c := old(View());
        View() == if n > 0 then c.(input := c.input + r.bytes, received := c.received + r.bytes) else c
    {
      if r.Got? {
        BufferSpec.ScatterReadIsOneAppend(inputBuffer.View(), r.bytes);
      }
      var saved;
      n, saved := inputBuffer.ReadFd(r);
      if n > 0 {
        log := log.(received := log.received + r.bytes);
      } else if n == 0 {
        assert inputBuffer.View().bytes == old(inputBuffer.View()).bytes;
      }
    }

    method HandleWrite(w: WriteResult)
      requires Valid()
      modifies this`log, this`notes, outputBuffer
      modifies channel`events, channel`index, channel`asks
      modifies channel.poller`channels, channel.poller`kernel, channel.poller`refused
      ensures Valid() && OnlyMine() && OwnData() && View() == ConnSpec.HandleWrite(old(View()), w)
    {
      if channel.IsWriting() {
        var n := WriteOut(w);
        if n > 0 {
          if outputBuffer.ReadableBytes() == 0 {
            FinishWrite();
          }
        }
      }
    }

    /** Writes from the output buffer and takes out of it what the socket took. */
    method WriteOut(w: WriteResult) returns (n: int)
      requires Valid()
      modifies this`log, outputBuffer
      ensures Valid() && PollerKept() && outputBuffer.data == old(outputBuffer.data)
      ensures n == if w.Room? then w.Taken(|old(View()).output|) else -1
      ensures View() == if n > 0 then Drained(old(View()), n) else old(View())
    {
      ghost var sent, saved;
      n, sent, saved := outputBuffer.WriteFd(w);
      if n > 0 {
        ghost var before := |outputBuffer.View().bytes|;
        log := log.(delivered := log.delivered + sent,
                    drains := log.drains + if before - n < HIGH_WATER_MARK <= before then 1 else 0);
        outputBuffer.Retrieve(n);
      }
    }

    /** The output is empty: no more write events, and a deferred half-close is due. */
    method FinishWrite()
      requires Valid()
      modifies this`log, this`notes
      modifies channel`events, channel`index, channel`asks
      modifies channel.poller`channels, channel.poller`kernel, channel.poller`refused
      ensures Valid() && OnlyMine() && View() == ConnSpec.FinishWrite(old(View()))
    {
      SetInterest(DisableWriting);
      Announce();
    }

    /** Completion is announced, and a deferred half-close made. */
    method Announce()
      requires Valid()
      modifies this`log, this`notes
      ensures Valid() && PollerKept()
      ensures View() ==
        var c := Queue(old(View()), wantsComplete, WriteComplete);
        if c.state == Disconnected then ConnSpec.ShutdownInLoop(c) else c
    {
      if wantsComplete {
        notes := notes + [WriteComplete];
      }
      if state == Disconnected {
        ShutdownInLoop();
      }
    }

    /** One dispatched event, while the owner is alive: the callbacks in the channel's order. */
    method HandleEvent(e: Event)
      requires Valid() && (e.r.Got? ==> |e.r.bytes| <= BufferSpec.ReadLimit(inputBuffer.View()))
      modifies this`state, this`wantsHigh, this`notes, this`log
      modifies inputBuffer, inputBuffer.data, outputBuffer, outputBuffer.data
      modifies channel`revents, channel`events, channel`index, channel`asks
      modifies channel.poller`channels, channel.poller`kernel, channel.poller`refused
      ensures Valid() && OnlyMine() && OwnData() && View() == ConnSpec.HandleEvent(old(View()), e)
    {
      ghost var before := View();
      ConnRuns.EventUnfolds(before, e);
      var read, write, close := DueCallbacks(e.mask);
      ghost var first := channel.poller.View();
      if read {
        HandleRead(e.r, e.onMessage, e.onDown);
      }
      assert View() == ConnRuns.AfterRead(before, e);
      ghost var second := channel.poller.View();
      if write {
        HandleWrite(e.w);
      }
      ghost var third := channel.poller.View();
      TouchesAgain(first, second, third, channel.fd);
      if close {
        HandleClose(e.onDown);
      }
      TouchesAgain(first, third, channel.poller.View(), channel.fd);
    }

    /** One step of the connection's life. */
    method Do(l: ConnRuns.Label)
      requires Valid()
      requires l.Dispatch? && l.e.r.Got? ==> |l.e.r.bytes| <= BufferSpec.ReadLimit(inputBuffer.View())
      modifies this`state, this`wantsHigh, this`notes, this`log
      modifies inputBuffer, inputBuffer.data, outputBuffer, outputBuffer.data
      modifies channel`tied, channel`revents, channel`events, channel`index, channel`asks
      modifies channel.poller`channels, channel.poller`kernel, channel.poller`refused
      ensures Valid() && OnlyMine() && OwnData() && View() == ConnRuns.Do(old(View()), l)
    {
      match l {
        case Establish(calls) => ConnectEstablished(calls);
        case Dispatch(e) => HandleEvent(e);
        case Calls(calls) => RunCalls(calls);
        case Destroy(calls) => ConnectDestroyed(calls);
      }
    }

    /** Hands the returned mask to the channel; the owner being alive, its callbacks are due. */
    method DueCallbacks(mask: Mask) returns (read: bool, write: bool, close: bool)
      requires Valid()
      modifies channel`revents
      ensures Valid() && PollerKept() && View() == old(View()) && inputBuffer.View() == old(inputBuffer.View())
      ensures read == (mask.pollIn || mask.pollPri) && write == mask.pollOut
      ensures close == (mask.pollHup && !mask.pollIn)
    {
      channel.revents := mask;
      var calls := channel.HandleEvent(true);
      read, write, close := OnRead in calls, OnWrite in calls, OnClose in calls;
    }
  }
}
