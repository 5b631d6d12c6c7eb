/** What the steps of a connection ask of its poller.  Every channel keeps the history of its calls;
    they are recorded where they are made. */
module ConnRegistration {
  import opened Common
  import opened EpollSpec
  import opened ConnSpec
  import Reg = Registration
  import ConnRuns

  function AfterAsk(c: Chan, a: Ask): Chan {
    match a
    case Wants(i) => Changed(i, c)
    case Leaves => Left(c)
  }

  function Through(c: Chan, asks: seq<Ask>): Chan
    decreases |asks|
  {
    if asks == [] then c else Through(AfterAsk(c, asks[0]), asks[1..])
  }

  /** The calls as operations on the poller's registration. */
  function OpsFor(fd: int, asks: seq<Ask>): (ops: seq<Reg.Op>)
    ensures |ops| == |asks|
    ensures forall i :: 0 <= i < |asks| ==>
      ops[i] == match asks[i] case Wants(w) => Reg.Change(fd, w) case Leaves => Reg.Remove(fd)
  {
    if asks == [] then []
    else
      [match asks[0] case Wants(i) => Reg.Change(fd, i) case Leaves => Reg.Remove(fd)] + OpsFor(fd, asks[1..])
  }

  lemma {:induction false} ThroughJoin(c: Chan, a: seq<Ask>, b: seq<Ask>)
    ensures Through(c, a + b) == Through(Through(c, a), b)
    decreases |a|
  {
    if a == [] {
      assert a + b == b;
    } else {
      assert (a + b)[1..] == a[1..] + b;
      ThroughJoin(AfterAsk(c, a[0]), a[1..], b);
    }
  }

  /** In any registration in agreement, a channel's calls are lawful, move this channel so and no
      other, and keep the agreement; so no call is refused. */
  lemma {:induction false} AsksAreLawful(r: Reg.Registry, fd: int, asks: seq<Ask>)
    requires Reg.Coherent(r) && fd in r.chans
    ensures Reg.Lawful(r, OpsFor(fd, asks))
    ensures var t := Reg.Exec(r, OpsFor(fd, asks));
      Reg.Coherent(t) && t.chans == r.chans[fd := Through(r.chans[fd], asks)]
    decreases |asks|
  {
    if asks == [] {
      assert r.chans[fd := r.chans[fd]] == r.chans;
    } else {
      var ops := OpsFor(fd, asks);
      match asks[0] {
        case Wants(i) => Reg.ChangeKeepsCoherent(r, fd, i);
        case Leaves => Reg.RemoveKeepsCoherent(r, fd);
      }
      var s := Reg.Do(r, ops[0]);
      assert s.chans == r.chans[fd := AfterAsk(r.chans[fd], asks[0])];
      assert ops[1..] == OpsFor(fd, asks[1..]);
      AsksAreLawful(s, fd, asks[1..]);
    }
  }

  lemma LawfulJoin(r: Reg.Registry, a: seq<Reg.Op>, b: seq<Reg.Op>)
    requires Reg.Lawful(r, a) && Reg.Lawful(Reg.Exec(r, a), b)
    ensures Reg.Lawful(r, a + b) && Reg.Exec(r, a + b) == Reg.Exec(Reg.Exec(r, a), b)
    decreases |a|
  {
    if a == [] {
      assert a + b == b;
    } else {
      assert (a + b)[0] == a[0] && (a + b)[1..] == a[1..] + b;
      LawfulJoin(Reg.Do(r, a[0]), a[1..], b);
    }
  }

  /** The calls a channel made between two moments. */
  function Between(c: Chan, d: Chan): seq<Ask> {
    if |c.asks| <= |d.asks| then d.asks[|c.asks|..] else []
  }

  /** The later channel is what its calls made of the earlier one, and nothing else. */
  predicate Told(c: Chan, d: Chan) {
    c.asks <= d.asks && d == Through(c, Between(c, d))
  }

  lemma ToldOn(a: Chan, b: Chan, c: Chan)
    requires Told(a, b) && Told(b, c)
    ensures Told(a, c)
  {
    assert Between(a, c) == Between(a, b) + Between(b, c);
    ThroughJoin(a, Between(a, b), Between(b, c));
  }

  lemma ToldNothing(c: Chan)
    ensures Told(c, c)
  {
  }

  lemma ToldOne(c: Chan, a: Ask)
    ensures Told(c, AfterAsk(c, a))
  {
    var d := AfterAsk(c, a);
    assert Between(c, d) == [a] && [a][1..] == [];
    assert Through(d, []) == d;
  }

  // ---------------------------------------------------------------- the steps

  lemma CallAsks(c: Conn, call: Call)
    ensures RunCall(c, call).chan == c.chan || RunCall(c, call).chan == Changed(EnableWriting, c.chan)
    ensures Told(c.chan, RunCall(c, call).chan)
  {
    ToldNothing(c.chan);
    ToldOne(c.chan, Wants(EnableWriting));
  }

  lemma {:induction false} CallsAsk(c: Conn, calls: seq<Call>)
    ensures Told(c.chan, RunCalls(c, calls).chan)
    decreases |calls|
  {
    if calls == [] {
      ToldNothing(c.chan);
    } else {
      var before, call := RunCalls(c, calls[..|calls| - 1]), calls[|calls| - 1];
      CallsAsk(c, calls[..|calls| - 1]);
      CallAsks(before, call);
      ToldOn(c.chan, before.chan, RunCall(before, call).chan);
    }
  }

  lemma ChangeThenCalls(c: Conn, i: Interest, calls: seq<Call>)
    ensures Told(c.chan, RunCalls(SetInterest(c, i), calls).chan)
  {
    var d := SetInterest(c, i);
    ToldOne(c.chan, Wants(i));
    CallsAsk(d, calls);
    ToldOn(c.chan, d.chan, RunCalls(d, calls).chan);
  }

  lemma ReadAsks(c: Conn, r: ReadResult, onMessage: seq<Call>, onDown: seq<Call>)
    ensures Told(c.chan, HandleRead(c, r, onMessage, onDown).chan)
  {
    ToldNothing(c.chan);
    if r == Got([]) {
      ChangeThenCalls(MarkDown(c), DisableAll, onDown);
    } else if r.Got? {
      CallsAsk(c.(input := c.input + r.bytes, received := c.received + r.bytes), onMessage);
    }
  }

  lemma WriteAsks(c: Conn, w: WriteResult)
    ensures var d := HandleWrite(c, w); d.chan == c.chan || d.chan == Changed(DisableWriting, c.chan)
    ensures Told(c.chan, HandleWrite(c, w).chan)
  {
    ToldNothing(c.chan);
    ToldOne(c.chan, Wants(DisableWriting));
  }

  lemma EventAsks(c: Conn, e: Event)
    ensures Told(c.chan, HandleEvent(c, e).chan)
  {
    ConnRuns.EventUnfolds(c, e);
    var c1, c2, c3 := ConnRuns.AfterRead(c, e), ConnRuns.AfterWrite(c, e), HandleEvent(c, e);
    ToldNothing(c.chan);
    ReadAsks(c, e.r, e.onMessage, e.onDown);
    ToldNothing(c1.chan);
    WriteAsks(c1, e.w);
    ToldOn(c.chan, c1.chan, c2.chan);
    ToldNothing(c2.chan);
    ChangeThenCalls(MarkDown(c2), DisableAll, e.onDown);
    ToldOn(c.chan, c2.chan, c3.chan);
  }

  /** Going down, a connection asks for nothing but the end of all events. */
  lemma GoDownAsks(c: Conn, calls: seq<Call>)
    ensures GoDown(c, calls).chan == Changed(DisableAll, c.chan)
  {
    ConnRuns.ClosedCalls(SetInterest(MarkDown(c), DisableAll), calls);
  }

  lemma DestroyAsks(c: Conn, calls: seq<Call>)
    ensures Told(c.chan, ConnectDestroyed(c, calls).chan)
  {
    var d := CountDestroy(c);
    ToldNothing(c.chan);
    ChangeThenCalls(MarkDown(d), DisableAll, calls);
    var e := if c.state == Connected then GoDown(d, calls) else d;
    ToldOne(e.chan, Leaves);
    ToldOn(c.chan, e.chan, Left(e.chan));
  }

  /** What teardown asks, call by call: a close stops all events; connectDestroyed stops them if the
      connection is still up, and removes the channel. */
  lemma TeardownAsks(c: Conn, calls: seq<Call>)
    ensures HandleClose(c, calls).chan.asks == c.chan.asks + [Wants(DisableAll)]
    ensures ConnectDestroyed(c, calls).chan.asks ==
      c.chan.asks + (if c.state == Connected then [Wants(DisableAll)] else []) + [Leaves]
  {
    GoDownAsks(c, calls);
    GoDownAsks(CountDestroy(c), calls);
  }

  /** Whatever a step does to a connection's channel, it does by the calls it makes. */
  lemma StepAsks(c: Conn, l: ConnRuns.Label)
    ensures Told(c.chan, ConnRuns.Do(c, l).chan)
  {
    match l
    case Establish(calls) => ChangeThenCalls(MarkUp(c), EnableReading, calls);
    case Dispatch(e) => EventAsks(c, e);
    case Calls(calls) => CallsAsk(c, calls);
    case Destroy(calls) => DestroyAsks(c, calls);
  }
}
