/** The echo application of main.cpp on one connection. */
module Echo {
  import opened EpollSpec
  import opened ConnSpec
  import opened ConnRuns
  import ConnSteps

  /** `onMessage` takes the whole input and sends it back; `onConnection` only prints when the
      connection comes up and calls `shutdown` when it is down. */
  predicate EchoLabel(l: Label) {
    match l
    case Establish(calls) => calls == []
    case Dispatch(e) => |e.onMessage| == 1 && e.onMessage[0].CallEcho? && e.onDown == [CallShutdown]
    case Calls(calls) => calls == []
    case Destroy(calls) => calls == [CallShutdown]
  }

  predicate EchoRun(ls: seq<Label>) {
    forall l <- ls :: EchoLabel(l)
  }

  /** Between steps the input is empty, and everything received was either accepted for sending
      back or refused because of a write fault. */
  predicate EchoInv(c: Conn) {
    && c.input == []
    && |c.accepted| + c.refused == |c.received|
    && (c.refused == 0 ==> c.accepted == c.received)
    && (Open(c) ==> c.state != Disconnected)
  }

  lemma OneCall(c: Conn, call: Call)
    ensures RunCalls(c, [call]) == RunCall(c, call)
  {
    assert [call][..0] == [];
    assert RunCalls(c, []) == c;
  }

  lemma EchoClose(c: Conn)
    requires Inv(c) && EchoInv(c)
    ensures EchoInv(HandleClose(c, [CallShutdown]))
  {
    OneCall(SetInterest(MarkDown(c), DisableAll), CallShutdown);
  }

  /** Reading echoes: the bytes just received are sent back, unless the write itself faults. */
  lemma EchoRead(c: Conn, e: Event)
    requires Inv(c) && IsUp(c) && EchoInv(c) && EchoLabel(Dispatch(e))
    ensures EchoInv(AfterRead(c, e))
  {
    if (e.mask.pollIn || e.mask.pollPri) && e.r.Got? {
      if e.r.bytes == [] {
        EchoClose(c);
      } else {
        var c1 := c.(input := c.input + e.r.bytes, received := c.received + e.r.bytes);
        assert c1.input == e.r.bytes;
        var w := e.onMessage[0].w;
        assert e.onMessage == [CallEcho(w)];
        OneCall(c1, CallEcho(w));
        SendEffect(c1.(input := []), c1.input, w);
      }
    }
  }

  lemma EchoEvent(c: Conn, e: Event)
    requires Inv(c) && IsUp(c) && EchoInv(c) && EchoLabel(Dispatch(e))
    ensures EchoInv(HandleEvent(c, e))
  {
    EventUnfolds(c, e);
    EchoRead(c, e);
    ReadEffect(c, e.r, e.onMessage, e.onDown);
    WriteEffect(AfterRead(c, e), e.w);
    EchoClose(AfterWrite(c, e));
  }

  lemma EchoStep(c: Conn, l: Label)
    requires Inv(c) && OrderlyLife(c) && EchoInv(c) && Legal(c, l) && EchoLabel(l)
    requires l.Dispatch? ==> !ClosesTwice(l.e)
    ensures EchoInv(Do(c, l))
  {
    match l
    case Dispatch(e) => EchoEvent(c, e);
    case Establish(calls) =>
      assert RunCalls(c, []) == c;
    case Calls(calls) =>
    case Destroy(calls) =>
  }

  lemma {:induction false} EchoKept(c: Conn, ls: seq<Label>)
    requires Inv(c) && OrderlyLife(c) && EchoInv(c) && LegalRun(c, ls) && EchoRun(ls) && NoDoubleClose(ls)
    ensures EchoInv(Exec(c, ls)) && Inv(Exec(c, ls))
    decreases |ls|
  {
    if ls != [] {
      var l := ls[0];
      EchoStep(c, l);
      StepKeepsInv(c, l);
      StepKeepsLife(c, Do(c, l), l);
      forall k <- ls[1..] ensures EchoLabel(k) && (k.Dispatch? ==> !ClosesTwice(k.e)) {
        assert k in ls;
      }
      EchoKept(Do(c, l), ls[1..]);
    }
  }

  lemma EchoFrom(c: Conn, ls: seq<Label>)
    requires Inv(c) && OrderlyLife(c) && EchoInv(c) && LegalRun(c, ls) && EchoRun(ls) && NoDoubleClose(ls)
    ensures var d := Exec(c, ls);
      && d.input == []
      && (d.delivered + d.output == d.received <==> d.refused == 0)
      && (d.refused == 0 ==> d.delivered <= d.received)
      && |d.delivered| + |d.output| + d.refused == |d.received|
  {
    EchoKept(c, ls);
  }

  /** End to end, over every run with any read sizes and any partial or failed writes: what was
      delivered followed by what waits is what was received, exactly when no send was refused; so in
      that case the peer always gets a prefix of what it sent.  Only a direct write that meets EPIPE or
      ECONNRESET refuses a send. */
  lemma EchoDeliversPrefix(complete: bool, ls: seq<Label>)
    requires LegalRun(Fresh(complete), ls) && EchoRun(ls) && NoDoubleClose(ls)
    ensures var c := Exec(Fresh(complete), ls);
      && c.input == []
      && (c.delivered + c.output == c.received <==> c.refused == 0)
      && (c.refused == 0 ==> c.delivered <= c.received)
      && |c.delivered| + |c.output| + c.refused == |c.received|
      && (ConnSteps.NothingBreaks(ls) ==> c.refused == 0)
  {
    FreshIsSound(complete);
    EchoFrom(Fresh(complete), ls);
    if ConnSteps.NothingBreaks(ls) {
      ConnSteps.RunRefusesNothing(Fresh(complete), ls);
    }
  }
}
