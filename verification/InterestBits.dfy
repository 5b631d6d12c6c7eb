/** Which of the five epoll bits a channel asks for, bit by bit, and which callbacks they lead to. */
module InterestBits {
  import opened EpollSpec
  import opened ConnSpec
  import opened ConnRegistration
  import ConnRuns

  /** What each interest change asks for. */
  lemma ChangeBits(i: Interest, events: Mask)
    ensures var w := Wanted(i, events);
      match i
      case EnableReading => w == events.(pollIn := true, pollPri := true)
      case DisableReading => w == events.(pollIn := false, pollPri := false)
      case EnableWriting => w == events.(pollOut := true)
      case DisableWriting => w == events.(pollOut := false)
      case DisableAll => w == Mask(false, false, false, false, false)
  {
  }

  /** EPOLLIN and EPOLLPRI go together, and error and hang-up, which come unasked, are not asked for. */
  predicate Plain(events: Mask) {
    events.pollIn == events.pollPri && !events.pollErr && !events.pollHup
  }

  lemma {:induction false} AsksArePlain(c: Chan, asks: seq<Ask>)
    requires Plain(c.events)
    ensures Plain(Through(c, asks).events)
    decreases |asks|
  {
    if asks != [] {
      if asks[0].Wants? {
        ChangeBits(asks[0].interest, c.events);
      }
      AsksArePlain(AfterAsk(c, asks[0]), asks[1..]);
    }
  }

  lemma {:induction false} RunAsks(c: Conn, ls: seq<ConnRuns.Label>)
    requires ConnRuns.LegalRun(c, ls)
    ensures Told(c.chan, ConnRuns.Exec(c, ls).chan)
    decreases |ls|
  {
    if ls == [] {
      ToldNothing(c.chan);
    } else {
      var d := ConnRuns.Do(c, ls[0]);
      StepAsks(c, ls[0]);
      RunAsks(d, ls[1..]);
      ToldOn(c.chan, d.chan, ConnRuns.Exec(d, ls[1..]).chan);
    }
  }

  /** What a connection wants: input and urgent data until it is closed; room to write exactly while
      output waits; nothing else, ever. */
  predicate WantsRightly(c: Conn) {
    && Plain(c.chan.events)
    && (ConnRuns.IsUp(c) ==> c.chan.events.pollIn)
    && (c.closes > 0 || c.established == 0 ==> !c.chan.events.pollIn)
    && (c.chan.events.pollOut <==> c.closes == 0 && c.output != [])
  }

  /** Over every run of a connection, whatever the application does. */
  lemma RunWantsRightly(complete: bool, ls: seq<ConnRuns.Label>)
    requires ConnRuns.LegalRun(Fresh(complete), ls)
    ensures WantsRightly(ConnRuns.Exec(Fresh(complete), ls))
  {
    var c := Fresh(complete);
    ConnRuns.FreshIsSound(complete);
    ConnRuns.ConnectionRun(c, ls);
    ConnRuns.LifeCycleRun(c, ls);
    RunAsks(c, ls);
    AsksArePlain(c.chan, Between(c.chan, ConnRuns.Exec(c, ls).chan));
    SoundWantsRightly(ConnRuns.Exec(c, ls));
  }

  lemma SoundWantsRightly(c: Conn)
    requires ConnRuns.Inv(c) && ConnRuns.Life(c) && Plain(c.chan.events)
    ensures WantsRightly(c)
  {
  }

  /** What is asked for is served: whatever else a returned mask holds, readable or urgent data brings a
      read, and writable a write. */
  lemma ReturnedIsServed(m: Mask)
    ensures OnRead in Callbacks(m) <==> m.pollIn || m.pollPri
    ensures OnWrite in Callbacks(m) <==> m.pollOut
    ensures OnClose in Callbacks(m) <==> m.pollHup && !m.pollIn
    ensures OnError in Callbacks(m) <==> m.pollErr
  {
  }

  /** Errors come first, then reading, writing, and closing. */
  lemma CallbacksInOrder(m: Mask)
    ensures forall i, j :: 0 <= i < j < |Callbacks(m)| ==> Rank(Callbacks(m)[i]) < Rank(Callbacks(m)[j])
  {
  }

  function Rank(cb: Callback): nat {
    match cb case OnError => 0 case OnRead => 1 case OnWrite => 2 case OnClose => 3
  }
}
