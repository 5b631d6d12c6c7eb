/** The event loop object, apart from its poller: the quit flag, the queue of functors and the
    wake-up counter.  Functors are values; `spawns` says what is queued on the
    loop while each of them runs, by it or by another thread: either comes with a wake-up. */
module EventLoops {
  import Spec = LoopSpec

  class EventLoop<T> {
    var quit: bool
    var calling: bool
    var pending: seq<T>
    ghost var counter: nat
    ghost var queued: seq<T>
    ghost var executed: seq<T>

    constructor ()
      ensures View() == Spec.Blank()
    {
      quit, calling, pending, counter, queued, executed := false, false, [], 0, [], [];
    }

    ghost function View(): Spec.Shared<T>
      reads this
    {
      Spec.Shared(quit, calling, pending, counter, queued, executed)
    }

    method Quit(here: bool)
      modifies this`quit, this`counter
      ensures View() ==
        var s := old(View()).(quit := true);
        if here then s else Spec.Wake(s)
    {
      quit := true;
      if !here {
        Wakeup();
      }
    }

    /** Called on the loop's own thread, the functor is run at once by the caller. */
    method RunInLoop(f: T, here: bool) returns (now: bool)
      modifies this`pending, this`queued, this`counter
      ensures now == here
      ensures View() == if here then old(View()) else Spec.Queue(old(View()), f, false)
    {
      now := here;
      if !here {
        QueueInLoop(f, here);
      }
    }

    method QueueInLoop(f: T, here: bool)
      modifies this`pending, this`queued, this`counter
      ensures View() == Spec.Queue(old(View()), f, here)
    {
      pending, queued := pending + [f], queued + [f];
      if !here || calling {
        Wakeup();
      }
    }

    method QueueAll(fs: seq<T>, here: bool)
      modifies this`pending, this`queued, this`counter
      ensures View() == Spec.QueueAll(old(View()), fs, here)
    {
      var i := 0;
      while i < |fs|
        invariant i <= |fs| && View() == Spec.QueueAll(old(View()), fs[..i], here)
      {
        QueueInLoop(fs[i], here);
        i := i + 1;
        assert fs[..i][..i - 1] == fs[..i - 1];
      }
      assert fs[..i] == fs;
    }

    method Wakeup()
      modifies this`counter
      ensures View() == Spec.Wake(old(View()))
    {
      counter := if counter < Spec.COUNTER_MAX then counter + 1 else counter;
    }

    method HandleRead()
      modifies this`counter
      ensures View() == Spec.Drain(old(View()))
    {
      counter := 0;
    }

    /** Swaps the queue out and runs what was in it. */
    method DoPendingFunctors(spawns: T -> seq<T>)
      modifies this`calling, this`pending, this`counter, this`queued, this`executed
      ensures View() == Spec.DoPendingFunctors(old(View()), spawns)
    {
      var functors;
      calling := true;
      functors, pending := pending, [];
      ghost var start := View();
      var i := 0;
      while i < |functors|
        invariant i <= |functors| && View() == Spec.RunAll(start, functors[..i], spawns)
      {
        executed := executed + [functors[i]];
        QueueAll(spawns(functors[i]), true);
        i := i + 1;
        assert functors[..i][..i - 1] == functors[..i - 1];
      }
      assert functors[..i] == functors;
      calling := false;
    }

    /** What the environment's turns bring, until the loop quits or the script ends. */
    method Loop(script: seq<Spec.Turn<T>>, spawns: T -> seq<T>)
      modifies this
      ensures View() == Spec.Turns(old(View()).(quit := false), script, spawns)
    {
      quit := false;
      ghost var start := View();
      var i := 0;
      while !quit && i < |script|
        invariant i <= |script|
        invariant Spec.Turns(start, script, spawns) == Spec.Turns(View(), script[i..], spawns)
      {
        PollAndHandle(script[i]);
        DoPendingFunctors(spawns);
        i := i + 1;
      }
    }

    /** The poll, and the handlers of the active channels. */
    method PollAndHandle(turn: Spec.Turn<T>)
      modifies this`quit, this`pending, this`queued, this`counter
      ensures View() == Spec.PollAndHandle(old(View()), turn)
    {
      QueueAll(turn.arrived, false);
      if turn.woken {
        HandleRead();
      }
      QueueAll(turn.handled, true);
      if turn.quits {
        Quit(true);
      }
    }
  }
}
