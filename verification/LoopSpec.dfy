/** The part of an event loop that other threads reach: the quit flag, the queue of functors and
    the wake-up counter.  `queued` and `executed` are histories. */
module LoopSpec {

  /** The largest value an eventfd counter takes; a write that would pass it is refused. */
  const COUNTER_MAX: nat := 0xffff_ffff_ffff_fffe

  datatype Shared<T> = Shared(
    quit: bool,
    calling: bool,
    pending: seq<T>,
    counter: nat,
    queued: seq<T>,
    executed: seq<T>)

  function Blank<T>(): Shared<T> {
    Shared(false, false, [], 0, [], [])
  }

  function Push<T>(s: Shared<T>, t: T): Shared<T> {
    s.(pending := s.pending + [t], queued := s.queued + [t])
  }

  function Wake<T>(s: Shared<T>): Shared<T> {
    s.(counter := if s.counter < COUNTER_MAX then s.counter + 1 else s.counter)
  }

  function Drain<T>(s: Shared<T>): Shared<T> {
    s.(counter := 0)
  }

  function Ran<T>(s: Shared<T>, t: T): Shared<T> {
    s.(executed := s.executed + [t])
  }

  // ---------------------------------------------------------------- whole calls

  /** `queueInLoop`, called on the loop's own thread (`here`) or on another. */
  function Queue<T>(s: Shared<T>, t: T, here: bool): Shared<T> {
    if !here || s.calling then Wake(Push(s, t)) else Push(s, t)
  }

  function QueueAll<T>(s: Shared<T>, ts: seq<T>, here: bool): Shared<T>
    decreases |ts|
  {
    if ts == [] then s
    else Queue(QueueAll(s, ts[..|ts| - 1], here), ts[|ts| - 1], here)
  }

  /** Running a batch of functors; `spawns` is what is queued on the same loop while each runs. */
  function RunAll<T>(s: Shared<T>, batch: seq<T>, spawns: T -> seq<T>): Shared<T>
    decreases |batch|
  {
    if batch == [] then s
    else
      var last := batch[|batch| - 1];
      QueueAll(Ran(RunAll(s, batch[..|batch| - 1], spawns), last), spawns(last), true)
  }

  function DoPendingFunctors<T>(s: Shared<T>, spawns: T -> seq<T>): Shared<T> {
    RunAll(s.(calling := true, pending := []), s.pending, spawns).(calling := false)
  }

  /** One turn of the loop: what other threads queue until the poll returns, whether the wake-up
      channel is among the active ones, what the handlers queue, and whether one of them quits. */
  datatype Turn<T> = Turn(arrived: seq<T>, woken: bool, handled: seq<T>, quits: bool)

  function PollAndHandle<T>(s: Shared<T>, turn: Turn<T>): Shared<T> {
    var s1 := QueueAll(s, turn.arrived, false);
    var s2 := QueueAll(if turn.woken then Drain(s1) else s1, turn.handled, true);
    if turn.quits then s2.(quit := true) else s2
  }

  function TakeTurn<T>(s: Shared<T>, turn: Turn<T>, spawns: T -> seq<T>): Shared<T> {
    DoPendingFunctors(PollAndHandle(s, turn), spawns)
  }

  /** The `while` of `loop`, as long as the environment's script goes. */
  function Turns<T>(s: Shared<T>, script: seq<Turn<T>>, spawns: T -> seq<T>): Shared<T>
    decreases |script|
  {
    if script == [] || s.quit then s else Turns(TakeTurn(s, script[0], spawns), script[1..], spawns)
  }

  // ---------------------------------------------------------------- properties

  /** All that a batch queues, in order. */
  function Spawned<T>(batch: seq<T>, spawns: T -> seq<T>): seq<T> {
    if batch == [] then []
    else Spawned(batch[..|batch| - 1], spawns) + spawns(batch[|batch| - 1])
  }

  ghost predicate SameFlags<T>(s: Shared<T>, t: Shared<T>) {
    t.quit == s.quit && t.calling == s.calling
  }

  lemma {:induction false} QueueAllEffect<T>(s: Shared<T>, ts: seq<T>, here: bool)
    ensures var t := QueueAll(s, ts, here);
      && t.pending == s.pending + ts && t.queued == s.queued + ts && t.executed == s.executed
      && SameFlags(s, t) && s.counter <= t.counter
      && (ts != [] && (!here || s.calling) ==> t.counter > 0)
      && (ts == [] || (here && !s.calling) ==> t.counter == s.counter)
    decreases |ts|
  {
    if ts != [] {
      QueueAllEffect(s, ts[..|ts| - 1], here);
      assert ts == ts[..|ts| - 1] + [ts[|ts| - 1]];
    }
  }

  lemma {:induction false} RunAllEffect<T>(s: Shared<T>, batch: seq<T>, spawns: T -> seq<T>)
    requires s.calling
    ensures var t, more := RunAll(s, batch, spawns), Spawned(batch, spawns);
      && t.executed == s.executed + batch
      && t.pending == s.pending + more && t.queued == s.queued + more
      && SameFlags(s, t) && s.counter <= t.counter
      && (if more != [] then t.counter > 0 else t.counter == s.counter)
    decreases |batch|
  {
    if batch != [] {
      var front, last := batch[..|batch| - 1], batch[|batch| - 1];
      RunAllEffect(s, front, spawns);
      QueueAllEffect(Ran(RunAll(s, front, spawns), last), spawns(last), true);
      assert batch == front + [last];
    }
  }

  /** A pass over the queue runs exactly the functors queued before it, in order; those queued by
      the functors themselves wait for the next pass, and the next poll is sure to end at once. */
  lemma OneBatchPerPass<T>(s: Shared<T>, spawns: T -> seq<T>)
    ensures var t := DoPendingFunctors(s, spawns);
      && t.executed == s.executed + s.pending
      && t.pending == Spawned(s.pending, spawns) && t.queued == s.queued + t.pending
      && !t.calling && t.quit == s.quit
      && (if t.pending != [] then t.counter > 0 else t.counter == s.counter)
  {
    RunAllEffect(s.(calling := true, pending := []), s.pending, spawns);
  }

  /** Between turns: every queued functor ran or waits, in order, and a waiting one is announced. */
  ghost predicate Steady<T>(s: Shared<T>) {
    && s.executed + s.pending == s.queued
    && !s.calling
    && (s.pending != [] ==> s.counter > 0)
  }

  lemma PollEffect<T>(s: Shared<T>, turn: Turn<T>)
    ensures var t, given := PollAndHandle(s, turn), turn.arrived + turn.handled;
      && t.pending == s.pending + given && t.queued == s.queued + given && t.executed == s.executed
      && t.calling == s.calling && t.quit == (s.quit || turn.quits)
      && (turn.woken && !s.calling ==> t.counter == 0)
  {
    var s1 := QueueAll(s, turn.arrived, false);
    QueueAllEffect(s, turn.arrived, false);
    QueueAllEffect(if turn.woken then Drain(s1) else s1, turn.handled, true);
    assert s.pending + turn.arrived + turn.handled == s.pending + (turn.arrived + turn.handled);
    assert s.queued + turn.arrived + turn.handled == s.queued + (turn.arrived + turn.handled);
  }

  /** A turn runs everything queued before it and during its poll and dispatch; and a turn that found
      the wake-up channel active leaves the loop to sleep, unless its functors queued more. */
  lemma TurnRunsAll<T>(s: Shared<T>, turn: Turn<T>, spawns: T -> seq<T>)
    requires Steady(s)
    ensures var t := TakeTurn(s, turn, spawns);
      && Steady(t)
      && t.executed == s.queued + (turn.arrived + turn.handled)
      && (turn.woken ==> (t.counter == 0 <==> t.pending == []))
      && t.quit == (s.quit || turn.quits)
  {
    var given := turn.arrived + turn.handled;
    PollEffect(s, turn);
    OneBatchPerPass(PollAndHandle(s, turn), spawns);
    assert s.executed + (s.pending + given) == s.executed + s.pending + given;
  }

  /** The turns up to and including the first in which something quits. */
  function UntilQuit<T>(script: seq<Turn<T>>): seq<Turn<T>>
    decreases |script|
  {
    if script == [] then []
    else [script[0]] + if script[0].quits then [] else UntilQuit(script[1..])
  }

  /** Taking turns without looking at the flag. */
  function TakeAll<T>(s: Shared<T>, script: seq<Turn<T>>, spawns: T -> seq<T>): Shared<T>
    decreases |script|
  {
    if script == [] then s else TakeAll(TakeTurn(s, script[0], spawns), script[1..], spawns)
  }

  /** The loop takes exactly the turns up to and including the first in which something quits, and
      keeps its queue in order throughout. */
  lemma {:induction false} LoopStopsAfterQuit<T>(s: Shared<T>, script: seq<Turn<T>>, spawns: T -> seq<T>)
    requires Steady(s) && !s.quit
    ensures var t := Turns(s, script, spawns);
      && Steady(t) && s.queued <= t.queued
      && t == TakeAll(s, UntilQuit(script), spawns)
      && (t.quit <==> exists turn <- script :: turn.quits)
      && (script != [] ==> s.queued <= t.executed)
    decreases |script|
  {
    if script != [] {
      var u := TakeTurn(s, script[0], spawns);
      TurnRunsAll(s, script[0], spawns);
      assert s.queued <= u.executed <= u.queued;
      var rest := if script[0].quits then [] else UntilQuit(script[1..]);
      assert UntilQuit(script)[1..] == rest;
      if u.quit {
        assert TakeAll(u, [], spawns) == u;
        assert script[0] in script;
      } else {
        LoopStopsAfterQuit(u, script[1..], spawns);
        assert forall turn <- script :: turn == script[0] || turn in script[1..];
      }
    }
  }
}
