/** What holds in every reachable state of the server, under every interleaving of its loops and
    of user threads. */
module SystemTheorems {
  import opened Common
  import opened EpollSpec
  import opened ConnSpec
  import opened LoopSpec
  import opened ServerSpec
  import opened ServerSystem
  import opened SystemInv
  import opened SystemRuns
  import ConnRuns
  import Naming
  import SystemConns

  /** Some run of some server, with nothing queued by the loops' own threads beforehand, ends here. */
  ghost predicate Reachable(s: Sys) {
    exists name, address: Naming.Address, n, run ::
      address.Valid() && LegalRun(Begin(name, address, n), run) && s == Exec(Begin(name, address, n), run)
  }

  lemma ReachableInv(s: Sys)
    requires Reachable(s)
    ensures Inv(s)
  {
    var name, address: Naming.Address, n, run :|
      address.Valid() && LegalRun(Begin(name, address, n), run) && s == Exec(Begin(name, address, n), run);
    ServerRun(name, address, n, run);
  }

  // ---------------------------------------------------------------- ownership

  /** While a connection's channel is in its poller's table, some strong reference to the
      connection exists. */
  lemma RegisteredIsOwned(s: Sys, c: Ref)
    requires Reachable(s) && c in s.conns && s.conns[c].chan.index != New
    ensures Held(s, c)
  {
    ReachableInv(s);
    assert ConnInv(s, c);
    AliveIsHeld(s, c);
  }

  /** A connection is released, and its descriptor closed, only after it was closed, taken out of
      the map, and unregistered by connectDestroyed, which ran once for every close. */
  lemma ReleasedOnlyAfterDestroy(s: Sys, c: Ref)
    requires Reachable(s) && c in s.conns && !Held(s, c)
    ensures var conn := s.conns[c];
      && conn.established == 1 && 1 <= conn.closes == conn.destroyed
      && ConnRuns.UpThenDowns(conn.changes, conn.closes) && conn.chan.index == New
      && !InMap(s.server, c)
      && Flight(s, Establish(c)) == Flight(s, Remove(c)) == Flight(s, Destroy(c)) == 0
  {
    ReachableInv(s);
    assert ConnInv(s, c);
    if s.conns[c].destroyed == 0 {
      AliveIsHeld(s, c);
    }
    ReleasedHasNoFunctors(s, c, Establish(c));
    ReleasedHasNoFunctors(s, c, Remove(c));
    ReleasedHasNoFunctors(s, c, Destroy(c));
  }

  lemma ReleasedHasNoFunctors(s: Sys, c: Ref, it: Item)
    requires AllKnown(s) && !Held(s, c) && Refers(it, c)
    ensures Flight(s, it) == 0
  {
    if Flight(s, it) > 0 {
      assert it !in s.foreign;
      var k := LoopsWitness(s.loops, it);
      ItemHolds(s, k, it, c);
    }
  }

  /** No channel pointer is ever followed after its owner was released, and whatever is still to
      be dispatched is registered on this loop, wants events, and is owned. */
  lemma DispatchIsSafe(s: Sys, k: nat, i: nat)
    requires Reachable(s) && k < |s.loops| && i < |s.loops[k].active| && s.loops[k].active[i].ConnReady?
    ensures var c := s.loops[k].active[i].c;
      c in s.conns && c.io == k && s.conns[c].chan.index == Added && Held(s, c) && !s.broken
  {
    ReachableInv(s);
    var r := s.loops[k].active[i];
    assert LoopInv(s, k) && r in s.loops[k].active;
    assert ConnInv(s, r.c);
    AliveIsHeld(s, r.c);
  }

  /** Connections that still exist, on whichever loops, have different descriptors; so no poller is
      ever given two channels for one. */
  lemma DescriptorsDiffer(s: Sys, c: Ref, d: Ref)
    requires Reachable(s) && c in s.conns && d in s.conns && c != d
    ensures Held(s, c) && Held(s, d) ==> c.fd != d.fd
    ensures s.conns[c].chan.index != New && s.conns[d].chan.index != New ==> c.fd != d.fd
  {
    ReachableInv(s);
    if s.conns[c].chan.index != New && s.conns[d].chan.index != New {
      RegisteredIsOwned(s, c);
      RegisteredIsOwned(s, d);
    }
  }

  /** The map holds exactly the connections of whose closes no removal has run, under their own
      names. */
  lemma MapHoldsLiveConnections(s: Sys, c: Ref)
    requires Reachable(s) && c in s.conns
    ensures InMap(s.server, c) <==> Named(s.server, c)
    ensures InMap(s.server, c) <==> Flight(s, Remove(c)) == s.conns[c].closes
    ensures forall name <- s.server.connections :: s.server.connections[name] in s.conns
  {
    ReachableInv(s);
    assert ConnInv(s, c);
    if InMap(s.server, c) {
      var name :| name in s.server.connections && s.server.connections[name] == c;
      assert name == NameOf(s.server, c);
    }
  }

  // ---------------------------------------------------------------- teardown

  /** Every close is accounted for exactly once: by its removal in flight, its connectDestroyed in
      flight, or its connectDestroyed having run; and nothing else is in flight or ran. */
  lemma EveryCloseIsAccountedFor(s: Sys, c: Ref)
    requires Reachable(s) && c in s.conns
    ensures var conn := s.conns[c];
      && Flight(s, Establish(c)) + conn.established == 1
      && Flight(s, Remove(c)) + Flight(s, Destroy(c)) + conn.destroyed == conn.closes
      && (conn.closes > 0 ==> conn.established == 1)
  {
    ReachableInv(s);
    assert ConnInv(s, c);
  }

  /** No loop has anything left to run or push. */
  predicate AtRest(s: Sys) {
    forall l <- s.loops :: l.sh.pending == [] && l.batch == [] && l.todo == [] && l.guard == None
  }

  lemma NothingInFlight(s: Sys, it: Item)
    requires AtRest(s) && LoopsInv(s) && Bound(it) && forall x <- s.foreign :: x.WakeUp?
    ensures Flight(s, it) == 0
  {
    forall l <- s.loops ensures l.next == 0 {
      var k :| 0 <= k < |s.loops| && s.loops[k] == l;
      assert LoopInv(s, k);
    }
    NothingAtLoops(s.loops, it);
  }

  lemma OnlyTheMapHolds(s: Sys, c: Ref)
    requires AtRest(s)
    ensures Held(s, c) <==> InMap(s.server, c)
  {
    forall k | 0 <= k < |s.loops| ensures !Holds(s.loops[k], c) {
      assert s.loops[k] in s.loops;
    }
  }

  /** At rest the connections that still exist are exactly those in the map, and they are all up and
      registered. */
  lemma QuiescentServerOwnsOnlyItsMap(s: Sys, c: Ref)
    requires Reachable(s) && c in s.conns && AtRest(s)
    ensures Held(s, c) <==> InMap(s.server, c)
    ensures Held(s, c) <==> ConnRuns.IsUp(s.conns[c])
    ensures Held(s, c) <==> s.conns[c].chan.index != New
  {
    ReachableInv(s);
    OnlyTheMapHolds(s, c);
    NothingInFlight(s, Remove(c));
    NothingInFlight(s, Establish(c));
    NothingInFlight(s, Destroy(c));
    MapHoldsLiveConnections(s, c);
    EveryCloseIsAccountedFor(s, c);
    assert ConnInv(s, c);
    UpOrGone(s.conns[c]);
  }

  lemma UpOrGone(c: Conn)
    requires ConnRuns.Life(c) && c.established == 1 && c.destroyed == c.closes
    ensures c.closes == 0 <==> ConnRuns.IsUp(c)
    ensures c.closes == 0 <==> c.chan.index != New
  {
  }

  // ---------------------------------------------------------------- functors and wake-ups

  /** The functors run so far, the rest of the batch and the queue are together exactly the
      functors queued so far, in order: each runs once, and on the loop it belongs to. */
  lemma FunctorsRunOnceInOrder(s: Sys, k: nat)
    requires Reachable(s) && k < |s.loops|
    ensures var l := s.loops[k];
      && l.next <= |l.batch|
      && l.sh.executed + l.batch[l.next..] + l.sh.pending == l.sh.queued
      && (forall it <- l.batch + l.sh.pending :: Home(it) == k)
  {
    ReachableInv(s);
    assert LoopInv(s, k);
  }

  /** Some thread is between pushing a functor (or setting quit) and writing the wake-up. */
  predicate WakeUpDue(s: Sys, k: nat) {
    WakeUp(k) in s.foreign || exists j :: 0 <= j < |s.loops| && WakeUp(k) in s.loops[j].todo
  }

  /** The loop is committed to polling and has work, but nothing will end the poll. */
  predicate LostWakeUp(s: Sys, k: nat)
    requires k < |s.loops|
  {
    var l := s.loops[k];
    l.phase == Poll && (l.sh.pending != [] || l.sh.quit) && l.sh.counter == 0 && !WakeUpDue(s, k)
  }

  /** No wake-up is lost: a loop committed to polling while functors wait or quit is set can have
      its poll end at once, by its own wake-up channel, or will as soon as some thread finishes. */
  lemma NoLostWakeUp(s: Sys, k: nat)
    requires Reachable(s) && k < |s.loops| && s.loops[k].phase == Poll
    requires s.loops[k].sh.pending != [] || s.loops[k].sh.quit
    ensures !LostWakeUp(s, k)
    ensures WakeUpDue(s, k) || Enabled(s, LPoll(k, [WakeReady]))
  {
    ReachableInv(s);
    assert LoopInv(s, k);
    if s.loops[k].sh.counter == 0 {
      FlightIsDue(s, k);
    }
  }

  /** Whoever owes a wake-up is not itself blocked: a user thread can write it at once, and a loop's
      thread is handling or running something, with its next push or wake-up ready to go. */
  lemma DebtorsAreAwake(s: Sys, k: nat)
    requires Reachable(s) && k < |s.loops|
    ensures WakeUp(k) in s.foreign ==>
      Enabled(s, LForeignWake(k)) && Step(s, LForeignWake(k)).loops[k].sh.counter > 0
    ensures forall j: nat :: j < |s.loops| && WakeUp(k) in s.loops[j].todo ==>
      (s.loops[j].phase == Dispatch || s.loops[j].phase == Run) && Enabled(s, LTodo(j))
  {
    ReachableInv(s);
    forall j: nat | j < |s.loops| && WakeUp(k) in s.loops[j].todo
      ensures (s.loops[j].phase == Dispatch || s.loops[j].phase == Run) && Enabled(s, LTodo(j))
    {
      assert LoopInv(s, j);
      var lb := TodoIsEnabled(s, j);
    }
  }

  lemma FlightIsDue(s: Sys, k: nat)
    requires LoopsInv(s) && Flight(s, WakeUp(k)) > 0
    ensures WakeUpDue(s, k)
  {
    if WakeUp(k) !in s.foreign {
      var j := LoopsWitness(s.loops, WakeUp(k));
      assert LoopInv(s, j);
      WakeUpsAreDue(s.loops[j], k, j);
    }
  }

  lemma WakeUpsAreDue(l: Loop, k: nat, j: nat)
    requires AtHome(l, j) && AtLoop(l, WakeUp(k)) > 0
    ensures WakeUp(k) in l.todo
  {
    assert forall it <- Rest(l) :: it in l.batch;
    assert WakeUp(k) !in l.sh.pending && WakeUp(k) !in Rest(l);
    assert multiset(l.todo)[WakeUp(k)] > 0;
  }

  /** Functors queued before `loop()` by a loop's own thread: no wake-up goes with them. */
  predicate OwnFunctors(early: seq<seq<Item>>) {
    forall k :: 0 <= k < |early| ==> forall it <- early[k] :: it.User? && it.at == k
  }

  ghost predicate NeverLost(name: string, address: Naming.Address, early: seq<seq<Item>>)
    requires |early| > 0
  {
    forall run, k ::
      LegalRun(Initial(name, address, early), run) && 0 <= k < |early| ==>
        !LostIn(Exec(Initial(name, address, early), run), k)
  }

  predicate LostIn(s: Sys, k: int) {
    0 <= k < |s.loops| && LostWakeUp(s, k)
  }

  /** No wake-up is lost in any run exactly when no loop's own thread queued a functor before it
      entered `loop()`. */
  lemma NoLostWakeUpIff(name: string, address: Naming.Address, early: seq<seq<Item>>)
    requires |early| > 0 && address.Valid() && OwnFunctors(early)
    ensures NeverLost(name, address, early) <==> forall k :: 0 <= k < |early| ==> early[k] == []
  {
    if forall k :: 0 <= k < |early| ==> early[k] == [] {
      assert early == NothingEarly(|early| - 1);
      forall run, k | LegalRun(Initial(name, address, early), run) && 0 <= k < |early|
        ensures !LostIn(Exec(Initial(name, address, early), run), k)
      {
        var s := Exec(Initial(name, address, early), run);
        assert Initial(name, address, early) == Begin(name, address, |early| - 1);
        assert Reachable(s);
        if LostIn(s, k) {
          NoLostWakeUp(s, k);
        }
      }
    } else {
      var k :| 0 <= k < |early| && early[k] != [];
      EarlyFunctorIsLost(name, address, early, k);
      var run := [LEnter(k), LCheck(k)];
      assert LegalRun(Initial(name, address, early), run) && LostIn(Exec(Initial(name, address, early), run), k);
    }
  }

  /** Two steps lead into the lost wake-up. */
  lemma EarlyFunctorIsLost(name: string, address: Naming.Address, early: seq<seq<Item>>, k: nat)
    requires k < |early| && early[k] != []
    ensures var s := Initial(name, address, early);
      LegalRun(s, [LEnter(k), LCheck(k)]) && LostIn(Exec(s, [LEnter(k), LCheck(k)]), k)
  {
    var s := Initial(name, address, early);
    var run := [LEnter(k), LCheck(k)];
    var s1 := Step(s, run[0]);
    assert run[1..] == [LCheck(k)];
    assert s1.loops[k].phase == Check && Enabled(s1, run[1]);
    var s2 := Step(s1, run[1]);
    assert run[1..][1..] == [];
    assert LegalRun(s2, []) && LegalRun(s1, [LCheck(k)]);
    assert Exec(s1, [LCheck(k)]) == Exec(s2, []) == s2;
    assert s.loops[k] == Loop(Blank<Item>().(pending := early[k], queued := early[k]), Entry, [], 0, [], [], None);
    assert s2.foreign == multiset{} && s2.loops[k].sh.pending == early[k] && s2.loops[k].sh.counter == 0;
    assert forall j :: 0 <= j < |s2.loops| ==> s2.loops[j].todo == [];
    assert LostWakeUp(s2, k);
    assert Exec(s, run) == Exec(s1, run[1..]) == s2;
  }

  // ---------------------------------------------------------------- quitting

  function Polls(run: seq<Label>, k: nat): nat
    decreases |run|
  {
    if run == [] then 0 else (if run[0].LPoll? && run[0].k == k then 1 else 0) + Polls(run[1..], k)
  }

  lemma SharedQuitSticks(s: Sys, t: Sys, lb: Label, k: nat)
    requires Enabled(s, lb) && t == Step(s, lb) && k < |s.loops| && s.loops[k].sh.quit
    requires lb.LTodo? || lb.LForeignPush? || lb.LForeignQuit? || lb.LForeignWake?
    ensures |t.loops| == |s.loops| && t.loops[k].sh.quit && t.loops[k].phase == s.loops[k].phase
  {
  }

  /** Only pushes and wake-ups reach another loop. */
  lemma WorkStaysHere(s: Sys, t: Sys, lb: Label, j: nat)
    requires Enabled(s, lb) && t == Step(s, lb) && j < |s.loops| && j != lb.k
    requires !lb.LTodo?
    ensures |t.loops| == |s.loops| && t.loops[j] == s.loops[j]
  {
    if lb.LRun? {
      RunStaysHere(s, t, lb.k, lb.calls, j);
    }
  }

  lemma RunStaysHere(s: Sys, t: Sys, k: nat, calls: seq<Call>, j: nat)
    requires Enabled(s, LRun(k, calls)) && t == RunItem(s, k, calls) && j < |s.loops| && j != k
    ensures |t.loops| == |s.loops| && t.loops[j] == s.loops[j]
  {
  }

  lemma WorkQuitSticks(s: Sys, t: Sys, lb: Label, k: nat)
    requires Enabled(s, lb) && t == Step(s, lb) && k < |s.loops|
    requires !lb.LTodo? && !lb.LForeignPush? && !lb.LForeignQuit? && !lb.LForeignWake?
    requires s.loops[k].sh.quit && s.loops[k].phase != Entry
    ensures |t.loops| == |s.loops| && t.loops[k].sh.quit && t.loops[k].phase != Entry
    ensures s.loops[k].phase != Poll ==> t.loops[k].phase != Poll
    ensures lb.LPoll? && lb.k == k ==> s.loops[k].phase == Poll && t.loops[k].phase != Poll
  {
    if k != lb.k {
      WorkStaysHere(s, t, lb, k);
    } else if lb.LRun? {
      RunQuitSticks(s, t, k, lb.calls);
    }
  }

  lemma RunQuitSticks(s: Sys, t: Sys, k: nat, calls: seq<Call>)
    requires Enabled(s, LRun(k, calls)) && t == RunItem(s, k, calls) && s.loops[k].sh.quit
    ensures |t.loops| == |s.loops| && t.loops[k].sh.quit && t.loops[k].phase == Run
  {
  }

  lemma QuitSticks(s: Sys, t: Sys, lb: Label, k: nat)
    requires Enabled(s, lb) && t == Step(s, lb) && k < |s.loops|
    requires s.loops[k].sh.quit && s.loops[k].phase != Entry
    ensures |t.loops| == |s.loops| && t.loops[k].sh.quit && t.loops[k].phase != Entry
    ensures s.loops[k].phase != Poll ==> t.loops[k].phase != Poll
    ensures lb.LPoll? && lb.k == k ==> s.loops[k].phase == Poll && t.loops[k].phase != Poll
  {
    if lb.LTodo? || lb.LForeignPush? || lb.LForeignQuit? || lb.LForeignWake? {
      SharedQuitSticks(s, t, lb, k);
    } else {
      WorkQuitSticks(s, t, lb, k);
    }
  }

  /** A quit issued after the loop was entered is never undone, and the loop polls at most once
      more: only when it had already passed its test of the flag. */
  lemma {:induction false} QuitEndsTheLoop(s: Sys, run: seq<Label>, k: nat)
    requires LegalRun(s, run) && k < |s.loops| && s.loops[k].sh.quit && s.loops[k].phase != Entry
    ensures Polls(run, k) <= if s.loops[k].phase == Poll then 1 else 0
    ensures k < |Exec(s, run).loops| && Exec(s, run).loops[k].sh.quit
    decreases |run|
  {
    if run != [] {
      var t := Step(s, run[0]);
      QuitSticks(s, t, run[0], k);
      QuitEndsTheLoop(t, run[1..], k);
    }
  }

  predicate QuitIn(s: Sys, k: nat) {
    k < |s.loops| && s.loops[k].sh.quit
  }

  /** The flag stays set whatever any thread does next. */
  ghost predicate QuitLasts(s: Sys, k: nat) {
    forall run :: LegalRun(s, run) ==> QuitIn(Exec(s, run), k)
  }

  /** A quit lasts, whatever any thread does next, exactly when the loop was already entered. */
  lemma QuitLastsIff(s: Sys, k: nat)
    requires k < |s.loops| && s.loops[k].sh.quit
    ensures QuitLasts(s, k) <==> s.loops[k].phase != Entry
  {
    if s.loops[k].phase == Entry {
      var run := [LEnter(k)];
      var t := Step(s, run[0]);
      assert run[1..] == [] && LegalRun(t, []) && Exec(t, []) == t;
      assert LegalRun(s, run) && !QuitIn(Exec(s, run), k);
    } else {
      forall run | LegalRun(s, run) ensures QuitIn(Exec(s, run), k) {
        QuitEndsTheLoop(s, run, k);
      }
    }
  }

  /** The case in point: a quit from another thread before the loop is entered.  The loop goes on
      to poll as if nothing had happened. */
  lemma EarlyQuitIsLost(name: string, address: Naming.Address, n: nat, k: nat)
    requires k <= n
    ensures var s, run := Begin(name, address, n), [LForeignQuit(k), LEnter(k), LCheck(k)];
      && LegalRun(s, run) && k < |Exec(s, run).loops|
      && Exec(s, run).loops[k].phase == Poll && !Exec(s, run).loops[k].sh.quit
  {
    var s, run := Begin(name, address, n), [LForeignQuit(k), LEnter(k), LCheck(k)];
    var s1 := Step(s, run[0]);
    var s2 := Step(s1, LEnter(k));
    var s3 := Step(s2, LCheck(k));
    assert run[1..] == [LEnter(k), LCheck(k)] && run[1..][1..] == [LCheck(k)] && run[1..][1..][1..] == [];
    assert LegalRun(s3, []) && LegalRun(s2, [LCheck(k)]) && LegalRun(s1, [LEnter(k), LCheck(k)]);
    assert Exec(s2, [LCheck(k)]) == Exec(s3, []) == s3;
    assert Exec(s, run) == Exec(s1, run[1..]) == Exec(s2, run[1..][1..]) == s3;
  }

  // ---------------------------------------------------------------- threads

  /** The connection a step of some loop works on is one of that loop. */
  lemma WorkIsLocal(s: Sys, k: nat)
    requires Inv(s) && k < |s.loops|
    ensures var l := s.loops[k];
      && (l.active != [] && l.active[0].ConnReady? ==> l.active[0].c.io == k)
      && (l.next < |l.batch| && (l.batch[l.next].Establish? || l.batch[l.next].Destroy?) ==>
            l.batch[l.next].c.io == k)
    ensures forall c <- s.conns :: c.id < s.server.nextConnId
  {
    var l := s.loops[k];
    assert LoopInv(s, k);
    if l.active != [] {
      assert l.active[0] in l.active;
    }
    if l.next < |l.batch| {
      assert l.batch[l.next] in l.batch;
    }
    forall c <- s.conns ensures c.id < s.server.nextConnId {
      assert ConnInv(s, c);
    }
  }

  /** Only the thread of a connection's own loop touches the connection. */
  lemma OnlyOwnLoopTouches(s: Sys, t: Sys, lb: Label, c: Ref)
    requires Reachable(s) && Enabled(s, lb) && t == Step(s, lb) && c in s.conns
    ensures c in t.conns && (t.conns[c] != s.conns[c] ==> lb.k == c.io)
  {
    ReachableInv(s);
    WorkIsLocal(s, lb.k);
    TouchesOne(s, t, lb, c);
  }

  lemma TouchesOne(s: Sys, t: Sys, lb: Label, c: Ref)
    requires Enabled(s, lb) && t == Step(s, lb) && c in s.conns && c.id < s.server.nextConnId
    requires var l := s.loops[lb.k];
      && (l.active != [] && l.active[0].ConnReady? ==> l.active[0].c.io == lb.k)
      && (l.next < |l.batch| && (l.batch[l.next].Establish? || l.batch[l.next].Destroy?) ==>
            l.batch[l.next].c.io == lb.k)
    ensures c in t.conns && (t.conns[c] != s.conns[c] ==> lb.k == c.io)
  {
    if lb.LRun? {
      RunTouchesOne(s, t, lb.k, lb.calls, c);
    }
  }

  lemma RunTouchesOne(s: Sys, t: Sys, k: nat, calls: seq<Call>, c: Ref)
    requires Enabled(s, LRun(k, calls)) && t == RunItem(s, k, calls) && c in s.conns
    requires var it := s.loops[k].batch[s.loops[k].next]; it.Establish? || it.Destroy? ==> it.c.io == k
    ensures c in t.conns && (t.conns[c] != s.conns[c] ==> k == c.io)
  {
  }

  /** Every loop that has not stopped can take a step of its own: no functor or active channel it
      meets refers to nothing. */
  lemma NoLoopIsStuck(s: Sys, k: nat) returns (lb: Label)
    requires Reachable(s) && k < |s.loops| && s.loops[k].phase != Stopped
    ensures Enabled(s, lb) && lb.k == k
    ensures !lb.LCall? && !lb.LQueue? && !lb.LQuit? && !lb.LForeignPush? && !lb.LForeignQuit? && !lb.LForeignWake?
  {
    ReachableInv(s);
    lb := NextOwnStep(s, k);
  }

  lemma NextOwnStep(s: Sys, k: nat) returns (lb: Label)
    requires Inv(s) && k < |s.loops| && s.loops[k].phase != Stopped
    ensures Enabled(s, lb) && lb.k == k
    ensures !lb.LCall? && !lb.LQueue? && !lb.LQuit? && !lb.LForeignPush? && !lb.LForeignQuit? && !lb.LForeignWake?
  {
    var l := s.loops[k];
    assert LoopInv(s, k);
    match l.phase
    case Entry => lb := LEnter(k);
    case Check => lb := LCheck(k);
    case Poll => lb := LPoll(k, []);
    case Calling => lb := LSwap(k);
    case Dispatch =>
      if l.todo != [] {
        lb := TodoIsEnabled(s, k);
      } else if l.active == [] {
        lb := LDone(k);
      } else {
        assert l.active[0] in l.active;
        match l.active[0]
        case WakeReady => lb := LWake(k);
        case AcceptReady => lb := LAcceptNone(k);
        case ConnReady(c, m) => lb := LConn(k, Event(m, ReadFailed(OtherErrno), Room(0), [], []));
      }
    case Run =>
      if l.todo != [] {
        lb := TodoIsEnabled(s, k);
      } else if l.next == |l.batch| {
        lb := LEndRun(k);
      } else {
        SystemConns.NextInFlight(s, k);
        assert Known(s, l.batch[l.next]);
        lb := LRun(k, []);
      }
  }

  lemma TodoIsEnabled(s: Sys, k: nat) returns (lb: Label)
    requires Inv(s) && k < |s.loops| && s.loops[k].todo != []
    ensures lb == LTodo(k) && Enabled(s, lb)
  {
    var it := s.loops[k].todo[0];
    assert it in s.loops[k].todo;
    LoopsCover(s.loops, k, it);
    assert Known(s, it);
    if Bound(it) {
      assert ConnInv(s, it.c);
    }
    lb := LTodo(k);
  }
}
