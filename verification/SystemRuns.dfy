/** The invariant over whole runs of the server. */
module SystemRuns {
  import opened Common
  import opened ConnSpec
  import opened LoopSpec
  import opened ServerSpec
  import opened ServerSystem
  import opened SystemInv
  import opened SystemSteps
  import opened SystemConns
  import ConnRuns
  import Naming

  lemma ControlKept(s: Sys, t: Sys, lb: Label)
    requires Inv(s) && Enabled(s, lb) && t == Step(s, lb)
    requires lb.LEnter? || lb.LCheck? || lb.LPoll? || lb.LWake? || lb.LAcceptNone?
          || lb.LDone? || lb.LSwap? || lb.LEndRun? || lb.LQuit?
    ensures Inv(t)
  {
    match lb
    case LEnter(k) => EnterStep(s, k);
    case LCheck(k) => CheckStep(s, k);
    case LPoll(k, active) => PollStep(s, k, active);
    case LWake(k) => WakeStep(s, k);
    case LAcceptNone(k) => WakeStep(s, k);
    case LDone(k) => DoneStep(s, k);
    case LSwap(k) => SwapStep(s, k);
    case LEndRun(k) => EndRunStep(s, k);
    case LQuit(k) => QuitStep(s, k);
  }

  lemma RunKept(s: Sys, t: Sys, lb: Label)
    requires Inv(s) && lb.LRun? && Enabled(s, lb) && t == Step(s, lb)
    ensures Inv(t)
  {
    var k, calls := lb.k, lb.calls;
    var it := s.loops[k].batch[s.loops[k].next];
    if Plain(it) {
      RunPlainStep(s, t, k);
    } else if it.Establish? {
      EstablishStep(s, t, k, it.c, calls);
    } else if it.Destroy? {
      DestroyStep(s, t, k, it.c, calls);
    } else {
      RemoveStep(s, t, k, it.c);
    }
  }

  /** The next active connection is in the kernel set. */
  lemma ActiveIsUp(s: Sys, k: nat)
    requires Inv(s) && k < |s.loops| && s.loops[k].active != [] && s.loops[k].active[0].ConnReady?
    ensures var r := s.loops[k].active[0];
      r.c in s.conns && ConnRuns.Inv(s.conns[r.c]) && ConnRuns.IsWatched(s.conns[r.c])
  {
    var r := s.loops[k].active[0];
    assert LoopInv(s, k) && r in s.loops[k].active && ConnInv(s, r.c);
  }

  lemma ConnKept(s: Sys, t: Sys, lb: Label)
    requires Inv(s) && lb.LConn? && Enabled(s, lb) && t == Step(s, lb)
    ensures Inv(t)
  {
    var k, e := lb.k, lb.e;
    var c := s.loops[k].active[0].c;
    ActiveIsUp(s, k);
    EventLeaves(s.conns[c], e);
    DispatchStep(s, t, k, c, HandleEvent(s.conns[c], e));
  }

  lemma AcceptKept(s: Sys, t: Sys, lb: Label)
    requires Inv(s) && lb.LAccept? && Enabled(s, lb) && t == Step(s, lb)
    ensures Inv(t)
  {
    var c, conn := NewRef(s.server, lb.fd), AcceptedConn(s.server, lb.complete, lb.calls);
    AcceptAdds(s, t, lb.fd, lb.complete, lb.calls);
    AcceptStep(s, t, c, conn, FirstTodo(c, lb.complete, conn));
  }

  lemma ThreadKept(s: Sys, t: Sys, lb: Label)
    requires Inv(s) && Enabled(s, lb) && t == Step(s, lb)
    requires lb.LTodo? || lb.LQueue? || lb.LCall?
    ensures Inv(t)
  {
    match lb
    case LTodo(k) => TodoKept(s, t, k);
    case LQueue(k, at, tag) => QueueStep(s, t, k, User(at, tag));
    case LCall(k, c, calls) => CallStep(s, t, k, c, calls);
  }

  lemma ForeignKept(s: Sys, t: Sys, lb: Label)
    requires Inv(s) && Enabled(s, lb) && t == Step(s, lb)
    requires lb.LForeignPush? || lb.LForeignQuit? || lb.LForeignWake?
    ensures Inv(t)
  {
    match lb
    case LForeignPush(k, tag) => ForeignPushStep(s, t, k, tag);
    case LForeignQuit(k) => ForeignQuitStep(s, t, k);
    case LForeignWake(k) => ForeignWakeStep(s, t, k);
  }

  /** Every step keeps the invariant. */
  lemma StepKeepsInv(s: Sys, t: Sys, lb: Label)
    requires Inv(s) && Enabled(s, lb) && t == Step(s, lb)
    ensures Inv(t)
  {
    if lb.LAccept? {
      AcceptKept(s, t, lb);
    } else if lb.LConn? {
      ConnKept(s, t, lb);
    } else if lb.LRun? {
      RunKept(s, t, lb);
    } else if lb.LTodo? || lb.LQueue? || lb.LCall? {
      ThreadKept(s, t, lb);
    } else if lb.LForeignPush? || lb.LForeignQuit? || lb.LForeignWake? {
      ForeignKept(s, t, lb);
    } else {
      ControlKept(s, t, lb);
    }
  }

  lemma {:induction false} RunKeepsInv(s: Sys, run: seq<Label>)
    requires Inv(s) && LegalRun(s, run)
    ensures Inv(Exec(s, run))
    decreases |run|
  {
    if run != [] {
      var t := Step(s, run[0]);
      StepKeepsInv(s, t, run[0]);
      RunKeepsInv(t, run[1..]);
    }
  }

  /** Nothing queued by the loops' own threads before they loop. */
  function NothingEarly(n: nat): seq<seq<Item>> {
    seq(n + 1, _ => [])
  }

  function Begin(name: string, address: Naming.Address, n: nat): Sys {
    Initial(name, address, NothingEarly(n))
  }

  lemma {:induction false} NothingAtLoops(loops: seq<Loop>, it: Item)
    requires forall l <- loops :: l.batch == [] && l.todo == [] && l.next == 0 && it !in l.sh.pending
    ensures AtLoops(loops, it) == 0
    decreases |loops|
  {
    if loops != [] {
      NothingAtLoops(loops[..|loops| - 1], it);
      assert loops[|loops| - 1] in loops;
    }
  }

  lemma BeginInv(name: string, address: Naming.Address, n: nat)
    requires address.Valid()
    ensures Inv(Begin(name, address, n))
  {
    var s := Begin(name, address, n);
    forall it: Item ensures Flight(s, it) == 0 {
      NothingAtLoops(s.loops, it);
    }
    forall k | 0 <= k < |s.loops| ensures LoopInv(s, k) {
      var l := s.loops[k];
      assert l == Loop(Blank(), Entry, [], 0, [], [], None);
      assert l.sh.executed + Rest(l) + l.sh.pending == [];
    }
  }

  /** Every state of every run of a server with n io loops satisfies the invariant. */
  lemma ServerRun(name: string, address: Naming.Address, n: nat, run: seq<Label>)
    requires address.Valid() && LegalRun(Begin(name, address, n), run)
    ensures Inv(Exec(Begin(name, address, n), run))
  {
    BeginInv(name, address, n);
    RunKeepsInv(Begin(name, address, n), run);
  }
}
