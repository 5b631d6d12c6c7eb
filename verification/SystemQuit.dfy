/** The end of a loop: told to quit after it was entered, it stops, by its own thread alone and in every
    schedule in which that thread keeps getting its turns; and nothing else stops it. */
module SystemQuit {
  import opened Common
  import opened LoopSpec
  import opened ServerSystem
  import opened SystemInv
  import opened SystemRuns
  import opened SystemTheorems
  import opened SystemProgress
  import Naming

  /** The loop was entered, was told to quit, and has not stopped yet. */
  predicate Ending(l: Loop) {
    l.sh.quit && l.phase != Entry && l.phase != Stopped
  }

  predicate HasStopped(s: Sys, k: nat) {
    k < |s.loops| && s.loops[k].phase == Stopped
  }

  /** Phases still to come until the loop has tested the flag. */
  function PhasesLeft(l: Loop): nat {
    match l.phase
    case Entry => 6
    case Poll => 5
    case Dispatch => 4
    case Calling => 3
    case Run => 2
    case Check => 1
    case Stopped => 0
  }

  predicate NearerEnd(t: Loop, l: Loop) {
    PhasesLeft(t) < PhasesLeft(l) || (PhasesLeft(t) == PhasesLeft(l) && Left(t) < Left(l))
  }

  lemma ControlNearsEnd(s: Sys, t: Sys, lb: Label)
    requires Enabled(s, lb) && t == Step(s, lb) && GetsOn(lb) && !Handles(lb) && !lb.LRun?
    requires LoopOK(s.loops[lb.k]) && Ending(s.loops[lb.k])
    ensures |t.loops| == |s.loops| && t.loops[lb.k].sh.quit && t.loops[lb.k].phase != Entry
    ensures NearerEnd(t.loops[lb.k], s.loops[lb.k])
  {
  }

  /** Whatever epoll returns, peers send and callbacks do: each step of the loop's own code brings it
      nearer to its end. */
  lemma OwnCodeNearsEnd(s: Sys, t: Sys, lb: Label)
    requires Enabled(s, lb) && t == Step(s, lb) && GetsOn(lb)
    requires LoopOK(s.loops[lb.k]) && Ending(s.loops[lb.k])
    ensures |t.loops| == |s.loops| && t.loops[lb.k].sh.quit && t.loops[lb.k].phase != Entry
    ensures NearerEnd(t.loops[lb.k], s.loops[lb.k])
  {
    var l := s.loops[lb.k];
    if lb.LRun? {
      RunBegins(s, t, lb.k, lb.calls);
      BegunLeavesLess(l, t.loops[lb.k]);
    } else if Handles(lb) {
      HandlesFirst(s, t, lb);
      SkippedLeavesLess(l, t.loops[lb.k]);
    } else {
      ControlNearsEnd(s, t, lb);
    }
  }

  lemma BegunLeavesLess(l: Loop, t: Loop)
    requires l.next < |l.batch| && t.(todo := [], guard := None) == Begun(l).(todo := [], guard := None)
    ensures t.phase == l.phase && t.sh.quit == l.sh.quit && Left(t) < Left(l)
  {
    BegunIsNearer(l, t, 0);
    assert t.batch == l.batch && t.next == l.next + 1 && t.active == l.active;
  }

  lemma SkippedLeavesLess(l: Loop, t: Loop)
    requires l.active != [] && (t.sh == l.sh || t.sh == Drain(l.sh))
    requires t.(todo := [], guard := None) == SkipActive(l).(todo := [], guard := None, sh := t.sh)
    ensures t.phase == l.phase && t.sh.quit == l.sh.quit && Left(t) < Left(l)
  {
    SkippedIsNearer(l, t, 0);
    assert t.batch == l.batch && t.next == l.next && t.active == l.active[1..];
  }

  // ---------------------------------------------------------------- the thread alone

  /** Sound, and its loop k on its way to the end. */
  ghost predicate OnTheWay(s: Sys, k: nat) {
    Inv(s) && k < |s.loops| && s.loops[k].sh.quit && s.loops[k].phase != Entry
  }

  lemma StepNearsEnd(s: Sys, t: Sys, lb: Label, k: nat)
    requires OnTheWay(s, k) && !HasStopped(s, k) && Enabled(s, lb) && t == Step(s, lb) && OwnStep(lb, k)
    ensures OnTheWay(t, k)
    ensures if lb.LTodo? then SamePlace(s.loops[k], t.loops[k]) && Due(t.loops[k].todo) < Due(s.loops[k].todo)
            else NearerEnd(t.loops[k], s.loops[k])
  {
    assert LoopInv(s, k);
    StepKeepsInv(s, t, lb);
    if lb.LTodo? {
      OthersKeepPlace(s, t, lb, k);
    } else {
      OwnCodeNearsEnd(s, t, lb);
    }
  }

  lemma {:induction false} StopsAlone(s: Sys, k: nat) returns (run: seq<Label>)
    requires OnTheWay(s, k)
    ensures LegalRun(s, run) && OwnSteps(run, k) && HasStopped(Exec(s, run), k)
    decreases PhasesLeft(s.loops[k]), Left(s.loops[k]), Due(s.loops[k].todo)
  {
    if HasStopped(s, k) {
      run := [];
    } else {
      var lb := NextOwnStep(s, k);
      StepNearsEnd(s, Step(s, lb), lb, k);
      var rest := StopsAlone(Step(s, lb), k);
      run := Then(s, lb, rest);
    }
  }

  /** From every reachable state in which an entered loop is told to quit, its thread has steps of its
      own, and of no other thread, after which it has left the loop. */
  lemma QuitStopsTheLoop(s: Sys, k: nat) returns (run: seq<Label>)
    requires Reachable(s) && k < |s.loops| && Ending(s.loops[k])
    ensures LegalRun(s, run) && OwnSteps(run, k) && HasStopped(Exec(s, run), k)
  {
    ReachableInv(s);
    run := StopsAlone(s, k);
  }

  // ---------------------------------------------------------------- every schedule

  /** As long as it has not stopped, the loop's thread keeps getting on with its code. */
  ghost predicate GetsOnUntilStopped(states: nat -> Sys, steps: nat -> Label, k: nat) {
    forall i: nat :: HasStopped(states(i), k) || GetsOnAfter(steps, k, i)
  }

  lemma EndFromPlace(l: Loop, m: Loop, t: Loop)
    requires SamePlace(l, m) && NearerEnd(t, m)
    ensures NearerEnd(t, l)
  {
  }

  lemma SoonNearerEnd(states: nat -> Sys, steps: nat -> Label, k: nat, i: nat, j: nat) returns (m: nat)
    requires Schedule(states, steps) && OnTheWay(states(i), k) && !HasStopped(states(i), k)
    requires i <= j && GetsOn(steps(j)) && steps(j).k == k
    ensures i <= m && OnTheWay(states(m + 1), k) && NearerEnd(states(m + 1).loops[k], states(i).loops[k])
  {
    m := WaitsInPlace(states, steps, k, i, j, true);
    EndsStep(states, steps, k, m);
    EndFromPlace(states(i).loops[k], states(m).loops[k], states(m + 1).loops[k]);
  }

  lemma EndsStep(states: nat -> Sys, steps: nat -> Label, k: nat, m: nat)
    requires Schedule(states, steps) && GetsOn(steps(m)) && steps(m).k == k
    requires OnTheWay(states(m), k) && !HasStopped(states(m), k)
    ensures OnTheWay(states(m + 1), k) && NearerEnd(states(m + 1).loops[k], states(m).loops[k])
  {
    assert StepsAt(states, steps, m);
    StepNearsEnd(states(m), states(m + 1), steps(m), k);
  }

  lemma NextTurn(states: nat -> Sys, steps: nat -> Label, k: nat, i: nat) returns (j: nat)
    requires GetsOnUntilStopped(states, steps, k) && !HasStopped(states(i), k)
    ensures i <= j && GetsOn(steps(j)) && steps(j).k == k
  {
    assert GetsOnAfter(steps, k, i);
    j :| i <= j && GetsOn(steps(j)) && steps(j).k == k;
  }

  lemma {:induction false} ScheduleStops(states: nat -> Sys, steps: nat -> Label, k: nat, i: nat) returns (j: nat)
    requires Schedule(states, steps) && GetsOnUntilStopped(states, steps, k) && OnTheWay(states(i), k)
    ensures i <= j && HasStopped(states(j), k)
    decreases PhasesLeft(states(i).loops[k]), Left(states(i).loops[k])
  {
    j := i;
    if !HasStopped(states(i), k) {
      j := NextTurn(states, steps, k, i);
      var m := SoonNearerEnd(states, steps, k, i, j);
      j := ScheduleStops(states, steps, k, m + 1);
    }
  }

  lemma QuitIsHeard(s: Sys, t: Sys, lb: Label, k: nat)
    requires Enabled(s, lb) && t == Step(s, lb) && Quits(lb, k)
    ensures k < |s.loops| == |t.loops|
    ensures t.loops[k].sh.quit && t.loops[k].phase == s.loops[k].phase
  {
  }

  /** In every schedule of all threads, with any events and further quits, in which the thread keeps
      getting on until it has stopped: when any thread quits the loop after it was entered, it stops. */
  lemma EveryQuitStops(states: nat -> Sys, steps: nat -> Label, k: nat, i: nat) returns (j: nat)
    requires Schedule(states, steps) && GetsOnUntilStopped(states, steps, k)
    requires Reachable(states(i)) && Quits(steps(i), k)
    requires k < |states(i).loops| && states(i).loops[k].phase != Entry
    ensures i < j && HasStopped(states(j), k)
  {
    ReachableInv(states(i));
    assert StepsAt(states, steps, i);
    QuitIsHeard(states(i), states(i + 1), steps(i), k);
    StepKeepsInv(states(i), states(i + 1), steps(i));
    j := ScheduleStops(states, steps, k, i + 1);
  }

  // ---------------------------------------------------------------- nothing else stops it

  predicate Runs(l: Loop) {
    !l.sh.quit && l.phase != Stopped
  }

  lemma OwnCodeRunsOn(s: Sys, t: Sys, lb: Label)
    requires Enabled(s, lb) && t == Step(s, lb) && GetsOn(lb) && Runs(s.loops[lb.k])
    ensures |t.loops| == |s.loops| && Runs(t.loops[lb.k])
  {
    if lb.LRun? {
      RunBegins(s, t, lb.k, lb.calls);
      BegunLeavesLess(s.loops[lb.k], t.loops[lb.k]);
    } else if Handles(lb) {
      HandlesFirst(s, t, lb);
      SkippedLeavesLess(s.loops[lb.k], t.loops[lb.k]);
    }
  }

  lemma OnlyQuitEnds(s: Sys, t: Sys, lb: Label, k: nat)
    requires Enabled(s, lb) && t == Step(s, lb) && k < |s.loops| && Runs(s.loops[k]) && !Quits(lb, k)
    ensures |t.loops| == |s.loops| && Runs(t.loops[k])
  {
    if GetsOn(lb) && lb.k == k {
      OwnCodeRunsOn(s, t, lb);
    } else {
      OthersKeepPlace(s, t, lb, k);
    }
  }

  lemma {:induction false} RunsOn(s: Sys, run: seq<Label>, k: nat)
    requires LegalRun(s, run) && k < |s.loops| && Runs(s.loops[k])
    requires forall lb <- run :: !Quits(lb, k)
    ensures k < |Exec(s, run).loops| && Runs(Exec(s, run).loops[k])
    decreases |run|
  {
    if run != [] {
      assert run[0] in run;
      OnlyQuitEnds(s, Step(s, run[0]), run[0], k);
      RunsOn(Step(s, run[0]), run[1..], k);
    }
  }

  /** A loop that has stopped, or is told to, was told to by some quit of the run. */
  lemma StoppedByQuit(name: string, address: Naming.Address, n: nat, run: seq<Label>, k: nat)
    requires LegalRun(Begin(name, address, n), run) && k <= n && k < |Exec(Begin(name, address, n), run).loops|
    requires !Runs(Exec(Begin(name, address, n), run).loops[k])
    ensures exists lb <- run :: Quits(lb, k)
  {
    assert Begin(name, address, n).loops[k] == Loop(Blank(), Entry, [], 0, [], [], None);
    if forall lb <- run :: !Quits(lb, k) {
      RunsOn(Begin(name, address, n), run, k);
    }
  }

  /** A loop that has stopped takes no further step of its own, and stays stopped. */
  lemma StoppedIsOver(s: Sys, t: Sys, lb: Label, k: nat)
    requires Reachable(s) && HasStopped(s, k) && Enabled(s, lb) && t == Step(s, lb)
    ensures lb.k == k ==> lb.LForeignPush? || lb.LForeignQuit? || lb.LForeignWake?
    ensures HasStopped(t, k) && t.loops[k].sh.executed == s.loops[k].sh.executed
  {
    ReachableInv(s);
    assert LoopInv(s, k);
    if !Quits(lb, k) {
      OthersKeepPlace(s, t, lb, k);
    }
  }
}
