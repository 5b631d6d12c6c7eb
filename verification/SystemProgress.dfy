/** Progress of one loop: whatever is queued on a loop that is not told to quit is run, by the loop's
    own thread alone, and in every schedule in which that thread keeps getting its turns. */
module SystemProgress {
  import opened Common
  import opened LoopSpec
  import ConnSpec
  import opened ServerSystem
  import opened SystemInv
  import opened SystemRuns
  import opened SystemTheorems

  /** A step in which a loop's thread gets on with its own code; the others are what its handlers
      still have to push or wake, what their application asks for, and what user threads do. */
  predicate GetsOn(lb: Label) {
    || lb.LEnter? || lb.LCheck? || lb.LPoll? || lb.LWake? || lb.LAcceptNone? || lb.LAccept? || lb.LConn?
    || lb.LDone? || lb.LSwap? || lb.LRun? || lb.LEndRun?
  }

  predicate Quits(lb: Label, k: nat) {
    (lb.LQuit? || lb.LForeignQuit?) && lb.k == k
  }

  /** The loop has not stopped and nothing it will still look at tells it to. */
  predicate Going(l: Loop) {
    l.phase != Stopped && (l.sh.quit ==> l.phase == Entry)
  }

  // ---------------------------------------------------------------- how far it still is

  /** Queue swaps still to come until the first n functors have run. */
  function Swaps(l: Loop, n: nat): nat {
    if |l.sh.executed| + |Rest(l)| < n then 1 else 0
  }

  /** Phases still to come until the next swap. */
  function Phases(l: Loop): nat {
    match l.phase
    case Run => 5
    case Entry => 5
    case Check => 4
    case Poll => 3
    case Dispatch => 2
    case Calling => 1
    case Stopped => 0
  }

  /** Active channels and functors still to be handled in this phase. */
  function Left(l: Loop): nat {
    |l.active| + |Rest(l)|
  }

  /** What the handler in progress still has to do: a push may be followed by a wake-up. */
  function Due(todo: seq<Item>): nat
    decreases |todo|
  {
    if todo == [] then 0 else (if todo[0].WakeUp? then 1 else 2) + Due(todo[1..])
  }

  /** Nearer by the thread's own code. */
  predicate Nearer(t: Loop, l: Loop, n: nat) {
    || Swaps(t, n) < Swaps(l, n)
    || (Swaps(t, n) == Swaps(l, n) && Phases(t) < Phases(l))
    || (Swaps(t, n) == Swaps(l, n) && Phases(t) == Phases(l) && Left(t) < Left(l))
  }

  /** Histories only grow. */
  predicate Grown(l: Loop, t: Loop) {
    l.sh.queued <= t.sh.queued && l.sh.executed <= t.sh.executed
  }

  /** Nothing the thread's own code works on has changed. */
  predicate SamePlace(l: Loop, t: Loop) {
    && t.phase == l.phase && t.active == l.active && t.batch == l.batch && t.next == l.next
    && t.sh.executed == l.sh.executed && t.sh.quit == l.sh.quit
  }

  // ---------------------------------------------------------------- steps

  lemma RunBegins(s: Sys, t: Sys, k: nat, calls: seq<ConnSpec.Call>)
    requires Enabled(s, LRun(k, calls)) && t == RunItem(s, k, calls)
    ensures |t.loops| == |s.loops|
    ensures t.loops[k].(todo := [], guard := None) == Begun(s.loops[k]).(todo := [], guard := None)
  {
  }

  lemma BegunIsNearer(l: Loop, t: Loop, n: nat)
    requires l.next < |l.batch| && t.(todo := [], guard := None) == Begun(l).(todo := [], guard := None)
    ensures Nearer(t, l, n) && t.phase == l.phase && t.sh.quit == l.sh.quit && Grown(l, t)
  {
    assert t.sh == Begun(l).sh && t.batch == l.batch && t.next == l.next + 1 && t.phase == l.phase;
    assert t.active == l.active;
    assert Rest(l) == [l.batch[l.next]] + Rest(t);
  }

  predicate Handles(lb: Label) {
    lb.LWake? || lb.LAcceptNone? || lb.LAccept? || lb.LConn?
  }

  lemma HandlesFirst(s: Sys, t: Sys, lb: Label)
    requires Enabled(s, lb) && t == Step(s, lb) && Handles(lb)
    ensures |t.loops| == |s.loops| && s.loops[lb.k].active != []
    ensures var l := SkipActive(s.loops[lb.k]);
      t.loops[lb.k].(todo := [], guard := None) == l.(todo := [], guard := None, sh := t.loops[lb.k].sh)
      && (t.loops[lb.k].sh == l.sh || t.loops[lb.k].sh == Drain(l.sh))
  {
  }

  lemma SkippedIsNearer(l: Loop, t: Loop, n: nat)
    requires l.active != [] && (t.sh == l.sh || t.sh == Drain(l.sh))
    requires t.(todo := [], guard := None) == SkipActive(l).(todo := [], guard := None, sh := t.sh)
    ensures Nearer(t, l, n) && t.phase == l.phase && t.sh.quit == l.sh.quit && Grown(l, t)
  {
    assert t.phase == l.phase && t.active == l.active[1..] && t.batch == l.batch && t.next == l.next;
    assert Rest(t) == Rest(l);
  }

  /** From phase to phase. */
  lemma ControlIsNearer(s: Sys, t: Sys, lb: Label, n: nat)
    requires Enabled(s, lb) && t == Step(s, lb) && GetsOn(lb) && !Handles(lb) && !lb.LRun?
    requires var l := s.loops[lb.k]; LoopOK(l) && Going(l) && |l.sh.executed| < n <= |l.sh.queued|
    ensures |t.loops| == |s.loops|
    ensures Nearer(t.loops[lb.k], s.loops[lb.k], n) && Going(t.loops[lb.k]) && Grown(s.loops[lb.k], t.loops[lb.k])
  {
  }

  /** Whatever epoll returns, peers send and callbacks do: each such step brings the first n functors
      nearer to having run. */
  lemma OwnCodeGetsNearer(s: Sys, t: Sys, lb: Label, n: nat)
    requires Enabled(s, lb) && t == Step(s, lb) && GetsOn(lb)
    requires var l := s.loops[lb.k]; LoopOK(l) && Going(l) && |l.sh.executed| < n <= |l.sh.queued|
    ensures |t.loops| == |s.loops|
    ensures Nearer(t.loops[lb.k], s.loops[lb.k], n) && Going(t.loops[lb.k]) && Grown(s.loops[lb.k], t.loops[lb.k])
  {
    if lb.LRun? {
      RunBegins(s, t, lb.k, lb.calls);
      BegunIsNearer(s.loops[lb.k], t.loops[lb.k], n);
    } else if Handles(lb) {
      HandlesFirst(s, t, lb);
      SkippedIsNearer(s.loops[lb.k], t.loops[lb.k], n);
    } else {
      ControlIsNearer(s, t, lb, n);
    }
  }

  lemma TodoKeepsPlace(s: Sys, t: Sys, k: nat, j: nat)
    requires Enabled(s, LTodo(j)) && t == TodoStep(s, j) && k < |s.loops|
    ensures |t.loops| == |s.loops| && SamePlace(s.loops[k], t.loops[k]) && Grown(s.loops[k], t.loops[k])
    ensures j == k ==> Due(t.loops[k].todo) < Due(s.loops[k].todo)
  {
    var todo := s.loops[j].todo;
    assert ([WakeUp(Home(todo[0]))] + todo[1..])[1..] == todo[1..];
  }

  /** All other steps leave the thread where it is; of a quit, only a first one is news to it. */
  lemma OthersKeepPlace(s: Sys, t: Sys, lb: Label, k: nat)
    requires Enabled(s, lb) && t == Step(s, lb) && k < |s.loops|
    requires !(GetsOn(lb) && lb.k == k) && (Quits(lb, k) ==> s.loops[k].sh.quit)
    ensures |t.loops| == |s.loops| && SamePlace(s.loops[k], t.loops[k]) && Grown(s.loops[k], t.loops[k])
    ensures lb == LTodo(k) ==> Due(t.loops[k].todo) < Due(s.loops[k].todo)
  {
    if lb.LTodo? {
      TodoKeepsPlace(s, t, k, lb.k);
    } else if lb.k != k {
      WorkStaysHere(s, t, lb, k);
    }
  }

  // ---------------------------------------------------------------- the thread alone

  /** A step of the loop's thread that neither waits for nor asks for anything. */
  predicate OwnStep(lb: Label, k: nat) {
    lb.k == k && (GetsOn(lb) || lb.LTodo?)
  }

  predicate OwnSteps(run: seq<Label>, k: nat) {
    forall lb <- run :: OwnStep(lb, k)
  }

  /** The first n functors queued on the loop have run. */
  predicate HaveRun(l: Loop, n: nat) {
    n <= |l.sh.executed|
  }

  /** The loop goes on, and has the n functors. */
  ghost predicate AtPlace(s: Sys, k: nat, n: nat) {
    Inv(s) && k < |s.loops| && Going(s.loops[k]) && n <= |s.loops[k].sh.queued|
  }

  lemma OneStepNearer(s: Sys, t: Sys, lb: Label, n: nat)
    requires AtPlace(s, lb.k, n) && !HaveRun(s.loops[lb.k], n)
    requires Enabled(s, lb) && t == Step(s, lb) && OwnStep(lb, lb.k)
    ensures AtPlace(t, lb.k, n) && Grown(s.loops[lb.k], t.loops[lb.k])
    ensures var l, u := s.loops[lb.k], t.loops[lb.k];
      if lb.LTodo? then SamePlace(l, u) && Due(u.todo) < Due(l.todo) else Nearer(u, l, n)
  {
    assert LoopInv(s, lb.k);
    StepKeepsInv(s, t, lb);
    if lb.LTodo? {
      OthersKeepPlace(s, t, lb, lb.k);
    } else {
      OwnCodeGetsNearer(s, t, lb, n);
    }
  }

  /** From every reachable state the thread, left alone, runs all that is queued. */
  lemma {:induction false} AloneRuns(s: Sys, k: nat, n: nat) returns (run: seq<Label>)
    requires AtPlace(s, k, n)
    ensures LegalRun(s, run) && OwnSteps(run, k)
    ensures k < |Exec(s, run).loops| && Grown(s.loops[k], Exec(s, run).loops[k]) && HaveRun(Exec(s, run).loops[k], n)
    decreases Swaps(s.loops[k], n), Phases(s.loops[k]), Left(s.loops[k]), Due(s.loops[k].todo)
  {
    if HaveRun(s.loops[k], n) {
      run := [];
    } else {
      var lb := NextOwnStep(s, k);
      OneStepNearer(s, Step(s, lb), lb, n);
      var rest := AloneRuns(Step(s, lb), k, n);
      run := Then(s, lb, rest);
    }
  }

  lemma Then(s: Sys, lb: Label, rest: seq<Label>) returns (run: seq<Label>)
    requires Enabled(s, lb) && LegalRun(Step(s, lb), rest) && OwnStep(lb, lb.k) && OwnSteps(rest, lb.k)
    ensures LegalRun(s, run) && OwnSteps(run, lb.k) && Exec(s, run) == Exec(Step(s, lb), rest)
  {
    run := [lb] + rest;
    assert run[1..] == rest;
  }

  /** From every reachable state the thread of a loop that is not told to quit has steps of its own
      after which every functor queued by now has run, in the order of the queue. */
  lemma QueuedFunctorsRun(s: Sys, k: nat) returns (run: seq<Label>)
    requires Reachable(s) && k < |s.loops| && Going(s.loops[k])
    ensures LegalRun(s, run) && OwnSteps(run, k) && k < |Exec(s, run).loops|
    ensures s.loops[k].sh.queued <= Exec(s, run).loops[k].sh.executed
  {
    ReachableInv(s);
    run := AloneRuns(s, k, |s.loops[k].sh.queued|);
    var t := Exec(s, run);
    RunKeepsInv(s, run);
    InOrder(s.loops[k], t, k);
  }

  lemma InOrder(l: Loop, t: Sys, k: nat)
    requires Inv(t) && k < |t.loops| && Grown(l, t.loops[k]) && HaveRun(t.loops[k], |l.sh.queued|)
    ensures l.sh.queued <= t.loops[k].sh.executed
  {
    assert LoopInv(t, k);
    assert t.loops[k].sh.executed <= t.loops[k].sh.queued;
  }

  // ---------------------------------------------------------------- every schedule

  /** Threads take steps for ever. */
  ghost predicate Schedule(states: nat -> Sys, steps: nat -> Label) {
    forall i: nat :: StepsAt(states, steps, i)
  }

  ghost predicate StepsAt(states: nat -> Sys, steps: nat -> Label, i: nat) {
    Enabled(states(i), steps(i)) && states(i + 1) == Step(states(i), steps(i))
  }

  /** The loop's thread keeps getting on with its code: it is scheduled, and its handlers return. */
  ghost predicate KeepsGettingOn(steps: nat -> Label, k: nat) {
    forall i: nat :: GetsOnAfter(steps, k, i)
  }

  ghost predicate GetsOnAfter(steps: nat -> Label, k: nat, i: nat) {
    exists j: nat :: i <= j && GetsOn(steps(j)) && steps(j).k == k
  }

  ghost predicate NeverQuits(steps: nat -> Label, k: nat) {
    forall i: nat :: !Quits(steps(i), k)
  }

  /** Until the thread gets on, whatever the others do, it stays where it is. */
  lemma {:induction false} WaitsInPlace(states: nat -> Sys, steps: nat -> Label, k: nat, i: nat, j: nat, told: bool)
    returns (m: nat)
    requires Schedule(states, steps) && Inv(states(i)) && k < |states(i).loops|
    requires if told then states(i).loops[k].sh.quit else NeverQuits(steps, k)
    requires i <= j && GetsOn(steps(j)) && steps(j).k == k
    ensures i <= m && GetsOn(steps(m)) && steps(m).k == k && Inv(states(m)) && k < |states(m).loops|
    ensures SamePlace(states(i).loops[k], states(m).loops[k]) && Grown(states(i).loops[k], states(m).loops[k])
    decreases j - i
  {
    if GetsOn(steps(i)) && steps(i).k == k {
      m := i;
    } else {
      assert StepsAt(states, steps, i) && (told || !Quits(steps(i), k));
      StepKeepsInv(states(i), states(i + 1), steps(i));
      OthersKeepPlace(states(i), states(i + 1), steps(i), k);
      m := WaitsInPlace(states, steps, k, i + 1, j, told);
    }
  }

  lemma NearerFromPlace(l: Loop, m: Loop, t: Loop, n: nat)
    requires SamePlace(l, m) && Grown(l, m) && Grown(m, t) && Nearer(t, m, n)
    ensures Nearer(t, l, n) && Grown(l, t)
  {
  }

  lemma StillGoing(l: Loop, m: Loop, n: nat)
    requires SamePlace(l, m) && Grown(l, m) && Going(l) && !HaveRun(l, n) && n <= |l.sh.queued|
    ensures Going(m) && !HaveRun(m, n) && n <= |m.sh.queued|
  {
  }

  lemma TakesStep(states: nat -> Sys, steps: nat -> Label, k: nat, m: nat, n: nat)
    requires Schedule(states, steps) && GetsOn(steps(m)) && steps(m).k == k
    requires AtPlace(states(m), k, n) && !HaveRun(states(m).loops[k], n)
    ensures AtPlace(states(m + 1), k, n)
    ensures Grown(states(m).loops[k], states(m + 1).loops[k]) && Nearer(states(m + 1).loops[k], states(m).loops[k], n)
  {
    assert StepsAt(states, steps, m);
    OneStepNearer(states(m), states(m + 1), steps(m), n);
  }

  /** Sooner or later the thread takes a step, which brings it nearer. */
  lemma SoonNearer(states: nat -> Sys, steps: nat -> Label, k: nat, i: nat, j: nat, n: nat) returns (m: nat)
    requires Schedule(states, steps) && NeverQuits(steps, k)
    requires i <= j && GetsOn(steps(j)) && steps(j).k == k
    requires AtPlace(states(i), k, n) && !HaveRun(states(i).loops[k], n)
    ensures i <= m && AtPlace(states(m + 1), k, n)
    ensures Grown(states(i).loops[k], states(m + 1).loops[k]) && Nearer(states(m + 1).loops[k], states(i).loops[k], n)
  {
    m := WaitsInPlace(states, steps, k, i, j, false);
    StillGoing(states(i).loops[k], states(m).loops[k], n);
    TakesStep(states, steps, k, m, n);
    NearerFromPlace(states(i).loops[k], states(m).loops[k], states(m + 1).loops[k], n);
  }

  lemma GrownTwice(l: Loop, m: Loop, t: Loop)
    requires Grown(l, m) && Grown(m, t)
    ensures Grown(l, t)
  {
  }

  lemma {:induction false} ScheduleRuns(states: nat -> Sys, steps: nat -> Label, k: nat, i: nat, n: nat)
    returns (j: nat)
    requires Schedule(states, steps) && NeverQuits(steps, k) && KeepsGettingOn(steps, k)
    requires AtPlace(states(i), k, n)
    ensures i <= j && AtPlace(states(j), k, n)
    ensures Grown(states(i).loops[k], states(j).loops[k]) && HaveRun(states(j).loops[k], n)
    decreases Swaps(states(i).loops[k], n), Phases(states(i).loops[k]), Left(states(i).loops[k])
  {
    j := i;
    if !HaveRun(states(i).loops[k], n) {
      assert GetsOnAfter(steps, k, i);
      j :| i <= j && GetsOn(steps(j)) && steps(j).k == k;
      var m := SoonNearer(states, steps, k, i, j, n);
      j := ScheduleRuns(states, steps, k, m + 1, n);
      GrownTwice(states(i).loops[k], states(m + 1).loops[k], states(j).loops[k]);
    }
  }

  /** In every schedule of all threads, with any events, in which nobody quits the loop and its own
      thread keeps getting on, every functor queued by any moment has run at some later one. */
  lemma EveryFunctorRuns(states: nat -> Sys, steps: nat -> Label, k: nat, i: nat) returns (j: nat)
    requires Schedule(states, steps) && NeverQuits(steps, k) && KeepsGettingOn(steps, k)
    requires Reachable(states(i)) && k < |states(i).loops| && Going(states(i).loops[k])
    ensures i <= j && k < |states(j).loops|
    ensures states(i).loops[k].sh.queued <= states(j).loops[k].sh.executed
  {
    ReachableInv(states(i));
    j := ScheduleRuns(states, steps, k, i, |states(i).loops[k].sh.queued|);
    InOrder(states(i).loops[k], states(j), k);
  }
}
