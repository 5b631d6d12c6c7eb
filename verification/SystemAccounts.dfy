/** What the steps of all threads add up to: every functor asked for is queued once, every active
    channel is handled once and in order, and a loop is woken no more often than wake-ups are written. */
module SystemAccounts {
  import opened Common
  import opened ConnSpec
  import opened LoopSpec
  import opened ServerSpec
  import opened ServerSystem
  import opened SystemInv
  import opened SystemRuns
  import opened SystemTheorems
  import opened SystemProgress
  import ConnRuns
  import Naming
  import SystemProjection

  // ---------------------------------------------------------------- counting functors

  /** How often a functor was queued on a loop, or is still to be pushed by its thread. */
  function ToldBy(l: Loop, it: Item): nat {
    multiset(l.sh.queued)[it] + multiset(l.todo)[it]
  }

  function Told(loops: seq<Loop>, it: Item): nat
    decreases |loops|
  {
    if loops == [] then 0 else Told(loops[..|loops| - 1], it) + ToldBy(loops[|loops| - 1], it)
  }

  lemma {:induction false} ToldUpdate(loops: seq<Loop>, k: nat, l: Loop, it: Item)
    requires k < |loops|
    ensures Told(loops[k := l], it) == Told(loops, it) - ToldBy(loops[k], it) + ToldBy(l, it)
    decreases |loops|
  {
    var last := |loops| - 1;
    if k == last {
      assert loops[k := l][..last] == loops[..last];
    } else {
      assert loops[k := l][..last] == loops[..last][k := l];
      ToldUpdate(loops[..last], k, l, it);
    }
  }

  /** Functors of the application asked for by one step. */
  function AskedBy(lb: Label, it: Item): nat {
    if (lb.LForeignPush? && it == User(lb.k, lb.tag)) || (lb.LQueue? && it == User(lb.at, lb.tag)) then 1 else 0
  }

  /** How often a connection announced something. */
  function AnnouncedBy(s: Sys, it: Item): nat {
    if it.Notify? && it.c in s.conns then multiset(s.conns[it.c].notes)[it.note] else 0
  }

  // ---------------------------------------------------------------- notices become functors

  lemma {:induction false} NotesCount(c: Ref, notes: seq<Note>, items: seq<Item>, n: Note)
    requires |items| == |notes| && forall i :: 0 <= i < |notes| ==> items[i] == Notify(c, notes[i])
    ensures multiset(items)[Notify(c, n)] == multiset(notes)[n]
    decreases |notes|
  {
    if notes != [] {
      var last := |notes| - 1;
      NotesCount(c, notes[..last], items[..last], n);
      assert notes == notes[..last] + [notes[last]] && items == items[..last] + [items[last]];
    }
  }

  /** The notices of one step are those it announced, for this connection and no other. */
  lemma NoticesCount(c: Ref, before: Conn, after: Conn, it: Item)
    requires before.notes <= after.notes
    ensures if it.Notify? && it.c == c then
        multiset(before.notes)[it.note] + multiset(Notices(c, before, after))[it] == multiset(after.notes)[it.note]
      else multiset(Notices(c, before, after))[it] == 0
  {
    var items, news := Notices(c, before, after), after.notes[|before.notes|..];
    if it.Notify? && it.c == c {
      NotesCount(c, news, items, it.note);
      assert after.notes == before.notes + news;
    } else {
      assert it !in items;
    }
  }

  /** The connection is new, or had this value before. */
  predicate WasBefore(s: Sys, c: Ref, before: Conn) {
    if c in s.conns then before == s.conns[c] else before.notes == []
  }

  lemma AnnouncedGrows(s: Sys, t: Sys, c: Ref, before: Conn, after: Conn, it: Item)
    requires t.conns == s.conns[c := after] && WasBefore(s, c, before) && before.notes <= after.notes
    ensures AnnouncedBy(t, it) == AnnouncedBy(s, it) + multiset(Notices(c, before, after))[it]
  {
    NoticesCount(c, before, after, it);
  }

  lemma NotesGrow(s: Sys, t: Sys, lb: Label, c: Ref)
    requires Inv(s) && Enabled(s, lb) && t == Step(s, lb) && c in s.conns
    ensures c in t.conns && s.conns[c].notes <= t.conns[c].notes
  {
    assert ConnInv(s, c);
    SystemProjection.InvGivesStage(s, lb, c);
    SystemProjection.StepFollows(s, t, lb, c);
    ConnRuns.ConnectionRun(s.conns[c], SystemProjection.LabelsOf(s, lb, c));
  }

  // ---------------------------------------------------------------- steps

  /** What a step adds to the functors told to the loops is what it asks for and announces. */
  ghost predicate Balanced(s: Sys, t: Sys, lb: Label, it: Item) {
    Told(t.loops, it) + AnnouncedBy(s, it) == Told(s.loops, it) + AskedBy(lb, it) + AnnouncedBy(t, it)
  }

  /** A functor of the application, or a notice. */
  predicate Counted(it: Item) {
    it.User? || it.Notify?
  }

  /** The thread of loop k has more to push. */
  predicate TodoGrew(s: Sys, t: Sys, k: nat, more: seq<Item>) {
    && k < |s.loops| && |t.loops| == |s.loops| && t.loops == s.loops[k := t.loops[k]]
    && t.loops[k].sh.queued == s.loops[k].sh.queued && t.loops[k].todo == s.loops[k].todo + more
  }

  lemma TodoCounts(s: Sys, t: Sys, k: nat, more: seq<Item>, it: Item)
    requires TodoGrew(s, t, k, more)
    ensures Told(t.loops, it) == Told(s.loops, it) + multiset(more)[it]
  {
    ToldUpdate(s.loops, k, t.loops[k], it);
  }

  /** A step of a loop's own control, or of a user thread, that tells nobody a functor. */
  predicate TellsNothing(lb: Label) {
    || lb.LEnter? || lb.LCheck? || lb.LPoll? || lb.LWake? || lb.LAcceptNone? || lb.LDone? || lb.LSwap? || lb.LEndRun?
    || lb.LQuit? || lb.LForeignQuit? || lb.LForeignWake?
  }

  lemma ControlTellsNothing(s: Sys, t: Sys, lb: Label)
    requires Enabled(s, lb) && t == Step(s, lb) && TellsNothing(lb)
    ensures TodoGrew(s, t, lb.k, []) && t.conns == s.conns
  {
  }

  lemma ControlBalances(s: Sys, t: Sys, lb: Label, it: Item)
    requires TellsNothing(lb) && TodoGrew(s, t, lb.k, []) && t.conns == s.conns
    ensures Balanced(s, t, lb, it)
  {
    TodoCounts(s, t, lb.k, [], it);
  }

  lemma QueueBalances(s: Sys, t: Sys, lb: Label, it: Item)
    requires Enabled(s, lb) && t == Step(s, lb) && lb.LQueue?
    ensures Balanced(s, t, lb, it)
  {
    TodoCounts(s, t, lb.k, [User(lb.at, lb.tag)], it);
  }

  lemma PushBalances(s: Sys, t: Sys, k: nat, tag: int, it: Item)
    requires k < |s.loops| && t == ForeignPush(s, k, tag)
    ensures Balanced(s, t, LForeignPush(k, tag), it)
  {
    ToldUpdate(s.loops, k, t.loops[k], it);
  }

  lemma MovedCounts(loops: seq<Loop>, mid: seq<Loop>, after: seq<Loop>, k: nat, at: nat, it: Item)
    requires k < |loops| == |mid| == |after| && at < |mid| && Counted(it) && loops[k].todo != []
    requires mid == loops[k := mid[k]] && mid[k].sh.queued == loops[k].sh.queued
    requires multiset(mid[k].todo)[it] == multiset(loops[k].todo[1..])[it]
    requires after == mid[at := after[at]] && after[at].todo == mid[at].todo
    requires var x := loops[k].todo[0];
      after[at].sh.queued == mid[at].sh.queued + if x.WakeUp? then [] else [x]
    ensures Told(after, it) == Told(loops, it)
  {
    var x := loops[k].todo[0];
    assert loops[k].todo == [x] + loops[k].todo[1..];
    ToldUpdate(loops, k, mid[k], it);
    ToldUpdate(mid, at, after[at], it);
  }

  lemma TodoMoves(s: Sys, t: Sys, k: nat, it: Item) returns (mid: seq<Loop>, at: nat)
    requires Enabled(s, LTodo(k)) && t == TodoStep(s, k) && Counted(it)
    ensures k < |s.loops| == |mid| == |t.loops| && at < |mid| && t.conns == s.conns
    ensures mid == s.loops[k := mid[k]] && mid[k].sh.queued == s.loops[k].sh.queued
    ensures multiset(mid[k].todo)[it] == multiset(s.loops[k].todo[1..])[it]
    ensures t.loops == mid[at := t.loops[at]] && t.loops[at].todo == mid[at].todo
    ensures var x := s.loops[k].todo[0];
      t.loops[at].sh.queued == mid[at].sh.queued + if x.WakeUp? then [] else [x]
  {
    var l := s.loops[k];
    var x := l.todo[0];
    at := Home(x);
    var rest := if !x.WakeUp? && (at != k || l.sh.calling) then [WakeUp(at)] + l.todo[1..] else l.todo[1..];
    mid := s.loops[k := l.(todo := rest, guard := if rest == [] then None else l.guard)];
  }

  lemma TodoBalances(s: Sys, t: Sys, k: nat, it: Item)
    requires Enabled(s, LTodo(k)) && t == TodoStep(s, k) && Counted(it)
    ensures Balanced(s, t, LTodo(k), it)
  {
    var mid, at := TodoMoves(s, t, k, it);
    MovedCounts(s.loops, mid, t.loops, k, at, it);
  }

  lemma CallGrows(s: Sys, t: Sys, lb: Label) returns (after: Conn)
    requires lb.LCall? && Enabled(s, lb) && t == Step(s, lb)
    ensures TodoGrew(s, t, lb.k, Notices(lb.c, s.conns[lb.c], after) + []) && t.conns == s.conns[lb.c := after]
  {
    after := RunCalls(s.conns[lb.c], lb.calls);
    assert Notices(lb.c, s.conns[lb.c], after) + [] == Notices(lb.c, s.conns[lb.c], after);
  }

  lemma ConnGrows(s: Sys, t: Sys, lb: Label) returns (c: Ref, after: Conn, more: seq<Item>)
    requires lb.LConn? && Enabled(s, lb) && t == Step(s, lb)
    ensures c in s.conns && TodoGrew(s, t, lb.k, Notices(c, s.conns[c], after) + more)
    ensures t.conns == s.conns[c := after] && forall it <- more :: !Counted(it)
  {
    c := s.loops[lb.k].active[0].c;
    after := HandleEvent(s.conns[c], lb.e);
    var closed := after.closes > s.conns[c].closes;
    more := HandOver(lb.k, c, if closed then after.closes - s.conns[c].closes else 0);
  }

  lemma RunNotes(s: Sys, t: Sys, k: nat, calls: seq<Call>, c: Ref) returns (after: Conn)
    requires Enabled(s, LRun(k, calls)) && t == RunItem(s, k, calls)
    requires s.loops[k].batch[s.loops[k].next] == Establish(c) || s.loops[k].batch[s.loops[k].next] == Destroy(c)
    ensures c in s.conns && t.conns == s.conns[c := after]
    ensures TodoGrew(s, t, k, Notices(c, s.conns[c], after) + [])
  {
    after := t.conns[c];
    assert Notices(c, s.conns[c], after) + [] == Notices(c, s.conns[c], after);
  }

  lemma RunQuiet(s: Sys, t: Sys, k: nat, calls: seq<Call>) returns (more: seq<Item>)
    requires Enabled(s, LRun(k, calls)) && t == RunItem(s, k, calls)
    requires var x := s.loops[k].batch[s.loops[k].next]; !x.Establish? && !x.Destroy?
    ensures TodoGrew(s, t, k, more) && t.conns == s.conns && forall x <- more :: !Counted(x)
  {
    more := t.loops[k].todo;
  }

  lemma AcceptMakes(s: Sys, t: Sys, lb: Label) returns (c: Ref, conn: Conn)
    requires lb.LAccept? && Enabled(s, lb) && t == Step(s, lb)
    ensures c == NewRef(s.server, lb.fd) && t == Accept(s, lb.fd, conn) && t.conns == s.conns[c := conn]
    ensures c.io != 0 ==> conn == Fresh(lb.complete)
    ensures conn.wantsComplete == lb.complete
    ensures |s.loops| > 0 && s.loops[0].active != [] && s.loops[0].todo == []
  {
    c := NewRef(s.server, lb.fd);
    conn := AcceptedConn(s.server, lb.complete, lb.calls);
    ConnRuns.FreshIsSound(lb.complete);
    ConnRuns.EstablishEffect(Fresh(lb.complete), lb.calls);
  }

  lemma AcceptGrows(s: Sys, t: Sys, fd: int, conn: Conn) returns (more: seq<Item>)
    requires |s.loops| > 0 && s.loops[0].active != [] && s.loops[0].todo == [] && t == Accept(s, fd, conn)
    requires NewRef(s.server, fd).io != 0 ==> conn == Fresh(conn.wantsComplete)
    ensures TodoGrew(s, t, 0, Notices(NewRef(s.server, fd), Fresh(conn.wantsComplete), conn) + more)
    ensures forall it <- more :: !Counted(it)
  {
    more := if NewRef(s.server, fd).io == 0 then [] else [Establish(NewRef(s.server, fd))];
    assert NewRef(s.server, fd).io != 0 ==> Notices(NewRef(s.server, fd), Fresh(conn.wantsComplete), conn) == [];
  }

  lemma NoneCounted(more: seq<Item>, it: Item)
    requires Counted(it) && forall x <- more :: !Counted(x)
    ensures multiset(more)[it] == 0
  {
    if it in more {
      assert false;
    }
  }

  /** Notices are told as they are announced. */
  lemma NotedBalances(s: Sys, t: Sys, lb: Label, k: nat, c: Ref, before: Conn, after: Conn, more: seq<Item>, it: Item)
    requires TodoGrew(s, t, k, Notices(c, before, after) + more) && t.conns == s.conns[c := after]
    requires WasBefore(s, c, before) && before.notes <= after.notes
    requires Counted(it) && AskedBy(lb, it) == 0 && forall x <- more :: !Counted(x)
    ensures Balanced(s, t, lb, it)
  {
    TodoCounts(s, t, k, Notices(c, before, after) + more, it);
    AnnouncedGrows(s, t, c, before, after, it);
    NoneCounted(more, it);
  }

  /** What connections announced they never take back. */
  predicate NotesGrew(s: Sys, t: Sys) {
    forall c <- s.conns :: c in t.conns && s.conns[c].notes <= t.conns[c].notes
  }

  lemma CallBalances(s: Sys, t: Sys, lb: Label, it: Item)
    requires lb.LCall? && Enabled(s, lb) && t == Step(s, lb) && NotesGrew(s, t) && Counted(it)
    ensures Balanced(s, t, lb, it)
  {
    var after := CallGrows(s, t, lb);
    NotedBalances(s, t, lb, lb.k, lb.c, s.conns[lb.c], after, [], it);
  }

  lemma ConnBalances(s: Sys, t: Sys, lb: Label, it: Item)
    requires lb.LConn? && Enabled(s, lb) && t == Step(s, lb) && NotesGrew(s, t) && Counted(it)
    ensures Balanced(s, t, lb, it)
  {
    var c, after, more := ConnGrows(s, t, lb);
    NotedBalances(s, t, lb, lb.k, c, s.conns[c], after, more, it);
  }

  lemma RunBalances(s: Sys, t: Sys, k: nat, calls: seq<Call>, it: Item)
    requires Enabled(s, LRun(k, calls)) && t == RunItem(s, k, calls) && NotesGrew(s, t) && Counted(it)
    ensures Balanced(s, t, LRun(k, calls), it)
  {
    var x := s.loops[k].batch[s.loops[k].next];
    if x.Establish? || x.Destroy? {
      var after := RunNotes(s, t, k, calls, x.c);
      NotedBalances(s, t, LRun(k, calls), k, x.c, s.conns[x.c], after, [], it);
    } else {
      var more := RunQuiet(s, t, k, calls);
      TodoCounts(s, t, k, more, it);
      NoneCounted(more, it);
    }
  }

  lemma AcceptBalances(s: Sys, t: Sys, lb: Label, c: Ref, conn: Conn, it: Item)
    requires lb.LAccept? && |s.loops| > 0 && s.loops[0].active != [] && s.loops[0].todo == []
    requires t == Accept(s, lb.fd, conn) && t.conns == s.conns[c := conn]
    requires c == NewRef(s.server, lb.fd) && c !in s.conns && Counted(it)
    requires c.io != 0 ==> conn == Fresh(conn.wantsComplete)
    ensures Balanced(s, t, lb, it)
  {
    var more := AcceptGrows(s, t, lb.fd, conn);
    NotedBalances(s, t, lb, 0, c, Fresh(conn.wantsComplete), conn, more, it);
  }

  lemma AcceptIsNew(s: Sys, fd: int)
    requires Inv(s)
    ensures NewRef(s.server, fd) !in s.conns
  {
    forall d <- s.conns ensures d != NewRef(s.server, fd) {
      assert ConnInv(s, d);
    }
  }

  lemma StepBalances(s: Sys, t: Sys, lb: Label, it: Item)
    requires Inv(s) && Enabled(s, lb) && t == Step(s, lb) && Counted(it)
    ensures Balanced(s, t, lb, it)
  {
    forall c <- s.conns ensures c in t.conns && s.conns[c].notes <= t.conns[c].notes {
      NotesGrow(s, t, lb, c);
    }
    if lb.LAccept? {
      AcceptIsNew(s, lb.fd);
      var c, conn := AcceptMakes(s, t, lb);
      AcceptBalances(s, t, lb, c, conn, it);
    } else if lb.LConn? {
      ConnBalances(s, t, lb, it);
    } else if lb.LCall? {
      CallBalances(s, t, lb, it);
    } else if lb.LRun? {
      RunBalances(s, t, lb.k, lb.calls, it);
    } else if lb.LTodo? {
      TodoBalances(s, t, lb.k, it);
    } else if lb.LQueue? {
      QueueBalances(s, t, lb, it);
    } else if lb.LForeignPush? {
      PushBalances(s, t, lb.k, lb.tag, it);
    } else {
      ControlTellsNothing(s, t, lb);
      ControlBalances(s, t, lb, it);
    }
  }

  // ---------------------------------------------------------------- runs

  /** How often the application asked for a functor during a run. */
  function Asked(run: seq<Label>, it: Item): nat
    decreases |run|
  {
    if run == [] then 0 else AskedBy(run[0], it) + Asked(run[1..], it)
  }

  lemma {:induction false} RunBalance(s: Sys, run: seq<Label>, it: Item)
    requires Inv(s) && LegalRun(s, run) && Counted(it)
    ensures Told(Exec(s, run).loops, it) + AnnouncedBy(s, it) ==
      Told(s.loops, it) + Asked(run, it) + AnnouncedBy(Exec(s, run), it)
    decreases |run|
  {
    if run != [] {
      var t := Step(s, run[0]);
      StepBalances(s, t, run[0], it);
      StepKeepsInv(s, t, run[0]);
      RunBalance(t, run[1..], it);
    }
  }

  /** How often a functor has run, on any loop. */
  function HasRun(loops: seq<Loop>, it: Item): nat
    decreases |loops|
  {
    if loops == [] then 0
    else HasRun(loops[..|loops| - 1], it) + multiset(loops[|loops| - 1].sh.executed)[it]
  }

  lemma {:induction false} ToldIsRunOrWaiting(loops: seq<Loop>, it: Item)
    requires forall l <- loops :: LoopOK(l)
    ensures Told(loops, it) == HasRun(loops, it) + AtLoops(loops, it)
    decreases |loops|
  {
    if loops != [] {
      var front, l := loops[..|loops| - 1], loops[|loops| - 1];
      assert l in loops;
      ToldIsRunOrWaiting(front, it);
      assert l.sh.queued == l.sh.executed + Rest(l) + l.sh.pending;
    }
  }

  lemma {:induction false} NothingTold(loops: seq<Loop>, it: Item)
    requires forall l <- loops :: l.sh.queued == [] && l.todo == []
    ensures Told(loops, it) == 0
    decreases |loops|
  {
    if loops != [] {
      assert loops[|loops| - 1] in loops;
      NothingTold(loops[..|loops| - 1], it);
    }
  }

  /** Over every run: how often a functor of the application has run, and how often it is still waiting
      or being pushed, is how often it was asked for; and likewise every completion or high-water notice
      a connection announced is a functor, once. */
  lemma EveryFunctorIsQueuedOnce(name: string, address: Naming.Address, n: nat, run: seq<Label>, it: Item)
    requires address.Valid() && LegalRun(Begin(name, address, n), run) && Counted(it)
    ensures var s := Exec(Begin(name, address, n), run);
      HasRun(s.loops, it) + Flight(s, it) ==
        match it
        case User(_, _) => Asked(run, it)
        case Notify(c, note) => if c in s.conns then multiset(s.conns[c].notes)[note] else 0
        case _ => 0
  {
    var s := Begin(name, address, n);
    var t := Exec(s, run);
    BeginInv(name, address, n);
    ServerRun(name, address, n, run);
    NothingTold(s.loops, it);
    RunBalance(s, run, it);
    forall l <- t.loops ensures LoopOK(l) {
      var k :| 0 <= k < |t.loops| && t.loops[k] == l;
      assert LoopInv(t, k);
    }
    ToldIsRunOrWaiting(t.loops, it);
    assert it !in t.foreign;
    NoticesAreNotAsked(run, it);
  }

  lemma {:induction false} NoticesAreNotAsked(run: seq<Label>, it: Item)
    ensures !it.User? ==> Asked(run, it) == 0
    decreases |run|
  {
    if run != [] {
      NoticesAreNotAsked(run[1..], it);
    }
  }

  /** A functor runs on the loop it belongs to: a notice on the loop of its connection. */
  lemma RunsAtHome(s: Sys, k: nat, calls: seq<Call>)
    requires Reachable(s) && Enabled(s, LRun(k, calls))
    ensures var it := s.loops[k].batch[s.loops[k].next];
      && Home(it) == k && !it.WakeUp?
      && Step(s, LRun(k, calls)).loops[k].sh.executed == s.loops[k].sh.executed + [it]
  {
    ReachableInv(s);
    assert LoopInv(s, k);
    RunBegins(s, Step(s, LRun(k, calls)), k, calls);
    assert s.loops[k].batch[s.loops[k].next] in s.loops[k].batch;
  }

  // ---------------------------------------------------------------- active channels

  function HandledIn(s: Sys, lb: Label, k: nat): seq<Ready> {
    if Handles(lb) && lb.k == k && k < |s.loops| && s.loops[k].active != [] then [s.loops[k].active[0]] else []
  }

  /** The active channels loop k handled during a run, in order. */
  ghost function HandledBy(s: Sys, run: seq<Label>, k: nat): seq<Ready>
    requires LegalRun(s, run)
    decreases |run|
  {
    if run == [] then [] else HandledIn(s, run[0], k) + HandledBy(Step(s, run[0]), run[1..], k)
  }

  lemma KeepsActive(s: Sys, t: Sys, lb: Label, k: nat)
    requires Enabled(s, lb) && t == Step(s, lb) && k < |s.loops|
    requires !(Handles(lb) && lb.k == k) && !(lb.LPoll? && lb.k == k)
    ensures |t.loops| == |s.loops| && t.loops[k].active == s.loops[k].active
  {
    if lb.LTodo? {
      TodoKeepsPlace(s, t, k, lb.k);
    } else if lb.k != k {
      WorkStaysHere(s, t, lb, k);
    } else if lb.LRun? {
      RunBegins(s, t, k, lb.calls);
    }
  }

  lemma FirstThenRest(active: seq<Ready>, after: seq<Ready>, first: seq<Ready>)
    requires active != [] && after == active[1..] && first == [active[0]]
    ensures first + after == active
  {
  }

  lemma StepHandles(s: Sys, t: Sys, lb: Label, k: nat)
    requires Enabled(s, lb) && t == Step(s, lb) && k < |s.loops| && !(lb.LPoll? && lb.k == k)
    ensures |t.loops| == |s.loops| && HandledIn(s, lb, k) + t.loops[k].active == s.loops[k].active
  {
    if Handles(lb) && lb.k == k {
      HandlesFirst(s, t, lb);
      FirstThenRest(s.loops[k].active, t.loops[k].active, HandledIn(s, lb, k));
    } else {
      assert HandledIn(s, lb, k) == [];
      KeepsActive(s, t, lb, k);
    }
  }

  lemma Joined(a: seq<Ready>, b: seq<Ready>, c: seq<Ready>, d: seq<Ready>, e: seq<Ready>)
    requires a + b == c && d + e == b
    ensures (a + d) + e == c
  {
  }

  /** Until a loop polls again it handles exactly the channels the last poll returned, in that order,
      none of them twice and none left out when it goes on to its functors. */
  lemma {:induction false} ActiveAreHandledInOrder(s: Sys, run: seq<Label>, k: nat)
    requires LegalRun(s, run) && k < |s.loops|
    requires forall lb <- run :: !(lb.LPoll? && lb.k == k)
    ensures k < |Exec(s, run).loops|
    ensures HandledBy(s, run, k) + Exec(s, run).loops[k].active == s.loops[k].active
    decreases |run|
  {
    if run != [] {
      var t := Step(s, run[0]);
      assert run[0] in run;
      StepHandles(s, t, run[0], k);
      ActiveAreHandledInOrder(t, run[1..], k);
      Joined(HandledIn(s, run[0], k), t.loops[k].active, s.loops[k].active,
             HandledBy(t, run[1..], k), Exec(t, run[1..]).loops[k].active);
    }
  }

  // ---------------------------------------------------------------- guards

  /** The thread of loop k starts to handle or run something of the connection. */
  predicate StartsOn(s: Sys, lb: Label, k: nat, c: Ref) {
    && lb.k == k < |s.loops|
    && (|| (lb.LAccept? && c == NewRef(s.server, lb.fd))
        || (lb.LConn? && s.loops[k].active != [] && s.loops[k].active[0].ConnReady? && c == s.loops[k].active[0].c)
        || (lb.LRun? && s.loops[k].next < |s.loops[k].batch|
            && s.loops[k].batch[s.loops[k].next] in {Establish(c), Destroy(c), Remove(c)}))
  }

  predicate Guards(s: Sys, k: nat, c: Ref) {
    k < |s.loops| && s.loops[k].guard == Some(c)
  }

  lemma GuardHolds(s: Sys, k: nat, c: Ref)
    requires Guards(s, k, c)
    ensures Held(s, c)
  {
    assert Holds(s.loops[k], c);
  }

  lemma StartGuards(s: Sys, t: Sys, lb: Label, k: nat, c: Ref)
    requires Enabled(s, lb) && t == Step(s, lb) && StartsOn(s, lb, k, c)
    ensures k < |t.loops| && (t.loops[k].todo == [] || Guards(t, k, c))
  {
    if lb.LRun? {
      RunGuards(s, t, k, lb.calls, c);
    }
  }

  lemma RunGuards(s: Sys, t: Sys, k: nat, calls: seq<Call>, c: Ref)
    requires Enabled(s, LRun(k, calls)) && t == RunItem(s, k, calls) && StartsOn(s, LRun(k, calls), k, c)
    ensures k < |t.loops| && (t.loops[k].todo == [] || Guards(t, k, c))
  {
  }

  lemma TodoGuards(s: Sys, t: Sys, j: nat, k: nat, c: Ref)
    requires Enabled(s, LTodo(j)) && t == TodoStep(s, j) && Guards(s, k, c)
    ensures k < |t.loops| && (t.loops[k].todo == [] || Guards(t, k, c))
  {
  }

  lemma OthersGuard(s: Sys, t: Sys, lb: Label, k: nat, c: Ref)
    requires Enabled(s, lb) && t == Step(s, lb) && Guards(s, k, c) && !(GetsOn(lb) && lb.k == k)
    ensures k < |t.loops| && (t.loops[k].todo == [] || Guards(t, k, c))
  {
    if lb.LTodo? {
      TodoGuards(s, t, lb.k, k, c);
    } else if lb.k != k {
      WorkStaysHere(s, t, lb, k);
    }
  }

  /** From the step in which a thread starts on a connection, as long as its handler has something left to
      push or to wake, the connection is held, whatever all other threads do meanwhile. */
  lemma HandlerHoldsOn(s: Sys, t: Sys, lb: Label, k: nat, c: Ref)
    requires Enabled(s, lb) && t == Step(s, lb)
    requires StartsOn(s, lb, k, c) || (Guards(s, k, c) && !(GetsOn(lb) && lb.k == k))
    ensures k < |t.loops| && (t.loops[k].todo != [] ==> Guards(t, k, c) && Held(t, c))
  {
    if StartsOn(s, lb, k, c) {
      StartGuards(s, t, lb, k, c);
    } else {
      OthersGuard(s, t, lb, k, c);
    }
    if t.loops[k].todo != [] {
      GuardHolds(t, k, c);
    }
  }

  // ---------------------------------------------------------------- wake-ups

  /** The step writes to the wake-up channel of loop k. */
  predicate Writes(s: Sys, lb: Label, k: nat) {
    || lb == LForeignWake(k)
    || (lb.LTodo? && lb.k < |s.loops| && s.loops[lb.k].todo != [] && s.loops[lb.k].todo[0] == WakeUp(k))
  }

  predicate Rouses(lb: Label, k: nat) {
    lb.LPoll? && lb.k == k && WakeReady in lb.active
  }

  ghost function Written(s: Sys, run: seq<Label>, k: nat): nat
    requires LegalRun(s, run)
    decreases |run|
  {
    if run == [] then 0
    else (if Writes(s, run[0], k) then 1 else 0) + Written(Step(s, run[0]), run[1..], k)
  }

  /** Polls that the wake-up channel ended. */
  function Roused(run: seq<Label>, k: nat): nat
    decreases |run|
  {
    if run == [] then 0 else (if Rouses(run[0], k) then 1 else 0) + Roused(run[1..], k)
  }

  /** A wake-up was written that no poll has reported yet. */
  function Unreported(l: Loop): nat {
    if l.sh.counter > 0 && WakeReady !in l.active then 1 else 0
  }

  lemma OthersReportNothing(s: Sys, t: Sys, lb: Label, k: nat)
    requires Enabled(s, lb) && t == Step(s, lb) && k < |s.loops| && lb.k != k
    ensures |t.loops| == |s.loops|
    ensures Unreported(t.loops[k]) <= Unreported(s.loops[k]) + if Writes(s, lb, k) then 1 else 0
  {
    if !lb.LTodo? {
      WorkStaysHere(s, t, lb, k);
    }
  }

  lemma TodoReports(s: Sys, t: Sys, k: nat)
    requires Enabled(s, LTodo(k)) && t == TodoStep(s, k)
    ensures |t.loops| == |s.loops|
    ensures Unreported(t.loops[k]) <= Unreported(s.loops[k]) + if Writes(s, LTodo(k), k) then 1 else 0
  {
  }

  lemma ControlReports(s: Sys, t: Sys, lb: Label)
    requires Enabled(s, lb) && t == Step(s, lb) && LoopOK(s.loops[lb.k])
    requires !Handles(lb) && !lb.LRun? && !lb.LTodo?
    ensures |t.loops| == |s.loops|
    ensures Unreported(t.loops[lb.k]) + (if Rouses(lb, lb.k) then 1 else 0) <=
      Unreported(s.loops[lb.k]) + if Writes(s, lb, lb.k) then 1 else 0
  {
  }

  lemma OwnReports(s: Sys, t: Sys, lb: Label)
    requires Enabled(s, lb) && t == Step(s, lb) && LoopOK(s.loops[lb.k])
    ensures |t.loops| == |s.loops|
    ensures Unreported(t.loops[lb.k]) + (if Rouses(lb, lb.k) then 1 else 0) <=
      Unreported(s.loops[lb.k]) + if Writes(s, lb, lb.k) then 1 else 0
  {
    if lb.LRun? {
      RunBegins(s, t, lb.k, lb.calls);
    } else if Handles(lb) {
      HandlesFirst(s, t, lb);
      FirstIsHandled(s.loops[lb.k], t.loops[lb.k], lb);
    } else if lb.LTodo? {
      TodoReports(s, t, lb.k);
    } else {
      ControlReports(s, t, lb);
    }
  }

  lemma FirstIsHandled(l: Loop, t: Loop, lb: Label)
    requires l.active != [] && t.active == l.active[1..] && (t.sh == l.sh || t.sh == Drain(l.sh))
    requires l.active[0] == WakeReady ==> t.sh == Drain(l.sh)
    ensures Unreported(t) <= Unreported(l)
  {
    assert l.active == [l.active[0]] + t.active;
  }

  lemma {:induction false} RousedFrom(s: Sys, run: seq<Label>, k: nat)
    requires Inv(s) && LegalRun(s, run) && k < |s.loops|
    ensures Roused(run, k) <= Unreported(s.loops[k]) + Written(s, run, k)
    decreases |run|
  {
    if run != [] {
      var lb, t := run[0], Step(s, run[0]);
      assert LoopInv(s, k);
      if lb.k == k {
        OwnReports(s, t, lb);
      } else {
        OthersReportNothing(s, t, lb, k);
      }
      StepKeepsInv(s, t, lb);
      RousedFrom(t, run[1..], k);
    }
  }

  /** Over every run the wake-up channel ends no more polls of a loop than wake-ups were written to it:
      each is consumed, so a loop nobody wakes sleeps. */
  lemma WakeUpsAreConsumed(name: string, address: Naming.Address, n: nat, run: seq<Label>, k: nat)
    requires address.Valid() && LegalRun(Begin(name, address, n), run) && k <= n
    ensures Roused(run, k) <= Written(Begin(name, address, n), run, k)
  {
    BeginInv(name, address, n);
    assert Begin(name, address, n).loops[k] == Loop(Blank(), Entry, [], 0, [], [], None);
    RousedFrom(Begin(name, address, n), run, k);
  }

  /** Pushing a functor and then waking, the two steps of a thread, are one `queueInLoop`; on the
      thread's own loop, while no functors run, the push alone is. */
  lemma PushThenWakeIsQueue(s: Sys, k: nat)
    requires Enabled(s, LTodo(k)) && !s.loops[k].todo[0].WakeUp?
    ensures var it, rest := s.loops[k].todo[0], s.loops[k].todo[1..];
      var at, s1 := Home(it), Step(s, LTodo(k));
      if at == k && !s.loops[k].sh.calling then
        s1.loops[k].todo == rest && s1.loops[k].sh == LoopSpec.Queue(s.loops[k].sh, it, true)
      else
        && Enabled(s1, LTodo(k))
        && Step(s1, LTodo(k)).loops[k].todo == rest
        && Step(s1, LTodo(k)).loops[at].sh == LoopSpec.Queue(s.loops[at].sh, it, at == k)
  {
  }

  /** So are the two steps of a user thread; and its quit, with the wake-up behind it. */
  lemma ForeignPushIsQueue(s: Sys, k: nat, tag: int)
    requires k < |s.loops|
    ensures var s1 := Step(s, LForeignPush(k, tag));
      Enabled(s1, LForeignWake(k))
      && Step(s1, LForeignWake(k)).loops[k].sh == LoopSpec.Queue(s.loops[k].sh, User(k, tag), false)
    ensures var s1 := Step(s, LForeignQuit(k));
      Enabled(s1, LForeignWake(k))
      && Step(s1, LForeignWake(k)).loops[k].sh == Wake(s.loops[k].sh.(quit := true))
  {
  }
}
