/** The whole server as interleaved steps: one base loop (0) and n io loops (1..n), each with a
    phase, a local batch of functors and a list of things its thread still has to do; user threads
    that queue functors and quit loops; the connections; and the server object.

    A step is one access to what threads share, together with the thread-local work around it.
    Pushing a functor and writing the wake-up are two steps. */
module ServerSystem {
  import opened Common
  import opened EpollSpec
  import opened ConnSpec
  import opened LoopSpec
  import opened ServerSpec
  import Naming
  import ThreadPool

  /** Functors, and wake-ups still to be written. */
  datatype Item =
    | Establish(c: Ref)              // connectEstablished, bound to the connection
    | Remove(c: Ref)                 // removeConnectionInPool, bound to the connection
    | Destroy(c: Ref)                // connectDestroyed, bound to the connection
    | Notify(c: Ref, note: Note)     // a write-complete or high-water callback, bound likewise
    | User(at: nat, tag: int)        // a functor of the application for loop `at`
    | WakeUp(at: nat)                // not a functor: a write to the eventfd of loop `at` is due

  predicate Bound(it: Item) {
    it.Establish? || it.Remove? || it.Destroy? || it.Notify?
  }

  /** The functor holds a strong reference to the connection. */
  predicate Refers(it: Item, c: Ref) {
    Bound(it) && it.c == c
  }

  /** The loop a functor is queued on. */
  function Home(it: Item): nat {
    match it
    case Remove(_) => 0
    case User(at, _) => at
    case WakeUp(at) => at
    case _ => it.c.io
  }

  /** An entry of the list of active channels: the wake-up channel, the acceptor's, or that of a
      connection (by raw pointer) with the events returned. */
  datatype Ready = WakeReady | AcceptReady | ConnReady(c: Ref, mask: Mask)

  datatype Phase =
    | Entry     // before the first line of loop()
    | Check     // about to test quit_
    | Poll      // committed to epoll_wait
    | Dispatch  // handling the active channels
    | Calling   // callingPendingFunctors_ is set, the queue not yet swapped
    | Run       // running the swapped functors
    | Stopped

  /** A loop and the control state of its thread.  `batch` is the vector the queue was swapped
      into: it keeps all its functors until the phase ends; `next` is the one to run next.  `todo`
      is what the handler in progress still has to push or wake, and `guard` the reference it
      holds meanwhile. */
  datatype Loop = Loop(
    sh: Shared<Item>,
    phase: Phase,
    batch: seq<Item>,
    next: nat,
    active: seq<Ready>,
    todo: seq<Item>,
    guard: Option<Ref>)

  /** `foreign` are the wake-ups user threads still owe.  `conns` keeps every connection ever made.
      `broken` is set when a channel pointer is followed after its owner was released. */
  datatype Sys = Sys(
    loops: seq<Loop>,
    foreign: multiset<Item>,
    server: Server,
    conns: map<Ref, Conn>,
    broken: bool)

  // ---------------------------------------------------------------- strong references

  predicate AnyRefers(items: seq<Item>, c: Ref) {
    exists it <- items :: Refers(it, c)
  }

  predicate Holds(l: Loop, c: Ref) {
    || l.guard == Some(c)
    || AnyRefers(l.sh.pending, c) || AnyRefers(l.batch, c) || AnyRefers(l.todo, c)
  }

  predicate InMap(s: Server, c: Ref) {
    exists name <- s.connections :: s.connections[name] == c
  }

  /** Some strong reference to the connection exists.  When none does, the object is destroyed and
      its descriptor closed. */
  predicate Held(s: Sys, c: Ref) {
    InMap(s.server, c) || exists k :: 0 <= k < |s.loops| && Holds(s.loops[k], c)
  }

  // ---------------------------------------------------------------- steps of a loop's thread

  function Put(s: Sys, k: nat, l: Loop): Sys
    requires k < |s.loops|
  {
    s.(loops := s.loops[k := l])
  }

  /** A handler leaves things to do; while it has any, it holds on to the connection. */
  function Doing(l: Loop, todo: seq<Item>, c: Ref): Loop {
    l.(todo := todo, guard := if todo == [] then None else Some(c))
  }

  function Notices(c: Ref, before: Conn, after: Conn): seq<Item> {
    if |before.notes| <= |after.notes| then
      seq(|after.notes| - |before.notes|,
          i requires 0 <= i < |after.notes| - |before.notes| => Notify(c, after.notes[|before.notes| + i]))
    else []
  }

  function EnterLoop(l: Loop): Loop {
    l.(phase := Check, sh := l.sh.(quit := false))
  }

  function CheckQuit(l: Loop): Loop {
    l.(phase := if l.sh.quit then Stopped else Poll)
  }

  /** `fillActiveChannels` writes through every channel pointer the kernel returns. */
  function PollReturn(s: Sys, k: nat, active: seq<Ready>): Sys
    requires k < |s.loops|
  {
    Put(s, k, s.loops[k].(phase := Dispatch, active := active))
    .(broken := s.broken || exists r <- active :: r.ConnReady? && !Held(s, r.c))
  }

  function DispatchWake(l: Loop): Loop
    requires l.active != []
  {
    l.(active := l.active[1..], sh := Drain(l.sh))
  }

  function SkipActive(l: Loop): Loop
    requires l.active != []
  {
    l.(active := l.active[1..])
  }

  /** `newConnection`: the map entry, then `connectEstablished` on the chosen loop; that has run
      already (`conn`) when the chosen loop is the base loop itself. */
  function Accept(s: Sys, fd: int, conn: Conn): Sys
    requires |s.loops| > 0 && s.loops[0].active != []
  {
    var c := NewRef(s.server, fd);
    var todo := if c.io == 0 then Notices(c, Fresh(conn.wantsComplete), conn) else [Establish(c)];
    Put(s, 0, Doing(SkipActive(s.loops[0]), todo, c))
    .(server := Entered(s.server, fd), conns := s.conns[c := conn])
  }

  /** What every close of a connection hands over: its removal, to the base loop; or, its removal
      done, its end, when this is the base loop. */
  function HandOver(k: nat, c: Ref, closes: nat): seq<Item> {
    seq(closes, _ => if k == 0 then Destroy(c) else Remove(c))
  }

  /** The events of one connection, which turn it into `conn`. */
  function DispatchConn(s: Sys, k: nat, c: Ref, conn: Conn): Sys
    requires k < |s.loops| && s.loops[k].active != [] && c in s.conns
  {
    var closed := conn.closes > s.conns[c].closes;
    var handOver := HandOver(k, c, if closed then conn.closes - s.conns[c].closes else 0);
    Put(s, k, Doing(SkipActive(s.loops[k]), Notices(c, s.conns[c], conn) + handOver, c))
    .(server := if closed && k == 0 then Erased(s.server, c) else s.server,
      conns := s.conns[c := conn],
      broken := s.broken || !Held(s, c))
  }

  function DispatchDone(l: Loop): Loop {
    l.(phase := Calling, sh := l.sh.(calling := true))
  }

  function Swap(l: Loop): Loop {
    l.(phase := Run, batch := l.sh.pending, next := 0, sh := l.sh.(pending := []))
  }

  function Begun(l: Loop): Loop
    requires l.next < |l.batch|
  {
    l.(next := l.next + 1, sh := Ran(l.sh, l.batch[l.next]))
  }

  /** Running connectEstablished or connectDestroyed. */
  function RunOnConn(s: Sys, k: nat, c: Ref, conn: Conn): Sys
    requires k < |s.loops| && s.loops[k].next < |s.loops[k].batch| && c in s.conns
  {
    Put(s, k, Doing(Begun(s.loops[k]), Notices(c, s.conns[c], conn), c)).(conns := s.conns[c := conn])
  }

  /** Running removeConnectionInPool. */
  function RunRemove(s: Sys, k: nat, c: Ref): Sys
    requires k < |s.loops| && s.loops[k].next < |s.loops[k].batch|
  {
    Put(s, k, Doing(Begun(s.loops[k]), [Destroy(c)], c)).(server := Erased(s.server, c))
  }

  function EndRun(l: Loop): Loop {
    l.(phase := Check, batch := [], next := 0, sh := l.sh.(calling := false))
  }

  /** The next thing to do: a wake-up, or pushing a functor on its loop, which a wake-up follows
      unless the loop is this thread's own and it is not running functors. */
  function TodoStep(s: Sys, k: nat): Sys
    requires k < |s.loops| && s.loops[k].todo != []
    requires Home(s.loops[k].todo[0]) < |s.loops|
  {
    var l := s.loops[k];
    var it, t := l.todo[0], Home(l.todo[0]);
    var rest := if !it.WakeUp? && (t != k || l.sh.calling) then [WakeUp(t)] + l.todo[1..] else l.todo[1..];
    var s1 := Put(s, k, l.(todo := rest, guard := if rest == [] then None else l.guard));
    var target := s1.loops[t];
    Put(s1, t, target.(sh := if it.WakeUp? then Wake(target.sh) else Push(target.sh, it)))
  }

  /** A callback running on this thread sends on, or shuts down, some connection of this loop. */
  function CallConn(s: Sys, k: nat, c: Ref, conn: Conn): Sys
    requires k < |s.loops| && c in s.conns
  {
    Put(s, k, s.loops[k].(todo := s.loops[k].todo + Notices(c, s.conns[c], conn)))
    .(conns := s.conns[c := conn])
  }

  // ---------------------------------------------------------------- steps of user threads

  function ForeignPush(s: Sys, at: nat, tag: int): Sys
    requires at < |s.loops|
  {
    Put(s, at, s.loops[at].(sh := Push(s.loops[at].sh, User(at, tag))))
    .(foreign := s.foreign + multiset{WakeUp(at)})
  }

  function ForeignQuit(s: Sys, at: nat): Sys
    requires at < |s.loops|
  {
    Put(s, at, s.loops[at].(sh := s.loops[at].sh.(quit := true)))
    .(foreign := s.foreign + multiset{WakeUp(at)})
  }

  function ForeignWake(s: Sys, at: nat): Sys
    requires at < |s.loops|
  {
    Put(s, at, s.loops[at].(sh := Wake(s.loops[at].sh)))
    .(foreign := s.foreign - multiset{WakeUp(at)})
  }

  // ---------------------------------------------------------------- labels

  datatype Label =
    | LEnter(k: nat)
    | LCheck(k: nat)
    | LPoll(k: nat, active: seq<Ready>)
    | LWake(k: nat)
    | LAcceptNone(k: nat)
    | LAccept(k: nat, fd: int, complete: bool, calls: seq<Call>)
    | LConn(k: nat, e: Event)
    | LDone(k: nat)
    | LSwap(k: nat)
    | LRun(k: nat, calls: seq<Call>)
    | LEndRun(k: nat)
    | LTodo(k: nat)
    | LCall(k: nat, c: Ref, calls: seq<Call>)
    | LQueue(k: nat, at: nat, tag: int)
    | LQuit(k: nat)
    | LForeignPush(k: nat, tag: int)
    | LForeignQuit(k: nat)
    | LForeignWake(k: nat)

  /** What epoll may return to loop k: the wake-up channel when its counter is positive, channels
      of this loop in the kernel set, each once and with any events. */
  predicate Offered(s: Sys, k: nat, active: seq<Ready>)
    requires k < |s.loops|
  {
    && (forall r <- active ::
          match r
          case WakeReady => s.loops[k].sh.counter > 0
          case AcceptReady => k == 0
          case ConnReady(c, _) => c in s.conns && c.io == k && s.conns[c].chan.index == Added)
    && (forall i, j :: 0 <= i < j < |active| && active[i].ConnReady? && active[j].ConnReady? ==>
          active[i].c != active[j].c)
  }

  /** The descriptor is not that of a connection object that still exists. */
  ghost predicate Unused(s: Sys, fd: int) {
    forall c <- s.conns :: c.fd == fd ==> !Held(s, c)
  }

  predicate Handling(l: Loop) {
    l.phase == Dispatch && l.todo == [] && l.active != []
  }

  ghost predicate Enabled(s: Sys, lb: Label) {
    && lb.k < |s.loops|
    && var l := s.loops[lb.k];
       match lb
       case LEnter(_) => l.phase == Entry
       case LCheck(_) => l.phase == Check
       case LPoll(k, active) => l.phase == Poll && Offered(s, k, active)
       case LWake(_) => Handling(l) && l.active[0] == WakeReady
       case LAcceptNone(_) => Handling(l) && l.active[0] == AcceptReady
       case LAccept(k, fd, _, _) =>
         k == 0 && Handling(l) && l.active[0] == AcceptReady && Unused(s, fd)
         && s.server.nextConnId < Naming.INT_MAX
       case LConn(_, e) =>
         Handling(l) && l.active[0].ConnReady? && l.active[0].c in s.conns && e.mask == l.active[0].mask
       case LDone(_) => l.phase == Dispatch && l.todo == [] && l.active == []
       case LSwap(_) => l.phase == Calling
       case LRun(_, _) =>
         l.phase == Run && l.todo == [] && l.next < |l.batch|
         && (Bound(l.batch[l.next]) ==> l.batch[l.next].c in s.conns)
       case LEndRun(_) => l.phase == Run && l.todo == [] && l.next == |l.batch|
       case LTodo(_) => l.todo != [] && Home(l.todo[0]) < |s.loops|
       case LCall(k, c, _) =>
         (l.phase == Dispatch || l.phase == Run) && c in s.conns && c.io == k && Held(s, c)
       case LQueue(_, at, _) => (l.phase == Dispatch || l.phase == Run) && at < |s.loops|
       case LQuit(_) => l.phase == Dispatch || l.phase == Run
       case LForeignPush(_, _) => true
       case LForeignQuit(_) => true
       case LForeignWake(k) => WakeUp(k) in s.foreign
  }

  /** The connection as the acceptor leaves it. */
  function AcceptedConn(s: Server, complete: bool, calls: seq<Call>): Conn {
    var conn := Fresh(complete);
    if ThreadPool.Pick(s.loops, s.next) == 0 then ConnectEstablished(conn, calls) else conn
  }

  function RunItem(s: Sys, k: nat, calls: seq<Call>): Sys
    requires k < |s.loops| && s.loops[k].next < |s.loops[k].batch|
    requires Bound(s.loops[k].batch[s.loops[k].next]) ==> s.loops[k].batch[s.loops[k].next].c in s.conns
  {
    match s.loops[k].batch[s.loops[k].next]
    case Establish(c) => RunOnConn(s, k, c, ConnectEstablished(s.conns[c], calls))
    case Destroy(c) => RunOnConn(s, k, c, ConnectDestroyed(s.conns[c], calls))
    case Remove(c) => RunRemove(s, k, c)
    case _ => Put(s, k, Begun(s.loops[k]))
  }

  ghost function Step(s: Sys, lb: Label): Sys
    requires Enabled(s, lb)
  {
    var k := lb.k;
    var l := s.loops[k];
    match lb
    case LEnter(_) => Put(s, k, EnterLoop(l))
    case LCheck(_) => Put(s, k, CheckQuit(l))
    case LPoll(_, active) => PollReturn(s, k, active)
    case LWake(_) => Put(s, k, DispatchWake(l))
    case LAcceptNone(_) => Put(s, k, SkipActive(l))
    case LAccept(_, fd, complete, calls) => Accept(s, fd, AcceptedConn(s.server, complete, calls))
    case LConn(_, e) => DispatchConn(s, k, l.active[0].c, HandleEvent(s.conns[l.active[0].c], e))
    case LDone(_) => Put(s, k, DispatchDone(l))
    case LSwap(_) => Put(s, k, Swap(l))
    case LRun(_, calls) => RunItem(s, k, calls)
    case LEndRun(_) => Put(s, k, EndRun(l))
    case LTodo(_) => TodoStep(s, k)
    case LCall(_, c, calls) => CallConn(s, k, c, RunCalls(s.conns[c], calls))
    case LQueue(_, at, tag) => Put(s, k, l.(todo := l.todo + [User(at, tag)]))
    case LQuit(_) => Put(s, k, l.(sh := l.sh.(quit := true)))
    case LForeignPush(_, tag) => ForeignPush(s, k, tag)
    case LForeignQuit(_) => ForeignQuit(s, k)
    case LForeignWake(_) => ForeignWake(s, k)
  }

  /** All loops before `loop()`, with what their own threads queued beforehand and no wake-up. */
  function Initial(name: string, address: Naming.Address, early: seq<seq<Item>>): Sys
    requires |early| > 0
  {
    Sys(seq(|early|, k requires 0 <= k < |early| =>
          Loop(Blank<Item>().(pending := early[k], queued := early[k]), Entry, [], 0, [], [], None)),
        multiset{},
        Server(name, address, |early| - 1, 0, 1, map[]),
        map[],
        false)
  }

  ghost predicate LegalRun(s: Sys, run: seq<Label>)
    decreases |run|
  {
    run == [] || (Enabled(s, run[0]) && LegalRun(Step(s, run[0]), run[1..]))
  }

  ghost function Exec(s: Sys, run: seq<Label>): Sys
    requires LegalRun(s, run)
    decreases |run|
  {
    if run == [] then s else Exec(Step(s, run[0]), run[1..])
  }
}
