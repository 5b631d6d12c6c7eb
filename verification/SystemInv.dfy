/** The invariant of the whole server, and how it is kept when loops change. */
module SystemInv {
  import opened ConnSpec
  import opened ServerSpec
  import opened ServerSystem
  import ConnRuns
  import Naming

  // ---------------------------------------------------------------- everything in flight

  function Rest(l: Loop): seq<Item> {
    if l.next <= |l.batch| then l.batch[l.next..] else []
  }

  /** How often an item is among the functors one loop still has to run or push, and the wake-ups
      its thread owes. */
  function AtLoop(l: Loop, it: Item): nat {
    multiset(l.sh.pending)[it] + multiset(Rest(l))[it] + multiset(l.todo)[it]
  }

  function AtLoops(loops: seq<Loop>, it: Item): nat
    decreases |loops|
  {
    if loops == [] then 0
    else AtLoops(loops[..|loops| - 1], it) + AtLoop(loops[|loops| - 1], it)
  }

  /** How often an item is in flight anywhere. */
  function Flight(s: Sys, it: Item): nat {
    AtLoops(s.loops, it) + s.foreign[it]
  }

  lemma AtLoopsLast(front: seq<Loop>, l: Loop, it: Item)
    ensures AtLoops(front + [l], it) == AtLoops(front, it) + AtLoop(l, it)
  {
    assert (front + [l])[..|front|] == front;
  }

  lemma {:induction false} LoopsUpdate(loops: seq<Loop>, k: nat, l: Loop, it: Item)
    requires k < |loops|
    ensures AtLoops(loops[k := l], it) == AtLoops(loops, it) - AtLoop(loops[k], it) + AtLoop(l, it)
    decreases |loops|
  {
    var front, last := loops[..|loops| - 1], loops[|loops| - 1];
    assert loops == front + [last];
    AtLoopsLast(front, last, it);
    if k == |front| {
      assert loops[k := l] == front + [l];
      AtLoopsLast(front, l, it);
    } else {
      assert loops[k := l] == front[k := l] + [last];
      AtLoopsLast(front[k := l], last, it);
      LoopsUpdate(front, k, l, it);
    }
  }

  lemma {:induction false} LoopsCover(loops: seq<Loop>, k: nat, it: Item)
    requires k < |loops|
    ensures AtLoop(loops[k], it) <= AtLoops(loops, it)
    decreases |loops|
  {
    if k < |loops| - 1 {
      LoopsCover(loops[..|loops| - 1], k, it);
    }
  }

  /** Whatever is in flight at the loops is at one of them. */
  lemma {:induction false} LoopsWitness(loops: seq<Loop>, it: Item) returns (k: nat)
    requires AtLoops(loops, it) > 0
    ensures k < |loops| && AtLoop(loops[k], it) > 0
    decreases |loops|
  {
    k := |loops| - 1;
    if AtLoop(loops[k], it) == 0 {
      k := LoopsWitness(loops[..k], it);
    }
  }

  lemma FlightPut(s: Sys, k: nat, l: Loop)
    requires k < |s.loops|
    ensures forall it: Item :: Flight(Put(s, k, l), it) == Flight(s, it) - AtLoop(s.loops[k], it) + AtLoop(l, it)
  {
    forall it: Item
      ensures Flight(Put(s, k, l), it) == Flight(s, it) - AtLoop(s.loops[k], it) + AtLoop(l, it)
    {
      LoopsUpdate(s.loops, k, l, it);
    }
  }

  // ---------------------------------------------------------------- the invariant of one loop

  /** Phases and control state agree, and the functors run so far, the rest of the batch and the
      queue are exactly the functors queued so far, in order. */
  predicate LoopOK(l: Loop) {
    && (l.sh.calling <==> l.phase == Calling || l.phase == Run)
    && (l.todo != [] ==> l.phase == Dispatch || l.phase == Run)
    && (l.phase != Dispatch ==> l.active == [])
    && (l.phase != Run ==> l.batch == [] && l.next == 0)
    && l.next <= |l.batch|
    && l.sh.executed + Rest(l) + l.sh.pending == l.sh.queued
  }

  /** Functors wait at the loop they belong to. */
  predicate AtHome(l: Loop, k: nat) {
    && (forall it <- l.sh.pending :: !it.WakeUp? && Home(it) == k)
    && (forall it <- l.batch :: !it.WakeUp? && Home(it) == k)
  }

  /** Every connection still to be handled is in the kernel set and belongs to this loop. */
  predicate ActiveOK(s: Sys, k: nat)
    requires k < |s.loops|
  {
    var active := s.loops[k].active;
    && (forall r <- active ::
          match r
          case WakeReady => true
          case AcceptReady => k == 0
          case ConnReady(c, _) => c in s.conns && c.io == k && ConnRuns.IsWatched(s.conns[c]))
    && (forall i, j :: 0 <= i < j < |active| && active[i].ConnReady? && active[j].ConnReady? ==>
          active[i].c != active[j].c)
  }

  /** The loop will be woken: its counter is positive, or some thread owes it a wake-up. */
  predicate Woken(s: Sys, k: nat)
    requires k < |s.loops|
  {
    s.loops[k].sh.counter > 0 || Flight(s, WakeUp(k)) > 0
  }

  /** No lost wake-up. */
  predicate WakeOK(s: Sys, k: nat)
    requires k < |s.loops|
  {
    var l := s.loops[k];
    && (l.phase != Dispatch && l.phase != Calling && l.sh.pending != [] ==> Woken(s, k))
    && (l.phase == Poll && l.sh.quit ==> Woken(s, k))
  }

  predicate LoopInv(s: Sys, k: nat)
    requires k < |s.loops|
  {
    LoopOK(s.loops[k]) && AtHome(s.loops[k], k) && ActiveOK(s, k) && WakeOK(s, k)
  }

  // ---------------------------------------------------------------- the invariant of one connection

  /** connectEstablished is in flight until it ran.  Every close is accounted for once: by a
      removeConnectionInPool in flight, by a connectDestroyed in flight, or by one that ran; the
      connection is in the map until the first removal ran. */
  predicate Tokens(s: Sys, c: Ref)
    requires c in s.conns
  {
    var conn := s.conns[c];
    && Flight(s, Establish(c)) == (if conn.established == 0 then 1 else 0)
    && Flight(s, Remove(c)) + Flight(s, Destroy(c)) + conn.destroyed == conn.closes
    && (Named(s.server, c) <==> Flight(s, Destroy(c)) + conn.destroyed == 0)
    && (c.io == 0 ==> Flight(s, Remove(c)) == 0)
  }

  predicate ConnInv(s: Sys, c: Ref)
    requires c in s.conns
  {
    && ConnRuns.Inv(s.conns[c]) && ConnRuns.Life(s.conns[c])
    && Tokens(s, c)
    && c.io < |s.loops|
    && 1 <= c.id < s.server.nextConnId
  }

  // ---------------------------------------------------------------- the invariant of the server

  predicate Known(s: Sys, it: Item) {
    if Bound(it) then it.c in s.conns else Home(it) < |s.loops|
  }

  predicate Shape(s: Sys) {
    && |s.loops| == s.server.loops + 1
    && (s.server.next == 0 || s.server.next < s.server.loops)
    && s.server.address.Valid()
    && 1 <= s.server.nextConnId <= Naming.INT_MAX
  }

  predicate MapOK(s: Sys) {
    && (forall name <- s.server.connections :: s.server.connections[name] in s.conns
          && name == NameOf(s.server, s.server.connections[name]))
    && (forall c <- s.conns, d <- s.conns :: c.id == d.id ==> c == d)
  }

  predicate Fds(s: Sys) {
    forall c <- s.conns, d <- s.conns :: c.fd == d.fd && Held(s, c) && Held(s, d) ==> c == d
  }

  predicate LoopsInv(s: Sys) {
    forall k :: 0 <= k < |s.loops| ==> LoopInv(s, k)
  }

  predicate ConnsInv(s: Sys) {
    forall c <- s.conns :: ConnInv(s, c)
  }

  /** Everything in flight is known, and user threads owe nothing but wake-ups. */
  ghost predicate AllKnown(s: Sys) {
    && (forall it: Item :: Flight(s, it) > 0 ==> Known(s, it))
    && (forall it <- s.foreign :: it.WakeUp?)
  }

  ghost predicate Inv(s: Sys) {
    && Shape(s)
    && LoopsInv(s)
    && AllKnown(s)
    && ConnsInv(s)
    && MapOK(s)
    && Fds(s)
    && !s.broken
  }

  // ---------------------------------------------------------------- references

  /** A connection whose life is not over is held: in the map, or by the functor that is to
      destroy it. */
  lemma AliveIsHeld(s: Sys, c: Ref)
    requires Inv(s) && c in s.conns && s.conns[c].destroyed == 0
    ensures Held(s, c)
  {
    if Named(s.server, c) {
      assert s.server.connections[NameOf(s.server, c)] == c;
    } else {
      assert ConnInv(s, c) && Destroy(c) !in s.foreign;
      var k := LoopsWitness(s.loops, Destroy(c));
      ItemHolds(s, k, Destroy(c), c);
    }
  }

  lemma ItemHolds(s: Sys, k: nat, it: Item, c: Ref)
    requires k < |s.loops| && AtLoop(s.loops[k], it) > 0 && Refers(it, c)
    ensures Holds(s.loops[k], c) && Held(s, c)
  {
    var l := s.loops[k];
    if it in l.sh.pending {
    } else if it in l.todo {
    } else {
      assert it in Rest(l) && it in l.batch;
    }
  }

  // ---------------------------------------------------------------- a step of one loop

  /** A loop that did not change keeps its invariant when its active connections stay up and no
      wake-up owed to it is forgotten. */
  lemma LoopFrame(s: Sys, t: Sys, k: nat)
    requires k < |s.loops| == |t.loops| && t.loops[k] == s.loops[k] && LoopInv(s, k)
    requires Flight(s, WakeUp(k)) > 0 ==> Woken(t, k)
    requires forall r <- s.loops[k].active :: r.ConnReady? ==> r.c in t.conns && ConnRuns.IsWatched(t.conns[r.c])
    ensures LoopInv(t, k)
  {
  }

  /** No connection functor appeared or vanished. */
  ghost predicate SameTokens(s: Sys, t: Sys) {
    forall it: Item :: Bound(it) && !it.Notify? ==> Flight(t, it) == Flight(s, it)
  }

  /** All loops but some are as they were. */
  predicate OnlyLoops(s: Sys, t: Sys, ks: set<nat>) {
    |s.loops| == |t.loops| && forall j :: 0 <= j < |s.loops| && j !in ks ==> t.loops[j] == s.loops[j]
  }

  predicate SomeInv(t: Sys, ks: set<nat>) {
    forall k <- ks :: k < |t.loops| && LoopInv(t, k)
  }

  /** No wake-up owed to another loop is forgotten: it is still owed, or was written. */
  ghost predicate WakesKept(s: Sys, t: Sys, ks: set<nat>)
    requires |s.loops| == |t.loops|
  {
    forall j :: 0 <= j < |s.loops| && j !in ks && Flight(s, WakeUp(j)) > 0 ==> Woken(t, j)
  }

  /** The threads get hold of no connection that was not held before. */
  predicate HoldsLess(s: Sys, t: Sys, ks: set<nat>) {
    forall k <- ks :: k < |t.loops| && forall c <- s.conns :: Holds(t.loops[k], c) ==> Held(s, c)
  }

  /** A step that leaves server and connections alone. */
  lemma QuietStep(s: Sys, t: Sys, ks: set<nat>)
    requires Inv(s) && OnlyLoops(s, t, ks)
    requires t.server == s.server && t.conns == s.conns && t.broken == s.broken
    requires SomeInv(t, ks) && SameTokens(s, t) && AllKnown(t) && WakesKept(s, t, ks) && HoldsLess(s, t, ks)
    ensures Inv(t)
  {
    LoopsFrame(s, t, ks);
    forall c <- t.conns ensures ConnInv(t, c) {
      QuietConn(s, t, c);
    }
    HeldShrinks(s, t, ks);
    FdsShrink(s, t);
  }

  lemma QuietConn(s: Sys, t: Sys, c: Ref)
    requires s.server == t.server && s.conns == t.conns && |s.loops| == |t.loops| && SameTokens(s, t)
    requires c in s.conns && ConnInv(s, c)
    ensures ConnInv(t, c)
  {
  }

  /** Connections of other loops that were up still are. */
  predicate WatchedElsewhere(s: Sys, t: Sys, ks: set<nat>) {
    forall c <- s.conns ::
      c in t.conns && (c.io !in ks && ConnRuns.IsWatched(s.conns[c]) ==> ConnRuns.IsWatched(t.conns[c]))
  }

  lemma LoopsFrame(s: Sys, t: Sys, ks: set<nat>)
    requires LoopsInv(s) && SomeInv(t, ks)
    requires OnlyLoops(s, t, ks) && WakesKept(s, t, ks) && WatchedElsewhere(s, t, ks)
    ensures LoopsInv(t)
  {
    forall j | 0 <= j < |t.loops| ensures LoopInv(t, j) {
      if j !in ks {
        assert LoopInv(s, j) && ActiveOK(s, j);
        forall r <- s.loops[j].active | r.ConnReady?
          ensures r.c in t.conns && ConnRuns.IsWatched(t.conns[r.c])
        {
        }
        LoopFrame(s, t, j);
      }
    }
  }

  lemma FdsShrink(s: Sys, t: Sys)
    requires Fds(s) && s.conns.Keys == t.conns.Keys
    requires forall c <- s.conns :: Held(t, c) ==> Held(s, c)
    ensures Fds(t)
  {
  }

  lemma HeldShrinks(s: Sys, t: Sys, ks: set<nat>)
    requires OnlyLoops(s, t, ks) && HoldsLess(s, t, ks)
    requires forall c :: InMap(t.server, c) ==> InMap(s.server, c)
    ensures forall c <- s.conns :: Held(t, c) ==> Held(s, c)
  {
    forall c <- s.conns | Held(t, c) ensures Held(s, c) {
      if !InMap(t.server, c) {
        var j :| 0 <= j < |t.loops| && Holds(t.loops[j], c);
        if j !in ks {
          assert Holds(s.loops[j], c);
        }
      }
    }
  }

  // ---------------------------------------------------------------- a step that changes a connection

  /** Server and connections after one connection got a new value, and perhaps left the map. */
  predicate Gives(s: Sys, t: Sys, c: Ref, conn: Conn, erase: bool) {
    && t.conns == s.conns[c := conn] && t.foreign == s.foreign && t.broken == s.broken
    && t.server == if erase then Erased(s.server, c) else s.server
  }

  /** Only functors of one connection appeared or vanished. */
  ghost predicate OnlyFunctorsOf(s: Sys, t: Sys, c: Ref) {
    && (forall it: Item :: it.WakeUp? ==> Flight(t, it) == Flight(s, it))
    && (forall it: Item :: Bound(it) && it.c != c ==> Flight(t, it) == Flight(s, it))
  }

  /** A step of one loop that gives a connection a new value, and perhaps takes it out of the map. */
  lemma ConnStep(s: Sys, t: Sys, k: nat, c: Ref, conn: Conn, erase: bool)
    requires Inv(s) && k < |s.loops| && OnlyLoops(s, t, {k}) && c in s.conns
    requires Gives(s, t, c, conn, erase)
    requires ConnRuns.Inv(conn) && ConnRuns.Life(conn) && Tokens(t, c)
    requires SomeInv(t, {k}) && OnlyFunctorsOf(s, t, c) && AllKnown(t) && HoldsLess(s, t, {k})
    requires ConnRuns.IsWatched(conn) || c.io == k || conn == s.conns[c]
    ensures Inv(t)
  {
    ConnLoops(s, t, k, c, conn);
    ConnsFrame(s, t, c, conn, erase);
    ConnHeld(s, t, k, c, conn, erase);
    assert Shape(t);
  }

  lemma ConnLoops(s: Sys, t: Sys, k: nat, c: Ref, conn: Conn)
    requires LoopsInv(s) && OnlyLoops(s, t, {k}) && SomeInv(t, {k}) && OnlyFunctorsOf(s, t, c)
    requires c in s.conns && t.conns == s.conns[c := conn]
    requires ConnRuns.IsWatched(conn) || c.io == k || conn == s.conns[c]
    ensures LoopsInv(t)
  {
    WatchedFrame(s, t, k, c, conn);
    LoopsFrame(s, t, {k});
  }

  lemma ConnHeld(s: Sys, t: Sys, k: nat, c: Ref, conn: Conn, erase: bool)
    requires MapOK(s) && Fds(s) && c in s.conns && OnlyLoops(s, t, {k}) && HoldsLess(s, t, {k})
    requires Gives(s, t, c, conn, erase)
    ensures MapOK(t) && Fds(t)
  {
    assert s.conns.Keys == t.conns.Keys;
    MapShrinks(s, t, c, erase);
    HeldShrinks(s, t, {k});
    FdsShrink(s, t);
  }

  lemma WatchedFrame(s: Sys, t: Sys, k: nat, c: Ref, conn: Conn)
    requires c in s.conns && t.conns == s.conns[c := conn]
    requires ConnRuns.IsWatched(conn) || c.io == k || conn == s.conns[c]
    ensures WatchedElsewhere(s, t, {k})
  {
  }

  lemma ConnsFrame(s: Sys, t: Sys, c: Ref, conn: Conn, erase: bool)
    requires Shape(s) && MapOK(s) && ConnsInv(s) && |s.loops| == |t.loops| && c in s.conns
    requires Gives(s, t, c, conn, erase) && OnlyFunctorsOf(s, t, c)
    requires ConnRuns.Inv(conn) && ConnRuns.Life(conn) && Tokens(t, c)
    ensures ConnsInv(t)
  {
    assert ConnInv(s, c);
    forall d <- t.conns ensures ConnInv(t, d) {
      assert ConnInv(s, d);
      if d != c {
        OtherConn(s, t, c, d, conn, erase);
      }
    }
  }

  lemma OtherConn(s: Sys, t: Sys, c: Ref, d: Ref, conn: Conn, erase: bool)
    requires Shape(s) && MapOK(s) && c in s.conns && d in s.conns && c != d
    requires ConnInv(s, c) && ConnInv(s, d) && |s.loops| == |t.loops|
    requires Gives(s, t, c, conn, erase) && OnlyFunctorsOf(s, t, c)
    ensures ConnInv(t, d)
  {
    OthersNamed(s, c, d);
  }

  lemma MapShrinks(s: Sys, t: Sys, c: Ref, erase: bool)
    requires MapOK(s) && c in s.conns && s.conns.Keys == t.conns.Keys
    requires t.server == if erase then Erased(s.server, c) else s.server
    ensures MapOK(t)
    ensures forall d :: InMap(t.server, d) ==> InMap(s.server, d)
  {
  }

  /** Erasing one connection's name touches no other connection. */
  lemma OthersNamed(s: Sys, c: Ref, d: Ref)
    requires Shape(s) && MapOK(s) && c in s.conns && d in s.conns && c != d
    requires c.id < s.server.nextConnId && d.id < s.server.nextConnId
    ensures NameOf(s.server, c) != NameOf(s.server, d)
    ensures Named(Erased(s.server, c), d) <==> Named(s.server, d)
  {
    Naming.NamesAreDistinct(s.server.name, s.server.address, c.id, d.id);
  }
}
