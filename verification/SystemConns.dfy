/** The steps of the server that create, change or destroy a connection keep its invariant. */
module SystemConns {
  import opened ConnSpec
  import opened ServerSpec
  import opened ServerSystem
  import opened SystemInv
  import opened SystemSteps
  import ConnRuns
  import Naming

  // ---------------------------------------------------------------- notices

  lemma NoticesAre(c: Ref, before: Conn, after: Conn)
    ensures forall it <- Notices(c, before, after) :: it.Notify? && it.c == c
  {
  }

  /** The counts of the tokens among notices and a hand-over. */
  lemma NoticeCounts(c: Ref, before: Conn, after: Conn, more: seq<Item>, it: Item)
    requires it.Establish? || it.Remove? || it.Destroy?
    ensures multiset(Notices(c, before, after) + more)[it] == multiset(more)[it]
  {
    NoticesAre(c, before, after);
    assert it !in Notices(c, before, after);
    assert multiset(Notices(c, before, after) + more) == multiset(Notices(c, before, after)) + multiset(more);
  }

  lemma DoingTrades(l: Loop, n: Loop, todo: seq<Item>, c: Ref, out: multiset<Item>)
    requires l.todo == [] && Trades(l, n, out, multiset{}) && n.todo == []
    ensures Trades(l, Doing(n, todo, c), out, multiset(todo))
  {
    assert Rest(Doing(n, todo, c)) == Rest(n);
  }

  // ---------------------------------------------------------------- dispatching an event

  /** What `EventCloses` leaves to know of an event. */
  predicate EventResult(before: Conn, after: Conn) {
    && ConnRuns.Inv(after) && ConnRuns.IsClosed(after, after.closes)
    && before.closes <= after.closes
  }

  lemma EventLeaves(conn: Conn, e: Event)
    requires ConnRuns.Inv(conn) && ConnRuns.IsWatched(conn)
    ensures EventResult(conn, HandleEvent(conn, e))
  {
    ConnRuns.EventCloses(conn, conn.closes, e);
    ConnRuns.EventKeepsInv(conn, e);
  }

  lemma HandOverCounts(k: nat, c: Ref, closes: nat)
    ensures multiset(HandOver(k, c, closes))[Destroy(c)] == if k == 0 then closes else 0
    ensures multiset(HandOver(k, c, closes))[Remove(c)] == if k == 0 then 0 else closes
    ensures multiset(HandOver(k, c, closes))[Establish(c)] == 0
    ensures forall it <- HandOver(k, c, closes) :: Bound(it) && it.c == c
  {
    var items := HandOver(k, c, closes);
    if closes > 0 {
      HandOverCounts(k, c, closes - 1);
      assert items == HandOver(k, c, closes - 1) + [if k == 0 then Destroy(c) else Remove(c)];
    }
  }

  /** What a dispatch leaves to do. */
  function AfterEvent(k: nat, c: Ref, before: Conn, after: Conn): seq<Item> {
    Notices(c, before, after) + HandOver(k, c, if before.closes < after.closes then after.closes - before.closes else 0)
  }

  lemma AfterEventCounts(k: nat, c: Ref, before: Conn, after: Conn)
    requires before.closes <= after.closes
    ensures var into, closes := multiset(AfterEvent(k, c, before, after)), after.closes - before.closes;
      && into[Establish(c)] == 0
      && into[Remove(c)] == (if k == 0 then 0 else closes)
      && into[Destroy(c)] == (if k == 0 then closes else 0)
    ensures forall it <- AfterEvent(k, c, before, after) :: Bound(it) && it.c == c
  {
    var more := HandOver(k, c, after.closes - before.closes);
    assert AfterEvent(k, c, before, after) == Notices(c, before, after) + more;
    HandOverCounts(k, c, after.closes - before.closes);
    NoticesAre(c, before, after);
    NoticeCounts(c, before, after, more, Establish(c));
    NoticeCounts(c, before, after, more, Remove(c));
    NoticeCounts(c, before, after, more, Destroy(c));
  }

  lemma DispatchShape(s: Sys, t: Sys, k: nat, c: Ref, conn: Conn)
    requires k < |s.loops| && s.loops[k].active != [] && c in s.conns && t == DispatchConn(s, k, c, conn)
    ensures OnlyLoops(s, t, {k})
    ensures t.loops[k] == Doing(SkipActive(s.loops[k]), AfterEvent(k, c, s.conns[c], conn), c)
  {
  }

  lemma DispatchHandles(s: Sys, t: Sys, k: nat, c: Ref, into: seq<Item>)
    requires k < |s.loops| == |t.loops| && LoopOK(s.loops[k]) && Handling(s.loops[k]) && OnlyLoops(s, t, {k})
    requires t.loops[k] == Doing(SkipActive(s.loops[k]), into, c)
    requires forall it <- into :: Bound(it) && it.c == c
    ensures Handles(s, t, k, c, multiset{}, into) && LoopOK(t.loops[k])
  {
    var l := s.loops[k];
    assert Rest(SkipActive(l)) == Rest(l);
    assert Trades(l, SkipActive(l), multiset{}, multiset{});
    DoingTrades(l, SkipActive(l), into, c, multiset{});
    assert l.todo + into == into;
    assert Rest(t.loops[k]) == Rest(l);
  }

  lemma DispatchTokens(s: Sys, server: Server, k: nat, c: Ref, conn: Conn, into: seq<Item>)
    requires c in s.conns && c.io == k && Tokens(s, c) && s.conns[c].established == conn.established == 1
    requires s.conns[c].destroyed == conn.destroyed == 0 && s.conns[c].closes <= conn.closes
    requires server == if conn.closes > s.conns[c].closes && k == 0 then Erased(s.server, c) else s.server
    requires multiset(into)[Establish(c)] == 0
    requires multiset(into)[Remove(c)] == if k == 0 then 0 else conn.closes - s.conns[c].closes
    requires multiset(into)[Destroy(c)] == if k == 0 then conn.closes - s.conns[c].closes else 0
    ensures TokensDue(s, server, c, conn, multiset{}, into)
  {
  }

  lemma DispatchActive(s: Sys, t: Sys, k: nat, c: Ref, conn: Conn)
    requires k < |s.loops| && Handling(s.loops[k]) && c in s.conns && t == DispatchConn(s, k, c, conn)
    requires ActiveOK(s, k) && s.loops[k].active[0].ConnReady? && s.loops[k].active[0].c == c
    ensures ActiveOK(t, k)
  {
    var active := s.loops[k].active;
    var m := t.loops[k];
    assert m.active == active[1..];
    forall r <- m.active
      ensures r in active && (r.ConnReady? ==> r.c != c)
    {
      var i :| 0 <= i < |m.active| && m.active[i] == r;
      assert active[i + 1] == r;
    }
    forall i, j | 0 <= i < j < |m.active| && m.active[i].ConnReady? && m.active[j].ConnReady?
      ensures m.active[i].c != m.active[j].c
    {
      assert m.active[i] == active[i + 1] && m.active[j] == active[j + 1];
    }
  }

  /** The next active connection is in the kernel set, of this loop, and held. */
  lemma NextActive(s: Sys, k: nat, c: Ref)
    requires Inv(s) && k < |s.loops| && s.loops[k].active != []
    requires s.loops[k].active[0].ConnReady? && s.loops[k].active[0].c == c
    ensures c in s.conns && c.io == k && ConnRuns.IsWatched(s.conns[c]) && Tokens(s, c) && Held(s, c) && !s.broken
    ensures LoopOK(s.loops[k]) && ActiveOK(s, k)
  {
    assert LoopInv(s, k) && s.loops[k].active[0] in s.loops[k].active;
    assert ConnInv(s, c);
    AliveIsHeld(s, c);
  }

  lemma DispatchGives(s: Sys, t: Sys, k: nat, c: Ref, conn: Conn)
    requires k < |s.loops| && s.loops[k].active != [] && c in s.conns && t == DispatchConn(s, k, c, conn) && Held(s, c)
    ensures Gives(s, t, c, conn, conn.closes > s.conns[c].closes && k == 0)
  {
  }

  lemma DispatchStep(s: Sys, t: Sys, k: nat, c: Ref, conn: Conn)
    requires Inv(s) && k < |s.loops| && Handling(s.loops[k]) && c in s.conns
    requires s.loops[k].active[0].ConnReady? && s.loops[k].active[0].c == c
    requires EventResult(s.conns[c], conn) && t == DispatchConn(s, k, c, conn)
    ensures Inv(t)
  {
    var into := AfterEvent(k, c, s.conns[c], conn);
    NextActive(s, k, c);
    DispatchGives(s, t, k, c, conn);
    AfterEventCounts(k, c, s.conns[c], conn);
    DispatchShape(s, t, k, c, conn);
    DispatchHandles(s, t, k, c, into);
    DispatchTokens(s, t.server, k, c, conn, into);
    DispatchActive(s, t, k, c, conn);
    ConnChange(s, t, k, c, conn, conn.closes > s.conns[c].closes && k == 0, multiset{}, into);
  }

  // ---------------------------------------------------------------- running connection functors

  /** The functor about to run is in flight, so its connection is at the stage it belongs to. */
  lemma NextInFlight(s: Sys, k: nat)
    requires k < |s.loops| && s.loops[k].next < |s.loops[k].batch|
    ensures Flight(s, s.loops[k].batch[s.loops[k].next]) > 0
  {
    var l := s.loops[k];
    assert Rest(l)[0] == l.batch[l.next] && l.batch[l.next] in Rest(l);
    LoopsCover(s.loops, k, l.batch[l.next]);
  }

  lemma NextHolds(s: Sys, k: nat)
    requires k < |s.loops| && s.loops[k].next < |s.loops[k].batch|
    requires Bound(s.loops[k].batch[s.loops[k].next])
    ensures Held(s, s.loops[k].batch[s.loops[k].next].c)
  {
    var it := s.loops[k].batch[s.loops[k].next];
    assert it in s.loops[k].batch && Refers(it, it.c);
    assert Holds(s.loops[k], it.c);
  }

  /** The loop after a functor of connection `c` ran, with `todo` left to do. */
  lemma RunHandles(s: Sys, t: Sys, k: nat, c: Ref, todo: seq<Item>)
    requires k < |s.loops| == |t.loops| && LoopOK(s.loops[k]) && OnlyLoops(s, t, {k})
    requires s.loops[k].phase == Run && s.loops[k].todo == [] && s.loops[k].next < |s.loops[k].batch|
    requires var it := s.loops[k].batch[s.loops[k].next]; Bound(it) && it.c == c
    requires t.loops[k] == Doing(Begun(s.loops[k]), todo, c)
    requires forall it <- todo :: Bound(it) && it.c == c
    ensures Handles(s, t, k, c, multiset{s.loops[k].batch[s.loops[k].next]}, todo)
    ensures LoopOK(t.loops[k]) && ActiveOK(t, k)
  {
    var l := s.loops[k];
    BegunTrades(l);
    BegunOK(l);
    DoingTrades(l, Begun(l), todo, c, multiset{l.batch[l.next]});
    assert l.todo + todo == todo;
    assert Rest(t.loops[k]) == Rest(Begun(l));
    assert t.loops[k].active == [];
  }

  lemma RunTokens(s: Sys, server: Server, c: Ref, conn: Conn, it: Item)
    requires c in s.conns && Tokens(s, c) && ConnRuns.Life(s.conns[c]) && Flight(s, it) > 0
    requires server == s.server && conn.closes == s.conns[c].closes
    requires (it == Establish(c) && conn.established == 1 && conn.destroyed == s.conns[c].destroyed)
          || (it == Destroy(c) && conn.established == s.conns[c].established
              && conn.destroyed == s.conns[c].destroyed + 1)
    ensures TokensDue(s, server, c, conn, multiset{it}, Notices(c, s.conns[c], conn))
  {
    var into := Notices(c, s.conns[c], conn);
    assert into + [] == into;
    NoticeCounts(c, s.conns[c], conn, [], Establish(c));
    NoticeCounts(c, s.conns[c], conn, [], Remove(c));
    NoticeCounts(c, s.conns[c], conn, [], Destroy(c));
  }

  /** A connection whose connectEstablished is in flight is waiting, and comes up. */
  lemma EstablishLife(s: Sys, c: Ref, calls: seq<Call>)
    requires c in s.conns && ConnInv(s, c) && Flight(s, Establish(c)) > 0
    ensures var conn := ConnectEstablished(s.conns[c], calls);
      && ConnRuns.Inv(conn) && ConnRuns.IsUp(conn) && conn.closes == s.conns[c].closes
      && conn.destroyed == s.conns[c].destroyed
  {
    ConnRuns.EstablishEffect(s.conns[c], calls);
  }

  /** A connection whose connectDestroyed is in flight was closed more often than destroyed. */
  lemma DestroyLife(s: Sys, c: Ref, calls: seq<Call>)
    requires c in s.conns && ConnInv(s, c) && Flight(s, Destroy(c)) > 0
    ensures var conn := ConnectDestroyed(s.conns[c], calls);
      && ConnRuns.Inv(conn) && ConnRuns.Life(conn)
      && conn.established == s.conns[c].established && conn.closes == s.conns[c].closes
      && conn.destroyed == s.conns[c].destroyed + 1
  {
    ConnRuns.DestroyEffect(s.conns[c], calls);
  }

  lemma RemoveTokens(s: Sys, server: Server, c: Ref)
    requires c in s.conns && ConnInv(s, c) && Flight(s, Remove(c)) > 0 && server == Erased(s.server, c)
    ensures TokensDue(s, server, c, s.conns[c], multiset{Remove(c)}, [Destroy(c)])
  {
  }

  predicate RunsNext(s: Sys, k: nat, it: Item)
    requires k < |s.loops|
  {
    var l := s.loops[k];
    l.phase == Run && l.todo == [] && l.next < |l.batch| && l.batch[l.next] == it
  }

  /** The shape of a step that runs a functor of a connection. */
  predicate Runs(s: Sys, t: Sys, k: nat, it: Item, conn: Conn, erase: bool, todo: seq<Item>) {
    && k < |s.loops| && RunsNext(s, k, it) && Bound(it) && it.c in s.conns
    && OnlyLoops(s, t, {k}) && t.loops[k] == Doing(Begun(s.loops[k]), todo, it.c)
    && Gives(s, t, it.c, conn, erase) && forall x <- todo :: Bound(x) && x.c == it.c
  }

  lemma RunChange(s: Sys, t: Sys, k: nat, it: Item, conn: Conn, erase: bool, todo: seq<Item>)
    requires Inv(s) && Runs(s, t, k, it, conn, erase, todo)
    requires ConnRuns.Inv(conn) && ConnRuns.Life(conn) && TokensDue(s, t.server, it.c, conn, multiset{it}, todo)
    requires ConnRuns.IsWatched(conn) || it.c.io == k || conn == s.conns[it.c]
    ensures Inv(t)
  {
    assert LoopInv(s, k);
    NextHolds(s, k);
    RunHandles(s, t, k, it.c, todo);
    ConnChange(s, t, k, it.c, conn, erase, multiset{it}, todo);
  }

  lemma EstablishDue(s: Sys, t: Sys, k: nat, c: Ref, calls: seq<Call>)
    requires k < |s.loops| && RunsNext(s, k, Establish(c)) && c in s.conns && ConnInv(s, c)
    requires t == RunOnConn(s, k, c, ConnectEstablished(s.conns[c], calls))
    ensures var conn := ConnectEstablished(s.conns[c], calls);
      && ConnRuns.Inv(conn) && ConnRuns.Life(conn) && ConnRuns.IsUp(conn)
      && Runs(s, t, k, Establish(c), conn, false, Notices(c, s.conns[c], conn))
      && TokensDue(s, t.server, c, conn, multiset{Establish(c)}, Notices(c, s.conns[c], conn))
  {
    NoticesAre(c, s.conns[c], ConnectEstablished(s.conns[c], calls));
    NextInFlight(s, k);
    EstablishLife(s, c, calls);
    RunTokens(s, s.server, c, ConnectEstablished(s.conns[c], calls), Establish(c));
  }

  lemma EstablishStep(s: Sys, t: Sys, k: nat, c: Ref, calls: seq<Call>)
    requires Inv(s) && k < |s.loops| && RunsNext(s, k, Establish(c))
    requires c in s.conns && t == RunOnConn(s, k, c, ConnectEstablished(s.conns[c], calls))
    ensures Inv(t)
  {
    var conn := ConnectEstablished(s.conns[c], calls);
    assert ConnInv(s, c);
    EstablishDue(s, t, k, c, calls);
    RunChange(s, t, k, Establish(c), conn, false, Notices(c, s.conns[c], conn));
  }

  lemma DestroyDue(s: Sys, t: Sys, k: nat, c: Ref, calls: seq<Call>)
    requires k < |s.loops| && RunsNext(s, k, Destroy(c)) && c in s.conns && ConnInv(s, c)
    requires AtHome(s.loops[k], k) && t == RunOnConn(s, k, c, ConnectDestroyed(s.conns[c], calls))
    ensures var conn := ConnectDestroyed(s.conns[c], calls);
      && ConnRuns.Inv(conn) && ConnRuns.Life(conn) && c.io == k
      && Runs(s, t, k, Destroy(c), conn, false, Notices(c, s.conns[c], conn))
      && TokensDue(s, t.server, c, conn, multiset{Destroy(c)}, Notices(c, s.conns[c], conn))
  {
    NoticesAre(c, s.conns[c], ConnectDestroyed(s.conns[c], calls));
    NextInFlight(s, k);
    assert Destroy(c) in s.loops[k].batch;
    DestroyLife(s, c, calls);
    RunTokens(s, s.server, c, ConnectDestroyed(s.conns[c], calls), Destroy(c));
  }

  lemma DestroyStep(s: Sys, t: Sys, k: nat, c: Ref, calls: seq<Call>)
    requires Inv(s) && k < |s.loops| && RunsNext(s, k, Destroy(c))
    requires c in s.conns && t == RunOnConn(s, k, c, ConnectDestroyed(s.conns[c], calls))
    ensures Inv(t)
  {
    var conn := ConnectDestroyed(s.conns[c], calls);
    assert LoopInv(s, k) && ConnInv(s, c);
    DestroyDue(s, t, k, c, calls);
    RunChange(s, t, k, Destroy(c), conn, false, Notices(c, s.conns[c], conn));
  }

  lemma RemoveDue(s: Sys, t: Sys, k: nat, c: Ref)
    requires k < |s.loops| && RunsNext(s, k, Remove(c)) && c in s.conns && ConnInv(s, c)
    requires t == RunRemove(s, k, c)
    ensures Runs(s, t, k, Remove(c), s.conns[c], true, [Destroy(c)])
    ensures TokensDue(s, t.server, c, s.conns[c], multiset{Remove(c)}, [Destroy(c)])
  {
    NextInFlight(s, k);
    RemoveTokens(s, t.server, c);
    assert s.conns[c := s.conns[c]] == s.conns;
  }

  lemma RemoveStep(s: Sys, t: Sys, k: nat, c: Ref)
    requires Inv(s) && k < |s.loops| && RunsNext(s, k, Remove(c))
    requires c in s.conns && t == RunRemove(s, k, c)
    ensures Inv(t)
  {
    assert ConnInv(s, c);
    RemoveDue(s, t, k, c);
    RunChange(s, t, k, Remove(c), s.conns[c], true, [Destroy(c)]);
  }

  // ---------------------------------------------------------------- calls from other callbacks

  lemma CallHandles(s: Sys, t: Sys, k: nat, c: Ref, conn: Conn)
    requires k < |s.loops| && LoopOK(s.loops[k]) && (s.loops[k].phase == Dispatch || s.loops[k].phase == Run)
    requires c in s.conns && t == CallConn(s, k, c, conn)
    ensures Handles(s, t, k, c, multiset{}, Notices(c, s.conns[c], conn)) && LoopOK(t.loops[k])
  {
    NoticesAre(c, s.conns[c], conn);
    TodoAppend(s.loops[k], Notices(c, s.conns[c], conn));
    assert Rest(t.loops[k]) == Rest(s.loops[k]);
  }

  lemma CallTokens(s: Sys, c: Ref, conn: Conn)
    requires c in s.conns && Tokens(s, c) && ConnRuns.SameLife(s.conns[c], conn)
    ensures TokensDue(s, s.server, c, conn, multiset{}, Notices(c, s.conns[c], conn))
  {
    assert Notices(c, s.conns[c], conn) + [] == Notices(c, s.conns[c], conn);
    NoticeCounts(c, s.conns[c], conn, [], Establish(c));
    NoticeCounts(c, s.conns[c], conn, [], Remove(c));
    NoticeCounts(c, s.conns[c], conn, [], Destroy(c));
  }

  lemma CallLife(conn: Conn, calls: seq<Call>)
    requires ConnRuns.Inv(conn) && ConnRuns.Life(conn)
    ensures var after := RunCalls(conn, calls);
      && ConnRuns.Inv(after) && ConnRuns.Life(after) && ConnRuns.SameLife(conn, after)
      && (ConnRuns.IsWatched(conn) ==> ConnRuns.IsWatched(after))
  {
    ConnRuns.CallsKeepLife(conn, RunCalls(conn, calls), calls);
  }

  lemma CallActive(s: Sys, t: Sys, k: nat, c: Ref, conn: Conn)
    requires k < |s.loops| && c in s.conns && t == CallConn(s, k, c, conn) && ActiveOK(s, k)
    requires ConnRuns.IsWatched(s.conns[c]) ==> ConnRuns.IsWatched(conn)
    ensures ActiveOK(t, k)
  {
  }

  lemma CallStep(s: Sys, t: Sys, k: nat, c: Ref, calls: seq<Call>)
    requires Inv(s) && k < |s.loops| && (s.loops[k].phase == Dispatch || s.loops[k].phase == Run)
    requires c in s.conns && c.io == k && Held(s, c) && t == CallConn(s, k, c, RunCalls(s.conns[c], calls))
    ensures Inv(t)
  {
    var conn := RunCalls(s.conns[c], calls);
    assert LoopInv(s, k) && ConnInv(s, c);
    CallLife(s.conns[c], calls);
    CallHandles(s, t, k, c, conn);
    CallTokens(s, c, conn);
    CallActive(s, t, k, c, conn);
    ConnChange(s, t, k, c, conn, false, multiset{}, Notices(c, s.conns[c], conn));
  }

  // ---------------------------------------------------------------- accepting

  /** What accepting adds: a connection with a new id on the next loop of the pool. */
  predicate Adds(s: Sys, t: Sys, c: Ref, conn: Conn, todo: seq<Item>) {
    && |s.loops| == |t.loops| > 0 && c == NewRef(s.server, c.fd)
    && Handling(s.loops[0]) && t.loops[0] == Doing(SkipActive(s.loops[0]), todo, c)
    && OnlyLoops(s, t, {0})
    && t.server == Entered(s.server, c.fd) && t.conns == s.conns[c := conn]
    && t.foreign == s.foreign && t.broken == s.broken
    && (forall it <- todo :: Bound(it) && it.c == c)
  }

  predicate Newcomer(c: Ref, conn: Conn, todo: seq<Item>) {
    && ConnRuns.Inv(conn) && conn.closes == 0 && conn.destroyed == 0
    && (ConnRuns.IsWaiting(conn) || ConnRuns.IsUp(conn))
    && multiset(todo)[Establish(c)] == (if conn.established == 0 then 1 else 0)
    && multiset(todo)[Remove(c)] == 0 && multiset(todo)[Destroy(c)] == 0
  }

  lemma NewIsNew(s: Sys, c: Ref)
    requires Shape(s) && ConnsInv(s) && c == NewRef(s.server, c.fd)
    ensures c !in s.conns && c.io < |s.loops|
    ensures forall d <- s.conns :: d.id < c.id
  {
    forall d <- s.conns ensures d.id < c.id {
      assert ConnInv(s, d);
    }
  }

  lemma AddsFlight(s: Sys, t: Sys, c: Ref, conn: Conn, todo: seq<Item>)
    requires Adds(s, t, c, conn, todo)
    ensures Traded(s, t, multiset{}, multiset(todo))
  {
    var l := s.loops[0];
    assert Rest(SkipActive(l)) == Rest(l);
    DoingTrades(l, SkipActive(l), todo, c, multiset{});
    var u := Put(s, 0, t.loops[0]);
    assert u.loops == t.loops;
    TradePut(s, 0, t.loops[0], multiset{}, multiset(todo));
  }

  lemma AddsKnown(s: Sys, t: Sys, c: Ref, conn: Conn, todo: seq<Item>)
    requires Adds(s, t, c, conn, todo) && AllKnown(s)
    ensures AllKnown(t)
    ensures forall it: Item :: it.WakeUp? || (Bound(it) && it.c != c) ==> Flight(t, it) == Flight(s, it)
    ensures c !in s.conns ==> forall it: Item :: Bound(it) && it.c == c ==> Flight(t, it) == multiset(todo)[it]
  {
    AddsFlight(s, t, c, conn, todo);
    forall it: Item
      ensures Flight(t, it) > 0 ==> Known(t, it)
      ensures it.WakeUp? || (Bound(it) && it.c != c) ==> Flight(t, it) == Flight(s, it)
      ensures c !in s.conns && Bound(it) && it.c == c ==> Flight(t, it) == multiset(todo)[it]
    {
      assert Flight(t, it) == Flight(s, it) + multiset(todo)[it];
      assert Flight(s, it) > 0 ==> Known(s, it);
      assert it in todo <==> multiset(todo)[it] > 0;
    }
  }

  lemma AddsName(s: Sys, t: Sys, c: Ref, conn: Conn, todo: seq<Item>)
    requires Shape(s) && ConnsInv(s) && Adds(s, t, c, conn, todo) && s.server.nextConnId < Naming.INT_MAX
    ensures Named(t.server, c)
    ensures forall d <- s.conns :: NameOf(s.server, d) != NameOf(s.server, c)
    ensures forall d <- s.conns :: Named(t.server, d) <==> Named(s.server, d)
  {
    NewIsNew(s, c);
    forall d <- s.conns ensures NameOf(s.server, d) != NameOf(s.server, c) {
      Naming.NamesAreDistinct(s.server.name, s.server.address, c.id, d.id);
    }
  }

  lemma AddsMap(s: Sys, t: Sys, c: Ref, conn: Conn, todo: seq<Item>)
    requires MapOK(s) && Adds(s, t, c, conn, todo) && forall d <- s.conns :: d.id < c.id
    ensures MapOK(t)
    ensures forall d :: InMap(t.server, d) ==> d == c || InMap(s.server, d)
  {
    forall name <- t.server.connections
      ensures t.server.connections[name] in t.conns && name == NameOf(t.server, t.server.connections[name])
    {
      if t.server.connections[name] != c {
        assert name in s.server.connections;
      }
    }
  }

  lemma AddsNames(s: Sys, t: Sys, c: Ref, conn: Conn, todo: seq<Item>)
    requires Shape(s) && ConnsInv(s) && MapOK(s) && Adds(s, t, c, conn, todo) && s.server.nextConnId < Naming.INT_MAX
    ensures MapOK(t) && Named(t.server, c)
    ensures forall d <- s.conns :: Named(t.server, d) <==> Named(s.server, d)
    ensures forall d :: InMap(t.server, d) ==> d == c || InMap(s.server, d)
  {
    NewIsNew(s, c);
    AddsName(s, t, c, conn, todo);
    AddsMap(s, t, c, conn, todo);
  }

  lemma AddsConns(s: Sys, t: Sys, c: Ref, conn: Conn, todo: seq<Item>)
    requires Shape(s) && ConnsInv(s) && MapOK(s) && AllKnown(s) && Adds(s, t, c, conn, todo)
    requires Newcomer(c, conn, todo) && s.server.nextConnId < Naming.INT_MAX
    ensures ConnsInv(t)
  {
    NewIsNew(s, c);
    AddsNames(s, t, c, conn, todo);
    AddsKnown(s, t, c, conn, todo);
    forall d <- t.conns ensures ConnInv(t, d) {
      if d != c {
        assert ConnInv(s, d);
      }
    }
  }

  lemma AddsLoops(s: Sys, t: Sys, c: Ref, conn: Conn, todo: seq<Item>)
    requires LoopsInv(s) && AllKnown(s) && Adds(s, t, c, conn, todo) && c !in s.conns
    ensures LoopsInv(t)
  {
    AddsKnown(s, t, c, conn, todo);
    assert LoopInv(s, 0);
    var l := s.loops[0];
    TailActive(s, 0, SkipActive(l));
    assert Rest(t.loops[0]) == Rest(l);
    assert LoopOK(t.loops[0]) && AtHome(t.loops[0], 0) && WakeOK(t, 0);
    AddsActive(s, t, c, conn, todo);
    LoopsFrame(s, t, {0});
  }

  lemma AddsActive(s: Sys, t: Sys, c: Ref, conn: Conn, todo: seq<Item>)
    requires Adds(s, t, c, conn, todo) && c !in s.conns && ActiveOK(Put(s, 0, SkipActive(s.loops[0])), 0)
    ensures ActiveOK(t, 0) && WatchedElsewhere(s, t, {0})
  {
    var u := Put(s, 0, SkipActive(s.loops[0]));
    assert t.loops[0].active == u.loops[0].active;
  }

  lemma AddsHeld(s: Sys, t: Sys, c: Ref, conn: Conn, todo: seq<Item>)
    requires Adds(s, t, c, conn, todo) && c !in s.conns && Fds(s) && Unused(s, c.fd)
    requires forall d :: InMap(t.server, d) ==> d == c || InMap(s.server, d)
    ensures Fds(t)
  {
    forall d <- s.conns | Held(t, d) ensures Held(s, d) {
      if !InMap(t.server, d) {
        var k :| 0 <= k < |t.loops| && Holds(t.loops[k], d);
        if k == 0 {
          NewcomerHolds(s.loops[0], todo, c, d);
        }
        assert Holds(s.loops[k], d);
      }
    }
    forall d <- t.conns, e <- t.conns | d.fd == e.fd && Held(t, d) && Held(t, e) ensures d == e {
    }
  }

  lemma NewcomerHolds(l: Loop, todo: seq<Item>, c: Ref, d: Ref)
    requires l.active != [] && d != c && forall it <- todo :: Bound(it) && it.c == c
    requires Holds(Doing(SkipActive(l), todo, c), d)
    ensures Holds(l, d)
  {
  }

  lemma AcceptStep(s: Sys, t: Sys, c: Ref, conn: Conn, todo: seq<Item>)
    requires Inv(s) && Adds(s, t, c, conn, todo) && Newcomer(c, conn, todo)
    requires Unused(s, c.fd) && s.server.nextConnId < Naming.INT_MAX
    ensures Inv(t)
  {
    NewIsNew(s, c);
    AddsNames(s, t, c, conn, todo);
    AddsKnown(s, t, c, conn, todo);
    AddsConns(s, t, c, conn, todo);
    AddsLoops(s, t, c, conn, todo);
    AddsHeld(s, t, c, conn, todo);
  }

  function FirstTodo(c: Ref, complete: bool, conn: Conn): seq<Item> {
    if c.io == 0 then Notices(c, Fresh(complete), conn) else [Establish(c)]
  }

  lemma AcceptedIsNewcomer(v: Server, c: Ref, complete: bool, calls: seq<Call>)
    requires c == NewRef(v, c.fd)
    ensures var conn := AcceptedConn(v, complete, calls);
      && Newcomer(c, conn, FirstTodo(c, complete, conn))
      && conn.wantsComplete == complete
      && forall it <- FirstTodo(c, complete, conn) :: Bound(it) && it.c == c
  {
    if c.io == 0 {
      var conn := AcceptedConn(v, complete, calls);
      ConnRuns.EstablishEffect(Fresh(complete), calls);
      NoticesAre(c, Fresh(complete), conn);
      assert Notices(c, Fresh(complete), conn) + [] == Notices(c, Fresh(complete), conn);
      NoticeCounts(c, Fresh(complete), conn, [], Establish(c));
      NoticeCounts(c, Fresh(complete), conn, [], Remove(c));
      NoticeCounts(c, Fresh(complete), conn, [], Destroy(c));
    }
  }

  /** `newConnection` adds a newcomer: already up when its loop is the base loop. */
  lemma AcceptAdds(s: Sys, t: Sys, fd: int, complete: bool, calls: seq<Call>)
    requires |s.loops| > 0 && Handling(s.loops[0])
    requires t == Accept(s, fd, AcceptedConn(s.server, complete, calls))
    ensures var c, conn := NewRef(s.server, fd), AcceptedConn(s.server, complete, calls);
      var todo := FirstTodo(c, complete, conn);
      Adds(s, t, c, conn, todo) && Newcomer(c, conn, todo)
  {
    AcceptedIsNewcomer(s.server, NewRef(s.server, fd), complete, calls);
  }
}
