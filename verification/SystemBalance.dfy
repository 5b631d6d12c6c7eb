/** The round robin over whole runs of the server: how connections are dealt to the io loops. */
module SystemBalance {
  import opened ServerSpec
  import opened ServerSystem
  import opened SystemRuns
  import opened SystemTheorems
  import opened ThreadPool
  import ConnSpec
  import Naming

  /** Those of some connections that are on io loop `1 + j`. */
  function OnLoop(conns: set<Ref>, j: nat): set<Ref> {
    set c <- conns | c.io == 1 + j
  }

  /** Each connection is on the loop its call of getNextLoop returned. */
  predicate OnPickedLoops(v: Server, conns: set<Ref>) {
    forall c <- conns :: 1 <= c.id < v.nextConnId && c.io == Pick(v.loops, NextAt(v.loops, c.id - 1))
  }

  /** The calls of getNextLoop so far are the connections made so far. */
  predicate Dealt(v: Server, conns: set<Ref>, j: nat) {
    && v.nextConnId >= 1
    && v.next == NextAt(v.loops, v.nextConnId - 1)
    && OnPickedLoops(v, conns)
    && |OnLoop(conns, j)| == Picked(v.loops, j, v.nextConnId - 1)
  }

  lemma OneMore(conns: set<Ref>, c: Ref, j: nat)
    requires c !in conns
    ensures |OnLoop(conns + {c}, j)| == |OnLoop(conns, j)| + if c.io == 1 + j then 1 else 0
  {
    assert OnLoop(conns + {c}, j) == OnLoop(conns, j) + if c.io == 1 + j then {c} else {};
  }

  lemma AcceptPlaces(v: Server, conns: set<Ref>, fd: int)
    requires OnPickedLoops(v, conns) && v.nextConnId >= 1 && v.next == NextAt(v.loops, v.nextConnId - 1)
    ensures NewRef(v, fd) !in conns && OnPickedLoops(Entered(v, fd), conns + {NewRef(v, fd)})
  {
    assert NewRef(v, fd).id == v.nextConnId;
  }

  lemma AcceptDeals(v: Server, conns: set<Ref>, fd: int, j: nat)
    requires Dealt(v, conns, j)
    ensures Dealt(Entered(v, fd), conns + {NewRef(v, fd)}, j)
  {
    AcceptPlaces(v, conns, fd);
    OneMore(conns, NewRef(v, fd), j);
  }

  lemma SameDeal(v: Server, w: Server, conns: set<Ref>, j: nat)
    requires Dealt(v, conns, j) && w == v.(connections := w.connections)
    ensures Dealt(w, conns, j)
  {
  }

  lemma OnlyAcceptDeals(s: Sys, t: Sys, lb: Label)
    requires Enabled(s, lb) && t == Step(s, lb) && !lb.LAccept?
    ensures t.conns.Keys == s.conns.Keys && t.server == s.server.(connections := t.server.connections)
  {
    if lb.LRun? {
      RunDealsNothing(s, t, lb.k, lb.calls);
    } else if lb.LConn? || lb.LCall? {
      WorkDealsNothing(s, t, lb);
    }
  }

  lemma WorkDealsNothing(s: Sys, t: Sys, lb: Label)
    requires (lb.LConn? || lb.LCall?) && Enabled(s, lb) && t == Step(s, lb)
    ensures t.conns.Keys == s.conns.Keys && t.server == s.server.(connections := t.server.connections)
  {
  }

  lemma RunDealsNothing(s: Sys, t: Sys, k: nat, calls: seq<ConnSpec.Call>)
    requires Enabled(s, LRun(k, calls)) && t == RunItem(s, k, calls)
    ensures t.conns.Keys == s.conns.Keys && t.server == s.server.(connections := t.server.connections)
  {
  }

  lemma AcceptEnters(s: Sys, t: Sys, lb: Label)
    requires lb.LAccept? && Enabled(s, lb) && t == Step(s, lb)
    ensures t.server == Entered(s.server, lb.fd) && t.conns.Keys == s.conns.Keys + {NewRef(s.server, lb.fd)}
  {
  }

  lemma StepDeals(s: Sys, t: Sys, lb: Label, j: nat)
    requires Dealt(s.server, s.conns.Keys, j) && Enabled(s, lb) && t == Step(s, lb)
    ensures Dealt(t.server, t.conns.Keys, j)
  {
    if lb.LAccept? {
      AcceptEnters(s, t, lb);
      AcceptDeals(s.server, s.conns.Keys, lb.fd, j);
    } else {
      OnlyAcceptDeals(s, t, lb);
      SameDeal(s.server, t.server, s.conns.Keys, j);
    }
  }

  lemma {:induction false} RunDeals(s: Sys, run: seq<Label>, j: nat)
    requires Dealt(s.server, s.conns.Keys, j) && LegalRun(s, run)
    ensures Dealt(Exec(s, run).server, Exec(s, run).conns.Keys, j)
    decreases |run|
  {
    if run != [] {
      StepDeals(s, Step(s, run[0]), run[0], j);
      RunDeals(Step(s, run[0]), run[1..], j);
    }
  }

  lemma ReachableDealt(s: Sys, j: nat)
    requires Reachable(s)
    ensures Dealt(s.server, s.conns.Keys, j)
  {
    var name, address: Naming.Address, n, run :|
      address.Valid() && LegalRun(Begin(name, address, n), run) && s == Exec(Begin(name, address, n), run);
    assert OnLoop(Begin(name, address, n).conns.Keys, j) == {};
    RunDeals(Begin(name, address, n), run, j);
  }

  /** Of the k connections made so far io loop j of n got k div n, one more when j is among the first
      k mod n. */
  predicate HasItsShare(v: Server, conns: set<Ref>, j: nat)
    requires j < v.loops && v.nextConnId >= 1
  {
    var made := v.nextConnId - 1;
    |OnLoop(conns, j)| == made / v.loops + if j < made % v.loops then 1 else 0
  }

  lemma DealtEvenly(v: Server, conns: set<Ref>, j: nat)
    requires Dealt(v, conns, j) && j < v.loops
    ensures HasItsShare(v, conns, j)
    ensures forall c <- conns :: 1 <= c.id < v.nextConnId && c.io == 1 + (c.id - 1) % v.loops
  {
    RoundRobinIsFair(v.loops, j, v.nextConnId - 1);
    forall c <- conns ensures c.io == 1 + (c.id - 1) % v.loops {
      RoundRobinIsFair(v.loops, j, c.id - 1);
    }
  }

  /** In every reachable state each io loop has its share, and connection number i is on io loop
      (i - 1) mod n; without io loops every connection is on the base loop. */
  lemma ConnectionsAreDealtEvenly(s: Sys)
    requires Reachable(s)
    ensures s.server.nextConnId >= 1
    ensures forall j :: 0 <= j < s.server.loops ==> HasItsShare(s.server, s.conns.Keys, j)
    ensures var n := s.server.loops;
      forall c <- s.conns :: 1 <= c.id < s.server.nextConnId && c.io == if n == 0 then 0 else 1 + (c.id - 1) % n
  {
    ReachableDealt(s, 0);
    if s.server.loops > 0 {
      DealtEvenly(s.server, s.conns.Keys, 0);
    }
    forall j | 0 <= j < s.server.loops ensures HasItsShare(s.server, s.conns.Keys, j) {
      ReachableDealt(s, j);
      DealtEvenly(s.server, s.conns.Keys, j);
    }
  }
}
