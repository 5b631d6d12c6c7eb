/** A run of the server, seen from one connection, is a run of that connection; so whatever holds
    of all runs of one connection holds of each connection of the server, under every interleaving. */
module SystemProjection {
  import opened EpollSpec
  import opened ConnSpec
  import opened ServerSpec
  import opened ServerSystem
  import opened SystemInv
  import opened SystemRuns
  import opened SystemTheorems
  import ConnRuns
  import ConnSteps
  import EchoApp = Echo
  import InterestBits
  import Naming
  import SystemConns

  /** What one step of the server is for connection `c`: one step of it, or nothing. */
  ghost function LabelsOf(s: Sys, lb: Label, c: Ref): seq<ConnRuns.Label>
    requires Enabled(s, lb)
  {
    match lb
    case LAccept(_, fd, _, calls) =>
      if c == NewRef(s.server, fd) && c.io == 0 then [ConnRuns.Establish(calls)] else []
    case LConn(k, e) => if s.loops[k].active[0].c == c then [ConnRuns.Dispatch(e)] else []
    case LRun(k, calls) =>
      var it := s.loops[k].batch[s.loops[k].next];
      if it == Establish(c) then [ConnRuns.Establish(calls)]
      else if it == Destroy(c) then [ConnRuns.Destroy(calls)]
      else []
    case LCall(_, d, calls) => if d == c then [ConnRuns.Calls(calls)] else []
    case _ => []
  }

  ghost function Project(s: Sys, run: seq<Label>, c: Ref): seq<ConnRuns.Label>
    requires LegalRun(s, run)
    decreases |run|
  {
    if run == [] then [] else LabelsOf(s, run[0], c) + Project(Step(s, run[0]), run[1..], c)
  }

  /** The connection takes the steps, all of them lawful. */
  predicate Follows(conn: Conn, ls: seq<ConnRuns.Label>, after: Conn) {
    ConnRuns.LegalRun(conn, ls) && ConnRuns.Exec(conn, ls) == after
  }

  lemma FollowsNone(conn: Conn)
    ensures Follows(conn, [], conn)
  {
  }

  lemma FollowsOne(conn: Conn, l: ConnRuns.Label)
    requires ConnRuns.Legal(conn, l)
    ensures Follows(conn, [l], ConnRuns.Do(conn, l))
  {
    assert [l][1..] == [];
    assert ConnRuns.LegalRun(ConnRuns.Do(conn, l), []);
    assert ConnRuns.Exec(ConnRuns.Do(conn, l), []) == ConnRuns.Do(conn, l);
  }

  /** At most one step, then more. */
  lemma FollowsThen(a: Conn, one: seq<ConnRuns.Label>, b: Conn, ls: seq<ConnRuns.Label>, c: Conn)
    requires |one| <= 1 && Follows(a, one, b) && Follows(b, ls, c)
    ensures Follows(a, one + ls, c)
  {
    if one == [] {
      assert one + ls == ls;
    } else {
      var l := one[0];
      assert (one + ls)[0] == l && (one + ls)[1..] == ls;
      assert one[1..] == [] && ConnRuns.Exec(a, one) == ConnRuns.Exec(ConnRuns.Do(a, l), []) == ConnRuns.Do(a, l);
    }
  }

  /** What the invariant says of the connection a step is about to work on. */
  ghost predicate AtItsStage(s: Sys, lb: Label, c: Ref)
    requires Enabled(s, lb) && c in s.conns
  {
    match lb
    case LRun(k, _) =>
      var it := s.loops[k].batch[s.loops[k].next];
      && (it == Establish(c) ==> s.conns[c].established == 0)
      && (it == Destroy(c) ==> s.conns[c].destroyed < s.conns[c].closes)
    case LConn(k, e) =>
      s.loops[k].active[0].c == c ==>
        s.conns[c].established == 1 && s.conns[c].chan.index == Added
    case LAccept(_, fd, _, _) => c != NewRef(s.server, fd)
    case _ => true
  }

  lemma StageForRun(s: Sys, k: nat, c: Ref)
    requires Inv(s) && k < |s.loops| && s.loops[k].next < |s.loops[k].batch| && c in s.conns
    ensures var it := s.loops[k].batch[s.loops[k].next];
      && (it == Establish(c) ==> s.conns[c].established == 0)
      && (it == Destroy(c) ==> s.conns[c].destroyed < s.conns[c].closes)
  {
    SystemConns.NextInFlight(s, k);
    assert ConnInv(s, c);
  }

  lemma InvGivesStage(s: Sys, lb: Label, c: Ref)
    requires Inv(s) && Enabled(s, lb) && c in s.conns
    ensures AtItsStage(s, lb, c)
  {
    match lb
    case LRun(k, _) => StageForRun(s, k, c);
    case LConn(k, e) => ActiveIsUp(s, k);
    case LAccept(_, fd, _, _) => assert ConnInv(s, c);
    case _ =>
  }

  predicate Does(conn: Conn, ls: seq<ConnRuns.Label>, after: Conn) {
    if ls == [] then after == conn else after == ConnRuns.Do(conn, ls[0])
  }

  lemma RunDoes(s: Sys, t: Sys, k: nat, calls: seq<Call>, c: Ref)
    requires Enabled(s, LRun(k, calls)) && t == RunItem(s, k, calls) && c in s.conns
    ensures c in t.conns && Does(s.conns[c], LabelsOf(s, LRun(k, calls), c), t.conns[c])
  {
  }

  lemma AcceptDoes(s: Sys, t: Sys, lb: Label, c: Ref)
    requires lb.LAccept? && Enabled(s, lb) && t == Step(s, lb) && c in s.conns && c != NewRef(s.server, lb.fd)
    ensures c in t.conns && Does(s.conns[c], LabelsOf(s, lb, c), t.conns[c])
  {
  }

  lemma WorkDoes(s: Sys, t: Sys, lb: Label, c: Ref)
    requires (lb.LConn? || lb.LCall?) && Enabled(s, lb) && t == Step(s, lb) && c in s.conns
    ensures c in t.conns && Does(s.conns[c], LabelsOf(s, lb, c), t.conns[c])
  {
  }

  lemma StepDoes(s: Sys, t: Sys, lb: Label, c: Ref)
    requires Enabled(s, lb) && t == Step(s, lb) && c in s.conns && AtItsStage(s, lb, c)
    ensures c in t.conns && Does(s.conns[c], LabelsOf(s, lb, c), t.conns[c])
  {
    if lb.LRun? {
      RunDoes(s, t, lb.k, lb.calls, c);
    } else if lb.LAccept? {
      AcceptDoes(s, t, lb, c);
    } else if lb.LConn? || lb.LCall? {
      WorkDoes(s, t, lb, c);
    }
  }

  lemma StepFollows(s: Sys, t: Sys, lb: Label, c: Ref)
    requires Enabled(s, lb) && t == Step(s, lb) && c in s.conns && AtItsStage(s, lb, c)
    ensures c in t.conns && Follows(s.conns[c], LabelsOf(s, lb, c), t.conns[c])
  {
    var ls := LabelsOf(s, lb, c);
    StepDoes(s, t, lb, c);
    if ls == [] {
      FollowsNone(s.conns[c]);
    } else {
      assert ls == [ls[0]];
      FollowsOne(s.conns[c], ls[0]);
    }
  }

  /** From any state on, a connection that exists follows its projection. */
  lemma {:induction false} RunProjects(s: Sys, run: seq<Label>, c: Ref)
    requires Inv(s) && LegalRun(s, run) && c in s.conns
    ensures c in Exec(s, run).conns
    ensures Follows(s.conns[c], Project(s, run, c), Exec(s, run).conns[c])
    decreases |run|
  {
    if run == [] {
      FollowsNone(s.conns[c]);
    } else {
      var t := Step(s, run[0]);
      StepKeepsInv(s, t, run[0]);
      InvGivesStage(s, run[0], c);
      StepFollows(s, t, run[0], c);
      RunProjects(t, run[1..], c);
      FollowsThen(s.conns[c], LabelsOf(s, run[0], c), t.conns[c], Project(t, run[1..], c), Exec(t, run[1..]).conns[c]);
    }
  }

  lemma NewcomerIsAccepted(s: Sys, t: Sys, lb: Label, c: Ref)
    requires Enabled(s, lb) && t == Step(s, lb) && c !in s.conns && c in t.conns
    ensures lb.LAccept? && c == NewRef(s.server, lb.fd)
    ensures t.conns[c] == AcceptedConn(s.server, lb.complete, lb.calls)
  {
  }

  lemma NewcomerFollows(s: Sys, t: Sys, lb: Label, c: Ref)
    requires Enabled(s, lb) && t == Step(s, lb) && c !in s.conns && c in t.conns
    ensures lb.LAccept?
    ensures Follows(Fresh(lb.complete), LabelsOf(s, lb, c), t.conns[c])
  {
    NewcomerIsAccepted(s, t, lb, c);
    var conn := Fresh(lb.complete);
    if c.io == 0 {
      FollowsOne(conn, ConnRuns.Establish(lb.calls));
    } else {
      FollowsNone(conn);
    }
  }

  lemma BystanderHasNoLabels(s: Sys, t: Sys, lb: Label, c: Ref)
    requires Inv(s) && Enabled(s, lb) && t == Step(s, lb) && c !in s.conns && c !in t.conns
    ensures LabelsOf(s, lb, c) == []
  {
    assert lb.LAccept? ==> NewRef(s.server, lb.fd) in t.conns;
  }

  /** A connection made during a run follows its projection from a fresh connection. */
  lemma {:induction false} NewcomerProjects(s: Sys, run: seq<Label>, c: Ref) returns (complete: bool)
    requires Inv(s) && LegalRun(s, run) && c !in s.conns && c in Exec(s, run).conns
    ensures Follows(Fresh(complete), Project(s, run, c), Exec(s, run).conns[c])
    decreases |run|
  {
    var t := Step(s, run[0]);
    StepKeepsInv(s, t, run[0]);
    if c in t.conns {
      NewcomerFollows(s, t, run[0], c);
      complete := run[0].complete;
      RunProjects(t, run[1..], c);
      FollowsThen(Fresh(complete), LabelsOf(s, run[0], c), t.conns[c],
                  Project(t, run[1..], c), Exec(s, run).conns[c]);
    } else {
      BystanderHasNoLabels(s, t, run[0], c);
      complete := NewcomerProjects(t, run[1..], c);
      assert Project(s, run, c) == Project(t, run[1..], c);
    }
  }

  // ---------------------------------------------------------------- one close at most

  /** This run of some server ends here, and none of its events closes this connection twice,
      whatever events other connections get.  TCP sockets, which report urgent data and a hang-up
      together with readable, give no event that does. */
  ghost predicate ReachedSingly(name: string, address: Naming.Address, n: nat, run: seq<Label>, c: Ref) {
    && address.Valid() && LegalRun(Begin(name, address, n), run)
    && c in Exec(Begin(name, address, n), run).conns
    && ConnRuns.NoDoubleClose(Project(Begin(name, address, n), run, c))
  }

  lemma LivesAreOrderly(name: string, address: Naming.Address, n: nat, run: seq<Label>, c: Ref)
    requires ReachedSingly(name, address, n, run, c)
    ensures ConnRuns.OrderlyLife(Exec(Begin(name, address, n), run).conns[c])
  {
    var s := Begin(name, address, n);
    BeginInv(name, address, n);
    var complete := NewcomerProjects(s, run, c);
    ConnRuns.FreshIsSound(complete);
    ConnRuns.LifeCycleRun(Fresh(complete), Project(s, run, c));
  }

  /** At every moment exactly one of these describes a connection, and exactly the functor that
      ends it is in flight, once. */
  lemma OneFunctorPerStage(name: string, address: Naming.Address, n: nat, run: seq<Label>, c: Ref)
    requires ReachedSingly(name, address, n, run, c)
    ensures var s := Exec(Begin(name, address, n), run);
      var conn, named := s.conns[c], InMap(s.server, c);
      var est, rem, des := Flight(s, Establish(c)), Flight(s, Remove(c)), Flight(s, Destroy(c));
      || (conn.established == conn.closes == conn.destroyed == 0 && conn.changes == []
          && named && est == 1 && rem == 0 && des == 0)
      || (conn.established == 1 && conn.closes == conn.destroyed == 0 && conn.changes == [Up]
          && named && est == 0 && rem == 0 && des == 0)
      || (conn.established == conn.closes == 1 && conn.destroyed == 0 && conn.changes == [Up, Down]
          && named && est == 0 && rem == 1 && des == 0)
      || (conn.established == conn.closes == 1 && conn.destroyed == 0 && conn.changes == [Up, Down]
          && !named && est == 0 && rem == 0 && des == 1)
      || (conn.established == conn.closes == conn.destroyed == 1 && conn.changes == [Up, Down]
          && !named && est == 0 && rem == 0 && des == 0)
  {
    var s := Exec(Begin(name, address, n), run);
    LivesAreOrderly(name, address, n, run, c);
    ConnRuns.OrderlyChanges(s.conns[c]);
    EveryCloseIsAccountedFor(s, c);
    MapHoldsLiveConnections(s, c);
  }

  // ---------------------------------------------------------------- what follows for the server

  /** In every reachable state and for any application: every connection's stream is intact, its
      write interest, half-close and high-water count are right, and its life is in order. */
  lemma EveryConnectionIsSound(s: Sys, c: Ref)
    requires Reachable(s) && c in s.conns
    ensures var conn := s.conns[c];
      && conn.delivered + conn.output == conn.accepted
      && (conn.chan.IsWriting() <==> conn.closes == 0 && conn.output != [])
      && (conn.state == Disconnected && conn.closes == 0 ==> (conn.fins == 1 <==> conn.output == []))
      && conn.fins <= 1
      && (conn.wantsHigh ==> ConnRuns.CountHigh(conn.notes) + conn.unheard == Climbed(conn))
      && (conn.established == 1 ==> ConnRuns.UpThenDowns(conn.changes, conn.closes))
  {
    ReachableInv(s);
    assert ConnInv(s, c);
  }

  /** In every reachable state every connection wants input until it is closed, and room to write exactly
      while output waits. */
  lemma EveryConnectionWantsRightly(name: string, address: Naming.Address, n: nat, run: seq<Label>, c: Ref)
    requires address.Valid() && LegalRun(Begin(name, address, n), run)
    requires c in Exec(Begin(name, address, n), run).conns
    ensures InterestBits.WantsRightly(Exec(Begin(name, address, n), run).conns[c])
  {
    var s := Begin(name, address, n);
    BeginInv(name, address, n);
    var complete := NewcomerProjects(s, run, c);
    InterestBits.RunWantsRightly(complete, Project(s, run, c));
  }

  /** In one kind of step only does a channel leave its poller's table: when its own loop runs its
      connectDestroyed from the swapped-out queue; so never while active channels are handled. */
  lemma OnlyConnectDestroyedUnregisters(s: Sys, t: Sys, lb: Label, c: Ref)
    requires Reachable(s) && Enabled(s, lb) && t == Step(s, lb)
    requires c in s.conns && s.conns[c].chan.index != New
    ensures c in t.conns
    ensures t.conns[c].chan.index == New ==>
      && lb.LRun? && lb.k == c.io && s.loops[lb.k].phase == Run && s.loops[lb.k].active == []
      && s.loops[lb.k].batch[s.loops[lb.k].next] == Destroy(c)
  {
    ReachableInv(s);
    assert ConnInv(s, c);
    InvGivesStage(s, lb, c);
    StepUnregisters(s, t, lb, c);
    if t.conns[c].chan.index == New {
      OnlyOwnLoopTouches(s, t, lb, c);
      assert LoopInv(s, lb.k);
    }
  }

  lemma StepUnregisters(s: Sys, t: Sys, lb: Label, c: Ref)
    requires Enabled(s, lb) && t == Step(s, lb) && c in s.conns && AtItsStage(s, lb, c)
    requires ConnRuns.Inv(s.conns[c]) && ConnRuns.Life(s.conns[c]) && s.conns[c].chan.index != New
    ensures c in t.conns
    ensures t.conns[c].chan.index == New ==>
      lb.LRun? && s.loops[lb.k].phase == Run && s.loops[lb.k].batch[s.loops[lb.k].next] == Destroy(c)
  {
    StepFollows(s, t, lb, c);
    StepDoes(s, t, lb, c);
    var ls := LabelsOf(s, lb, c);
    if ls != [] && !ls[0].Destroy? {
      ConnRuns.OthersKeepRegistered(s.conns[c], ls[0]);
    }
  }

  /** Whatever the loops do next, a connection only moves forward: histories grow, the state never
      goes back, nothing is accepted once it is shut down, nothing delivered once its write side is. */
  lemma ConnectionsOnlyAdvance(s: Sys, run: seq<Label>, c: Ref)
    requires Reachable(s) && LegalRun(s, run) && c in s.conns
    ensures c in Exec(s, run).conns && ConnRuns.Later(s.conns[c], Exec(s, run).conns[c])
  {
    ReachableInv(s);
    assert ConnInv(s, c);
    RunProjects(s, run, c);
    ConnRuns.ConnectionRun(s.conns[c], Project(s, run, c));
  }

  /** The application of main.cpp: every callback on every loop is the echo server's. */
  ghost predicate ServedAsEcho(s: Sys, lb: Label)
    requires Enabled(s, lb)
  {
    match lb
    case LAccept(_, _, _, calls) => calls == []
    case LConn(_, e) => EchoApp.EchoLabel(ConnRuns.Dispatch(e))
    case LRun(k, calls) =>
      var it := s.loops[k].batch[s.loops[k].next];
      (it.Establish? ==> calls == []) && (it.Destroy? ==> calls == [CallShutdown])
    case LCall(_, _, calls) => calls == []
    case _ => true
  }

  ghost predicate EchoServer(s: Sys, run: seq<Label>)
    requires LegalRun(s, run)
    decreases |run|
  {
    run == [] || (ServedAsEcho(s, run[0]) && EchoServer(Step(s, run[0]), run[1..]))
  }

  lemma LabelsAreEcho(s: Sys, lb: Label, c: Ref)
    requires Enabled(s, lb) && ServedAsEcho(s, lb)
    ensures EchoApp.EchoRun(LabelsOf(s, lb, c))
  {
  }

  lemma {:induction false} EchoProjects(s: Sys, run: seq<Label>, c: Ref)
    requires LegalRun(s, run) && EchoServer(s, run)
    ensures EchoApp.EchoRun(Project(s, run, c))
    decreases |run|
  {
    if run != [] {
      var t := Step(s, run[0]);
      EchoProjects(t, run[1..], c);
      LabelsAreEcho(s, run[0], c);
      forall l <- Project(s, run, c) ensures EchoApp.EchoLabel(l) {
        assert l in LabelsOf(s, run[0], c) || l in Project(t, run[1..], c);
      }
    }
  }

  /** End to end, over every run of the echo server with any number of loops, connections, read
      sizes and partial writes, under every interleaving: what each peer was sent, followed by what
      waits for it, is what it sent, exactly when none of its sends was refused; so it is when none of
      them met EPIPE or ECONNRESET, whatever else befell it. */
  lemma EchoServerDeliversPrefix(name: string, address: Naming.Address, n: nat, run: seq<Label>, c: Ref)
    requires ReachedSingly(name, address, n, run, c) && EchoServer(Begin(name, address, n), run)
    ensures var conn := Exec(Begin(name, address, n), run).conns[c];
      && conn.input == []
      && (conn.delivered + conn.output == conn.received <==> conn.refused == 0)
      && (conn.refused == 0 ==> conn.delivered <= conn.received)
      && |conn.delivered| + |conn.output| + conn.refused == |conn.received|
      && (ConnSteps.NothingBreaks(Project(Begin(name, address, n), run, c)) ==>
            conn.delivered + conn.output == conn.received)
  {
    var s := Begin(name, address, n);
    BeginInv(name, address, n);
    var complete := NewcomerProjects(s, run, c);
    EchoProjects(s, run, c);
    EchoApp.EchoDeliversPrefix(complete, Project(s, run, c));
  }
}
