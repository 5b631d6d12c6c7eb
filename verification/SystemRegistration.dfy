/** The pollers of a running server.  The calls a run makes on the poller of one loop, in the order it
    makes them, are a lawful sequence of operations; so the poller's table, the kernel set and the
    channels agree throughout, and no `epoll_ctl` call is refused. */
module SystemRegistration {
  import opened Common
  import opened EpollSpec
  import opened ConnSpec
  import opened ServerSpec
  import opened ServerSystem
  import opened SystemInv
  import opened SystemRuns
  import opened SystemTheorems
  import opened SystemProjection
  import Asks = ConnRegistration
  import ConnRuns
  import InterestBits
  import Naming
  import Reg = Registration

  type Conns = map<Ref, Conn>

  predicate Used(conns: Conns, k: nat, fd: int) {
    exists c <- conns :: c.io == k && c.fd == fd
  }

  // ---------------------------------------------------------------- the calls of a run

  /** The connection a step works on, if it works on any. */
  function WorksOn(s: Sys, lb: Label): Option<Ref> {
    if lb.LCall? then Some(lb.c)
    else if lb.k < |s.loops| && lb.LConn? && s.loops[lb.k].active != [] && s.loops[lb.k].active[0].ConnReady? then
      Some(s.loops[lb.k].active[0].c)
    else if lb.k < |s.loops| && lb.LRun? && s.loops[lb.k].next < |s.loops[lb.k].batch|
            && Bound(s.loops[lb.k].batch[s.loops[lb.k].next]) then
      Some(s.loops[lb.k].batch[s.loops[lb.k].next].c)
    else None
  }

  /** What a step does on the poller of loop k: the calls recorded by the connection it works on; or,
      accepting, the channel made, in place of an earlier one of the same descriptor, and the calls
      recorded by the new connection. */
  ghost function StepOps(s: Sys, lb: Label, k: nat): seq<Reg.Op>
    requires Enabled(s, lb)
  {
    var t := Step(s, lb);
    if lb.LAccept? then
      var c := NewRef(s.server, lb.fd);
      var made := (if Used(s.conns, k, c.fd) then [Reg.Drop(c.fd)] else []) + [Reg.Create(c.fd)];
      if c.io != k || c !in t.conns then [] else made + Asks.OpsFor(c.fd, t.conns[c].chan.asks)
    else
      match WorksOn(s, lb)
      case None => []
      case Some(c) =>
        if c.io != k || c !in s.conns || c !in t.conns then []
        else Asks.OpsFor(c.fd, Asks.Between(s.conns[c].chan, t.conns[c].chan))
  }

  ghost function OpsOf(s: Sys, run: seq<Label>, k: nat): seq<Reg.Op>
    requires LegalRun(s, run)
    decreases |run|
  {
    if run == [] then [] else StepOps(s, run[0], k) + OpsOf(Step(s, run[0]), run[1..], k)
  }

  lemma OnlyOneChanges(s: Sys, t: Sys, lb: Label)
    requires Enabled(s, lb) && t == Step(s, lb) && !lb.LAccept?
    ensures match WorksOn(s, lb)
      case None => t.conns == s.conns
      case Some(c) => c in s.conns && c in t.conns && t.conns == s.conns[c := t.conns[c]]
  {
    if lb.LRun? {
      OnlyOneChangesRun(s, t, lb.k, lb.calls);
    }
  }

  lemma OnlyOneChangesRun(s: Sys, t: Sys, k: nat, calls: seq<Call>)
    requires Enabled(s, LRun(k, calls)) && t == RunItem(s, k, calls)
    ensures match WorksOn(s, LRun(k, calls))
      case None => t.conns == s.conns
      case Some(c) => c in s.conns && c in t.conns && t.conns == s.conns[c := t.conns[c]]
  {
  }

  /** No call of any connection is left out: every other channel's history stays as it is. */
  lemma NobodyElseAsks(s: Sys, t: Sys, lb: Label, d: Ref)
    requires Enabled(s, lb) && t == Step(s, lb) && d in s.conns
    requires lb.LAccept? ==> d != NewRef(s.server, lb.fd)
    requires !lb.LAccept? ==> WorksOn(s, lb) != Some(d)
    ensures d in t.conns && t.conns[d].chan == s.conns[d].chan
  {
    if lb.LAccept? {
      AcceptEnters(s, t, lb);
    } else {
      OnlyOneChanges(s, t, lb);
    }
  }

  lemma AcceptEnters(s: Sys, t: Sys, lb: Label)
    requires lb.LAccept? && Enabled(s, lb) && t == Step(s, lb)
    ensures t.conns == s.conns[NewRef(s.server, lb.fd) := AcceptedConn(s.server, lb.complete, lb.calls)]
  {
  }

  // ---------------------------------------------------------------- what they lead to

  /** The last connection made on its loop with its descriptor. */
  predicate Latest(conns: Conns, c: Ref) {
    forall d <- conns :: d.io == c.io && d.fd == c.fd ==> d.id <= c.id
  }

  predicate Numbered(conns: Conns, next: nat) {
    (forall c <- conns :: c.id < next) && (forall c <- conns, d <- conns :: c.id == d.id ==> c == d)
  }

  /** Destroyed once for every close: it will not ask anything any more. */
  predicate Finished(c: Conn) {
    ConnRuns.IsGone(c) && c.destroyed == c.closes
  }

  /** A latest connection has the channel of its descriptor; an earlier one is finished. */
  predicate Shown(r: Reg.Registry, conns: Conns, c: Ref)
    requires c in conns
  {
    if Latest(conns, c) then c.fd in r.chans && r.chans[c.fd] == conns[c].chan else Finished(conns[c])
  }

  /** The channels are the loop's own, `own`, which stay as they are, and those of connections. */
  ghost predicate SameFds(r: Reg.Registry, own: Reg.Registry, conns: Conns, k: nat) {
    && (forall fd :: fd in r.chans <==> fd in own.chans || Used(conns, k, fd))
    && (forall fd <- own.chans :: fd in r.chans && r.chans[fd] == own.chans[fd])
    && (forall fd <- own.chans :: !Used(conns, k, fd))
  }

  /** The registration of loop k's poller has the channels of the loop and of its connections. */
  ghost predicate Mirrors(r: Reg.Registry, own: Reg.Registry, conns: Conns, k: nat) {
    Reg.Coherent(r) && SameFds(r, own, conns, k) && forall c <- conns :: c.io == k ==> Shown(r, conns, c)
  }

  // ---------------------------------------------------------------- steps on a connection

  lemma FinishedStays(c: Conn, l: ConnRuns.Label)
    requires ConnRuns.Inv(c) && Finished(c) && ConnRuns.Legal(c, l)
    ensures Finished(ConnRuns.Do(c, l)) && ConnRuns.Do(c, l).chan == c.chan
  {
    match l
    case Calls(calls) => ConnRuns.CallsKeepLife(c, RunCalls(c, calls), calls);
  }

  /** What a step that makes no connection does to one of them. */
  lemma StepOn(s: Sys, t: Sys, lb: Label, c: Ref)
    requires Inv(s) && Enabled(s, lb) && t == Step(s, lb) && c in s.conns
    ensures c in t.conns && Asks.Told(s.conns[c].chan, t.conns[c].chan)
    ensures Finished(s.conns[c]) ==> Finished(t.conns[c]) && t.conns[c].chan == s.conns[c].chan
  {
    assert ConnInv(s, c);
    InvGivesStage(s, lb, c);
    StepFollows(s, t, lb, c);
    StepDoes(s, t, lb, c);
    var ls := LabelsOf(s, lb, c);
    Asks.ToldNothing(s.conns[c].chan);
    if ls != [] {
      Asks.StepAsks(s.conns[c], ls[0]);
      if Finished(s.conns[c]) {
        FinishedStays(s.conns[c], ls[0]);
      }
    }
  }

  lemma SameLatest(a: Conns, b: Conns, c: Ref)
    requires a.Keys == b.Keys
    ensures Latest(a, c) <==> Latest(b, c)
  {
    assert forall d :: d in a <==> d in b;
  }

  lemma SameUsed(a: Conns, b: Conns, k: nat, fd: int)
    requires a.Keys == b.Keys
    ensures Used(a, k, fd) <==> Used(b, k, fd)
  {
    assert forall d :: d in a <==> d in b;
  }

  /** The registration after a connection took the value `after`, if its channel was the latest of
      its descriptor on loop k. */
  predicate Moved(r: Reg.Registry, q: Reg.Registry, conns: Conns, c: Ref, after: Conn, k: nat) {
    if c.io == k && Latest(conns, c) then q.chans == r.chans[c.fd := after.chan] else q == r
  }

  lemma StillShown(r: Reg.Registry, q: Reg.Registry, conns: Conns, c: Ref, after: Conn, k: nat, d: Ref)
    requires c in conns && d in conns && d.io == k && Shown(r, conns, d) && (c.id == d.id ==> c == d)
    requires Finished(conns[c]) ==> Finished(after)
    requires Moved(r, q, conns, c, after, k)
    ensures Shown(q, conns[c := after], d)
  {
    SameLatest(conns, conns[c := after], d);
    if c.io == k && Latest(conns, c) && Latest(conns, d) && d.fd == c.fd {
      assert d.id <= c.id <= d.id;
    }
  }

  lemma StillSameFds(r: Reg.Registry, own: Reg.Registry, q: Reg.Registry, conns: Conns, c: Ref, after: Conn, k: nat)
    requires c in conns && SameFds(r, own, conns, k) && Moved(r, q, conns, c, after, k)
    ensures SameFds(q, own, conns[c := after], k)
  {
    assert c.io == k ==> Used(conns, k, c.fd);
    forall fd ensures Used(conns[c := after], k, fd) <==> Used(conns, k, fd) {
      SameUsed(conns, conns[c := after], k, fd);
    }
  }

  lemma OneMirrors(r: Reg.Registry, own: Reg.Registry, q: Reg.Registry, conns: Conns, c: Ref, after: Conn, k: nat,
                   next: nat)
    requires Mirrors(r, own, conns, k) && Numbered(conns, next) && Reg.Coherent(q) && c in conns
    requires Finished(conns[c]) ==> Finished(after)
    requires Moved(r, q, conns, c, after, k)
    ensures Mirrors(q, own, conns[c := after], k)
  {
    StillSameFds(r, own, q, conns, c, after, k);
    forall d <- conns | d.io == k ensures Shown(q, conns[c := after], d) {
      StillShown(r, q, conns, c, after, k, d);
    }
  }

  lemma WorkMirrors(s: Sys, t: Sys, lb: Label, k: nat, r: Reg.Registry, own: Reg.Registry)
    requires Inv(s) && Mirrors(r, own, s.conns, k) && Enabled(s, lb) && t == Step(s, lb) && !lb.LAccept?
    ensures var ops := StepOps(s, lb, k);
      Reg.Lawful(r, ops) && Mirrors(Reg.Exec(r, ops), own, t.conns, k)
  {
    OnlyOneChanges(s, t, lb);
    match WorksOn(s, lb)
    case None =>
    case Some(c) =>
      StepOn(s, t, lb, c);
      InvNumbers(s);
      ChangeMirrors(r, own, s.conns, c, t.conns[c], k, s.server.nextConnId);
  }

  lemma InvNumbers(s: Sys)
    requires Inv(s)
    ensures Numbered(s.conns, s.server.nextConnId)
  {
    forall c <- s.conns ensures c.id < s.server.nextConnId {
      assert ConnInv(s, c);
    }
  }

  lemma ChangeMirrors(r: Reg.Registry, own: Reg.Registry, conns: Conns, c: Ref, after: Conn, k: nat, next: nat)
    requires Mirrors(r, own, conns, k) && Numbered(conns, next) && c in conns
    requires Asks.Told(conns[c].chan, after.chan)
    requires Finished(conns[c]) ==> Finished(after) && after.chan == conns[c].chan
    ensures var ops := if c.io == k then Asks.OpsFor(c.fd, Asks.Between(conns[c].chan, after.chan)) else [];
      Reg.Lawful(r, ops) && Mirrors(Reg.Exec(r, ops), own, conns[c := after], k)
  {
    var ops := if c.io == k then Asks.OpsFor(c.fd, Asks.Between(conns[c].chan, after.chan)) else [];
    if c.io == k {
      assert Shown(r, conns, c);
      if Latest(conns, c) {
        Asks.AsksAreLawful(r, c.fd, Asks.Between(conns[c].chan, after.chan));
      } else {
        assert ops == [];
      }
    }
    OneMirrors(r, own, Reg.Exec(r, ops), conns, c, after, k, next);
  }

  // ---------------------------------------------------------------- accepting

  lemma AcceptMirrors(s: Sys, t: Sys, lb: Label, k: nat, r: Reg.Registry, own: Reg.Registry)
    requires Inv(s) && Mirrors(r, own, s.conns, k) && lb.LAccept? && Enabled(s, lb) && t == Step(s, lb)
    requires NewRef(s.server, lb.fd).io == k ==> lb.fd !in own.chans
    ensures var ops := StepOps(s, lb, k);
      Reg.Lawful(r, ops) && Mirrors(Reg.Exec(r, ops), own, t.conns, k)
  {
    var c := NewRef(s.server, lb.fd);
    AcceptEnters(s, t, lb);
    EarlierAreFinished(s, lb);
    InvNumbers(s);
    FirstAsks(s.server, lb.complete, lb.calls);
    CreateMirrors(r, own, s.conns, c, t.conns[c], k, s.server.nextConnId);
  }

  lemma EarlierAreFinished(s: Sys, lb: Label)
    requires Inv(s) && lb.LAccept? && Enabled(s, lb)
    ensures forall d <- s.conns :: d.fd == lb.fd ==> Finished(s.conns[d])
  {
    forall d <- s.conns | d.fd == lb.fd ensures Finished(s.conns[d]) {
      assert ConnInv(s, d);
      if s.conns[d].destroyed == 0 {
        AliveIsHeld(s, d);
      }
      ReleasedHasNoFunctors(s, d, Remove(d));
      ReleasedHasNoFunctors(s, d, Destroy(d));
    }
  }

  lemma FirstAsks(v: Server, complete: bool, calls: seq<Call>)
    ensures Asks.Told(NEW_CHAN, AcceptedConn(v, complete, calls).chan)
  {
    Asks.ToldNothing(NEW_CHAN);
    Asks.StepAsks(Fresh(complete), ConnRuns.Establish(calls));
  }

  lemma CreateMirrors(r: Reg.Registry, own: Reg.Registry, conns: Conns, c: Ref, conn: Conn, k: nat, next: nat)
    requires Mirrors(r, own, conns, k) && Numbered(conns, next) && c.id == next
    requires c.io == k ==> c.fd !in own.chans
    requires forall d <- conns :: d.fd == c.fd ==> Finished(conns[d])
    requires Asks.Told(NEW_CHAN, conn.chan)
    ensures var made := (if Used(conns, k, c.fd) then [Reg.Drop(c.fd)] else []) + [Reg.Create(c.fd)];
      var ops := if c.io != k then [] else made + Asks.OpsFor(c.fd, conn.chan.asks);
      Reg.Lawful(r, ops) && Mirrors(Reg.Exec(r, ops), own, conns[c := conn], k)
  {
    if c.io == k {
      var make := Recreate(r, own, conns, k, c.fd, next);
      var q := Reg.Exec(r, make);
      assert Asks.Between(NEW_CHAN, conn.chan) == conn.chan.asks;
      Asks.AsksAreLawful(q, c.fd, conn.chan.asks);
      Asks.LawfulJoin(r, make, Asks.OpsFor(c.fd, conn.chan.asks));
      NewMirrors(r, own, Reg.Exec(r, make + Asks.OpsFor(c.fd, conn.chan.asks)), conns, c, conn, k);
    } else {
      NewMirrors(r, own, r, conns, c, conn, k);
    }
  }

  /** A channel for a descriptor whose earlier connections on this loop are finished: their last
      channel left the table before its object went. */
  lemma Recreate(r: Reg.Registry, own: Reg.Registry, conns: Conns, k: nat, fd: int, next: nat)
    returns (ops: seq<Reg.Op>)
    requires Mirrors(r, own, conns, k) && Numbered(conns, next) && fd !in own.chans
    requires forall d <- conns :: d.fd == fd ==> Finished(conns[d])
    ensures ops == (if Used(conns, k, fd) then [Reg.Drop(fd)] else []) + [Reg.Create(fd)]
    ensures Reg.Lawful(r, ops) && Reg.Coherent(Reg.Exec(r, ops))
    ensures Reg.Exec(r, ops).chans == r.chans[fd := NEW_CHAN]
  {
    if Used(conns, k, fd) {
      LastIsOut(r, own, conns, k, fd, next);
      RemakeOps(r, fd);
      ops := [Reg.Drop(fd)] + [Reg.Create(fd)];
    } else {
      OneOp(r, Reg.Create(fd));
      assert [] + [Reg.Create(fd)] == [Reg.Create(fd)];
      ops := [Reg.Create(fd)];
    }
  }

  lemma LastIsOut(r: Reg.Registry, own: Reg.Registry, conns: Conns, k: nat, fd: int, next: nat)
    requires Mirrors(r, own, conns, k) && Numbered(conns, next) && Used(conns, k, fd)
    requires forall d <- conns :: d.fd == fd ==> Finished(conns[d])
    ensures fd in r.chans && fd !in r.table
  {
    var d :| d in conns && d.io == k && d.fd == fd;
    var last := LastOf(conns, d, next);
    assert Shown(r, conns, last) && Reg.Placed(r, fd);
  }

  lemma RemakeOps(r: Reg.Registry, fd: int)
    requires Reg.Coherent(r) && fd in r.chans && fd !in r.table
    ensures var ops := [Reg.Drop(fd)] + [Reg.Create(fd)];
      Reg.Lawful(r, ops) && Reg.Coherent(Reg.Exec(r, ops)) && Reg.Exec(r, ops).chans == r.chans[fd := NEW_CHAN]
  {
    OneOp(r, Reg.Drop(fd));
    var q := Reg.Do(r, Reg.Drop(fd));
    OneOp(q, Reg.Create(fd));
    Asks.LawfulJoin(r, [Reg.Drop(fd)], [Reg.Create(fd)]);
  }

  lemma OneOp(r: Reg.Registry, op: Reg.Op)
    requires Reg.Coherent(r) && Reg.Owed(r, op)
    ensures Reg.Lawful(r, [op]) && Reg.Exec(r, [op]) == Reg.Do(r, op) && Reg.Coherent(Reg.Do(r, op))
  {
    assert [op][1..] == [];
    assert Reg.Lawful(Reg.Do(r, op), []) && Reg.Exec(Reg.Do(r, op), []) == Reg.Do(r, op);
    Reg.RegistrationStaysCoherent(r, [op]);
  }

  lemma LastOf(conns: Conns, c: Ref, next: nat) returns (d: Ref)
    requires Numbered(conns, next) && c in conns
    ensures d in conns && d.io == c.io && d.fd == c.fd && Latest(conns, d)
    decreases next - c.id
  {
    d := c;
    if !Latest(conns, c) {
      var e :| e in conns && e.io == c.io && e.fd == c.fd && e.id > c.id;
      d := LastOf(conns, e, next);
    }
  }

  /** The registration after connection `c` was made. */
  predicate Made(r: Reg.Registry, q: Reg.Registry, c: Ref, conn: Conn, k: nat) {
    if c.io == k then q.chans == r.chans[c.fd := conn.chan] else q == r
  }

  lemma OlderShown(r: Reg.Registry, q: Reg.Registry, conns: Conns, c: Ref, conn: Conn, k: nat, d: Ref)
    requires d in conns && d.io == k && Shown(r, conns, d)
    requires d.id < c.id && (d.fd == c.fd ==> Finished(conns[d]))
    requires Made(r, q, c, conn, k)
    ensures Shown(q, conns[c := conn], d)
  {
    var more := conns[c := conn];
    assert c in more && forall e <- conns :: e in more;
    if Latest(more, d) {
      assert Latest(conns, d) && (c.io == k ==> d.fd != c.fd);
    } else if Latest(conns, d) {
      var e :| e in more && e.io == d.io && e.fd == d.fd && e.id > d.id;
      assert e == c;
    }
  }

  lemma NewestShown(r: Reg.Registry, q: Reg.Registry, conns: Conns, c: Ref, conn: Conn, k: nat)
    requires c.io == k && Made(r, q, c, conn, k) && forall d <- conns :: d.id < c.id
    ensures Shown(q, conns[c := conn], c)
  {
    assert Latest(conns[c := conn], c);
  }

  lemma OneMoreFd(r: Reg.Registry, own: Reg.Registry, q: Reg.Registry, conns: Conns, c: Ref, conn: Conn, k: nat)
    requires SameFds(r, own, conns, k) && Made(r, q, c, conn, k) && (c.io == k ==> c.fd !in own.chans)
    ensures SameFds(q, own, conns[c := conn], k)
  {
    var more := conns[c := conn];
    assert c in more && forall d :: d in more <==> d in conns || d == c;
    forall fd ensures Used(more, k, fd) <==> Used(conns, k, fd) || (c.io == k && c.fd == fd) {
    }
  }

  /** A new connection has the newest channel of its descriptor, and takes nothing from any other. */
  lemma NewMirrors(r: Reg.Registry, own: Reg.Registry, q: Reg.Registry, conns: Conns, c: Ref, conn: Conn, k: nat)
    requires Mirrors(r, own, conns, k) && Reg.Coherent(q) && Made(r, q, c, conn, k)
    requires c.io == k ==> c.fd !in own.chans
    requires forall d <- conns :: d.id < c.id && (d.fd == c.fd ==> Finished(conns[d]))
    ensures Mirrors(q, own, conns[c := conn], k)
  {
    OneMoreFd(r, own, q, conns, c, conn, k);
    forall d <- conns[c := conn] | d.io == k ensures Shown(q, conns[c := conn], d) {
      if d == c {
        NewestShown(r, q, conns, c, conn, k);
      } else {
        OlderShown(r, q, conns, c, conn, k, d);
      }
    }
  }

  // ---------------------------------------------------------------- whole runs

  lemma StepMirrors(s: Sys, t: Sys, lb: Label, k: nat, r: Reg.Registry, own: Reg.Registry)
    requires Inv(s) && Mirrors(r, own, s.conns, k) && Enabled(s, lb) && t == Step(s, lb)
    requires forall c <- t.conns :: c.io == k ==> c.fd !in own.chans
    ensures var ops := StepOps(s, lb, k);
      Reg.Lawful(r, ops) && Mirrors(Reg.Exec(r, ops), own, t.conns, k)
  {
    if lb.LAccept? {
      AcceptEnters(s, t, lb);
      assert NewRef(s.server, lb.fd) in t.conns;
      AcceptMirrors(s, t, lb, k, r, own);
    } else {
      WorkMirrors(s, t, lb, k, r, own);
    }
  }

  lemma {:induction false} ConnsStay(s: Sys, run: seq<Label>, c: Ref)
    requires Inv(s) && LegalRun(s, run) && c in s.conns
    ensures c in Exec(s, run).conns
  {
    RunProjects(s, run, c);
  }

  lemma {:induction false} RunMirrors(s: Sys, run: seq<Label>, k: nat, r: Reg.Registry, own: Reg.Registry)
    requires Inv(s) && Mirrors(r, own, s.conns, k) && LegalRun(s, run)
    requires forall c <- Exec(s, run).conns :: c.io == k ==> c.fd !in own.chans
    ensures var ops := OpsOf(s, run, k);
      Reg.Lawful(r, ops) && Mirrors(Reg.Exec(r, ops), own, Exec(s, run).conns, k)
    decreases |run|
  {
    if run != [] {
      var t := Step(s, run[0]);
      StepKeepsInv(s, t, run[0]);
      forall c <- t.conns | c.io == k ensures c.fd !in own.chans {
        ConnsStay(t, run[1..], c);
      }
      StepMirrors(s, t, run[0], k, r, own);
      var first := StepOps(s, run[0], k);
      RunMirrors(t, run[1..], k, Reg.Exec(r, first), own);
      Asks.LawfulJoin(r, first, OpsOf(t, run[1..], k));
    }
  }

  /** Some connection of loop k has this descriptor and its channel this index. */
  predicate Listed(conns: Conns, k: nat, fd: int, index: Index) {
    exists c <- conns :: c.io == k && c.fd == fd && conns[c].chan.index == index
  }

  /** What the registration of loop k's poller must be: beside the loop's own channels, its table
      holds the descriptors of the registered connections, the kernel set those that want events,
      with those events. */
  ghost predicate Registers(r: Reg.Registry, own: Reg.Registry, conns: Conns, k: nat) {
    && r.refused == 0
    && (forall fd :: fd in r.table <==> fd in own.table || Listed(conns, k, fd, Added) || Listed(conns, k, fd, Deleted))
    && (forall fd :: fd in r.kernel <==> fd in own.kernel || Listed(conns, k, fd, Added))
    && (forall fd <- own.kernel :: fd in r.kernel && r.kernel[fd] == own.kernel[fd])
    && (forall c <- conns :: c.io == k && conns[c].chan.index == Added ==>
          c.fd in r.kernel && r.kernel[c.fd] == conns[c].chan.events)
  }

  lemma MirrorPlaces(r: Reg.Registry, own: Reg.Registry, conns: Conns, k: nat, c: Ref)
    requires Mirrors(r, own, conns, k) && c in conns && c.io == k && conns[c].chan.index != New
    ensures c.fd in r.table && (conns[c].chan.index == Added <==> c.fd in r.kernel)
    ensures c.fd in r.kernel ==> r.kernel[c.fd] == conns[c].chan.events
  {
    assert Shown(r, conns, c) && Latest(conns, c);
    assert Reg.Placed(r, c.fd);
  }

  lemma OwnPlaces(r: Reg.Registry, own: Reg.Registry, conns: Conns, k: nat, fd: int)
    requires Mirrors(r, own, conns, k) && Reg.Coherent(own) && fd in own.chans
    ensures (fd in r.table <==> fd in own.table) && (fd in r.kernel <==> fd in own.kernel)
    ensures fd in own.kernel ==> r.kernel[fd] == own.kernel[fd]
  {
    assert Reg.Placed(r, fd) && Reg.Placed(own, fd);
  }

  lemma MirrorLists(r: Reg.Registry, own: Reg.Registry, conns: Conns, k: nat, fd: int, next: nat)
    requires Mirrors(r, own, conns, k) && Numbered(conns, next) && fd !in own.chans
    ensures fd in r.table ==> Listed(conns, k, fd, Added) || Listed(conns, k, fd, Deleted)
    ensures fd in r.kernel ==> Listed(conns, k, fd, Added)
  {
    if fd in r.table {
      assert fd in r.chans && Used(conns, k, fd) && Reg.Placed(r, fd);
      var c :| c in conns && c.io == k && c.fd == fd;
      var d := LastOf(conns, c, next);
      assert Shown(r, conns, d);
    }
  }

  lemma MirrorRegisters(r: Reg.Registry, own: Reg.Registry, conns: Conns, k: nat, next: nat)
    requires Mirrors(r, own, conns, k) && Reg.Coherent(own) && Numbered(conns, next)
    ensures Registers(r, own, conns, k)
  {
    forall c <- conns | c.io == k && conns[c].chan.index != New
      ensures c.fd in r.table && (conns[c].chan.index == Added <==> c.fd in r.kernel)
      ensures c.fd in r.kernel ==> r.kernel[c.fd] == conns[c].chan.events
    {
      MirrorPlaces(r, own, conns, k, c);
    }
    forall fd
      ensures fd in own.chans ==> (fd in r.table <==> fd in own.table) && (fd in r.kernel <==> fd in own.kernel)
      ensures fd in own.kernel ==> fd in r.kernel && r.kernel[fd] == own.kernel[fd]
      ensures fd !in own.chans && fd in r.table ==> Listed(conns, k, fd, Added) || Listed(conns, k, fd, Deleted)
      ensures fd !in own.chans && fd in r.kernel ==> Listed(conns, k, fd, Added)
    {
      if fd in own.chans {
        OwnPlaces(r, own, conns, k, fd);
      } else {
        MirrorLists(r, own, conns, k, fd, next);
      }
    }
  }

  /** What loop k does on its poller before it loops: its wake-up channel is made and reads, and so
      is, on the base loop, the acceptor's. */
  function Opening(k: nat, wake: int, listen: int): seq<Reg.Op> {
    [Reg.Create(wake), Reg.Change(wake, EnableReading)]
    + if k == 0 then [Reg.Create(listen), Reg.Change(listen, EnableReading)] else []
  }

  /** The descriptors of the loop's own channels are open throughout: no connection gets them. */
  predicate OwnFds(conns: Conns, k: nat, wake: int, listen: int) {
    wake != listen && forall c <- conns :: c.io == k ==> c.fd != wake && (k == 0 ==> c.fd != listen)
  }

  lemma OpeningIsLawful(k: nat, wake: int, listen: int)
    requires wake != listen
    ensures Reg.Lawful(Reg.EMPTY, Opening(k, wake, listen))
    ensures var own := Reg.Exec(Reg.EMPTY, Opening(k, wake, listen));
      && Reg.Coherent(own) && own.table == own.kernel.Keys == own.chans.Keys
      && own.table == {wake} + (if k == 0 then {listen} else {})
      && forall fd <- own.kernel :: own.kernel[fd] == Mask(true, true, false, false, false)
  {
    var r1 := Opened(Reg.EMPTY, wake);
    if k == 0 {
      var r2 := Opened(r1, listen);
      Asks.LawfulJoin(Reg.EMPTY, [Reg.Create(wake), Reg.Change(wake, EnableReading)],
                      [Reg.Create(listen), Reg.Change(listen, EnableReading)]);
    } else {
      assert Opening(k, wake, listen) == [Reg.Create(wake), Reg.Change(wake, EnableReading)];
    }
  }

  /** A channel is made and reads. */
  lemma Opened(r: Reg.Registry, fd: int) returns (t: Reg.Registry)
    requires Reg.Coherent(r) && fd !in r.chans
    ensures Reg.Lawful(r, [Reg.Create(fd), Reg.Change(fd, EnableReading)])
    ensures t == Reg.Exec(r, [Reg.Create(fd), Reg.Change(fd, EnableReading)]) && Reg.Coherent(t)
    ensures t.chans.Keys == r.chans.Keys + {fd} && t.table == r.table + {fd}
    ensures t.kernel == r.kernel[fd := READ_EVENT]
  {
    OneOp(r, Reg.Create(fd));
    var s := Reg.Do(r, Reg.Create(fd));
    OneOp(s, Reg.Change(fd, EnableReading));
    Asks.LawfulJoin(r, [Reg.Create(fd)], [Reg.Change(fd, EnableReading)]);
    assert [Reg.Create(fd)] + [Reg.Change(fd, EnableReading)] == [Reg.Create(fd), Reg.Change(fd, EnableReading)];
    t := Reg.Do(s, Reg.Change(fd, EnableReading));
    Reg.ChangeKeepsCoherent(s, fd, EnableReading);
    assert Reg.Placed(s, fd);
  }

  /** All calls on the poller of loop k: the opening, then those of the run in its order. */
  ghost function AllOps(s: Sys, run: seq<Label>, k: nat, wake: int, listen: int): seq<Reg.Op>
    requires LegalRun(s, run)
  {
    Opening(k, wake, listen) + OpsOf(s, run, k)
  }

  /** From a server without connections, and a poller with the loop's own channels. */
  lemma RunRegisters(s: Sys, run: seq<Label>, k: nat, own: Reg.Registry)
    requires Inv(s) && s.conns == map[] && LegalRun(s, run) && Reg.Coherent(own)
    requires forall c <- Exec(s, run).conns :: c.io == k ==> c.fd !in own.chans
    ensures var ops := OpsOf(s, run, k);
      && Reg.Lawful(own, ops) && Reg.Coherent(Reg.Exec(own, ops))
      && Registers(Reg.Exec(own, ops), own, Exec(s, run).conns, k)
  {
    assert Mirrors(own, own, s.conns, k);
    RunMirrors(s, run, k, own, own);
    RunKeepsInv(s, run);
    InvNumbers(Exec(s, run));
    MirrorRegisters(Reg.Exec(own, OpsOf(s, run, k)), own, Exec(s, run).conns, k, Exec(s, run).server.nextConnId);
  }

  /** The calls a run of the server makes on the poller of loop k are lawful, one after the other, and
      none is refused; and they leave in its table exactly the loop's own channels and the registered
      connections, and in the kernel set exactly those that want events, with those events. */
  lemma ServerRunRegisters(name: string, address: Naming.Address, n: nat, run: seq<Label>, k: nat,
                           wake: int, listen: int)
    requires address.Valid() && LegalRun(Begin(name, address, n), run)
    requires OwnFds(Exec(Begin(name, address, n), run).conns, k, wake, listen)
    ensures var ops := AllOps(Begin(name, address, n), run, k, wake, listen);
      && Reg.Lawful(Reg.EMPTY, ops) && Reg.Lawful(Reg.EMPTY, Opening(k, wake, listen))
      && Reg.Coherent(Reg.Exec(Reg.EMPTY, ops))
      && Registers(Reg.Exec(Reg.EMPTY, ops), Reg.Exec(Reg.EMPTY, Opening(k, wake, listen)),
                   Exec(Begin(name, address, n), run).conns, k)
  {
    var s := Begin(name, address, n);
    OpeningIsLawful(k, wake, listen);
    BeginInv(name, address, n);
    RunRegisters(s, run, k, Reg.Exec(Reg.EMPTY, Opening(k, wake, listen)));
    Asks.LawfulJoin(Reg.EMPTY, Opening(k, wake, listen), OpsOf(s, run, k));
  }

  /** Whatever the calls of a run left in a poller's table, beside the loop's own channels, belongs to a
      connection that exists. */
  lemma TableIsOwned(name: string, address: Naming.Address, n: nat, run: seq<Label>, k: nat, wake: int, listen: int,
                     fd: int)
    returns (c: Ref)
    requires address.Valid() && LegalRun(Begin(name, address, n), run)
    requires OwnFds(Exec(Begin(name, address, n), run).conns, k, wake, listen)
    requires var ops := AllOps(Begin(name, address, n), run, k, wake, listen);
      Reg.Lawful(Reg.EMPTY, ops) && fd in Reg.Exec(Reg.EMPTY, ops).table
    requires fd != wake && (k == 0 ==> fd != listen)
    ensures var s := Exec(Begin(name, address, n), run);
      c in s.conns && c.io == k && c.fd == fd && Held(s, c)
  {
    var s := Exec(Begin(name, address, n), run);
    ServerRunRegisters(name, address, n, run, k, wake, listen);
    OpeningIsLawful(k, wake, listen);
    c :| c in s.conns && c.io == k && c.fd == fd && s.conns[c].chan.index != New;
    RegisteredIsOwned(s, c);
  }

  /** What the kernel is asked for in every reachable state: of a connection that is up, input and urgent
      data at all times, and room to write exactly while output waits. */
  lemma KernelWatches(name: string, address: Naming.Address, n: nat, run: seq<Label>, k: nat, wake: int, listen: int,
                      c: Ref)
    requires address.Valid() && LegalRun(Begin(name, address, n), run)
    requires OwnFds(Exec(Begin(name, address, n), run).conns, k, wake, listen)
    requires c in Exec(Begin(name, address, n), run).conns && c.io == k
    requires ConnRuns.IsUp(Exec(Begin(name, address, n), run).conns[c])
    ensures var ops, conn := AllOps(Begin(name, address, n), run, k, wake, listen),
                             Exec(Begin(name, address, n), run).conns[c];
      && Reg.Lawful(Reg.EMPTY, ops) && c.fd in Reg.Exec(Reg.EMPTY, ops).kernel
      && Reg.Exec(Reg.EMPTY, ops).kernel[c.fd] == Mask(true, true, conn.output != [], false, false)
  {
    ServerRunRegisters(name, address, n, run, k, wake, listen);
    EveryConnectionWantsRightly(name, address, n, run, c);
  }
}
