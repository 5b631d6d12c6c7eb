/** A whole life: on a server without io loops a connection is accepted, its peer closes, and it is
    destroyed and released. */
module SystemWitness {
  import opened Common
  import opened EpollSpec
  import opened ConnSpec
  import opened LoopSpec
  import opened ServerSpec
  import opened ServerSystem
  import opened SystemRuns
  import ConnRuns
  import Naming

  ghost predicate Ends(s: Sys, run: seq<Label>, t: Sys) {
    LegalRun(s, run) && Exec(s, run) == t
  }

  lemma EndsHere(s: Sys)
    ensures Ends(s, [], s)
  {
  }

  lemma {:induction false} EndsThen(s: Sys, run: seq<Label>, t: Sys, lb: Label)
    requires Ends(s, run, t) && Enabled(t, lb)
    ensures Ends(s, run + [lb], Step(t, lb))
    decreases |run|
  {
    if run == [] {
      var u := Step(t, lb);
      assert run + [lb] == [lb] && [lb][1..] == [];
      assert LegalRun(u, []) && Exec(u, []) == u;
    } else {
      assert (run + [lb])[0] == run[0] && (run + [lb])[1..] == run[1..] + [lb];
      EndsThen(Step(s, run[0]), run[1..], t, lb);
    }
  }

  /** The base loop alone. */
  function One(l: Loop, server: Server, conns: map<Ref, Conn>): Sys {
    Sys([l], multiset{}, server, conns, false)
  }

  function Resting(phase: Phase, sh: Shared<Item>): Loop {
    Loop(sh, phase, [], 0, [], [], None)
  }

  lemma Go(s: Sys, run: seq<Label>, t: Sys, lb: Label, u: Sys) returns (more: seq<Label>)
    requires Ends(s, run, t) && Enabled(t, lb) && u == Step(t, lb)
    ensures Ends(s, more, u) && more == run + [lb]
  {
    EndsThen(s, run, t, lb);
    more := run + [lb];
  }

  const FIRST_LOOP := Resting(Entry, Blank<Item>())

  function Peer(fd: int): Ref {
    Ref(1, 0, fd)
  }

  const EMPTY_CONN := ConnectEstablished(Fresh(false), [])

  function Before(name: string, address: Naming.Address): Server {
    Server(name, address, 0, 0, 1, map[])
  }

  lemma Enter(name: string, address: Naming.Address) returns (run: seq<Label>)
    ensures var v := Before(name, address);
      Ends(Begin(name, address, 0), run, One(Resting(Dispatch, Blank()).(active := [AcceptReady]), v, map[]))
  {
    var v := Before(name, address);
    var s := One(FIRST_LOOP, v, map[]);
    assert Begin(name, address, 0) == s;
    EndsHere(s);
    var s1 := One(Resting(Check, Blank()), v, map[]);
    run := Go(s, [], s, LEnter(0), s1);
    var s2 := One(Resting(Poll, Blank()), v, map[]);
    run := Go(s, run, s1, LCheck(0), s2);
    var s3 := One(Resting(Dispatch, Blank()).(active := [AcceptReady]), v, map[]);
    run := Go(s, run, s2, LPoll(0, [AcceptReady]), s3);
  }

  /** From handling nothing more to polling again, with nothing queued. */
  lemma Around(s: Sys, before: seq<Label>, v: Server, conns: map<Ref, Conn>) returns (run: seq<Label>)
    requires Ends(s, before, One(Resting(Dispatch, Blank()), v, conns))
    ensures Ends(s, run, One(Resting(Poll, Blank()), v, conns))
  {
    var s0 := One(Resting(Dispatch, Blank()), v, conns);
    var calling := Blank<Item>().(calling := true);
    var s1 := One(Resting(Calling, calling), v, conns);
    run := Go(s, before, s0, LDone(0), s1);
    var s2 := One(Resting(Run, calling), v, conns);
    run := Go(s, run, s1, LSwap(0), s2);
    var s3 := One(Resting(Check, Blank()), v, conns);
    run := Go(s, run, s2, LEndRun(0), s3);
    run := Go(s, run, s3, LCheck(0), s0.(loops := [Resting(Poll, Blank())]));
  }

  lemma AcceptOne(name: string, address: Naming.Address, fd: int) returns (run: seq<Label>)
    ensures var v := Before(name, address);
      Ends(Begin(name, address, 0), run,
           One(Resting(Dispatch, Blank()), Entered(v, fd), map[Peer(fd) := EMPTY_CONN]))
  {
    var v := Before(name, address);
    var s3 := One(Resting(Dispatch, Blank()).(active := [AcceptReady]), v, map[]);
    run := Enter(name, address);
    var s4 := One(Resting(Dispatch, Blank()), Entered(v, fd), map[Peer(fd) := EMPTY_CONN]);
    assert NewRef(v, fd) == Peer(fd) && AcceptedConn(v, false, []) == EMPTY_CONN;
    assert Notices(Peer(fd), Fresh(false), EMPTY_CONN) == [];
    assert s3.conns[Peer(fd) := EMPTY_CONN] == s4.conns;
    assert [AcceptReady][1..] == [] && EMPTY_CONN.wantsComplete == false;
    assert SkipActive(s3.loops[0]) == s4.loops[0];
    assert Step(s3, LAccept(0, fd, false, [])) == s4;
    run := Go(Begin(name, address, 0), run, s3, LAccept(0, fd, false, []), s4);
  }

  const END_OF_STREAM := Event(Mask(true, false, false, false, false), Got([]), Room(0), [], [])

  /** The peer closes: the connection leaves the map, and its connectDestroyed is queued. */
  lemma PeerCloses(s: Sys, before: seq<Label>, v: Server, c: Ref, conn: Conn) returns (run: seq<Label>, done: Conn)
    requires c.io == 0 && ConnRuns.Inv(conn) && ConnRuns.IsUp(conn) && InMap(v, c)
    requires Ends(s, before, One(Resting(Poll, Blank()), v, map[c := conn]))
    ensures ConnRuns.Inv(done) && ConnRuns.IsClosed(done, 1)
    ensures Ends(s, run, One(Resting(Dispatch, Push(Blank(), Destroy(c))), Erased(v, c), map[c := done]))
  {
    done := HandleEvent(conn, END_OF_STREAM);
    ConnRuns.EventKeepsInv(conn, END_OF_STREAM);
    ConnRuns.EventCloses(conn, 0, END_OF_STREAM);
    CloseNotes(conn);
    run := Polled(s, before, v, c, conn);
    run := HandedOver(s, run, v, c, conn, done);
    run := QueuedHere(s, run, Erased(v, c), c, done);
  }

  /** About to handle the peer's end of stream. */
  function Hears(c: Ref): Loop {
    Resting(Dispatch, Blank()).(active := [ConnReady(c, END_OF_STREAM.mask)])
  }

  lemma Polled(s: Sys, before: seq<Label>, v: Server, c: Ref, conn: Conn) returns (run: seq<Label>)
    requires c.io == 0 && conn.chan.index == Added && InMap(v, c)
    requires Ends(s, before, One(Resting(Poll, Blank()), v, map[c := conn]))
    ensures Ends(s, run, One(Hears(c), v, map[c := conn]))
  {
    var ready := ConnReady(c, END_OF_STREAM.mask);
    var s0 := One(Resting(Poll, Blank()), v, map[c := conn]);
    assert Held(s0, c);
    run := Go(s, before, s0, LPoll(0, [ready]), One(Resting(Dispatch, Blank()).(active := [ready]), v, map[c := conn]));
  }

  lemma HandedOver(s: Sys, before: seq<Label>, v: Server, c: Ref, conn: Conn, done: Conn) returns (run: seq<Label>)
    requires c.io == 0 && InMap(v, c) && done == HandleEvent(conn, END_OF_STREAM)
    requires done.notes == conn.notes && conn.closes == 0 && done.closes == 1
    requires Ends(s, before, One(Hears(c), v, map[c := conn]))
    ensures Ends(s, run, One(ToDestroy(c), Erased(v, c), map[c := done]))
  {
    var s1 := One(Hears(c), v, map[c := conn]);
    var s2 := One(ToDestroy(c), Erased(v, c), map[c := done]);
    assert Held(s1, c) && s1.conns[c := done] == s2.conns;
    assert Notices(c, conn, done) == [] && HandOver(0, c, 1) == [Destroy(c)];
    assert [] + [Destroy(c)] == [Destroy(c)];
    assert s1.loops[0].active[1..] == [];
    assert SkipActive(s1.loops[0]) == Resting(Dispatch, Blank());
    assert s2 == DispatchConn(s1, 0, c, done);
    run := Go(s, before, s1, LConn(0, END_OF_STREAM), s2);
  }

  function ToDestroy(c: Ref): Loop {
    Resting(Dispatch, Blank()).(todo := [Destroy(c)], guard := Some(c))
  }

  /** Its own loop being the base loop, and no functors running, no wake-up goes with it. */
  lemma QueuedHere(s: Sys, before: seq<Label>, v: Server, c: Ref, conn: Conn) returns (run: seq<Label>)
    requires c.io == 0 && Ends(s, before, One(ToDestroy(c), v, map[c := conn]))
    ensures Ends(s, run, One(Resting(Dispatch, Push(Blank(), Destroy(c))), v, map[c := conn]))
  {
    var s2 := One(ToDestroy(c), v, map[c := conn]);
    var s3 := One(Resting(Dispatch, Push(Blank(), Destroy(c))), v, map[c := conn]);
    assert s3 == TodoStep(s2, 0);
    run := Go(s, before, s2, LTodo(0), s3);
  }

  /** Closing announces nothing. */
  lemma CloseNotes(conn: Conn)
    ensures HandleEvent(conn, END_OF_STREAM).notes == conn.notes
  {
    ConnRuns.EventUnfolds(conn, END_OF_STREAM);
    assert RunCalls(SetInterest(MarkDown(conn), DisableAll), []).notes == conn.notes;
  }

  /** The queue is swapped out. */
  lemma SwappedOut(s: Sys, before: seq<Label>, v: Server, c: Ref, conn: Conn) returns (run: seq<Label>)
    requires Ends(s, before, One(Resting(Dispatch, Push(Blank(), Destroy(c))), v, map[c := conn]))
    ensures Ends(s, run, One(RunsDestroy(c), v, map[c := conn]))
  {
    var sh := Push(Blank(), Destroy(c));
    var s0 := One(Resting(Dispatch, sh), v, map[c := conn]);
    var s1 := One(Resting(Calling, sh.(calling := true)), v, map[c := conn]);
    run := Go(s, before, s0, LDone(0), s1);
    assert sh.pending == [Destroy(c)];
    assert Swap(s1.loops[0]) == RunsDestroy(c);
    run := Go(s, run, s1, LSwap(0), One(RunsDestroy(c), v, map[c := conn]));
  }

  function RunsDestroy(c: Ref): Loop {
    Resting(Run, Push(Blank(), Destroy(c)).(calling := true, pending := [])).(batch := [Destroy(c)])
  }

  /** connectDestroyed runs, and when the swapped vector goes, so does the last reference. */
  lemma Destroyed(s: Sys, before: seq<Label>, v: Server, c: Ref, conn: Conn) returns (run: seq<Label>, t: Sys)
    requires Ends(s, before, One(RunsDestroy(c), v, map[c := conn]))
    requires conn.state == Disconnected && !InMap(v, c)
    ensures Ends(s, run, t) && c in t.conns && !Held(t, c)
    ensures t.conns[c].destroyed == conn.destroyed + 1 && t.conns[c].chan.index == New
  {
    var gone := ConnectDestroyed(conn, []);
    var s2 := One(RunsDestroy(c), v, map[c := conn]);
    var s3 := One(Begun(RunsDestroy(c)), v, map[c := gone]);
    assert Notices(c, conn, gone) == [] && s2.conns[c := gone] == s3.conns;
    assert RunItem(s2, 0, []) == s3;
    run := Go(s, before, s2, LRun(0, []), s3);
    t := One(EndRun(s3.loops[0]), v, map[c := gone]);
    run := Go(s, run, s3, LEndRun(0), t);
    assert t.loops == [t.loops[0]] && !Holds(t.loops[0], c);
  }

  /** So a run exists that releases a connection, having told its callback up and down. */
  lemma ReleaseHappens(name: string, address: Naming.Address, fd: int) returns (run: seq<Label>, c: Ref)
    ensures LegalRun(Begin(name, address, 0), run)
    ensures var t := Exec(Begin(name, address, 0), run);
      c in t.conns && !Held(t, c) && t.conns[c].destroyed == 1 && t.conns[c].chan.index == New
  {
    var v := Before(name, address);
    c := Peer(fd);
    run := AcceptOne(name, address, fd);
    run := Around(Begin(name, address, 0), run, Entered(v, fd), map[c := EMPTY_CONN]);
    ConnRuns.FreshIsSound(false);
    ConnRuns.EstablishEffect(Fresh(false), []);
    ConnRuns.EstablishKeepsLife(Fresh(false), EMPTY_CONN, []);
    assert NameOf(v, c) in Entered(v, fd).connections;
    var closed;
    run, closed := PeerCloses(Begin(name, address, 0), run, Entered(v, fd), c, EMPTY_CONN);
    var t;
    run := SwappedOut(Begin(name, address, 0), run, Erased(Entered(v, fd), c), c, closed);
    run, t := Destroyed(Begin(name, address, 0), run, Erased(Entered(v, fd), c), c, closed);
  }
}
