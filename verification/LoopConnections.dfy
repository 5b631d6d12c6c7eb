/** The connections of one io loop: objects that share a poller and nothing else. */
module LoopConnections {
  import opened EpollSpec
  import opened Registration
  import opened Epoll
  import opened ConnSpec
  import opened TcpConn
  import Asks = ConnRegistration
  import BufferSpec
  import ConnRuns

  ghost predicate AllOn(poller: EpollPoller, conns: set<TcpConnection>)
    reads poller, conns, (set c <- conns :: c.channel), set c <- conns :: c.channel.poller
    reads (set c <- conns :: c.inputBuffer), set c <- conns :: c.outputBuffer
  {
    poller.Valid() && forall c <- conns :: c.Valid() && c.channel.poller == poller
  }

  /** A new connection on a poller leaves those already there as they were. */
  method Connect(poller: EpollPoller, conns: set<TcpConnection>, fd: int, complete: bool) returns (c: TcpConnection)
    requires AllOn(poller, conns) && AllApart(conns) && fd !in poller.all
    modifies poller`all
    ensures AllOn(poller, conns + {c}) && AllApart(conns + {c})
    ensures c.Valid() && c.View() == Fresh(complete)
    ensures poller.all == old(poller.all)[fd := c.channel]
    ensures forall d: TcpConnection <- conns :: d.Kept()
    ensures Owed(old(poller.View()), Create(fd)) && poller.View() == Do(old(poller.View()), Create(fd))
    ensures Coherent(old(poller.View())) ==> Coherent(poller.View())
  {
    c := new TcpConnection(poller, fd, complete);
    CreateKeepsCoherent(old(poller.View()), fd);
    forall d <- conns ensures c.ApartFrom(d) && d.ApartFrom(c) {
      assert old(d.Valid());
    }
    forall a: TcpConnection <- conns + {c}, b: TcpConnection <- conns + {c} | a != b ensures a.ApartFrom(b) {
      if a != c && b != c {
        assert old(a.ApartFrom(b));
      }
    }
  }

  lemma CreateKeepsCoherent(r: Registry, fd: int)
    requires Owed(r, Create(fd))
    ensures Coherent(r) ==> Coherent(Do(r, Create(fd)))
  {
    var t := Do(r, Create(fd));
    if Coherent(r) {
      forall f <- t.chans ensures Placed(t, f) {
        assert f != fd ==> Placed(r, f);
      }
    }
  }

  /** One step of one connection writes to no other. */
  method ServeOne(others: set<TcpConnection>, c: TcpConnection, l: ConnRuns.Label)
    requires c.Valid() && c !in others && forall d: TcpConnection <- others :: c.ApartFrom(d)
    requires l.Dispatch? && l.e.r.Got? ==> |l.e.r.bytes| <= BufferSpec.ReadLimit(c.inputBuffer.View())
    modifies c`state, c`wantsHigh, c`notes, c`log
    modifies c.inputBuffer, c.inputBuffer.data, c.outputBuffer, c.outputBuffer.data
    modifies c.channel`tied, c.channel`revents, c.channel`events, c.channel`index, c.channel`asks
    modifies c.channel.poller`channels, c.channel.poller`kernel, c.channel.poller`refused
    ensures c.Valid() && c.OnlyMine() && c.OwnData() && c.View() == ConnRuns.Do(old(c.View()), l)
    ensures forall d: TcpConnection <- others :: d.Unwritten()
  {
    c.Do(l);
    forall d: TcpConnection <- others
      ensures unchanged(d, d.channel, d.inputBuffer, d.outputBuffer, d.inputBuffer.data, d.outputBuffer.data)
    {
      assert old(c.ApartFrom(d));
    }
  }

  /** One step of one connection, its loop's thread serving it, changes that connection as
      `ConnRuns.Do` says and no other; and while table, kernel set and indices agree, the poller moves by
      exactly the calls that the connection's channel recorded, and they still agree. */
  method Serve(poller: EpollPoller, conns: set<TcpConnection>, c: TcpConnection, l: ConnRuns.Label)
    requires AllOn(poller, conns) && AllApart(conns) && c in conns
    requires l.Dispatch? && l.e.r.Got? ==> |l.e.r.bytes| <= BufferSpec.ReadLimit(c.inputBuffer.View())
    modifies c`state, c`wantsHigh, c`notes, c`log
    modifies c.inputBuffer, c.inputBuffer.data, c.outputBuffer, c.outputBuffer.data
    modifies c.channel`tied, c.channel`revents, c.channel`events, c.channel`index, c.channel`asks
    modifies c.channel.poller`channels, c.channel.poller`kernel, c.channel.poller`refused
    ensures AllOn(poller, conns) && AllApart(conns)
    ensures c.View() == ConnRuns.Do(old(c.View()), l)
    ensures forall d: TcpConnection <- conns :: d != c ==> d.Kept()
    ensures Coherent(old(poller.View())) ==>
      Through(old(poller.View()), poller.View(), c.channel.fd, Asks.Between(old(c.View()).chan, c.View().chan))
  {
    ghost var before, conn := poller.View(), c.View();
    ServeOne(conns - {c}, c, l);
    c.LeavesAllAlone(conns);
    if Coherent(before) {
      Asks.StepAsks(conn, l);
      TouchedByAsks(before, poller.View(), c.channel.fd);
    }
  }

  /** The registration moved by exactly these calls of this channel, all of them lawful. */
  ghost predicate Through(r: Registry, t: Registry, fd: int, asks: seq<Ask>) {
    var ops := Asks.OpsFor(fd, asks);
    Coherent(t) && Lawful(r, ops) && t == Exec(r, ops)
  }

  lemma TouchedByAsks(r: Registry, t: Registry, fd: int)
    requires Coherent(r) && OnlyTouches(r, t, fd) && fd in r.chans && Asks.Told(r.chans[fd], t.chans[fd])
    ensures Through(r, t, fd, Asks.Between(r.chans[fd], t.chans[fd]))
  {
    var asks := Asks.Between(r.chans[fd], t.chans[fd]);
    Asks.AsksAreLawful(r, fd, asks);
    var u := Exec(r, Asks.OpsFor(fd, asks));
    assert u.chans.Keys == t.chans.Keys;
    assert forall f <- r.chans :: u.chans[f] == t.chans[f];
    assert u.chans == t.chans;
    CoherentIsDetermined(u, t);
  }

  /** The last reference to a connection goes: its channel, which must be out of the table by then, is
      destroyed with it.  The others stay as they were, and the descriptor can be used again. */
  method Release(poller: EpollPoller, conns: set<TcpConnection>, c: TcpConnection)
    requires AllOn(poller, conns) && AllApart(conns) && c in conns && c.channel.index == New
    modifies poller`all
    ensures AllOn(poller, conns - {c}) && AllApart(conns - {c})
    ensures poller.all == old(poller.all) - {c.channel.fd}
    ensures forall d: TcpConnection <- conns :: d != c ==> d.Kept()
    ensures Owed(old(poller.View()), Drop(c.channel.fd))
    ensures poller.View() == Do(old(poller.View()), Drop(c.channel.fd))
    ensures Coherent(old(poller.View())) ==> Coherent(poller.View())
  {
    ghost var before := poller.View();
    poller.Drop(c.channel);
    DropKeepsCoherent(before, c.channel.fd);
    forall d: TcpConnection <- conns | d != c ensures d.Kept() {
      assert old(c.ApartFrom(d)) && old(d.Valid());
      assert d.channel.fd != c.channel.fd;
    }
  }

  lemma DropKeepsCoherent(r: Registry, fd: int)
    requires Owed(r, Drop(fd))
    ensures Coherent(r) ==> Coherent(Do(r, Drop(fd)))
  {
  }
}
