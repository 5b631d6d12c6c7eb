/** The server object: the pool of io loops, the next id and the map of connections. */
module TcpServers {
  import opened ServerSpec
  import opened ThreadPool
  import Naming

  class TcpServer {
    const name: string
    const address: Naming.Address
    const threadPool: EventLoopThreadPool<nat>  // loops by number, the base loop being 0
    var nextConnId: nat
    var started: nat
    var connections: map<string, Ref>

    constructor (name: string, address: Naming.Address)
      ensures Valid() && started == 0 && fresh(threadPool)
      ensures View() == Server(name, address, 0, 0, 1, map[])
    {
      this.name, this.address := name, address;
      nextConnId, started, connections := 1, 0, map[];
      threadPool := new EventLoopThreadPool(0);
    }

    ghost predicate Valid()
      reads this, threadPool
    {
      && threadPool.Valid() && threadPool.baseLoop == 0
      && (forall i :: 0 <= i < |threadPool.loops| ==> threadPool.loops[i] == 1 + i)
      && (started == 0 ==> threadPool.loops == [])
    }

    ghost function View(): Server
      reads this, threadPool
    {
      Server(name, address, |threadPool.loops|, threadPool.next, nextConnId, connections)
    }

    /** Starting again starts nothing. */
    method Start(threads: nat)
      requires Valid()
      modifies this`started, threadPool`loops
      ensures Valid() && started == old(started) + 1
      ensures View() == if old(started) == 0 then old(View()).(loops := threads) else old(View())
    {
      started := started + 1;
      if started == 1 {
        threadPool.Start(seq(threads, i requires 0 <= i => 1 + i));
      }
    }

    /** Makes the connection, enters it in the map, and tells whether it is established at once,
        the chosen loop being the base loop, or by a functor queued on the chosen loop. */
    method NewConnection(fd: int) returns (conn: Ref, now: bool)
      requires Valid() && nextConnId < Naming.INT_MAX
      modifies this`nextConnId, this`connections, threadPool`next
      ensures Valid() && conn == NewRef(old(View()), fd) && View() == Entered(old(View()), fd)
      ensures now <==> |threadPool.loops| == 0
    {
      var ioLoop := threadPool.GetNextLoop();
      var connName := Naming.ConnName(name, address, nextConnId);
      conn := Ref(nextConnId, ioLoop, fd);
      nextConnId := nextConnId + 1;
      connections := connections[connName := conn];
      now := ioLoop == 0;
    }

    /** Runs on the base loop; the connection's loop is then handed its connectDestroyed. */
    method RemoveConnectionInPool(conn: Ref)
      requires Valid()
      modifies this`connections
      ensures Valid() && View() == Erased(old(View()), conn)
    {
      connections := connections - {Naming.ConnName(name, address, conn.id)};
    }
  }
}
