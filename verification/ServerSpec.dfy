/** The server object as a value: the pool position, the next id and the connection map. */
module ServerSpec {
  import opened Naming
  import opened ThreadPool

  /** What never changes of a connection object: its number, its loop and its descriptor. */
  datatype Ref = Ref(id: nat, io: nat, fd: int)

  datatype Server = Server(
    name: string,
    address: Address,
    loops: nat,          // io loops in the pool
    next: nat,
    nextConnId: nat,
    connections: map<string, Ref>)

  function NameOf(s: Server, c: Ref): string {
    ConnName(s.name, s.address, c.id)
  }

  /** The connection the next accept makes. */
  function NewRef(s: Server, fd: int): Ref {
    Ref(s.nextConnId, Pick(s.loops, s.next), fd)
  }

  function Entered(s: Server, fd: int): Server {
    var c := NewRef(s, fd);
    s.(next := Advance(s.loops, s.next), nextConnId := s.nextConnId + 1,
       connections := s.connections[NameOf(s, c) := c])
  }

  function Erased(s: Server, c: Ref): Server {
    s.(connections := s.connections - {NameOf(s, c)})
  }

  predicate Named(s: Server, c: Ref) {
    NameOf(s, c) in s.connections && s.connections[NameOf(s, c)] == c
  }
}
