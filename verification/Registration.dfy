/** The registration of channels with a poller as a value: the channel table, the three-valued
    index of every channel, and the kernel's interest set. */
module Registration {
  import opened EpollSpec

  datatype CtlOp = Add | Mod | Del

  /** The channels of one loop by descriptor, the keys of the poller's table, the kernel's
      interest set, and how many `epoll_ctl` calls the kernel refused. */
  datatype Registry = Registry(chans: map<int, Chan>, table: set<int>, kernel: map<int, Mask>, refused: nat)

  const EMPTY := Registry(map[], {}, map[], 0)

  /** The kernel's side alone. */
  function Watching(kernel: map<int, Mask>, refused: nat): Registry {
    Registry(map[], {}, kernel, refused)
  }

  /** epoll_ctl(2): ADD needs the descriptor absent, MOD and DEL need it present. */
  function Ctl(r: Registry, op: CtlOp, fd: int, events: Mask): Registry {
    if (op == Add) == (fd in r.kernel) then r.(refused := r.refused + 1)
    else if op == Del then r.(kernel := r.kernel - {fd})
    else r.(kernel := r.kernel[fd := events])
  }

  function SetIndex(r: Registry, fd: int, index: Index): Registry
    requires fd in r.chans
  {
    r.(chans := r.chans[fd := r.chans[fd].(index := index)])
  }

  function UpdateChannel(r: Registry, fd: int): Registry
    requires fd in r.chans
  {
    var c := r.chans[fd];
    if c.index == New || c.index == Deleted then
      var r1 := if c.index == New then r.(table := r.table + {fd}) else r;
      Ctl(SetIndex(r1, fd, Added), Add, fd, c.events)
    else if c.events == NONE_EVENT then
      SetIndex(Ctl(r, Del, fd, c.events), fd, Deleted)
    else
      Ctl(r, Mod, fd, c.events)
  }

  function RemoveChannel(r: Registry, fd: int): Registry
    requires fd in r.chans
  {
    if fd in r.table then
      var r1 := r.(table := r.table - {fd});
      var r2 := if r.chans[fd].index == Added then Ctl(r1, Del, fd, r.chans[fd].events) else r1;
      SetIndex(r2, fd, New)
    else r
  }

  function ChangeInterest(r: Registry, fd: int, i: Interest): Registry
    requires fd in r.chans
  {
    var c := r.chans[fd];
    UpdateChannel(r.(chans := r.chans[fd := c.(events := Wanted(i, c.events), asks := c.asks + [Wants(i)])]), fd)
  }

  function Leave(r: Registry, fd: int): Registry
    requires fd in r.chans
  {
    var c := r.chans[fd];
    RemoveChannel(r.(chans := r.chans[fd := c.(asks := c.asks + [Leaves])]), fd)
  }

  /** New: not in the table.  Added: in the table, and the kernel watches exactly the wanted
      events.  Deleted: in the table, wanting nothing, and unknown to the kernel. */
  predicate Placed(r: Registry, fd: int)
    requires fd in r.chans
  {
    var c := r.chans[fd];
    && (c.index == New <==> fd !in r.table)
    && (c.index == Added <==> fd in r.kernel)
    && (fd in r.kernel ==> r.kernel[fd] == c.events)
    && (c.index == Deleted ==> c.events == NONE_EVENT)
  }

  /** Indices, table and kernel agree, and the kernel refused nothing. */
  ghost predicate Coherent(r: Registry) {
    && r.refused == 0
    && r.table <= r.chans.Keys
    && r.kernel.Keys <= r.table
    && forall fd <- r.chans :: Placed(r, fd)
  }

  lemma ChangeKeepsCoherent(r: Registry, fd: int, i: Interest)
    requires Coherent(r) && fd in r.chans
    ensures var t := ChangeInterest(r, fd, i);
      && Coherent(t)
      && t.chans == r.chans[fd := Changed(i, r.chans[fd])]
  {
    var t := ChangeInterest(r, fd, i);
    assert Placed(r, fd) && Placed(t, fd);
    forall f <- t.chans | f != fd ensures Placed(t, f) {
      assert Placed(r, f);
    }
  }

  lemma RemoveKeepsCoherent(r: Registry, fd: int)
    requires Coherent(r) && fd in r.chans
    ensures var t := Leave(r, fd);
      && Coherent(t)
      && t.chans == r.chans[fd := Left(r.chans[fd])]
      && fd !in t.table && fd !in t.kernel
  {
    var t := Leave(r, fd);
    assert Placed(r, fd) && Placed(t, fd);
    forall f <- t.chans | f != fd ensures Placed(t, f) {
      assert Placed(r, f);
    }
  }

  /** In any state, an interest change is refused exactly when the channel's index is wrong about the
      kernel set, and a removal exactly when it takes a channel for added that is not. */
  lemma RefusedIff(r: Registry, fd: int, i: Interest)
    requires fd in r.chans
    ensures ChangeInterest(r, fd, i).refused == r.refused + 1 <==> (r.chans[fd].index == Added) != (fd in r.kernel)
    ensures Leave(r, fd).refused == r.refused + 1 <==>
      fd in r.table && r.chans[fd].index == Added && fd !in r.kernel
    ensures r.refused <= ChangeInterest(r, fd, i).refused && r.refused <= Leave(r, fd).refused
  {
  }

  // ---------------------------------------------------------------- one channel among others

  /** Nothing of any other channel changed, and what agreed still agrees. */
  ghost predicate OnlyTouches(r: Registry, t: Registry, fd: int) {
    && t.chans.Keys == r.chans.Keys
    && (forall f <- r.chans :: f != fd ==> t.chans[f] == r.chans[f])
    && (forall f :: f != fd ==> (f in t.table <==> f in r.table))
    && t.kernel - {fd} == r.kernel - {fd}
    && (Coherent(r) ==> Coherent(t))
  }

  lemma TouchesAgain(r: Registry, s: Registry, t: Registry, fd: int)
    requires OnlyTouches(r, s, fd) && OnlyTouches(s, t, fd)
    ensures OnlyTouches(r, t, fd)
  {
  }

  lemma ChangeTouches(r: Registry, fd: int, i: Interest)
    requires fd in r.chans
    ensures OnlyTouches(r, ChangeInterest(r, fd, i), fd)
  {
    if Coherent(r) {
      ChangeKeepsCoherent(r, fd, i);
    }
  }

  lemma RemoveTouches(r: Registry, fd: int)
    requires fd in r.chans
    ensures OnlyTouches(r, Leave(r, fd), fd)
  {
    if Coherent(r) {
      RemoveKeepsCoherent(r, fd);
    }
  }

  /** As long as all agree, the channels alone determine the table and the kernel set. */
  lemma CoherentIsDetermined(r: Registry, t: Registry)
    requires Coherent(r) && Coherent(t) && r.chans == t.chans
    ensures r == t
  {
    forall fd ensures fd in r.table <==> fd in t.table {
      if fd in r.chans {
        assert Placed(r, fd) && Placed(t, fd);
      }
    }
    forall fd ensures fd in r.kernel <==> fd in t.kernel {
      if fd in r.chans {
        assert Placed(r, fd) && Placed(t, fd);
      }
    }
    forall fd <- r.kernel ensures r.kernel[fd] == t.kernel[fd] {
      assert Placed(r, fd) && Placed(t, fd);
    }
  }

  // ---------------------------------------------------------------- whole runs

  datatype Op =
    | Create(fd: int)
    | Change(fd: int, interest: Interest)
    | Remove(fd: int)
    | Drop(fd: int)

  /** What the owners of channels owe the poller: one channel per descriptor, and no channel
      destroyed while the table still points at it. */
  predicate Owed(r: Registry, op: Op) {
    match op
    case Create(fd) => fd !in r.chans
    case Drop(fd) => fd in r.chans && fd !in r.table
    case _ => op.fd in r.chans
  }

  function Do(r: Registry, op: Op): Registry
    requires Owed(r, op)
  {
    match op
    case Create(fd) => r.(chans := r.chans[fd := NEW_CHAN])
    case Drop(fd) => r.(chans := r.chans - {fd})
    case Change(fd, i) => ChangeInterest(r, fd, i)
    case Remove(fd) => Leave(r, fd)
  }

  predicate Lawful(r: Registry, ops: seq<Op>)
    decreases |ops|
  {
    ops == [] || (Owed(r, ops[0]) && Lawful(Do(r, ops[0]), ops[1..]))
  }

  function Exec(r: Registry, ops: seq<Op>): Registry
    requires Lawful(r, ops)
    decreases |ops|
  {
    if ops == [] then r else Exec(Do(r, ops[0]), ops[1..])
  }

  /** After any sequence of creations, interest changes, removals and destructions, the index of
      every channel says exactly where it is, the kernel watches exactly the wanted events, and
      no `epoll_ctl` call was refused. */
  lemma {:induction false} RegistrationStaysCoherent(r: Registry, ops: seq<Op>)
    requires Coherent(r) && Lawful(r, ops)
    ensures Coherent(Exec(r, ops))
    decreases |ops|
  {
    if ops != [] {
      match ops[0] {
        case Change(fd, i) => ChangeKeepsCoherent(r, fd, i);
        case Remove(fd) => RemoveKeepsCoherent(r, fd);
        case Create(fd) =>
        case Drop(fd) =>
      }
      RegistrationStaysCoherent(Do(r, ops[0]), ops[1..]);
    }
  }

  /** The input in point: a channel just created. */
  lemma DisableAllRegisters(fd: int)
    ensures var r := Do(EMPTY, Create(fd));
      Coherent(r) && r.kernel == map[] && ChangeInterest(r, fd, DisableAll).kernel == map[fd := NONE_EVENT]
  {
  }

  /** Switching everything off takes a channel out of the kernel set only when it is in: on a
      channel that is not, it registers the channel there with no events, where errors and
      hang-ups are still reported. */
  lemma DisableAllSilencesIff(r: Registry, fd: int)
    requires Coherent(r) && fd in r.chans
    ensures fd !in ChangeInterest(r, fd, DisableAll).kernel <==> fd in r.kernel
    ensures fd in ChangeInterest(ChangeInterest(r, fd, DisableAll), fd, DisableAll).kernel <==> fd in r.kernel
  {
    ChangeKeepsCoherent(r, fd, DisableAll);
    ChangeKeepsCoherent(ChangeInterest(r, fd, DisableAll), fd, DisableAll);
  }
}
