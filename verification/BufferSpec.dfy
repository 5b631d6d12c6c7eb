/** The byte buffer as a value: how big the storage is, where reading starts, and which bytes
    are readable.  The class in Buffer.dfy is proved against these functions; the statements
    about whole runs are proved here. */
module BufferSpec {
  import opened Common

  const CHEAP_PREPEND: nat := 8
  const INITIAL_SIZE: nat := 1024
  const EXTRA_SIZE: nat := 65536

  datatype Store = Store(size: nat, reader: nat, bytes: seq<byte>) {
    predicate Valid() {
      CHEAP_PREPEND <= reader && Writer() <= size
    }

    function Writer(): nat {
      reader + |bytes|
    }

    function Writable(): nat
      requires Valid()
    {
      size - Writer()
    }

    function Prependable(): nat
      requires Valid()
    {
      reader - CHEAP_PREPEND
    }
  }

  function Initial(n: nat): Store {
    Store(CHEAP_PREPEND + n, CHEAP_PREPEND, [])
  }

  function RetrieveAll(s: Store): Store {
    Store(s.size, CHEAP_PREPEND, [])
  }

  function Retrieve(s: Store, len: nat): Store {
    if len < |s.bytes| then Store(s.size, s.reader + len, s.bytes[len..]) else RetrieveAll(s)
  }

  function MakeSpace(s: Store, len: nat): Store
    requires s.Valid()
  {
    if s.Writable() + s.Prependable() < len then s.(size := s.Writer() + len)
    else s.(reader := CHEAP_PREPEND)
  }

  function EnsureWritable(s: Store, len: nat): Store
    requires s.Valid()
  {
    if s.Writable() < len then MakeSpace(s, len) else s
  }

  function Append(s: Store, data: seq<byte>): Store
    requires s.Valid()
  {
    var t := EnsureWritable(s, |data|);
    t.(bytes := t.bytes + data)
  }

  /** How many bytes one scatter read can bring: the tail, and the side array when the tail is
      shorter than it. */
  function ReadLimit(s: Store): nat
    requires s.Valid()
  {
    s.Writable() + if s.Writable() < EXTRA_SIZE then EXTRA_SIZE else 0
  }

  /** Filling the tail, then appending what went to the side array. */
  function ReadFd(s: Store, got: seq<byte>): Store
    requires s.Valid()
  {
    if |got| <= s.Writable() then s.(bytes := s.bytes + got)
    else Append(s.(bytes := s.bytes + got[..s.Writable()]), got[s.Writable()..])
  }

  // ---------------------------------------------------------------- single operations

  /** Making room loses no byte and keeps storage that the bytes fit into from index 8 on; only when
      they would not fit does it grow, to exactly what is needed behind the unread bytes.  These move
      only with a gap in front of them, which is what makes the forward overlapping copy safe. */
  lemma SpaceIsMade(s: Store, len: nat)
    requires s.Valid() && s.Writable() < len
    ensures var t := EnsureWritable(s, len);
      && t.Valid() && t.Writable() >= len && t.bytes == s.bytes
      && (t.size == s.size <==> 8 + |s.bytes| + len <= s.size)
      && (t.size == s.size ==> t.reader == 8 < s.reader)
      && (t.size != s.size ==> t.reader == s.reader && t.size > s.size && t.Writable() == len)
  {
  }

  /** Room that is there already is left as it is. */
  lemma SpaceIsKept(s: Store, len: nat)
    requires s.Valid()
    ensures EnsureWritable(s, len) == s <==> s.reader + |s.bytes| + len <= s.size
  {
  }

  /** Retrieving takes bytes off the front only; the last of them leaves the whole storage to write
      to. */
  lemma SpaceIsFreed(s: Store, len: nat)
    requires s.Valid()
    ensures var t := Retrieve(s, len);
      && t.Valid() && t.size == s.size && Leaving(s, len) + t.bytes == s.bytes
      && |t.bytes| == (if len < |s.bytes| then |s.bytes| - len else 0)
      && t.Writable() == if len < |s.bytes| then s.Writable() else s.size - 8
    ensures RetrieveAll(s) == Retrieve(s, |s.bytes|)
  {
  }

  /** A scatter read is one append of the bytes in order, whatever its size; through two vectors
      it never brings more than 131071 bytes. */
  lemma ScatterReadIsOneAppend(s: Store, got: seq<byte>)
    requires s.Valid()
    ensures ReadFd(s, got).Valid()
    ensures ReadFd(s, got).bytes == s.bytes + got == Append(s, got).bytes
    ensures |got| <= ReadLimit(s) && s.Writable() < 65536 ==> |got| <= 131071
    ensures |got| <= 65536 ==> |got| <= ReadLimit(s)
    ensures |got| <= ReadLimit(s) && s.Writable() >= 65536 ==> |got| <= s.Writable()
  {
    if |got| > s.Writable() {
      assert got[..s.Writable()] + got[s.Writable()..] == got;
    }
  }

  lemma AppendFits(s: Store, data: seq<byte>)
    requires s.Valid()
    ensures EnsureWritable(s, |data|).Writable() >= |data|
    ensures Append(s, data).Valid() && Append(s, data).bytes == s.bytes + data
  {
    if s.Writable() < |data| {
      SpaceIsMade(s, |data|);
    }
  }

  // ---------------------------------------------------------------- whole runs

  datatype Op =
    | OpAppend(data: seq<byte>)
    | OpRetrieve(len: nat)
    | OpRetrieveAll
    | OpEnsureWritable(need: nat)
    | OpReadFd(got: seq<byte>)

  /** A store with the history of a run: every byte put in, every byte taken out, the largest
      readable size, and the largest size asked for (readable plus room requested). */
  datatype Run = Run(store: Store, put: seq<byte>, taken: seq<byte>, peak: nat, demand: nat)

  function Begin(n: nat): Run {
    Run(Initial(n), [], [], 0, 0)
  }

  /** Bytes that leave the queue when `len` are retrieved. */
  function Leaving(s: Store, len: nat): seq<byte> {
    if len < |s.bytes| then s.bytes[..len] else s.bytes
  }

  function Do(r: Run, op: Op): Run
    requires r.store.Valid()
  {
    match op
    case OpAppend(data) => Grown(r, Append(r.store, data), data)
    case OpReadFd(got) => Grown(r, ReadFd(r.store, got), got)
    case OpRetrieve(len) =>
      r.(store := Retrieve(r.store, len), taken := r.taken + Leaving(r.store, len))
    case OpRetrieveAll => r.(store := RetrieveAll(r.store), taken := r.taken + r.store.bytes)
    case OpEnsureWritable(need) =>
      r.(store := EnsureWritable(r.store, need), demand := Max(r.demand, |r.store.bytes| + need))
  }

  function Grown(r: Run, s: Store, data: seq<byte>): Run {
    Run(s, r.put + data, r.taken, Max(r.peak, |s.bytes|), Max(r.demand, |s.bytes|))
  }

  /** A run keeps the indices in order, is a FIFO queue, and bounds the storage. */
  ghost predicate Sound(r: Run, n: nat) {
    && r.store.Valid()
    && r.taken + r.store.bytes == r.put
    && |r.store.bytes| <= r.peak <= r.demand
    && r.demand <= r.store.size - CHEAP_PREPEND <= Max(n, 2 * r.demand)
    && (r.demand <= n ==> r.store.size == CHEAP_PREPEND + n)
  }

  /** Making room never more than doubles what the caller needs. */
  lemma AppendIsBounded(s: Store, data: seq<byte>)
    requires s.Valid()
    ensures var t := Append(s, data);
      && s.size <= t.size <= Max(s.size, CHEAP_PREPEND + 2 * (|s.bytes| + |data|))
      && (CHEAP_PREPEND + |s.bytes| + |data| <= s.size ==> t.size == s.size)
  {
  }

  lemma ReadIsBounded(s: Store, got: seq<byte>)
    requires s.Valid()
    ensures var t := ReadFd(s, got);
      && s.size <= t.size <= Max(s.size, CHEAP_PREPEND + 2 * (|s.bytes| + |got|))
      && (CHEAP_PREPEND + |s.bytes| + |got| <= s.size ==> t.size == s.size)
  {
    if |got| > s.Writable() {
      AppendIsBounded(s.(bytes := s.bytes + got[..s.Writable()]), got[s.Writable()..]);
    }
  }

  lemma GrownIsSound(r: Run, t: Store, data: seq<byte>, n: nat)
    requires Sound(r, n) && t.Valid() && t.bytes == r.store.bytes + data
    requires r.store.size <= t.size <= Max(r.store.size, CHEAP_PREPEND + 2 * (|r.store.bytes| + |data|))
    requires CHEAP_PREPEND + |r.store.bytes| + |data| <= r.store.size ==> t.size == r.store.size
    ensures Sound(Grown(r, t, data), n)
  {
    assert r.taken + t.bytes == r.taken + r.store.bytes + data;
  }

  lemma StepIsSound(r: Run, op: Op, n: nat)
    requires Sound(r, n)
    ensures Sound(Do(r, op), n)
  {
    match op
    case OpAppend(data) =>
      AppendFits(r.store, data);
      AppendIsBounded(r.store, data);
      GrownIsSound(r, Append(r.store, data), data, n);
    case OpReadFd(got) =>
      ScatterReadIsOneAppend(r.store, got);
      ReadIsBounded(r.store, got);
      GrownIsSound(r, ReadFd(r.store, got), got, n);
    case OpRetrieve(len) =>
      assert Leaving(r.store, len) + Retrieve(r.store, len).bytes == r.store.bytes;
    case OpRetrieveAll =>
    case OpEnsureWritable(need) =>
  }

  ghost function Exec(n: nat, ops: seq<Op>): (r: Run)
    ensures Sound(r, n)
  {
    if ops == [] then Begin(n)
    else
      var before := Exec(n, ops[..|ops| - 1]);
      StepIsSound(before, ops[|ops| - 1], n);
      Do(before, ops[|ops| - 1])
  }

  predicate IsEnsure(op: Op) {
    op.OpEnsureWritable?
  }

  /** Over every run of a buffer of n bytes: the indices stay ordered, what was taken followed by what
      is readable is exactly what was put in; the storage is as big as it was made exactly as long as
      what was readable, with what was asked for beside it, never exceeded n; and it never exceeds
      twice the most of that. */
  lemma {:induction false} BufferIsBoundedFifo(n: nat, ops: seq<Op>)
    ensures var r := Exec(n, ops);
      && 8 <= r.store.reader <= r.store.Writer() <= r.store.size
      && r.taken + r.store.bytes == r.put
      && (r.store.size == 8 + n <==> r.demand <= n)
      && r.demand <= r.store.size - 8 <= Max(n, 2 * r.demand)
      && ((forall op <- ops :: !IsEnsure(op)) ==> r.demand == r.peak)
  {
    if ops != [] {
      var last := |ops| - 1;
      BufferIsBoundedFifo(n, ops[..last]);
      if forall op <- ops :: !IsEnsure(op) {
        assert !IsEnsure(ops[last]);
      }
    }
  }
}
