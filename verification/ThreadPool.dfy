/** The pool of io loops and its round robin.  Loop 0 is the base loop, the io loops are 1..n. */
module ThreadPool {

  function Pick(n: nat, next: nat): nat {
    if n == 0 then 0 else 1 + next
  }

  function Advance(n: nat, next: nat): nat {
    if n == 0 then next else if next + 1 >= n then 0 else next + 1
  }

  class EventLoopThreadPool<L> {
    const baseLoop: L
    var loops: seq<L>
    var next: nat

    constructor (baseLoop: L)
      ensures Valid() && this.baseLoop == baseLoop && loops == [] && next == 0
    {
      this.baseLoop, loops, next := baseLoop, [], 0;
    }

    ghost predicate Valid()
      reads this
    {
      next == 0 || next < |loops|
    }

    /** Starts one io loop per thread; `started` are the loops the threads hand over. */
    method Start(started: seq<L>)
      requires Valid()
      modifies this`loops
      ensures Valid() && loops == old(loops) + started
    {
      var i := 0;
      while i < |started|
        invariant i <= |started|
        invariant loops == old(loops) + started[..i]
      {
        loops := loops + [started[i]];
        i := i + 1;
      }
    }

    method GetNextLoop() returns (loop: L)
      requires Valid()
      modifies this`next
      ensures Valid() && next == Advance(|loops|, old(next))
      ensures loop == ([baseLoop] + loops)[Pick(|loops|, old(next))]
    {
      loop := baseLoop;
      if loops != [] {
        loop := loops[next];
        next := next + 1;
        if next >= |loops| {
          next := 0;
        }
      }
    }
  }

  /** The value of `next` before the k-th call, counting from 0. */
  function NextAt(n: nat, k: nat): nat {
    if k == 0 then 0 else Advance(n, NextAt(n, k - 1))
  }

  /** How often io loop `1 + j` is picked in the first k calls. */
  function Picked(n: nat, j: nat, k: nat): nat {
    if k == 0 then 0
    else Picked(n, j, k - 1) + if Pick(n, NextAt(n, k - 1)) == 1 + j then 1 else 0
  }

  /** The k-th call picks io loop k mod n, and after k calls loop j was picked k div n times, once
      more when j is among the first k mod n. */
  lemma {:induction false} RoundRobinIsFair(n: nat, j: nat, k: nat)
    requires j < n
    ensures Pick(n, NextAt(n, k)) == 1 + k % n
    ensures Picked(n, j, k) == k / n + if j < k % n then 1 else 0
  {
    if k > 0 {
      RoundRobinIsFair(n, j, k - 1);
      DivModStep(k - 1, n);
    }
  }

  lemma DivModStep(k: nat, n: nat)
    requires n > 0
    ensures (k + 1) % n == if k % n + 1 == n then 0 else k % n + 1
    ensures (k + 1) / n == k / n + if k % n + 1 == n then 1 else 0
  {
    var q, r := k / n, k % n;
    assert k == n * q + r;
    if r + 1 == n {
      assert k + 1 == n * (q + 1) by { assert n * (q + 1) == n * q + n; }
      DivModUnique(k + 1, n, q + 1, 0);
    } else {
      DivModUnique(k + 1, n, q, r + 1);
    }
  }

  lemma DivModUnique(k: nat, n: nat, q: nat, r: nat)
    requires r < n && k == n * q + r
    ensures k / n == q && k % n == r
  {
    var p, t := k / n, k % n;
    assert k == n * p + t;
    MultiplesApart(n, p, q);
    MultiplesApart(n, q, p);
  }

  lemma MultiplesApart(n: nat, p: nat, q: nat)
    ensures p < q ==> n * q >= n * p + n
  {
    if p < q {
      assert n * q == n * p + n * (q - p);
      assert n * (q - p) == n + n * (q - p - 1);
    }
  }
}
