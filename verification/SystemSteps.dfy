/** Every step of the server keeps its invariant. */
module SystemSteps {
  import opened Common
  import opened EpollSpec
  import opened ConnSpec
  import opened LoopSpec
  import opened ServerSpec
  import opened ServerSystem
  import opened SystemInv
  import ConnRuns

  // ---------------------------------------------------------------- control of one loop

  ghost predicate SameItems(l: Loop, m: Loop) {
    forall it: Item :: AtLoop(m, it) == AtLoop(l, it)
  }

  /** A step that only moves a loop's own control state. */
  lemma ControlStep(s: Sys, k: nat, m: Loop)
    requires Inv(s) && k < |s.loops| && SameItems(s.loops[k], m)
    requires LoopOK(m) && AtHome(m, k)
    requires forall c <- s.conns :: Holds(m, c) ==> Holds(s.loops[k], c)
    requires ActiveOK(Put(s, k, m), k)
    requires m.phase != Dispatch && m.phase != Calling && m.sh.pending != [] ==> Woken(Put(s, k, m), k)
    requires m.phase == Poll && m.sh.quit ==> Woken(Put(s, k, m), k)
    ensures Inv(Put(s, k, m))
  {
    var t := Put(s, k, m);
    FlightPut(s, k, m);
    assert forall it: Item :: Flight(t, it) == Flight(s, it);
    assert SameTokens(s, t) && AllKnown(t) && WakesKept(s, t, {k});
    assert HoldsLess(s, t, {k});
    QuietStep(s, t, {k});
  }

  lemma EnterStep(s: Sys, k: nat)
    requires Inv(s) && k < |s.loops| && s.loops[k].phase == Entry
    ensures Inv(Put(s, k, EnterLoop(s.loops[k])))
  {
    var m := EnterLoop(s.loops[k]);
    assert LoopInv(s, k);
    FlightPut(s, k, m);
    ControlStep(s, k, m);
  }

  lemma CheckStep(s: Sys, k: nat)
    requires Inv(s) && k < |s.loops| && s.loops[k].phase == Check
    ensures Inv(Put(s, k, CheckQuit(s.loops[k])))
  {
    var m := CheckQuit(s.loops[k]);
    assert LoopInv(s, k);
    FlightPut(s, k, m);
    ControlStep(s, k, m);
  }

  lemma WakeStep(s: Sys, k: nat)
    requires Inv(s) && k < |s.loops| && s.loops[k].phase == Dispatch && s.loops[k].active != []
    ensures Inv(Put(s, k, DispatchWake(s.loops[k])))
    ensures Inv(Put(s, k, SkipActive(s.loops[k])))
  {
    assert LoopInv(s, k);
    TailActive(s, k, DispatchWake(s.loops[k]));
    TailActive(s, k, SkipActive(s.loops[k]));
    ControlStep(s, k, DispatchWake(s.loops[k]));
    ControlStep(s, k, SkipActive(s.loops[k]));
  }

  lemma TailActive(s: Sys, k: nat, m: Loop)
    requires k < |s.loops| && ActiveOK(s, k) && s.loops[k].active != []
    requires m.active == s.loops[k].active[1..]
    ensures ActiveOK(Put(s, k, m), k)
  {
    var active := s.loops[k].active;
    forall r <- m.active ensures r in active {
    }
    forall i, j | 0 <= i < j < |m.active| && m.active[i].ConnReady? && m.active[j].ConnReady?
      ensures m.active[i].c != m.active[j].c
    {
      assert m.active[i] == active[i + 1] && m.active[j] == active[j + 1];
    }
  }

  lemma DoneStep(s: Sys, k: nat)
    requires Inv(s) && k < |s.loops|
    requires s.loops[k].phase == Dispatch && s.loops[k].todo == [] && s.loops[k].active == []
    ensures Inv(Put(s, k, DispatchDone(s.loops[k])))
  {
    assert LoopInv(s, k);
    ControlStep(s, k, DispatchDone(s.loops[k]));
  }

  lemma SwapStep(s: Sys, k: nat)
    requires Inv(s) && k < |s.loops| && s.loops[k].phase == Calling
    ensures Inv(Put(s, k, Swap(s.loops[k])))
  {
    assert LoopInv(s, k);
    var l, m := s.loops[k], Swap(s.loops[k]);
    assert Rest(l) == [] && Rest(m) == l.sh.pending;
    assert m.sh.executed + Rest(m) + m.sh.pending == l.sh.executed + Rest(l) + l.sh.pending;
    ControlStep(s, k, m);
  }

  lemma EndRunStep(s: Sys, k: nat)
    requires Inv(s) && k < |s.loops|
    requires s.loops[k].phase == Run && s.loops[k].todo == [] && s.loops[k].next == |s.loops[k].batch|
    ensures Inv(Put(s, k, EndRun(s.loops[k])))
  {
    assert LoopInv(s, k);
    var l, m := s.loops[k], EndRun(s.loops[k]);
    assert Rest(l) == [] && Rest(m) == [];
    FlightPut(s, k, m);
    ControlStep(s, k, m);
  }

  lemma QuitStep(s: Sys, k: nat)
    requires Inv(s) && k < |s.loops| && (s.loops[k].phase == Dispatch || s.loops[k].phase == Run)
    ensures Inv(Put(s, k, s.loops[k].(sh := s.loops[k].sh.(quit := true))))
  {
    assert LoopInv(s, k);
    var m := s.loops[k].(sh := s.loops[k].sh.(quit := true));
    FlightPut(s, k, m);
    ControlStep(s, k, m);
  }

  lemma WatchedIsHeld(s: Sys, c: Ref)
    requires Inv(s) && c in s.conns && s.conns[c].chan.index == Added
    ensures ConnRuns.IsWatched(s.conns[c]) && Held(s, c)
  {
    assert ConnInv(s, c);
    AliveIsHeld(s, c);
  }

  /** Every channel the kernel offers belongs to a connection that is held. */
  lemma PollStep(s: Sys, k: nat, active: seq<Ready>)
    requires Inv(s) && k < |s.loops| && s.loops[k].phase == Poll && Offered(s, k, active)
    ensures Inv(PollReturn(s, k, active))
  {
    assert LoopInv(s, k);
    var m := s.loops[k].(phase := Dispatch, active := active);
    forall r <- active | r.ConnReady?
      ensures r.c in s.conns && ConnRuns.IsWatched(s.conns[r.c]) && Held(s, r.c)
    {
      WatchedIsHeld(s, r.c);
    }
    ControlStep(s, k, m);
    assert PollReturn(s, k, active) == Put(s, k, m);
  }

  // ---------------------------------------------------------------- trading items

  /** One loop gave up some items and took on others. */
  ghost predicate Trades(l: Loop, m: Loop, out: multiset<Item>, into: multiset<Item>) {
    forall it: Item :: AtLoop(m, it) + out[it] == AtLoop(l, it) + into[it]
  }

  ghost predicate Traded(s: Sys, t: Sys, out: multiset<Item>, into: multiset<Item>) {
    forall it: Item :: Flight(t, it) + out[it] == Flight(s, it) + into[it]
  }

  /** Not a connection token. */
  predicate Plain(it: Item) {
    !Bound(it) || it.Notify?
  }

  /** As many tokens of each kind came as went. */
  ghost predicate Neutral(out: multiset<Item>, into: multiset<Item>) {
    forall it: Item :: !Plain(it) ==> out[it] == into[it]
  }

  lemma PlainIsNeutral(out: multiset<Item>, into: multiset<Item>)
    requires (forall it <- out :: Plain(it)) && (forall it <- into :: Plain(it))
    ensures Neutral(out, into)
  {
    forall it: Item | !Plain(it) ensures out[it] == into[it] {
      assert it !in out && it !in into;
    }
  }

  /** Moving one item, with wake-ups coming due, is neutral. */
  lemma MoveIsNeutral(it: Item, due: seq<Item>)
    requires forall x <- due :: Plain(x)
    ensures Neutral(multiset{it} + multiset{}, multiset(due) + multiset{it})
  {
    forall x: Item | !Plain(x) ensures (multiset{it} + multiset{})[x] == (multiset(due) + multiset{it})[x] {
      assert x !in due;
    }
  }

  lemma TradePut(s: Sys, k: nat, m: Loop, out: multiset<Item>, into: multiset<Item>)
    requires k < |s.loops| && Trades(s.loops[k], m, out, into)
    ensures Traded(s, Put(s, k, m), out, into)
  {
    FlightPut(s, k, m);
  }

  lemma TradeForeign(s: Sys, out: multiset<Item>, into: multiset<Item>)
    requires out <= s.foreign
    ensures Traded(s, s.(foreign := s.foreign - out + into), out, into)
  {
  }

  lemma TradeBoth(s: Sys, t: Sys, u: Sys, out: multiset<Item>, into: multiset<Item>,
                  out2: multiset<Item>, into2: multiset<Item>)
    requires Traded(s, t, out, into) && Traded(t, u, out2, into2)
    ensures Traded(s, u, out + out2, into + into2)
  {
  }

  /** What left flight was no connection token, and what came is known. */
  lemma TradeKeeps(s: Sys, t: Sys, out: multiset<Item>, into: multiset<Item>)
    requires AllKnown(s) && s.conns == t.conns && |s.loops| == |t.loops| && Traded(s, t, out, into)
    requires Neutral(out, into)
    requires forall it <- into :: Known(s, it)
    requires forall it <- t.foreign :: it.WakeUp?
    ensures SameTokens(s, t) && AllKnown(t)
  {
    forall it: Item
      ensures Bound(it) && !it.Notify? ==> Flight(t, it) == Flight(s, it)
      ensures Flight(t, it) > 0 ==> Known(t, it)
    {
      assert it in into <==> into[it] > 0;
    }
  }

  /** A loop that only pushed, took over or gave up items: any new work or quit request is
      announced by a wake-up, unless the phase makes that unnecessary. */
  predicate Calm(s: Sys, t: Sys, k: nat, into: multiset<Item>)
    requires |s.loops| == |t.loops|
  {
    k < |s.loops| &&
    var l, m := s.loops[k], t.loops[k];
    && LoopOK(m) && AtHome(m, k) && m.phase == l.phase && m.active == l.active
    && m.sh.counter >= l.sh.counter
    && (m.sh.pending != l.sh.pending || m.sh.quit != l.sh.quit ==>
          m.phase == Dispatch || (m.phase == Run && m.sh.pending == l.sh.pending) || WakeUp(k) in into)
  }

  /** The books balance: what went and came explains what is in flight. */
  ghost predicate Balanced(s: Sys, t: Sys, out: multiset<Item>, into: multiset<Item>) {
    && Traded(s, t, out, into) && Neutral(out, into)
    && (forall it <- into :: Known(s, it))
    && (forall it <- t.foreign :: it.WakeUp?)
  }

  /** Only some loops changed, and quietly so; a wake-up struck off was written. */
  ghost predicate Quietly(s: Sys, t: Sys, ks: set<nat>, out: multiset<Item>, into: multiset<Item>) {
    && OnlyLoops(s, t, ks)
    && t.server == s.server && t.conns == s.conns && t.broken == s.broken
    && (forall j :: 0 <= j < |s.loops| && out[WakeUp(j)] > 0 ==> t.loops[j].sh.counter > 0)
    && (forall k <- ks :: Calm(s, t, k, into))
    && HoldsLess(s, t, ks)
  }

  // `Balance` and `Quiet` close the two predicates from their parts; where they are called the parts
  // are at hand one by one, and the quantifiers of the other half stay out of sight.

  lemma Balance(s: Sys, t: Sys, out: multiset<Item>, into: multiset<Item>)
    requires Traded(s, t, out, into)
    requires Neutral(out, into)
    requires forall it <- into :: Known(s, it)
    requires forall it <- t.foreign :: it.WakeUp?
    ensures Balanced(s, t, out, into)
  {
  }

  lemma Quiet(s: Sys, t: Sys, ks: set<nat>, out: multiset<Item>, into: multiset<Item>)
    requires OnlyLoops(s, t, ks)
    requires t.server == s.server && t.conns == s.conns && t.broken == s.broken
    requires forall j :: 0 <= j < |s.loops| && out[WakeUp(j)] > 0 ==> t.loops[j].sh.counter > 0
    requires forall k <- ks :: Calm(s, t, k, into)
    requires HoldsLess(s, t, ks)
    ensures Quietly(s, t, ks, out, into)
  {
  }

  lemma TradeStep(s: Sys, t: Sys, ks: set<nat>, out: multiset<Item>, into: multiset<Item>)
    requires Inv(s) && Balanced(s, t, out, into) && Quietly(s, t, ks, out, into)
    ensures Inv(t)
  {
    TradeKeeps(s, t, out, into);
    TradeWakes(s, t, ks, out, into);
    QuietStep(s, t, ks);
  }

  lemma TradeWakes(s: Sys, t: Sys, ks: set<nat>, out: multiset<Item>, into: multiset<Item>)
    requires LoopsInv(s) && Balanced(s, t, out, into) && Quietly(s, t, ks, out, into)
    ensures WakesKept(s, t, ks) && SomeInv(t, ks)
  {
    forall j | 0 <= j < |s.loops| && Flight(s, WakeUp(j)) > 0 ensures Woken(t, j) {
      assert Flight(t, WakeUp(j)) + out[WakeUp(j)] == Flight(s, WakeUp(j)) + into[WakeUp(j)];
    }
    forall k <- ks ensures LoopInv(t, k) {
      assert Calm(s, t, k, into) && LoopInv(s, k);
      assert Flight(t, WakeUp(k)) + out[WakeUp(k)] == Flight(s, WakeUp(k)) + into[WakeUp(k)];
      assert ActiveOK(t, k) && WakeOK(t, k);
    }
  }

  // ---------------------------------------------------------------- running functors

  lemma BegunTrades(l: Loop)
    requires l.next < |l.batch|
    ensures Trades(l, Begun(l), multiset{l.batch[l.next]}, multiset{})
  {
    assert Rest(l) == [l.batch[l.next]] + Rest(Begun(l));
  }

  lemma BegunOK(l: Loop)
    requires LoopOK(l) && l.phase == Run && l.next < |l.batch|
    ensures LoopOK(Begun(l))
  {
    var x, rest := l.batch[l.next], Rest(Begun(l));
    assert Rest(l) == [x] + rest;
    assert l.sh.executed + ([x] + rest) == (l.sh.executed + [x]) + rest;
  }

  lemma PlainBalanced(s: Sys, t: Sys, k: nat)
    requires k < |s.loops| && s.loops[k].phase == Run && s.loops[k].next < |s.loops[k].batch|
    requires Plain(s.loops[k].batch[s.loops[k].next]) && t == Put(s, k, Begun(s.loops[k]))
    requires forall it <- s.foreign :: it.WakeUp?
    ensures Balanced(s, t, multiset{s.loops[k].batch[s.loops[k].next]}, multiset{})
  {
    var l := s.loops[k];
    BegunTrades(l);
    TradePut(s, k, Begun(l), multiset{l.batch[l.next]}, multiset{});
    PlainIsNeutral(multiset{l.batch[l.next]}, multiset{});
    Balance(s, t, multiset{l.batch[l.next]}, multiset{});
  }

  lemma PlainQuietly(s: Sys, t: Sys, k: nat)
    requires k < |s.loops| && LoopInv(s, k) && s.loops[k].phase == Run && s.loops[k].next < |s.loops[k].batch|
    requires t == Put(s, k, Begun(s.loops[k]))
    ensures Quietly(s, t, {k}, multiset{s.loops[k].batch[s.loops[k].next]}, multiset{})
  {
    var l := s.loops[k];
    assert l.batch[l.next] in l.batch && !l.batch[l.next].WakeUp?;
    BegunOK(l);
    HoldsSub(s, k, Begun(l));
    Quiet(s, t, {k}, multiset{l.batch[l.next]}, multiset{});
  }

  /** A functor of the application, or a callback whose sends are steps of their own. */
  lemma RunPlainStep(s: Sys, t: Sys, k: nat)
    requires Inv(s) && k < |s.loops| && s.loops[k].phase == Run && s.loops[k].next < |s.loops[k].batch|
    requires Plain(s.loops[k].batch[s.loops[k].next]) && t == Put(s, k, Begun(s.loops[k]))
    ensures Inv(t)
  {
    assert LoopInv(s, k);
    PlainBalanced(s, t, k);
    PlainQuietly(s, t, k);
    TradeStep(s, t, {k}, multiset{s.loops[k].batch[s.loops[k].next]}, multiset{});
  }

  lemma HoldsSub(s: Sys, k: nat, m: Loop)
    requires k < |s.loops|
    requires forall c <- s.conns :: Holds(m, c) ==> Holds(s.loops[k], c)
    ensures HoldsLess(s, Put(s, k, m), {k})
  {
  }

  lemma QueueBalanced(s: Sys, t: Sys, k: nat, it: Item)
    requires k < |s.loops| && (forall x <- s.foreign :: x.WakeUp?)
    requires !Bound(it) && Home(it) < |s.loops| && t == Put(s, k, s.loops[k].(todo := s.loops[k].todo + [it]))
    ensures Balanced(s, t, multiset{}, multiset([it]))
  {
    TodoAppend(s.loops[k], [it]);
    TradePut(s, k, t.loops[k], multiset{}, multiset([it]));
    PlainIsNeutral(multiset{}, multiset([it]));
    Balance(s, t, multiset{}, multiset([it]));
  }

  lemma QueueQuietly(s: Sys, t: Sys, k: nat, it: Item)
    requires k < |s.loops| && LoopInv(s, k) && (s.loops[k].phase == Dispatch || s.loops[k].phase == Run)
    requires !Bound(it) && t == Put(s, k, s.loops[k].(todo := s.loops[k].todo + [it]))
    ensures Quietly(s, t, {k}, multiset{}, multiset([it]))
  {
    AppendHolds(s, k, t.loops[k], [it]);
    Quiet(s, t, {k}, multiset{}, multiset([it]));
  }

  lemma QueueStep(s: Sys, t: Sys, k: nat, it: Item)
    requires Inv(s) && k < |s.loops| && (s.loops[k].phase == Dispatch || s.loops[k].phase == Run)
    requires !Bound(it) && Home(it) < |s.loops| && t == Put(s, k, s.loops[k].(todo := s.loops[k].todo + [it]))
    ensures Inv(t)
  {
    assert LoopInv(s, k);
    QueueBalanced(s, t, k, it);
    QueueQuietly(s, t, k, it);
    TradeStep(s, t, {k}, multiset{}, multiset([it]));
  }

  lemma TodoAppend(l: Loop, more: seq<Item>)
    ensures Trades(l, l.(todo := l.todo + more), multiset{}, multiset(more))
  {
    var m := l.(todo := l.todo + more);
    assert Rest(m) == Rest(l) && multiset(m.todo) == multiset(l.todo) + multiset(more);
  }

  lemma AppendHolds(s: Sys, k: nat, m: Loop, more: seq<Item>)
    requires k < |s.loops| && m == s.loops[k].(todo := s.loops[k].todo + more)
    requires forall it, c :: it in more && c in s.conns && Refers(it, c) ==> Held(s, c)
    ensures HoldsLess(s, Put(s, k, m), {k})
  {
    forall c <- s.conns | Holds(m, c) ensures Held(s, c) {
      if AnyRefers(m.todo, c) {
        var it :| it in m.todo && Refers(it, c);
        if it in s.loops[k].todo {
          assert Holds(s.loops[k], c);
        }
      } else {
        assert Holds(s.loops[k], c);
      }
    }
  }

  // ---------------------------------------------------------------- pushes and wake-ups

  /** A wake-up that is due is written: first the counter, then the debt is struck. */
  lemma WakeUpStep(s: Sys, t: Sys, k: nat)
    requires Inv(s) && k < |s.loops| && s.loops[k].todo != [] && s.loops[k].todo[0].WakeUp?
    requires Home(s.loops[k].todo[0]) < |s.loops| && t == TodoStep(s, k)
    ensures Inv(t)
  {
    var at := s.loops[k].todo[0].at;
    var woken := s.loops[at].(sh := Wake(s.loops[at].sh));
    var s1 := Put(s, at, woken);
    assert LoopInv(s, at);
    FlightPut(s, at, woken);
    ControlStep(s, at, woken);
    assert t == Put(s1, k, Struck(s1.loops[k]));
    StrikeStep(s1, t, k);
  }

  function Struck(l: Loop): Loop
    requires l.todo != []
  {
    l.(todo := l.todo[1..], guard := if l.todo[1..] == [] then None else l.guard)
  }

  lemma StrikeBalanced(s: Sys, t: Sys, k: nat)
    requires k < |s.loops| && s.loops[k].todo != [] && s.loops[k].todo[0].WakeUp?
    requires t == Put(s, k, Struck(s.loops[k])) && forall it <- s.foreign :: it.WakeUp?
    ensures Balanced(s, t, multiset{s.loops[k].todo[0]}, multiset{})
  {
    var it := s.loops[k].todo[0];
    StruckTrades(s.loops[k]);
    TradePut(s, k, Struck(s.loops[k]), multiset{it}, multiset{});
    PlainIsNeutral(multiset{it}, multiset{});
    Balance(s, t, multiset{it}, multiset{});
  }

  lemma StrikeQuietly(s: Sys, t: Sys, k: nat)
    requires k < |s.loops| && LoopInv(s, k) && s.loops[k].todo != [] && s.loops[k].todo[0].WakeUp?
    requires var at := s.loops[k].todo[0].at; at < |s.loops| && s.loops[at].sh.counter > 0
    requires t == Put(s, k, Struck(s.loops[k]))
    ensures Quietly(s, t, {k}, multiset{s.loops[k].todo[0]}, multiset{})
  {
    assert Rest(Struck(s.loops[k])) == Rest(s.loops[k]);
    HoldsSub(s, k, Struck(s.loops[k]));
    Quiet(s, t, {k}, multiset{s.loops[k].todo[0]}, multiset{});
  }

  lemma StrikeStep(s: Sys, t: Sys, k: nat)
    requires Inv(s) && k < |s.loops| && s.loops[k].todo != [] && s.loops[k].todo[0].WakeUp?
    requires var at := s.loops[k].todo[0].at; at < |s.loops| && s.loops[at].sh.counter > 0
    requires t == Put(s, k, Struck(s.loops[k]))
    ensures Inv(t)
  {
    assert LoopInv(s, k);
    StrikeBalanced(s, t, k);
    StrikeQuietly(s, t, k);
    TradeStep(s, t, {k}, multiset{s.loops[k].todo[0]}, multiset{});
  }

  lemma StruckTrades(l: Loop)
    requires l.todo != []
    ensures Trades(l, Struck(l), multiset{l.todo[0]}, multiset{})
  {
    assert l.todo == [l.todo[0]] + l.todo[1..];
    assert Rest(Struck(l)) == Rest(l);
  }

  /** The thread's side of a push: the functor leaves its list, and a wake-up may become due. */
  function Pushing(l: Loop, due: seq<Item>): Loop
    requires l.todo != []
  {
    l.(todo := due + l.todo[1..], guard := if due + l.todo[1..] == [] then None else l.guard)
  }

  lemma PushingTrades(l: Loop, due: seq<Item>)
    requires l.todo != []
    ensures Trades(l, Pushing(l, due), multiset{l.todo[0]}, multiset(due))
  {
    assert l.todo == [l.todo[0]] + l.todo[1..];
    assert multiset(due + l.todo[1..]) == multiset(due) + multiset(l.todo[1..]);
    assert Rest(Pushing(l, due)) == Rest(l);
  }

  /** The other side: the functor joins the queue of its loop. */
  function Pushed(l: Loop, it: Item): Loop {
    l.(sh := Push(l.sh, it))
  }

  lemma PushedTrades(l: Loop, it: Item)
    ensures Trades(l, Pushed(l, it), multiset{}, multiset{it})
  {
    var n := Pushed(l, it);
    assert Rest(n) == Rest(l);
    assert multiset(n.sh.pending) == multiset(l.sh.pending) + multiset{it};
  }

  lemma PushedOK(l: Loop, it: Item, k: nat)
    requires LoopOK(l) && AtHome(l, k) && !it.WakeUp? && Home(it) == k
    ensures LoopOK(Pushed(l, it)) && AtHome(Pushed(l, it), k)
  {
    var n := Pushed(l, it);
    assert n.sh.executed + Rest(n) + n.sh.pending == l.sh.executed + Rest(l) + l.sh.pending + [it];
  }

  lemma PushHolds(s: Sys, k: nat, at: nat, it: Item, c: Ref)
    requires k < |s.loops| && at < |s.loops| && it in s.loops[k].todo
    requires Holds(Pushed(s.loops[at], it), c)
    ensures Held(s, c)
  {
    var l := s.loops[at];
    if !Holds(l, c) {
      var x :| x in l.sh.pending + [it] && Refers(x, c);
      assert x == it;
      assert Holds(s.loops[k], c);
    } else {
      assert Holds(s.loops[at], c);
    }
  }

  function Due(s: Sys, k: nat): seq<Item>
    requires k < |s.loops| && s.loops[k].todo != []
  {
    var at := Home(s.loops[k].todo[0]);
    if at != k || s.loops[k].sh.calling then [WakeUp(at)] else []
  }

  lemma PushTarget(s: Sys, t: Sys, k: nat)
    requires k < |s.loops|
    requires s.loops[k].todo != [] && !s.loops[k].todo[0].WakeUp?
    requires Home(s.loops[k].todo[0]) < |s.loops| && t == TodoStep(s, k)
    ensures var it, s1 := s.loops[k].todo[0], Put(s, k, Pushing(s.loops[k], Due(s, k)));
      t == Put(s1, Home(it), Pushed(s1.loops[Home(it)], it))
  {
    var todo, at := s.loops[k].todo, Home(s.loops[k].todo[0]);
    assert Due(s, k) + todo[1..] == if at != k || s.loops[k].sh.calling then [WakeUp(at)] + todo[1..] else todo[1..];
  }

  /** Both sides of a push. */
  lemma PushSides(s: Sys, t: Sys, k: nat)
    requires k < |s.loops|
    requires s.loops[k].todo != [] && !s.loops[k].todo[0].WakeUp?
    requires Home(s.loops[k].todo[0]) < |s.loops| && t == TodoStep(s, k)
    ensures var it, m := s.loops[k].todo[0], Pushing(s.loops[k], Due(s, k));
      var at, s1 := Home(it), Put(s, k, m);
      && t == Put(s1, at, Pushed(s1.loops[at], it))
      && Trades(s.loops[k], m, multiset{it}, multiset(Due(s, k)))
      && Trades(s1.loops[at], Pushed(s1.loops[at], it), multiset{}, multiset{it})
  {
    var l, due := s.loops[k], Due(s, k);
    var it, at := l.todo[0], Home(l.todo[0]);
    PushTarget(s, t, k);
    PushingTrades(l, due);
    PushedTrades(Put(s, k, Pushing(l, due)).loops[at], it);
  }

  lemma PushTraded(s: Sys, t: Sys, k: nat)
    requires k < |s.loops|
    requires s.loops[k].todo != [] && !s.loops[k].todo[0].WakeUp?
    requires Home(s.loops[k].todo[0]) < |s.loops| && t == TodoStep(s, k)
    ensures var it := s.loops[k].todo[0];
      Traded(s, t, multiset{it} + multiset{}, multiset(Due(s, k)) + multiset{it})
  {
    var it, m := s.loops[k].todo[0], Pushing(s.loops[k], Due(s, k));
    var at, s1 := Home(it), Put(s, k, m);
    PushSides(s, t, k);
    TradePut(s, k, m, multiset{it}, multiset(Due(s, k)));
    TradePut(s1, at, Pushed(s1.loops[at], it), multiset{}, multiset{it});
    TradeBoth(s, s1, t, multiset{it}, multiset(Due(s, k)), multiset{}, multiset{it});
  }

  lemma PushBalanced(s: Sys, t: Sys, k: nat)
    requires k < |s.loops| && AllKnown(s)
    requires s.loops[k].todo != [] && !s.loops[k].todo[0].WakeUp?
    requires Home(s.loops[k].todo[0]) < |s.loops| && t == TodoStep(s, k)
    ensures var it := s.loops[k].todo[0];
      Balanced(s, t, multiset{it} + multiset{}, multiset(Due(s, k)) + multiset{it})
  {
    var it, due := s.loops[k].todo[0], Due(s, k);
    PushTraded(s, t, k);
    PushKnown(s, k, multiset(due) + multiset{it}, due);
    MoveIsNeutral(it, due);
    Balance(s, t, multiset{it} + multiset{}, multiset(due) + multiset{it});
  }

  lemma NoWakeUpLeaves(it: Item)
    requires !it.WakeUp?
    ensures forall j: nat :: (multiset{it} + multiset{})[WakeUp(j)] == 0
  {
    assert multiset{it} + multiset{} == multiset{it};
  }

  lemma PushQuietly(s: Sys, t: Sys, k: nat)
    requires k < |s.loops| && LoopsInv(s)
    requires s.loops[k].todo != [] && !s.loops[k].todo[0].WakeUp?
    requires Home(s.loops[k].todo[0]) < |s.loops| && t == TodoStep(s, k)
    ensures var it := s.loops[k].todo[0];
      Quietly(s, t, {k, Home(it)}, multiset{it} + multiset{}, multiset(Due(s, k)) + multiset{it})
  {
    var it, due := s.loops[k].todo[0], Due(s, k);
    PushTarget(s, t, k);
    PushCalm(s, t, k, due);
    PushHeld(s, k, due);
    NoWakeUpLeaves(it);
    Quiet(s, t, {k, Home(it)}, multiset{it} + multiset{}, multiset(due) + multiset{it});
  }

  /** A functor is pushed on its loop, which is another or the thread's own; a wake-up becomes due
      except on the own loop while it is not running functors. */
  lemma PushStep(s: Sys, t: Sys, k: nat)
    requires Inv(s) && k < |s.loops| && s.loops[k].todo != [] && !s.loops[k].todo[0].WakeUp?
    requires Home(s.loops[k].todo[0]) < |s.loops| && t == TodoStep(s, k)
    ensures Inv(t)
  {
    var it := s.loops[k].todo[0];
    PushBalanced(s, t, k);
    PushQuietly(s, t, k);
    TradeStep(s, t, {k, Home(it)}, multiset{it} + multiset{}, multiset(Due(s, k)) + multiset{it});
  }

  lemma PushingOK(l: Loop, due: seq<Item>, k: nat)
    requires LoopOK(l) && AtHome(l, k) && l.todo != []
    ensures LoopOK(Pushing(l, due)) && AtHome(Pushing(l, due), k)
  {
    assert Rest(Pushing(l, due)) == Rest(l);
  }

  lemma PushKnown(s: Sys, k: nat, into: multiset<Item>, due: seq<Item>)
    requires AllKnown(s) && k < |s.loops| && s.loops[k].todo != []
    requires Home(s.loops[k].todo[0]) < |s.loops|
    requires due == [] || due == [WakeUp(Home(s.loops[k].todo[0]))]
    requires into == multiset(due) + multiset{s.loops[k].todo[0]}
    ensures forall x <- into :: Known(s, x)
  {
    var it := s.loops[k].todo[0];
    LoopsCover(s.loops, k, it);
    assert it in s.loops[k].todo;
    assert Flight(s, it) > 0;
  }

  lemma PushCalm(s: Sys, t: Sys, k: nat, due: seq<Item>)
    requires k < |s.loops| && LoopsInv(s) && s.loops[k].todo != [] && !s.loops[k].todo[0].WakeUp?
    requires var at := Home(s.loops[k].todo[0]);
      var s1 := Put(s, k, Pushing(s.loops[k], due));
      && at < |s.loops| && due == (if at != k || s.loops[k].sh.calling then [WakeUp(at)] else [])
      && t == Put(s1, at, Pushed(s1.loops[at], s.loops[k].todo[0]))
    ensures forall j <- {k, Home(s.loops[k].todo[0])} :: Calm(s, t, j, multiset(due) + multiset{s.loops[k].todo[0]})
  {
    var l := s.loops[k];
    var it, at := l.todo[0], Home(l.todo[0]);
    assert LoopInv(s, k) && LoopInv(s, at);
    PushingOK(l, due, k);
    PushedOK(Put(s, k, Pushing(l, due)).loops[at], it, at);
    assert due != [] ==> WakeUp(at) in multiset(due);
  }

  lemma PushHeld(s: Sys, k: nat, due: seq<Item>)
    requires k < |s.loops| && s.loops[k].todo != [] && Home(s.loops[k].todo[0]) < |s.loops|
    requires forall x <- due :: !Bound(x)
    ensures var at := Home(s.loops[k].todo[0]);
      var s1 := Put(s, k, Pushing(s.loops[k], due));
      HoldsLess(s, Put(s1, at, Pushed(s1.loops[at], s.loops[k].todo[0])), {k, at})
  {
    var l := s.loops[k];
    var it, at := l.todo[0], Home(l.todo[0]);
    var m := Pushing(l, due);
    var s1 := Put(s, k, m);
    var t := Put(s1, at, Pushed(s1.loops[at], it));
    forall c <- s.conns
      ensures Holds(m, c) ==> Held(s, c)
      ensures Holds(t.loops[at], c) ==> Held(s, c)
    {
      if Holds(m, c) {
        assert Holds(l, c);
      }
      if Holds(t.loops[at], c) && at != k {
        PushHolds(s, k, at, it, c);
      } else if Holds(t.loops[at], c) && !Holds(m, c) {
        var x :| x in m.sh.pending + [it] && Refers(x, c);
        assert x == it && Holds(l, c);
      }
    }
  }

  lemma TodoKept(s: Sys, t: Sys, k: nat)
    requires Inv(s) && k < |s.loops| && s.loops[k].todo != [] && Home(s.loops[k].todo[0]) < |s.loops|
    requires t == TodoStep(s, k)
    ensures Inv(t)
  {
    if s.loops[k].todo[0].WakeUp? {
      WakeUpStep(s, t, k);
    } else {
      PushStep(s, t, k);
    }
  }

  // ---------------------------------------------------------------- user threads

  /** A user thread changed a loop and owes, or no longer owes, a wake-up. */
  lemma ForeignTraded(s: Sys, t: Sys, at: nat, n: Loop, it: multiset<Item>, out: multiset<Item>, into: multiset<Item>)
    requires at < |s.loops| && Trades(s.loops[at], n, multiset{}, it) && out <= s.foreign
    requires t == Put(s, at, n).(foreign := s.foreign - out + into)
    ensures Traded(s, t, multiset{} + out, it + into)
  {
    var s1 := Put(s, at, n);
    TradePut(s, at, n, multiset{}, it);
    TradeForeign(s1, out, into);
    TradeBoth(s, s1, t, multiset{}, it, out, into);
  }

  lemma ForeignNeutral(at: nat, it: multiset<Item>, out: multiset<Item>, into: multiset<Item>)
    requires forall x <- it :: x.User? && x.at == at
    requires out <= multiset{WakeUp(at)} && into <= multiset{WakeUp(at)}
    ensures Neutral(multiset{} + out, it + into)
    ensures (forall x <- out :: x == WakeUp(at)) && (forall x <- into :: x == WakeUp(at))
  {
    forall x: Item | x != WakeUp(at) ensures x !in out && x !in into {
      assert out[x] <= multiset{WakeUp(at)}[x] && into[x] <= multiset{WakeUp(at)}[x];
    }
    PlainIsNeutral(multiset{} + out, it + into);
  }

  lemma ForeignBalanced(s: Sys, t: Sys, at: nat, n: Loop, it: multiset<Item>, out: multiset<Item>, into: multiset<Item>)
    requires at < |s.loops| && Trades(s.loops[at], n, multiset{}, it) && out <= s.foreign
    requires t == Put(s, at, n).(foreign := s.foreign - out + into)
    requires forall x <- s.foreign :: x.WakeUp?
    requires forall x <- it :: x.User? && x.at == at
    requires out <= multiset{WakeUp(at)} && into <= multiset{WakeUp(at)}
    ensures Balanced(s, t, multiset{} + out, it + into)
  {
    ForeignTraded(s, t, at, n, it, out, into);
    ForeignNeutral(at, it, out, into);
    Balance(s, t, multiset{} + out, it + into);
  }

  lemma ForeignPushBalanced(s: Sys, t: Sys, at: nat, tag: int)
    requires at < |s.loops| && t == ForeignPush(s, at, tag) && forall it <- s.foreign :: it.WakeUp?
    ensures Balanced(s, t, multiset{} + multiset{}, multiset{User(at, tag)} + multiset{WakeUp(at)})
  {
    PushedTrades(s.loops[at], User(at, tag));
    assert s.foreign - multiset{} == s.foreign;
    ForeignBalanced(s, t, at, Pushed(s.loops[at], User(at, tag)),
                    multiset{User(at, tag)}, multiset{}, multiset{WakeUp(at)});
  }

  lemma ForeignPushQuietly(s: Sys, t: Sys, at: nat, tag: int)
    requires at < |s.loops| && LoopInv(s, at) && t == ForeignPush(s, at, tag)
    ensures Quietly(s, t, {at}, multiset{} + multiset{}, multiset{User(at, tag)} + multiset{WakeUp(at)})
  {
    PushedOK(s.loops[at], User(at, tag), at);
    HoldsSame(s, t, at);
    Quiet(s, t, {at}, multiset{} + multiset{}, multiset{User(at, tag)} + multiset{WakeUp(at)});
  }

  lemma ForeignPushStep(s: Sys, t: Sys, at: nat, tag: int)
    requires Inv(s) && at < |s.loops| && t == ForeignPush(s, at, tag)
    ensures Inv(t)
  {
    assert LoopInv(s, at);
    ForeignPushBalanced(s, t, at, tag);
    ForeignPushQuietly(s, t, at, tag);
    TradeStep(s, t, {at}, multiset{} + multiset{}, multiset{User(at, tag)} + multiset{WakeUp(at)});
  }

  /** A loop that differs only in what holds no connection. */
  lemma HoldsSame(s: Sys, t: Sys, k: nat)
    requires k < |s.loops| == |t.loops|
    requires t.loops[k].guard == s.loops[k].guard && t.loops[k].batch == s.loops[k].batch
    requires t.loops[k].todo == s.loops[k].todo
    requires forall it <- t.loops[k].sh.pending :: it in s.loops[k].sh.pending || !Bound(it)
    ensures HoldsLess(s, t, {k})
  {
    forall c <- s.conns | Holds(t.loops[k], c) ensures Held(s, c) {
      assert Holds(s.loops[k], c);
    }
  }

  lemma ForeignQuitStep(s: Sys, t: Sys, at: nat)
    requires Inv(s) && at < |s.loops| && t == ForeignQuit(s, at)
    ensures Inv(t)
  {
    assert LoopInv(s, at);
    FlagsBalanced(s, t, at, t.loops[at], multiset{}, multiset{WakeUp(at)});
    FlagsQuietly(s, t, at, multiset{}, multiset{WakeUp(at)});
    TradeStep(s, t, {at}, multiset{} + multiset{}, multiset{} + multiset{WakeUp(at)});
  }

  lemma ForeignWakeStep(s: Sys, t: Sys, at: nat)
    requires Inv(s) && at < |s.loops| && WakeUp(at) in s.foreign && t == ForeignWake(s, at)
    ensures Inv(t)
  {
    assert LoopInv(s, at);
    assert s.foreign - multiset{WakeUp(at)} + multiset{} == t.foreign;
    FlagsBalanced(s, t, at, t.loops[at], multiset{WakeUp(at)}, multiset{});
    FlagsQuietly(s, t, at, multiset{WakeUp(at)}, multiset{});
    TradeStep(s, t, {at}, multiset{} + multiset{WakeUp(at)}, multiset{} + multiset{});
  }

  /** Only the quit flag or the counter of a loop changed. */
  predicate FlagsOnly(l: Loop, n: Loop) {
    n == l.(sh := l.sh.(quit := n.sh.quit, counter := n.sh.counter))
  }

  lemma FlagsBalanced(s: Sys, t: Sys, at: nat, n: Loop, out: multiset<Item>, into: multiset<Item>)
    requires at < |s.loops| && FlagsOnly(s.loops[at], n) && out <= s.foreign
    requires t == Put(s, at, n).(foreign := s.foreign - out + into)
    requires forall x <- s.foreign :: x.WakeUp?
    requires out <= multiset{WakeUp(at)} && into <= multiset{WakeUp(at)}
    ensures Balanced(s, t, multiset{} + out, multiset{} + into)
  {
    assert Rest(n) == Rest(s.loops[at]);
    assert Trades(s.loops[at], n, multiset{}, multiset{});
    ForeignBalanced(s, t, at, n, multiset{}, out, into);
  }

  lemma FlagsQuietly(s: Sys, t: Sys, at: nat, out: multiset<Item>, into: multiset<Item>)
    requires at < |s.loops| && LoopInv(s, at) && OnlyLoops(s, t, {at}) && FlagsOnly(s.loops[at], t.loops[at])
    requires t.server == s.server && t.conns == s.conns && t.broken == s.broken
    requires t.loops[at].sh.counter >= s.loops[at].sh.counter
    requires t.loops[at].sh.quit != s.loops[at].sh.quit ==> WakeUp(at) in into
    requires out == multiset{} || (out == multiset{WakeUp(at)} && t.loops[at].sh.counter > 0)
    ensures Quietly(s, t, {at}, multiset{} + out, multiset{} + into)
  {
    HoldsSame(s, t, at);
    Quiet(s, t, {at}, multiset{} + out, multiset{} + into);
  }

  // ---------------------------------------------------------------- steps that change a connection

  /** One loop's thread gave a connection a new value, with functors of that connection leaving its
      batch (`out`) or joining what it has to do (`into`). */
  ghost predicate Handles(s: Sys, t: Sys, k: nat, c: Ref, out: multiset<Item>, into: seq<Item>)
    requires k < |s.loops| == |t.loops|
  {
    var l, m := s.loops[k], t.loops[k];
    && OnlyLoops(s, t, {k})
    && m.sh.pending == l.sh.pending && m.sh.counter == l.sh.counter && m.sh.quit == l.sh.quit
    && m.batch == l.batch && m.phase == l.phase && (m.phase == Dispatch || m.phase == Run)
    && m.todo == l.todo + into && (m.guard == None || m.guard == Some(c) || m.guard == l.guard)
    && Trades(l, m, out, multiset(into))
    && (forall it <- out :: Bound(it) && it.c == c)
    && (forall it <- into :: Bound(it) && it.c == c)
  }

  /** The tokens of a connection after functors left and came. */
  ghost predicate TokensDue(s: Sys, server: Server, c: Ref, conn: Conn, out: multiset<Item>, into: seq<Item>) {
    var left := (it: Item) => Flight(s, it) - out[it] + multiset(into)[it];
    && left(Establish(c)) == (if conn.established == 0 then 1 else 0)
    && left(Remove(c)) + left(Destroy(c)) + conn.destroyed == conn.closes
    && (Named(server, c) <==> left(Destroy(c)) + conn.destroyed == 0)
    && (c.io == 0 ==> left(Remove(c)) == 0)
  }

  lemma SameFlight(s: Sys, t: Sys)
    requires s.loops == t.loops && s.foreign == t.foreign
    ensures forall it: Item :: Flight(s, it) == Flight(t, it)
  {
  }

  lemma TradedOnlyOf(s: Sys, t: Sys, c: Ref, out: multiset<Item>, into: seq<Item>)
    requires Traded(s, t, out, multiset(into))
    requires (forall it <- out :: Bound(it) && it.c == c) && (forall it <- into :: Bound(it) && it.c == c)
    ensures OnlyFunctorsOf(s, t, c)
  {
    forall it: Item | it.WakeUp? || (Bound(it) && it.c != c)
      ensures Flight(t, it) == Flight(s, it)
    {
      assert it in multiset(into) ==> it in into;
      assert it !in out && it !in multiset(into);
    }
  }

  lemma HandlesFlight(s: Sys, t: Sys, k: nat, c: Ref, out: multiset<Item>, into: seq<Item>)
    requires k < |s.loops| == |t.loops| && Handles(s, t, k, c, out, into) && t.foreign == s.foreign
    ensures Traded(s, t, out, multiset(into))
    ensures OnlyFunctorsOf(s, t, c)
  {
    var u := Put(s, k, t.loops[k]);
    assert u.loops == t.loops;
    TradePut(s, k, t.loops[k], out, multiset(into));
    SameFlight(u, t);
    TradedOnlyOf(s, t, c, out, into);
  }

  lemma HandlesHeld(s: Sys, t: Sys, k: nat, c: Ref, out: multiset<Item>, into: seq<Item>)
    requires k < |s.loops| == |t.loops| && Handles(s, t, k, c, out, into) && Held(s, c)
    ensures HoldsLess(s, t, {k})
  {
    var l, m := s.loops[k], t.loops[k];
    forall d <- s.conns | Holds(m, d) && d != c ensures Held(s, d) {
      if AnyRefers(m.todo, d) {
        var it :| it in m.todo && Refers(it, d);
        assert it in l.todo;
      }
      assert Holds(l, d);
    }
  }

  lemma HandlesKnown(s: Sys, t: Sys, k: nat, c: Ref, out: multiset<Item>, into: seq<Item>)
    requires k < |s.loops| == |t.loops| && Handles(s, t, k, c, out, into) && t.foreign == s.foreign
    requires AllKnown(s) && c in s.conns && s.conns.Keys <= t.conns.Keys
    ensures AllKnown(t)
  {
    HandlesFlight(s, t, k, c, out, into);
    forall it: Item | Flight(t, it) > 0 ensures Known(t, it) {
      assert Flight(t, it) + out[it] == Flight(s, it) + multiset(into)[it];
      if Flight(s, it) > 0 {
        assert Known(s, it);
      } else {
        assert it in multiset(into);
      }
    }
  }

  lemma HandlesTokens(s: Sys, t: Sys, k: nat, c: Ref, conn: Conn, out: multiset<Item>, into: seq<Item>)
    requires k < |s.loops| == |t.loops| && Handles(s, t, k, c, out, into) && t.foreign == s.foreign
    requires c in t.conns && t.conns[c] == conn && TokensDue(s, t.server, c, conn, out, into)
    ensures Tokens(t, c)
  {
    HandlesFlight(s, t, k, c, out, into);
    assert Flight(t, Establish(c)) + out[Establish(c)] == Flight(s, Establish(c)) + multiset(into)[Establish(c)];
    assert Flight(t, Remove(c)) + out[Remove(c)] == Flight(s, Remove(c)) + multiset(into)[Remove(c)];
    assert Flight(t, Destroy(c)) + out[Destroy(c)] == Flight(s, Destroy(c)) + multiset(into)[Destroy(c)];
  }

  lemma HandlesLoop(s: Sys, t: Sys, k: nat, c: Ref, out: multiset<Item>, into: seq<Item>)
    requires k < |s.loops| == |t.loops| && Handles(s, t, k, c, out, into) && t.foreign == s.foreign
    requires LoopInv(s, k) && LoopOK(t.loops[k]) && ActiveOK(t, k)
    ensures SomeInv(t, {k})
  {
    HandlesFlight(s, t, k, c, out, into);
    assert WakeOK(t, k) && AtHome(t.loops[k], k);
  }

  lemma ConnChange(s: Sys, t: Sys, k: nat, c: Ref, conn: Conn, erase: bool, out: multiset<Item>, into: seq<Item>)
    requires Inv(s) && k < |s.loops| == |t.loops| && c in s.conns && Held(s, c)
    requires Handles(s, t, k, c, out, into) && Gives(s, t, c, conn, erase)
    requires ConnRuns.Inv(conn) && ConnRuns.Life(conn) && TokensDue(s, t.server, c, conn, out, into)
    requires LoopOK(t.loops[k]) && ActiveOK(t, k)
    requires ConnRuns.IsWatched(conn) || c.io == k || conn == s.conns[c]
    ensures Inv(t)
  {
    assert LoopInv(s, k);
    HandlesFlight(s, t, k, c, out, into);
    HandlesHeld(s, t, k, c, out, into);
    HandlesKnown(s, t, k, c, out, into);
    HandlesTokens(s, t, k, c, conn, out, into);
    HandlesLoop(s, t, k, c, out, into);
    ConnStep(s, t, k, c, conn, erase);
  }
}
