/** Runs of a connection whose sends follow the text of `sendInLoop` as it is written. */
module SendRuns {
  import opened Common
  import opened EpollSpec
  import opened ConnSpec
  import opened ConnRuns
  import opened SendText

  /** What can happen to a connection, each send under its own reading of the text. */
  datatype Act =
    | Send(data: seq<byte>, w: WriteResult, t: Text)
    | Answer(bytes: seq<byte>, w: WriteResult, t: Text)  // bytes arrive, and `onMessage` sends them back
    | Drain(w: WriteResult)
    | ShutDown
    | Take(len: nat)
    | Establish
    | Close(onDown: seq<Call>)
    | Destroy(onDown: seq<Call>)

  function SendAs(c: Conn, data: seq<byte>, w: WriteResult, t: Text): Conn {
    if c.state == Connected then SendInLoopText(c, data, w, t) else c
  }

  function Arrived(c: Conn, bytes: seq<byte>): Conn {
    c.(input := c.input + bytes, received := c.received + bytes)
  }

  function Perform(c: Conn, a: Act): Conn {
    match a
    case Send(data, w, t) => SendAs(c, data, w, t)
    case Answer(bytes, w, t) => SendAs(Arrived(c, bytes).(input := []), c.input + bytes, w, t)
    case Drain(w) => HandleWrite(c, w)
    case ShutDown => Shutdown(c)
    case Take(len) => RunCall(c, CallTake(len))
    case Establish => ConnectEstablished(c, [])
    case Close(onDown) => HandleClose(c, onDown)
    case Destroy(onDown) => ConnectDestroyed(c, onDown)
  }

  /** As it is meant, an answer is what a dispatched read does under the echo's `onMessage`. */
  lemma AnswerIsOnMessage(c: Conn, bytes: seq<byte>, w: WriteResult, onDown: seq<Call>)
    requires bytes != []
    ensures Perform(c, Answer(bytes, w, INTENT)) == HandleRead(c, Got(bytes), [CallEcho(w)], onDown)
  {
    var d := Arrived(c, bytes);
    IntentIsSendInLoop(d.(input := []), d.input, w);
    assert [CallEcho(w)][..0] == [] && RunCalls(d, []) == d;
    assert RunCalls(d, [CallEcho(w)]) == RunCall(d, CallEcho(w));
  }

  predicate IsSend(a: Act) {
    a.Send? || a.Answer?
  }

  /** What the code as written compiles to tests against 0. */
  predicate Written(a: Act) {
    IsSend(a) ==> AsWritten(a.t)
  }

  /** The same send, with other memory around the caller's data. */
  function Beside(a: Act, m: int -> byte): Act {
    if IsSend(a) then a.(t := a.t.(around := m)) else a
  }

  predicate HarmlessHere(c: Conn, a: Act) {
    match a
    case Send(data, w, t) => c.state == Connected ==> Harmless(c, data, w, t)
    case Answer(bytes, w, t) => c.state == Connected ==> Harmless(c, c.input + bytes, w, t)
    case _ => true
  }

  /** Each send of the run is harmless when its turn comes. */
  predicate AllHarmless(c: Conn, acts: seq<Act>)
    decreases |acts|
  {
    acts == [] || (HarmlessHere(c, acts[0]) && AllHarmless(Perform(c, acts[0]), acts[1..]))
  }

  /** The stream is intact after every act, whatever lies around the data of any send. */
  ghost predicate StreamAlways(c: Conn, acts: seq<Act>)
    decreases |acts|
  {
    acts == [] || forall m: int -> byte :: StreamAfter(c, acts, m)
  }

  ghost predicate StreamAfter(c: Conn, acts: seq<Act>, m: int -> byte)
    requires acts != []
    decreases |acts|, 0
  {
    var d := Perform(c, Beside(acts[0], m));
    Stream(d) && StreamAlways(d, acts[1..])
  }

  /** A harmless send does not look at the memory around its data. */
  lemma HarmlessIsBlind(c: Conn, data: seq<byte>, w: WriteResult, t: Text, m: int -> byte)
    requires AsWritten(t) && Harmless(c, data, w, t)
    ensures SendInLoopText(c, data, w, t.(around := m)) == SendInLoopText(c, data, w, t)
  {
    HarmlessTextIsIntent(c, data, w, t);
    HarmlessTextIsIntent(c, data, w, t.(around := m));
  }

  lemma ActIsBlind(c: Conn, a: Act, m: int -> byte)
    requires Written(a) && HarmlessHere(c, a)
    ensures Perform(c, Beside(a, m)) == Perform(c, a)
  {
    match a
    case Send(data, w, t) =>
      if c.state == Connected {
        HarmlessIsBlind(c, data, w, t, m);
      }
    case Answer(bytes, w, t) =>
      if c.state == Connected {
        HarmlessIsBlind(Arrived(c, bytes).(input := []), c.input + bytes, w, t, m);
      }
    case _ =>
  }

  lemma DrainKeepsStream(c: Conn, w: WriteResult)
    requires Stream(c)
    ensures Stream(HandleWrite(c, w))
  {
    var n := if w.Room? then w.Taken(|c.output|) else 0;
    SplitTail(c.delivered, c.output, n);
    assert HandleWrite(c, w) == c || Stream(Drained(c, n));
  }

  lemma SplitTail(a: seq<byte>, b: seq<byte>, n: nat)
    requires n <= |b|
    ensures (a + b[..n]) + b[n..] == a + b
  {
    assert b[..n] + b[n..] == b;
    assert (a + b[..n]) + b[n..] == a + (b[..n] + b[n..]);
  }

  /** Nothing of the stream changes. */
  predicate SameStream(c: Conn, d: Conn) {
    && d.delivered == c.delivered && d.output == c.output && d.accepted == c.accepted && d.received == c.received
    && (c.input == [] ==> d.input == [])
  }

  lemma DownKeepsStream(c: Conn, calls: seq<Call>)
    ensures SameStream(c, GoDown(c, calls)) && GoDown(c, calls).state == Disconnected
  {
    ClosedCalls(SetInterest(MarkDown(c), DisableAll), calls);
  }

  lemma EndKeepsStream(c: Conn, a: Act)
    requires a.Close? || a.Destroy?
    ensures SameStream(c, Perform(c, a)) && (a.Close? || c.state != Connecting ==> Perform(c, a).state == Disconnected)
  {
    DownKeepsStream(if a.Close? then c else CountDestroy(c), a.onDown);
  }

  lemma UpKeepsStream(c: Conn)
    requires Stream(c)
    ensures Stream(ConnectEstablished(c, []))
  {
    var d := SetInterest(MarkUp(c), EnableReading);
    assert RunCalls(d, []) == d;
  }

  lemma OthersKeepStream(c: Conn, a: Act)
    requires Stream(c) && !IsSend(a)
    ensures Stream(Perform(c, a))
  {
    match a
    case Drain(w) => DrainKeepsStream(c, w);
    case Establish => UpKeepsStream(c);
    case Close(_) => EndKeepsStream(c, a);
    case Destroy(_) => EndKeepsStream(c, a);
    case _ =>
  }

  /** One act keeps the stream whatever lies around exactly when it is harmless. */
  lemma ActKeepsStreamIff(c: Conn, a: Act)
    requires Stream(c) && Written(a)
    ensures HarmlessHere(c, a) <==> forall m: int -> byte :: Stream(Perform(c, Beside(a, m)))
  {
    if !IsSend(a) {
      OthersKeepStream(c, a);
      assert forall m: int -> byte :: Beside(a, m) == a;
    } else if c.state == Connected {
      var d := if a.Send? then c else Arrived(c, a.bytes).(input := []);
      var data := if a.Send? then a.data else c.input + a.bytes;
      TextKeepsStreamIff(d, data, a.w, a.t);
      forall m: int -> byte ensures IntactWith(d, data, a.w, a.t, m) <==> Stream(Perform(c, Beside(a, m))) {
        assert Perform(c, Beside(a, m)) == SendInLoopText(d, data, a.w, a.t.(around := m));
      }
    }
  }

  /** As written, a run keeps the stream at all times, whatever lies around the data of its sends,
      exactly when each of its sends is harmless when its turn comes. */
  lemma {:induction false} RunKeepsStreamIff(c: Conn, acts: seq<Act>)
    requires Stream(c) && forall a <- acts :: Written(a)
    ensures StreamAlways(c, acts) <==> AllHarmless(c, acts)
    decreases |acts|
  {
    if acts != [] {
      var a, rest := acts[0], acts[1..];
      ActKeepsStreamIff(c, a);
      if HarmlessHere(c, a) {
        var d := Perform(c, a);
        forall m: int -> byte ensures Perform(c, Beside(a, m)) == d {
          ActIsBlind(c, a, m);
        }
        var m: int -> byte := k => 0;
        assert Perform(c, Beside(a, m)) == d && Stream(d);
        RunKeepsStreamIff(d, rest);
        assert StreamAlways(c, acts) ==> StreamAfter(c, acts, m);
        assert forall m: int -> byte :: StreamAfter(c, acts, m) <==> StreamAlways(d, rest);
      } else {
        var m: int -> byte :| !Stream(Perform(c, Beside(a, m)));
        assert !StreamAfter(c, acts, m);
      }
    }
  }

  // ---------------------------------------------------------------- the echo

  /** What the echo lets happen to a connection: answers while it is up, drains, and its end. */
  predicate EchoAct(a: Act, up: bool) {
    Written(a) && ((a.Answer? && up && a.bytes != []) || a.Drain? || a.Close? || a.Destroy?)
  }

  predicate StaysUp(a: Act) {
    !a.Close? && !a.Destroy?
  }

  /** A run of the echo, from when the connection is established. */
  predicate EchoActs(acts: seq<Act>, up: bool)
    decreases |acts|
  {
    acts == [] || (EchoAct(acts[0], up) && EchoActs(acts[1..], up && StaysUp(acts[0])))
  }

  predicate Echoes(c: Conn) {
    c.delivered + c.output == c.received
  }

  /** At all times, whatever lies around: what was sent back and what waits is what arrived. */
  ghost predicate EchoAlways(c: Conn, acts: seq<Act>)
    decreases |acts|
  {
    acts == [] || forall m: int -> byte :: EchoAfter(c, acts, m)
  }

  ghost predicate EchoAfter(c: Conn, acts: seq<Act>, m: int -> byte)
    requires acts != []
    decreases |acts|, 0
  {
    var d := Perform(c, Beside(acts[0], m));
    Echoes(d) && EchoAlways(d, acts[1..])
  }

  predicate EchoReady(c: Conn, up: bool) {
    c.state == (if up then Connected else Disconnected) && c.input == [] && Stream(c) && c.accepted == c.received
  }

  /** Drains and the end of the connection, whatever the callbacks do then, leave the echo intact. */
  lemma OthersEcho(c: Conn, a: Act, up: bool)
    requires EchoReady(c, up) && (a.Drain? || a.Close? || a.Destroy?)
    ensures EchoReady(Perform(c, a), up && StaysUp(a)) && Echoes(Perform(c, a))
  {
    OthersKeepStream(c, a);
    if !StaysUp(a) {
      EndKeepsStream(c, a);
    }
  }

  /** What an answer leaves: too much output after a failed direct write, and otherwise all that
      arrived accepted. */
  lemma AnswerLeaves(c: Conn, a: Act, after: Conn)
    requires EchoReady(c, true) && a.Answer? && a.bytes != [] && Written(a) && after == Perform(c, a)
    ensures after.received == c.received + a.bytes && after.input == [] && after.state == Connected
    ensures Idle(c) && a.w.WriteFailed? ==> !Echoes(after)
    ensures !(Idle(c) && a.w.WriteFailed?) ==> after.accepted == after.received
  {
    var d := Arrived(c, a.bytes).(input := []);
    assert c.input + a.bytes == a.bytes;
    TextEffect(d, a.bytes, a.w, a.t);
    AnswerFrame(d, after, a.bytes, a.w, a.t);
    if Idle(c) && a.w.WriteFailed? {
      assert |after.delivered| + |after.output| == |after.received| + 1;
    }
  }

  lemma AnswerFrame(c: Conn, after: Conn, data: seq<byte>, w: WriteResult, t: Text)
    requires after == SendInLoopText(c, data, w, t)
    ensures after.received == c.received && after.input == c.input && after.state == c.state
  {
    var d := DirectWrite(c, data, w, t);
    TriedFrame(c, data, w);
    if after != d {
      var rest :| after == Enqueue(d, rest);
      EnqueueFrame(d, rest);
    }
  }

  lemma TriedFrame(c: Conn, data: seq<byte>, w: WriteResult)
    ensures var d := Tried(c, data, w); d.received == c.received && d.input == c.input && d.state == c.state
  {
  }

  lemma EnqueueFrame(c: Conn, rest: seq<byte>)
    ensures var d := Enqueue(c, rest); d.received == c.received && d.input == c.input && d.state == c.state
  {
  }

  lemma AnswerEchoesIff(c: Conn, a: Act)
    requires EchoReady(c, true) && a.Answer? && a.bytes != [] && Written(a)
    ensures HarmlessHere(c, a) <==> forall m: int -> byte :: Echoes(Perform(c, Beside(a, m)))
    ensures HarmlessHere(c, a) ==> EchoReady(Perform(c, a), true)
  {
    ActKeepsStreamIff(c, a);
    forall m: int -> byte
      ensures Echoes(Perform(c, Beside(a, m))) <==>
        !(Idle(c) && a.w.WriteFailed?) && Stream(Perform(c, Beside(a, m)))
    {
      AnswerLeaves(c, Beside(a, m), Perform(c, Beside(a, m)));
    }
    AnswerLeaves(c, a, Perform(c, a));
    assert c.input + a.bytes == a.bytes;
    if HarmlessHere(c, a) {
      var m: int -> byte := k => 0;
      ActIsBlind(c, a, m);
      assert Stream(Perform(c, Beside(a, m)));
    } else if Idle(c) && a.w.WriteFailed? {
      var m: int -> byte := k => 0;
      assert !Echoes(Perform(c, Beside(a, m)));
    }
  }

  /** As written, the echo gives every peer back exactly what it sent, at all times from when it is up
      until it is destroyed and whatever lies around the data, exactly when each of its sends is
      harmless when its turn comes. */
  lemma {:induction false} EchoKeptIff(c: Conn, acts: seq<Act>, up: bool)
    requires EchoReady(c, up) && EchoActs(acts, up)
    ensures EchoAlways(c, acts) <==> AllHarmless(c, acts)
    decreases |acts|
  {
    if acts != [] {
      var a, rest := acts[0], acts[1..];
      var d := Perform(c, a);
      if a.Answer? {
        AnswerEchoesIff(c, a);
      } else {
        OthersEcho(c, a, up);
      }
      if HarmlessHere(c, a) {
        forall m: int -> byte ensures Perform(c, Beside(a, m)) == d {
          ActIsBlind(c, a, m);
        }
        EchoKeptIff(d, rest, up && StaysUp(a));
        var m: int -> byte := k => 0;
        assert Perform(c, Beside(a, m)) == d && Echoes(d);
        assert EchoAlways(c, acts) ==> EchoAfter(c, acts, m);
        assert forall m: int -> byte :: EchoAfter(c, acts, m) <==> EchoAlways(d, rest);
      } else {
        var m: int -> byte :| !Echoes(Perform(c, Beside(a, m)));
        assert !EchoAfter(c, acts, m);
      }
    }
  }
}
