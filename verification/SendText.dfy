/** The text of `sendInLoop` against its evident intent. */
module SendText {
  import opened Common
  import opened EpollSpec
  import opened ConnSpec
  import opened ConnRuns
  import ConnSteps

  /** With `nwrote` starting at 0 and the sign tested, the text is the intent. */
  lemma IntentIsSendInLoop(c: Conn, data: seq<byte>, w: WriteResult)
    ensures SendInLoopText(c, data, w, INTENT) == SendInLoop(c, data, w)
  {
    if Idle(c) && w.Room? {
      var n := w.Taken(|data|);
      assert Memory(data, INTENT, n, |data| - n) == data[n..];
    } else {
      assert Memory(data, INTENT, 0, |data|) == data;
    }
  }

  /** When the text, as written, sends the right bytes.  With nothing waiting, the direct write
      must not fail, nor take nothing of a non-empty send while errno is left over from an earlier
      fault; with output waiting, the uninitialised offset must happen to be 0, unless there is
      nothing to send. */
  predicate Harmless(c: Conn, data: seq<byte>, w: WriteResult, t: Text) {
    if Idle(c) then w.Room? && (w.room == 0 && data != [] ==> t.stale != EPIPE && t.stale != ECONNRESET)
    else t.junk == 0 || data == []
  }

  /** The stream is intact after the text ran with that memory around the caller's data. */
  ghost predicate IntactWith(c: Conn, data: seq<byte>, w: WriteResult, t: Text, around: int -> byte) {
    Stream(SendInLoopText(c, data, w, t.(around := around)))
  }

  /** The stream every send owes: taken over and, in order, either delivered or waiting. */
  lemma TextEffect(c: Conn, data: seq<byte>, w: WriteResult, t: Text)
    requires AsWritten(t) && Stream(c)
    ensures var d := SendInLoopText(c, data, w, t);
      if !Idle(c) then
        && d.delivered == c.delivered && d.accepted == c.accepted + data
        && d.output == c.output + Memory(data, t, t.junk, |data|)
      else if w.WriteFailed? then
        && d.delivered == c.delivered
        && d.accepted == c.accepted + (if w.errno == EPIPE || w.errno == ECONNRESET then [] else data)
        && d.output == Memory(data, t, -1, |data| + 1)
      else
        var n := w.Taken(|data|);
        && d.delivered == c.delivered + data[..n] && d.accepted == c.accepted + data
        && d.output == if n == 0 && (t.stale == EPIPE || t.stale == ECONNRESET) then [] else data[n..]
  {
    if Idle(c) && w.Room? {
      RoomEffect(c, data, w, t);
    } else if Idle(c) {
      assert c.output == [];
    }
  }

  lemma RoomEffect(c: Conn, data: seq<byte>, w: WriteResult, t: Text)
    requires AsWritten(t) && Idle(c) && w.Room?
    ensures var d, n := SendInLoopText(c, data, w, t), w.Taken(|data|);
      && d.delivered == c.delivered + data[..n] && d.accepted == c.accepted + data
      && d.output == if n == 0 && (t.stale == EPIPE || t.stale == ECONNRESET) then [] else data[n..]
  {
    var n := w.Taken(|data|);
    assert Memory(data, t, n, |data| - n) == data[n..];
    assert Memory(data, t, 0, |data|) == data;
  }

  /** What the text announces and asks for: completion only of a direct write that took all of a
      non-empty send, a climb over 64 MiB with the size waiting, whatever bytes these are; and write
      events with every byte buffered. */
  lemma TextNotices(c: Conn, data: seq<byte>, w: WriteResult, t: Text)
    requires AsWritten(t)
    ensures var d := SendInLoopText(c, data, w, t);
      && d.notes == c.notes
                    + ConnSteps.SendNotices(c, |d.output|, Idle(c) && w.Room? && 0 < w.Taken(|data|) == |data|)
      && (d.chan.events.pollOut <==> c.chan.events.pollOut || |d.output| > |c.output|)
      && |c.output| <= |d.output| && c.output == d.output[..|c.output|]
  {
    var d := DirectWrite(c, data, w, t);
    var e := SendInLoopText(c, data, w, t);
    assert d.output == c.output && d.chan == c.chan;
    if e != d {
      var rest :| e == Enqueue(d, rest);
      EnqueueNotices(d, rest);
    }
  }

  lemma EnqueueNotices(c: Conn, rest: seq<byte>)
    ensures var d := Enqueue(c, rest);
      && d.notes == c.notes + ConnSteps.SendNotices(c, |d.output|, false)
      && (d.chan.events.pollOut <==> c.chan.events.pollOut || |d.output| > |c.output|)
      && d.output == c.output + rest
  {
  }

  /** As written, a send leaves the stream intact whatever lies around the data exactly when it is
      harmless. */
  lemma TextKeepsStreamIff(c: Conn, data: seq<byte>, w: WriteResult, t: Text)
    requires AsWritten(t) && Stream(c)
    ensures Harmless(c, data, w, t) <==> forall m: int -> byte :: IntactWith(c, data, w, t, m)
  {
    if Harmless(c, data, w, t) {
      forall m: int -> byte
        ensures IntactWith(c, data, w, t, m)
      {
        HarmlessIsIntact(c, data, w, t, m);
      }
    } else {
      var i := if t.junk > 0 then |data| - 1 else 0;
      var bad: byte := if data != [] && data[i] == 0 then 1 else 0;
      var m := (k: int) => bad;
      var u := t.(around := m);
      TextEffect(c, data, w, u);
      var d := SendInLoopText(c, data, w, u);
      if Idle(c) {
        assert |d.delivered| + |d.output| != |d.accepted|;
      } else {
        var got := Memory(data, u, t.junk, |data|);
        assert got[i] == bad != data[i];
        var at := |c.delivered| + |c.output| + i;
        assert (d.delivered + d.output)[at] == got[i];
        assert d.accepted[at] == data[i];
      }
      assert !IntactWith(c, data, w, t, m);
    }
  }

  lemma HarmlessIsIntact(c: Conn, data: seq<byte>, w: WriteResult, t: Text, m: int -> byte)
    requires AsWritten(t) && Stream(c) && Harmless(c, data, w, t)
    ensures IntactWith(c, data, w, t, m)
  {
    TextEffect(c, data, w, t.(around := m));
    if Idle(c) {
      SplitStream(c, data, w);
    } else {
      WaitingStream(c, data, t.(around := m));
    }
  }

  lemma WaitingStream(c: Conn, data: seq<byte>, t: Text)
    requires Stream(c) && (t.junk == 0 || data == [])
    ensures c.delivered + (c.output + Memory(data, t, t.junk, |data|)) == c.accepted + data
  {
    assert Memory(data, t, t.junk, |data|) == data;
    assert c.delivered + (c.output + data) == c.delivered + c.output + data;
  }

  lemma SplitStream(c: Conn, data: seq<byte>, w: WriteResult)
    requires Stream(c) && Idle(c) && w.Room?
    ensures c.delivered + data[..w.Taken(|data|)] + data[w.Taken(|data|)..] == c.accepted + data
  {
    var n := w.Taken(|data|);
    assert c.delivered == c.accepted by {
      assert c.delivered + [] == c.delivered;
    }
    assert data[..n] + data[n..] == data;
    assert c.delivered + data[..n] + data[n..] == c.delivered + (data[..n] + data[n..]);
  }

  /** A harmless send does exactly what is meant, except that an empty direct send does not
      announce completion. */
  lemma HarmlessTextIsIntent(c: Conn, data: seq<byte>, w: WriteResult, t: Text)
    requires AsWritten(t) && Harmless(c, data, w, t)
    ensures SendInLoopText(c, data, w, t) ==
      if Idle(c) && data == [] && c.wantsComplete then
        SendInLoop(c, data, w).(notes := c.notes)
      else SendInLoop(c, data, w)
  {
    if Idle(c) {
      var n := w.Taken(|data|);
      assert Memory(data, t, n, |data| - n) == data[n..];
      assert Memory(data, t, 0, |data|) == data;
    } else {
      assert data != [] ==> Memory(data, t, 0, |data|) == data;
    }
  }

  /** The case in point: the first send on a fresh connection finds the socket full.  What is
      buffered starts with a byte the caller never gave, and even EPIPE is buffered that way. */
  lemma TextBreaksStream(t: Text, a: byte, b: byte, e: Errno)
    requires AsWritten(t)
    ensures var c := ConnectEstablished(Fresh(false), []);
      var d := SendInLoopText(c, [a, b], WriteFailed(e), t);
      d.output == [t.around(-1), a, b] && d.delivered == [] && !Stream(d)
  {
    var c := ConnectEstablished(Fresh(false), []);
    assert c == SetInterest(MarkUp(Fresh(false)), EnableReading) && Idle(c) && Stream(c);
    TextEffect(c, [a, b], WriteFailed(e), t);
    assert Memory([a, b], t, -1, 3) == [t.around(-1), a, b];
    assert |SendInLoopText(c, [a, b], WriteFailed(e), t).accepted| <= 2;
  }
}
