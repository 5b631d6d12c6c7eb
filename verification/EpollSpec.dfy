/** Event masks, interest changes and the order of callbacks, for one channel as a value. */
module EpollSpec {

  /** A mask of the five event bits the code names. */
  datatype Mask = Mask(pollIn: bool, pollPri: bool, pollOut: bool, pollErr: bool, pollHup: bool) {
    function Or(m: Mask): Mask {
      Mask(pollIn || m.pollIn, pollPri || m.pollPri, pollOut || m.pollOut,
           pollErr || m.pollErr, pollHup || m.pollHup)
    }

    function Minus(m: Mask): Mask {
      Mask(pollIn && !m.pollIn, pollPri && !m.pollPri, pollOut && !m.pollOut,
           pollErr && !m.pollErr, pollHup && !m.pollHup)
    }

    predicate Meets(m: Mask) {
      || (pollIn && m.pollIn) || (pollPri && m.pollPri) || (pollOut && m.pollOut)
      || (pollErr && m.pollErr) || (pollHup && m.pollHup)
    }
  }

  const NONE_EVENT := Mask(false, false, false, false, false)
  const READ_EVENT := Mask(true, true, false, false, false)
  const WRITE_EVENT := Mask(false, false, true, false, false)

  datatype Index = New | Added | Deleted

  datatype Interest = EnableReading | DisableReading | EnableWriting | DisableWriting | DisableAll

  function Wanted(i: Interest, events: Mask): Mask {
    match i
    case EnableReading => events.Or(READ_EVENT)
    case DisableReading => events.Minus(READ_EVENT)
    case EnableWriting => events.Or(WRITE_EVENT)
    case DisableWriting => events.Minus(WRITE_EVENT)
    case DisableAll => NONE_EVENT
  }

  /** What a channel can ask of its poller: `update` after an interest change, and `remove`. */
  datatype Ask = Wants(interest: Interest) | Leaves

  /** A channel, as far as the poller sees it, and the history of what it asked. */
  datatype Chan = Chan(index: Index, events: Mask, asks: seq<Ask>) {
    predicate IsReading() {
      events.Meets(READ_EVENT)
    }

    predicate IsWriting() {
      events.Meets(WRITE_EVENT)
    }
  }

  const NEW_CHAN := Chan(New, NONE_EVENT, [])

  /** The index a channel has after `updateChannel`. */
  function Updated(c: Chan): Chan {
    c.(index := if c.index == Added && c.events == NONE_EVENT then Deleted else Added)
  }

  /** A channel after its interest changed and the poller was told. */
  function Changed(i: Interest, c: Chan): Chan {
    Updated(c.(events := Wanted(i, c.events), asks := c.asks + [Wants(i)]))
  }

  /** A channel after it left the poller. */
  function Left(c: Chan): Chan {
    c.(index := New, asks := c.asks + [Leaves])
  }

  // ---------------------------------------------------------------- dispatch order

  datatype Callback = OnError | OnRead | OnWrite | OnClose

  /** The callbacks one returned mask triggers, in order. */
  function Callbacks(m: Mask): seq<Callback> {
    (if m.pollErr then [OnError] else [])
    + (if m.pollIn || m.pollPri then [OnRead] else [])
    + (if m.pollOut then [OnWrite] else [])
    + (if m.pollHup && !m.pollIn then [OnClose] else [])
  }
}
