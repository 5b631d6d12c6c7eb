/** Channels and the epoll poller they register with. */
module Epoll {
  import opened EpollSpec
  import opened Registration

  class Channel {
    const fd: int
    const poller: EpollPoller
    var events: Mask
    var revents: Mask
    var index: Index
    var tied: bool
    ghost var asks: seq<Ask>

    /** The poller learns, as a ghost, that the channel exists; it is not registered yet. */
    constructor (poller: EpollPoller, fd: int)
      requires poller.Valid() && fd !in poller.all
      modifies poller`all
      ensures this.poller == poller && this.fd == fd && !tied
      ensures poller.Valid() && poller.all == old(poller.all)[fd := this]
      ensures poller.View() == old(poller.View()).(chans := old(poller.View()).chans[fd := NEW_CHAN])
      ensures Valid() && View() == NEW_CHAN
    {
      this.fd, this.poller := fd, poller;
      events, revents, index, tied := NONE_EVENT, NONE_EVENT, New, false;
      asks := [];
      new;
      poller.all := poller.all[fd := this];
    }

    /** Known to its poller, and new exactly while it is not in the poller's table. */
    ghost predicate Valid()
      reads this, poller
    {
      && poller.Valid() && fd in poller.all && poller.all[fd] == this
      && (index == New <==> fd !in poller.channels)
    }

    ghost function View(): Chan
      reads this`events, this`index, this`asks
    {
      Chan(index, events, asks)
    }

    predicate IsWriting()
      reads this`events
      ensures IsWriting() == View().IsWriting()
    {
      events.Meets(WRITE_EVENT)
    }

    predicate IsReading()
      reads this`events
      ensures IsReading() == View().IsReading()
    {
      events.Meets(READ_EVENT)
    }

    /** Every interest change: the new events, then `update`. */
    method SetInterest(i: Interest)
      requires Valid()
      modifies this`events, this`index, this`asks, poller`channels, poller`kernel, poller`refused
      ensures Valid()
      ensures poller.View() == ChangeInterest(old(poller.View()), fd, i)
      ensures View() == Changed(i, old(View()))
    {
      ghost var before := poller.View();
      events := Wanted(i, events);
      asks := asks + [Wants(i)];
      poller.OnlyOneChanged(this);
      assert poller.View() == before.(chans := before.chans[fd := View()]);
      poller.UpdateChannel(this);
    }

    method EnableReading()
      requires Valid()
      modifies this`events, this`index, this`asks, poller`channels, poller`kernel, poller`refused
      ensures Valid()
      ensures poller.View() == ChangeInterest(old(poller.View()), fd, Interest.EnableReading)
      ensures View() == Changed(Interest.EnableReading, old(View()))
    {
      SetInterest(Interest.EnableReading);
    }

    method DisableReading()
      requires Valid()
      modifies this`events, this`index, this`asks, poller`channels, poller`kernel, poller`refused
      ensures Valid()
      ensures poller.View() == ChangeInterest(old(poller.View()), fd, Interest.DisableReading)
      ensures View() == Changed(Interest.DisableReading, old(View()))
    {
      SetInterest(Interest.DisableReading);
    }

    method EnableWriting()
      requires Valid()
      modifies this`events, this`index, this`asks, poller`channels, poller`kernel, poller`refused
      ensures Valid()
      ensures poller.View() == ChangeInterest(old(poller.View()), fd, Interest.EnableWriting)
      ensures View() == Changed(Interest.EnableWriting, old(View()))
    {
      SetInterest(Interest.EnableWriting);
    }

    method DisableWriting()
      requires Valid()
      modifies this`events, this`index, this`asks, poller`channels, poller`kernel, poller`refused
      ensures Valid()
      ensures poller.View() == ChangeInterest(old(poller.View()), fd, Interest.DisableWriting)
      ensures View() == Changed(Interest.DisableWriting, old(View()))
    {
      SetInterest(Interest.DisableWriting);
    }

    method DisableAll()
      requires Valid()
      modifies this`events, this`index, this`asks, poller`channels, poller`kernel, poller`refused
      ensures Valid()
      ensures poller.View() == ChangeInterest(old(poller.View()), fd, Interest.DisableAll)
      ensures View() == Changed(Interest.DisableAll, old(View()))
    {
      SetInterest(Interest.DisableAll);
    }

    method Remove()
      requires Valid()
      modifies this`index, this`asks, poller`channels, poller`kernel, poller`refused
      ensures Valid()
      ensures poller.View() == Leave(old(poller.View()), fd)
      ensures View() == Left(old(View()))
    {
      ghost var before := poller.View();
      asks := asks + [Leaves];
      poller.OnlyOneChanged(this);
      assert poller.View() == before.(chans := before.chans[fd := View()]);
      poller.RemoveChannel(this);
    }

    /** The callbacks to run, in order: none when the channel is tied and its owner is gone. */
    method HandleEvent(ownerAlive: bool) returns (calls: seq<Callback>)
      ensures calls == if tied && !ownerAlive then [] else Callbacks(revents)
    {
      calls := [];
      if tied {
        if ownerAlive {
          calls := HandleEventWithGuard();
        }
      } else {
        calls := HandleEventWithGuard();
      }
    }

    method HandleEventWithGuard() returns (calls: seq<Callback>)
      ensures calls == Callbacks(revents)
      ensures OnError in calls <==> revents.pollErr
      ensures OnRead in calls <==> revents.pollIn || revents.pollPri
      ensures OnWrite in calls <==> revents.pollOut
      ensures OnClose in calls <==> revents.pollHup && !revents.pollIn
    {
      calls := [];
      if revents.pollErr {
        calls := calls + [OnError];
      }
      if revents.Meets(READ_EVENT) {
        calls := calls + [OnRead];
      }
      if revents.pollOut {
        calls := calls + [OnWrite];
      }
      if revents.pollHup && !revents.pollIn {
        calls := calls + [OnClose];
      }
    }
  }

  class EpollPoller {
    var channels: map<int, Channel>
    ghost var all: map<int, Channel>
    ghost var kernel: map<int, Mask>
    ghost var refused: nat

    constructor ()
      ensures Valid() && all == map[] && View() == EMPTY
    {
      channels, all, kernel, refused := map[], map[], map[], 0;
    }

    ghost predicate Valid()
      reads this
    {
      && (forall fd <- all :: all[fd].fd == fd && all[fd].poller == this)
      && (forall fd <- channels :: fd in all && channels[fd] == all[fd])
    }

    ghost function View(): Registry
      reads this, all.Values`events, all.Values`index, all.Values`asks
    {
      Registry(map fd <- all :: all[fd].View(), channels.Keys, kernel, refused)
    }

    /** When only `c` changed, only its entry of the view did. */
    twostate lemma OnlyOneChanged(c: Channel)
      requires old(Valid()) && old(all) == all && c.fd in all && all[c.fd] == c
      requires forall d <- all.Values :: d != c ==> old(d.View()) == d.View()
      ensures View().chans == old(View()).chans[c.fd := c.View()]
    {
      forall fd <- all | fd != c.fd
        ensures View().chans[fd] == old(View()).chans[fd]
      {
        assert all[fd] in all.Values && all[fd] != c;
      }
    }

    /** The poller learns, as a ghost, that a channel outside its table was destroyed. */
    ghost method Drop(c: Channel)
      requires c.Valid() && c.poller == this && c.index == New
      modifies this`all
      ensures Valid() && all == old(all) - {c.fd}
      ensures Owed(old(View()), Registration.Drop(c.fd)) && View() == Do(old(View()), Registration.Drop(c.fd))
    {
      all := all - {c.fd};
    }

    method UpdateChannel(c: Channel)
      requires Valid() && c.fd in all && all[c.fd] == c
      modifies c`index, this`channels, this`kernel, this`refused
      ensures Valid()
      ensures View() == Registration.UpdateChannel(old(View()), c.fd)
      ensures c.View() == Updated(old(c.View()))
      ensures channels.Keys == old(channels.Keys) + if old(c.index) == New then {c.fd} else {}
    {
      var index := c.index;
      if index == New || index == Deleted {
        if index == New {
          channels := channels[c.fd := c];
        }
        c.index := Added;
        Update(Add, c);
      } else if c.events == NONE_EVENT {
        Update(Del, c);
        c.index := Deleted;
      } else {
        Update(Mod, c);
      }
      OnlyOneChanged(c);
    }

    method RemoveChannel(c: Channel)
      requires Valid() && c.fd in all && all[c.fd] == c
      modifies c`index, this`channels, this`kernel, this`refused
      ensures Valid()
      ensures View() == Registration.RemoveChannel(old(View()), c.fd)
      ensures c.index == if c.fd in old(channels) then New else old(c.index)
      ensures channels.Keys == old(channels.Keys) - {c.fd}
    {
      if c.fd in channels {
        channels := channels - {c.fd};
        if c.index == Added {
          Update(Del, c);
        }
        c.index := New;
        OnlyOneChanged(c);
      }
    }

    /** The system call, on the ghost interest set. */
    method Update(op: CtlOp, c: Channel)
      requires Valid() && c.fd in all && all[c.fd] == c
      modifies this`kernel, this`refused
      ensures Valid()
      ensures var r := Ctl(Watching(old(kernel), old(refused)), op, c.fd, c.events);
        kernel == r.kernel && refused == r.refused
    {
      if (op == Add) == (c.fd in kernel) {
        refused := refused + 1;
      } else if op == Del {
        kernel := kernel - {c.fd};
      } else {
        kernel := kernel[c.fd := c.events];
      }
    }

    /** Stores every returned mask in its channel and lists the channels in the order returned.
        The kernel returns each channel at most once. */
    method FillActiveChannels(ready: seq<(Channel, Mask)>) returns (active: seq<Channel>)
      requires forall i, j :: 0 <= i < j < |ready| ==> ready[i].0 != ready[j].0
      modifies (set i | 0 <= i < |ready| :: ready[i].0)`revents
      ensures |active| == |ready|
      ensures forall i :: 0 <= i < |ready| ==> active[i] == ready[i].0 && active[i].revents == ready[i].1
    {
      active := [];
      var i := 0;
      while i < |ready|
        invariant i == |active| <= |ready|
        invariant forall k :: 0 <= k < i ==> active[k] == ready[k].0 && active[k].revents == ready[k].1
      {
        var (channel, mask) := ready[i];
        channel.revents := mask;
        active := active + [channel];
        i := i + 1;
      }
    }
  }
}
