/**
 events/bus.go: the bus itself. Each critical section is one method, and does what the step of
 the same name in BusModel does, so what is proved there of all interleavings holds of it.
 */
module EventBus {
  import opened GoStrings
  import opened BusModel

  /** A Go channel. What would panic or block is ruled out by the preconditions. */
  class Chan {
    ghost const id: nat
    const capacity: nat
    var buffer: seq<Event>
    var closed: bool

    constructor (capacity: nat, ghost id: nat)
      ensures View() == Channel(capacity, [], false, false) && this.id == id
    {
      this.id, this.capacity, buffer, closed := id, capacity, [], false;
    }

    function View(): Channel
      reads this
    {
      Channel(capacity, buffer, closed, false)
    }

    method TrySend(e: Event)
      requires !View().closed
      modifies this
      ensures View() == Offer(old(View()), e)
    {
      if |buffer| < capacity { buffer := buffer + [e]; }
    }

    method Send(e: Event)
      requires !View().closed && |View().buffer| < View().capacity
      modifies this
      ensures View() == Push(old(View()), e)
    {
      buffer := buffer + [e];
    }

    method Close()
      requires !View().closed
      modifies this
      ensures View() == Shut(old(View()))
    {
      closed := true;
    }
  }

  lemma NewParts(b: BusModel.Bus, pred: Predicate, buffer: int)
    ensures var s := Subscribed(b, buffer);
      && s.closed == b.closed && s.nextID == b.nextID + 1 && s.subs == b.subs + {b.nextID} && s.waiters == b.waiters
      && s.channels == b.channels[b.nextID := Channel(if buffer <= 0 then 1 else buffer, [], false, false)]
    ensures var r := Registered(b, pred);
      && r.closed == b.closed && r.nextID == b.nextID + 1 && r.subs == b.subs
      && r.waiters == b.waiters[b.nextID := pred]
      && r.channels == b.channels[b.nextID := Channel(1, [], false, false)]
  {
  }

  lemma ClosedStays(b: BusModel.Bus)
    ensures b.closed ==> Closed(b) == b
  {
  }

  lemma ClosedParts(b: BusModel.Bus)
    requires Sound(b) && !b.closed
    ensures var c := Closed(b);
      && c.closed && c.nextID == b.nextID && c.subs == {} && c.waiters == map[] && c.channels.Keys == b.channels.Keys
    ensures forall id | id in b.channels ::
      Closed(b).channels[id] == if id in b.subs || id in b.waiters then Shut(b.channels[id]) else b.channels[id]
  {
    hide Shut;
    forall id | id in b.channels
      ensures Closed(b).channels[id] == if id in b.subs || id in b.waiters then Shut(b.channels[id]) else b.channels[id]
    {
      assert SoundAt(b, id);
    }
  }

  datatype Waiter = Waiter(pred: Predicate, ch: Chan)

  class Bus {
    var closed: bool
    var nextID: nat
    var subs: map<nat, Chan>
    var waiters: map<nat, Waiter>
    ghost var channels: map<nat, Chan>
    ghost var made: set<Chan>

    ghost function View(): BusModel.Bus
      requires Linked()
      reads this, made
    {
      BusModel.Bus(closed, nextID, subs.Keys, map id | id in waiters :: waiters[id].pred,
                   map id | id in channels :: channels[id].View())
    }

    ghost predicate Linked()
      reads this
    {
      && (forall id | id in subs :: id in channels && channels[id] == subs[id])
      && (forall id | id in waiters :: id in channels && channels[id] == waiters[id].ch)
      && (forall id | id in channels :: channels[id] in made && channels[id].id == id)
    }

    ghost predicate Valid()
      reads this, made
    {
      Linked() && Sound(View())
    }

    constructor ()
      ensures Valid() && View() == NEW_BUS
    {
      closed, nextID, subs, waiters, channels, made := false, 0, map[], map[], map[], {};
      new;
      NewIsSound();
    }

    method Subscribe(buffer: int) returns (sub: Option<Subscription>)
      requires Valid()
      modifies this
      ensures Valid()
      ensures sub.None? <==> old(closed)
      ensures View() == if old(closed) then old(View()) else Subscribed(old(View()), buffer)
      ensures sub.Some? ==> var s := sub.value;
        fresh(s) && s.bus == this && s.id == old(nextID) && s.id in subs && s.Attached() && !s.done
    {
      hide Sound, Chan.View, View, Subscribed, Linked;
      var capacity := if buffer <= 0 then 1 else buffer;
      if closed { return None; }
      Allocated();
      var ch := new Chan(capacity, nextID);
      var s := new Subscription(this, nextID, ch);
      AddSub(ch, buffer);
      OpenChannel(s.id);
      sub := Some(s);
    }

    /** A channel that is on no table is closed. */
    lemma OthersShut()
      requires Valid()
      ensures forall id | id in channels && id !in subs && id !in waiters :: channels[id].View().closed
    {
      forall id | id in channels && id !in subs && id !in waiters
        ensures channels[id].View().closed
      {
        assert SoundAt(View(), id);
      }
    }

    lemma ClosedIsEmpty()
      requires Valid() && closed
      ensures subs == map[] && waiters == map[]
    {
      assert View().subs == {} && View().waiters == map[];
    }

    ghost method Enlist(ch: Chan)
      requires Linked() && ch.id == nextID && nextID !in channels && nextID !in subs && nextID !in waiters
      modifies this`channels, this`made
      ensures Linked() && channels == old(channels)[nextID := ch]
      ensures forall id | id in old(channels) :: channels[id].View() == old(channels[id].View())
    {
      channels, made := channels[nextID := ch], made + {ch};
    }

    method AddSub(ch: Chan, ghost buffer: int)
      requires Valid() && !closed
      requires ch.id == nextID && ch.View() == Channel(if buffer <= 0 then 1 else buffer, [], false, false)
      modifies this
      ensures Valid() && View() == Subscribed(old(View()), buffer)
      ensures old(nextID) in channels && channels[old(nextID)] == ch && old(nextID) in subs
    {
      hide Sound, Chan.View, View, Subscribed;
      ghost var start := View();
      Parts();
      SoundNew(start, None, buffer);
      Unused();
      NewParts(start, None, buffer);
      Enlist(ch);
      subs := subs[nextID := ch];
      nextID := nextID + 1;
      Viewed(Subscribed(start, buffer));
    }

    method AddWaiter(ch: Chan, pred: Predicate)
      requires Valid() && !closed
      requires ch.id == nextID && ch.View() == Channel(1, [], false, false)
      modifies this
      ensures Valid() && View() == Registered(old(View()), pred)
      ensures old(nextID) in channels && channels[old(nextID)] == ch
    {
      hide Sound, Chan.View, View, Registered;
      ghost var start := View();
      Parts();
      SoundNew(start, pred, 0);
      Unused();
      NewParts(start, pred, 0);
      Enlist(ch);
      waiters := waiters[nextID := Waiter(pred, ch)];
      nextID := nextID + 1;
      Viewed(Registered(start, pred));
    }

    lemma Allocated()
      ensures forall c | c in made :: allocated(c)
    {
    }

    lemma Unused()
      requires Valid()
      ensures nextID !in channels && nextID !in subs && nextID !in waiters
    {
      assert SoundAt(View(), nextID);
    }

    lemma OpenChannel(id: nat)
      requires Valid() && (id in subs || id in waiters)
      ensures id in channels && !channels[id].View().closed && !(id in subs && id in waiters)
      ensures id in waiters ==> channels[id].View() == Channel(1, [], false, false)
    {
      assert SoundAt(View(), id);
    }

    lemma Parts()
      requires Linked()
      ensures var b := View();
        && b.closed == closed && b.nextID == nextID && b.subs == subs.Keys
        && b.waiters.Keys == waiters.Keys && b.channels.Keys == channels.Keys
      ensures forall id | id in waiters :: View().waiters[id] == waiters[id].pred
      ensures forall id | id in channels :: View().channels[id] == channels[id].View()
    {
      hide Chan.View;
    }

    /** The view is what its parts are. */
    lemma Viewed(b: BusModel.Bus)
      requires Linked()
      requires b.closed == closed && b.nextID == nextID && b.subs == subs.Keys
      requires b.waiters.Keys == waiters.Keys && forall id | id in waiters :: b.waiters[id] == waiters[id].pred
      requires b.channels.Keys == channels.Keys && forall id | id in channels :: b.channels[id] == channels[id].View()
      ensures View() == b
    {
      hide Chan.View;
      assert View().waiters == b.waiters;
      assert View().channels == b.channels;
    }

    /** The first loop of Emit. */
    method OfferAll(e: Event)
      requires Linked() && forall id | id in subs :: !channels[id].View().closed
      modifies made
      ensures forall id | id in channels ::
        channels[id].View() == if id in subs then Offer(old(channels[id].View()), e) else old(channels[id].View())
    {
      hide Offer, Chan.View;
      var todo := subs.Keys;
      while todo != {}
        invariant todo <= subs.Keys
        invariant forall id | id in channels ::
          channels[id].View() == if id in subs && id !in todo then Offer(old(channels[id].View()), e)
              else old(channels[id].View())
      {
        var id :| id in todo;
        assert channels[id] == subs[id] && channels[id].View() == old(channels[id].View());
        subs[id].TrySend(e);
        todo := todo - {id};
      }
    }

    /** The second loop of Emit. */
    method NotifyAll(e: Event)
      requires Linked()
      requires forall id | id in waiters :: channels[id].View() == Channel(1, [], false, false)
      modifies this`waiters, made
      ensures Linked()
      ensures forall id :: id in waiters <==> id in old(waiters) && !Accepts(old(waiters)[id].pred, e)
      ensures forall id | id in waiters :: waiters[id] == old(waiters)[id]
      ensures forall id | id in channels ::
        channels[id].View() ==
          if id in old(waiters) && id !in waiters then Shut(Push(old(channels[id].View()), e))
              else old(channels[id].View())
    {
      hide Shut, Chan.View;
      var todo := waiters.Keys;
      while todo != {}
        invariant todo <= waiters.Keys <= old(waiters).Keys
        invariant forall id | id in old(waiters) :: id in waiters <==> id in todo || !Accepts(old(waiters)[id].pred, e)
        invariant forall id | id in waiters :: waiters[id] == old(waiters)[id]
        invariant forall id | id in channels ::
          channels[id].View() ==
            if id in old(waiters) && id !in waiters then Shut(Push(old(channels[id].View()), e))
                else old(channels[id].View())
      {
        var id :| id in todo;
        var w := waiters[id];
        todo := todo - {id};
        if w.pred.Some? && !w.pred.value(e) { continue; }
        waiters := waiters - {id};
        assert w.ch == channels[id] && channels[id].View() == old(channels[id].View());
        w.ch.Send(e);
        w.ch.Close();
      }
    }

    method Emit(e: Event) returns (ok: bool)
      requires Valid()
      modifies this, made
      ensures Valid() && channels == old(channels) && made == old(made)
      ensures ok <==> !old(closed)
      ensures View() == if ok then Emitted(old(View()), e) else old(View())
    {
      hide Sound, Offer, Push, Shut, Chan.View, View;
      Parts();
      if closed { return false; }
      ghost var start := View();
      SoundEmit(start, e);
      AllOpen();
      OfferAll(e);
      NotifyAll(e);
      ok := true;
      Viewed(Emitted(start, e));
    }

    lemma AllOpen()
      requires Valid()
      ensures forall id | id in subs || id in waiters :: !channels[id].View().closed && !(id in subs && id in waiters)
      ensures forall id | id in waiters :: channels[id].View() == Channel(1, [], false, false)
    {
      forall id | id in subs || id in waiters
        ensures !channels[id].View().closed && !(id in subs && id in waiters)
        ensures id in waiters ==> channels[id].View() == Channel(1, [], false, false)
      {
        OpenChannel(id);
      }
    }

    /** The first critical section of WaitFor. */
    method Register(pred: Predicate) returns (entry: Option<(nat, Chan)>)
      requires Valid()
      modifies this
      ensures Valid()
      ensures entry.None? <==> old(closed)
      ensures View() == if old(closed) then old(View()) else Registered(old(View()), pred)
      ensures entry.Some?
        ==> entry.value.0 == old(nextID) && entry.value.0 in channels && entry.value.1 == channels[entry.value.0]
    {
      hide Sound, Chan.View, View, Registered, Linked;
      Allocated();
      var ch := new Chan(1, nextID);
      if closed { return None; }
      entry := Some((nextID, ch));
      AddWaiter(ch, pred);
    }

    method ShutWaiter(id: nat)
      requires Linked() && id in waiters && !channels[id].View().closed
      modifies this`waiters, made
      ensures Linked() && waiters == old(waiters) - {id}
      ensures forall other | other in channels ::
        channels[other].View() == if other == id then Shut(old(channels[other].View())) else old(channels[other].View())
    {
      hide Chan.View, Shut;
      var stored := waiters[id];
      waiters := waiters - {id};
      stored.ch.Close();
    }

    method ShutSub(id: nat)
      requires Linked() && id in subs && !channels[id].View().closed
      modifies this`subs, made
      ensures Linked() && subs == old(subs) - {id}
      ensures forall other | other in channels ::
        channels[other].View() == if other == id then Shut(old(channels[other].View())) else old(channels[other].View())
    {
      hide Chan.View, Shut;
      var ch := subs[id];
      subs := subs - {id};
      ch.Close();
    }

    /** The last critical section of WaitFor, when its context has ended. */
    method Abandon(id: nat)
      requires Valid()
      modifies this, made
      ensures Valid() && channels == old(channels) && made == old(made) && View() == Abandoned(old(View()), id)
      ensures waiters == old(waiters) - {id} && subs == old(subs) && closed == old(closed)
      ensures forall other | other in channels ::
        channels[other].View() == if other == id && old(id in waiters) then old(channels[other].View()).(closed := true)
                                  else old(channels[other].View())
    {
      hide Sound, Chan.View, View, Linked;
      Parts();
      SoundAtOne(View(), id);
      if id in waiters {
        OpenChannel(id);
        ShutWaiter(id);
      }
      Viewed(Abandoned(old(View()), id));
    }

    /** The critical section of a subscription's cancel function. */
    method CancelSubscription(id: nat)
      requires Valid()
      modifies this, made
      ensures Valid() && channels == old(channels) && made == old(made) && View() == Cancelled(old(View()), id)
      ensures subs == old(subs) - {id} && waiters == old(waiters) && closed == old(closed)
      ensures forall other | other in channels ::
        channels[other].View() == if other == id && old(id in subs) then old(channels[other].View()).(closed := true)
                                  else old(channels[other].View())
    {
      hide Sound, Chan.View, View, Linked;
      Parts();
      SoundAtOne(View(), id);
      if id in subs {
        OpenChannel(id);
        ShutSub(id);
      }
      Viewed(Cancelled(old(View()), id));
    }

    method MarkClosed()
      requires Linked()
      modifies this`closed
      ensures closed && Linked()
      ensures forall id | id in channels :: channels[id].View() == old(channels[id].View())
    {
      closed := true;
    }

    /** The first loop of Close. */
    method ShutSubs()
      requires Linked() && forall id | id in subs :: !channels[id].View().closed
      modifies this`subs, made
      ensures subs == map[] && Linked()
      ensures forall id | id in channels ::
        channels[id].View() == if id in old(subs) then Shut(old(channels[id].View())) else old(channels[id].View())
    {
      hide Shut, Chan.View;
      while subs != map[]
        invariant subs.Keys <= old(subs).Keys && forall id | id in subs :: subs[id] == old(subs)[id]
        invariant forall id | id in channels ::
          channels[id].View() == if id in old(subs) && id !in subs then Shut(old(channels[id].View()))
              else old(channels[id].View())
        decreases subs.Keys
      {
        var id :| id in subs;
        var ch := subs[id];
        subs := subs - {id};
        assert channels[id].View() == old(channels[id].View());
        ch.Close();
      }
    }

    /** The second loop of Close. */
    method ShutWaiters()
      requires Linked() && forall id | id in waiters :: !channels[id].View().closed
      modifies this`waiters, made
      ensures waiters == map[] && Linked()
      ensures forall id | id in channels ::
        channels[id].View() == if id in old(waiters) then Shut(old(channels[id].View())) else old(channels[id].View())
    {
      hide Shut, Chan.View;
      while waiters != map[]
        invariant waiters.Keys <= old(waiters).Keys && forall id | id in waiters :: waiters[id] == old(waiters)[id]
        invariant forall id | id in channels ::
          channels[id].View() == if id in old(waiters) && id !in waiters then Shut(old(channels[id].View()))
              else old(channels[id].View())
        decreases waiters.Keys
      {
        var id :| id in waiters;
        var w := waiters[id];
        waiters := waiters - {id};
        assert channels[id].View() == old(channels[id].View());
        w.ch.Close();
      }
    }

    /** The two loops of Close. */
    method ShutAll()
      requires Linked() && forall id | id in subs || id in waiters :: !channels[id].View().closed
      requires forall id :: !(id in subs && id in waiters)
      modifies this`subs, this`waiters, made
      ensures Linked() && subs == map[] && waiters == map[]
      ensures forall id | id in channels ::
        channels[id].View() == if old(id in subs || id in waiters) then Shut(old(channels[id].View()))
                               else old(channels[id].View())
    {
      hide Shut, Chan.View;
      ShutSubs();
      ShutWaiters();
    }

    lemma ShutIsClosed(ch: Channel)
      ensures !ch.closed ==> Shut(ch) == ch.(closed := true)
      ensures ch.closed ==> ch == ch.(closed := true)
    {
    }

    method Close()
      requires Valid()
      modifies this, made
      ensures Valid() && closed && channels == old(channels) && made == old(made) && View() == Closed(old(View()))
      ensures subs == map[] && waiters == map[]
      ensures forall id | id in channels :: channels[id].View() == old(channels[id].View()).(closed := true)
    {
      hide Sound, Shut, Chan.View, View, Closed, Linked;
      Parts();
      SoundClose(View());
      ghost var start := View();
      OthersShut();
      forall id | id in channels {
        ShutIsClosed(channels[id].View());
      }
      if closed {
        ClosedStays(start);
        ClosedIsEmpty();
        return;
      }
      AllOpen();
      ClosedParts(start);
      MarkClosed();
      ShutAll();
      Viewed(Closed(start));
    }
  }

  class Subscription {
    const bus: Bus
    const id: nat
    const ch: Chan
    var done: bool

    constructor (bus: Bus, id: nat, ch: Chan)
      ensures this.bus == bus && this.id == id && this.ch == ch && !done
    {
      this.bus, this.id, this.ch, done := bus, id, ch, false;
    }

    /** The subscription belongs to its bus; once it is done it is off the bus's table. */
    ghost predicate Attached()
      reads this, bus, bus.made
    {
      bus.Valid() && id in bus.channels && bus.channels[id] == ch && id !in bus.waiters && (done ==> id !in bus.subs)
    }

    /**
     Cancel runs its function once. The channel is then closed and off the table, and what has
     been buffered can still be read.
     */
    method Cancel()
      requires Attached()
      modifies this, bus, bus.made
      ensures Attached() && done
      ensures id !in bus.subs && ch.closed && ch.buffer == old(ch.buffer)
      ensures bus.subs == old(bus.subs) - {id} && bus.waiters == old(bus.waiters)
      ensures bus.channels == old(bus.channels)
      ensures forall other | other in bus.channels && other != id ::
        bus.channels[other].View() == old(bus.channels[other].View())
      ensures bus.View() == if old(done) then old(bus.View()) else Cancelled(old(bus.View()), id)
    {
      bus.OthersShut();
      if !done {
        done := true;
        bus.CancelSubscription(id);
      }
    }
  }
}
