/**
 events/bus.go as atomic steps: one per critical section or channel operation.

 A channel is what the Go runtime makes of it, including that it breaks the program when it is
 closed twice, sent to after closing, or (for the one send that has no default case) full.
 */
module BusModel {
  import opened GoStrings

  datatype Event = Event(topic: string, body: string)

  /** A nil predicate accepts every event. */
  type Predicate = Option<Event -> bool>

  predicate Accepts(p: Predicate, e: Event) {
    p.None? || p.value(e)
  }

  datatype Channel = Channel(capacity: nat, buffer: seq<Event>, closed: bool, broken: bool)

  /** `select { case ch <- e: default: }` */
  function Offer(ch: Channel, e: Event): Channel {
    if ch.closed then ch.(broken := true)
    else if |ch.buffer| < ch.capacity then ch.(buffer := ch.buffer + [e])
    else ch
  }

  /** `ch <- e` inside the critical section: it must not block. */
  function Push(ch: Channel, e: Event): Channel {
    if ch.closed || |ch.buffer| >= ch.capacity then ch.(broken := true) else ch.(buffer := ch.buffer + [e])
  }

  function Shut(ch: Channel): Channel {
    if ch.closed then ch.(broken := true) else ch.(closed := true)
  }

  /** `channels` has every channel ever made; `subs` and `waiters` are the bus's own tables. */
  datatype Bus = Bus(closed: bool, nextID: nat, subs: set<nat>, waiters: map<nat, Predicate>,
                     channels: map<nat, Channel>)

  const NEW_BUS := Bus(false, 0, {}, map[], map[])

  /** Subscribe on an open bus. */
  function Subscribed(b: Bus, buffer: int): Bus {
    var capacity := if buffer <= 0 then 1 else buffer;
    b.(nextID := b.nextID + 1, subs := b.subs + {b.nextID},
       channels := b.channels[b.nextID := Channel(capacity, [], false, false)])
  }

  /** The first critical section of WaitFor, on an open bus. */
  function Registered(b: Bus, pred: Predicate): Bus {
    b.(nextID := b.nextID + 1, waiters := b.waiters[b.nextID := pred],
       channels := b.channels[b.nextID := Channel(1, [], false, false)])
  }

  function AfterEmit(b: Bus, e: Event, id: nat): Channel
    requires id in b.channels
  {
    var ch := if id in b.subs then Offer(b.channels[id], e) else b.channels[id];
    if id in b.waiters && Accepts(b.waiters[id], e) then Shut(Push(ch, e)) else ch
  }

  /** Emit on an open bus. */
  function Emitted(b: Bus, e: Event): Bus {
    b.(waiters := map id | id in b.waiters && !Accepts(b.waiters[id], e) :: b.waiters[id],
       channels := map id | id in b.channels :: AfterEmit(b, e, id))
  }

  function ShutOne(b: Bus, id: nat): map<nat, Channel> {
    if id in b.channels then b.channels[id := Shut(b.channels[id])] else b.channels
  }

  /** The cancel function of a subscription. */
  function Cancelled(b: Bus, id: nat): Bus {
    if id !in b.subs then b else b.(subs := b.subs - {id}, channels := ShutOne(b, id))
  }

  /** The last critical section of WaitFor, when its context has ended. */
  function Abandoned(b: Bus, id: nat): Bus {
    if id !in b.waiters then b else b.(waiters := b.waiters - {id}, channels := ShutOne(b, id))
  }

  function AfterClose(b: Bus, id: nat): Channel
    requires id in b.channels
  {
    var ch := if id in b.subs then Shut(b.channels[id]) else b.channels[id];
    if id in b.waiters then Shut(ch) else ch
  }

  /** Close. */
  function Closed(b: Bus): Bus {
    if b.closed then b
    else b.(closed := true, subs := {}, waiters := map[], channels := map id | id in b.channels :: AfterClose(b, id))
  }

  function Received(b: Bus, id: nat): Bus {
    if id in b.channels && b.channels[id].buffer != [] then
      b.(channels := b.channels[id := b.channels[id].(buffer := b.channels[id].buffer[1..])])
    else b
  }

  // ---- runs ----

  datatype Result = Got(event: Event) | BusClosed | Timeout | Canceled | Unexpected

  /**
   A WaitFor call that has registered: blocked, between seeing its channel closed and asking
   whether the bus is, or over.
   */
  datatype Call = Blocked | SawClosed | Returned(result: Result)

  /**
   What the history remembers of an id. `since` is how many events had been emitted before it
   was handed out; `kept[k]` says whether the k-th event since then reached its channel.
   */
  datatype Record = Record(since: nat, pred: Predicate, call: Option<Call>, kept: seq<bool>, taken: seq<Event>)

  datatype World = World(bus: Bus, emitted: seq<Event>, records: map<nat, Record>)

  const NEW_WORLD := World(NEW_BUS, [], map[])

  datatype Move =
    | Subscribe(buffer: int)
    | Emit(event: Event)
    | Cancel(id: nat)
    | Wait(pred: Predicate)
    | WaitReceives(id: nat)
    | WaitAsks(id: nat)
    | WaitGivesUp(id: nat, deadline: bool)
    | Close
    | Take(id: nat)

  predicate Waiting(w: World, id: nat, call: Call) {
    id in w.records && w.records[id].call == Some(call)
  }

  function SetCall(w: World, id: nat, call: Call): map<nat, Record>
    requires id in w.records
  {
    w.records[id := w.records[id].(call := Some(call))]
  }

  /** Whether the event reached the channel, told from the channel before and after. */
  function Noted(r: Record, before: Channel, after: Channel): Record {
    r.(kept := r.kept + [|after.buffer| > |before.buffer|])
  }

  /** A step that cannot be taken now leaves the world as it is. */
  function Next(w: World, move: Move): World {
    var b := w.bus;
    match move
    case Subscribe(buffer) =>
      if b.closed then w
      else World(Subscribed(b, buffer), w.emitted, w.records[b.nextID := Record(|w.emitted|, None, None, [], [])])
    case Emit(e) =>
      if b.closed then w
      else
        var b' := Emitted(b, e);
        World(b', w.emitted + [e],
          map id | id in w.records ::
            if id in b.subs && id in b.channels then Noted(w.records[id], b.channels[id], b'.channels[id])
                else w.records[id])
    case Cancel(id) => w.(bus := Cancelled(b, id))
    case Wait(pred) =>
      if b.closed then w
      else World(Registered(b, pred), w.emitted,
                 w.records[b.nextID := Record(|w.emitted|, pred, Some(Blocked), [], [])])
    case WaitReceives(id) =>
      if !Waiting(w, id, Blocked) || id !in b.channels then w
      else if b.channels[id].buffer != [] then
        w.(bus := Received(b, id), records := SetCall(w, id, Returned(Got(b.channels[id].buffer[0]))))
      else if b.channels[id].closed then w.(records := SetCall(w, id, SawClosed))
      else w
    case WaitAsks(id) =>
      if !Waiting(w, id, SawClosed) then w
      else w.(records := SetCall(w, id, Returned(if b.closed then BusClosed else Unexpected)))
    case WaitGivesUp(id, deadline) =>
      if !Waiting(w, id, Blocked) then w
      else w.(bus := Abandoned(b, id), records := SetCall(w, id, Returned(if deadline then Timeout else Canceled)))
    case Close => w.(bus := Closed(b))
    case Take(id) =>
      if id !in w.records || w.records[id].call.Some? || id !in b.channels || b.channels[id].buffer == [] then w
      else
        var r := w.records[id];
        w.(bus := Received(b, id), records := w.records[id := r.(taken := r.taken + [b.channels[id].buffer[0]])])
  }

  function Run(w: World, moves: seq<Move>): World
    decreases |moves|
  {
    if moves == [] then w else Next(Run(w, moves[..|moves| - 1]), moves[|moves| - 1])
  }

  // ---- channel safety ----

  /** A subscriber's channel is open; a waiter's is open and empty, with room for one event; any other is closed. */
  ghost predicate SoundAt(b: Bus, id: nat) {
    && (id in b.subs || id in b.waiters ==> id in b.channels)
    && !(id in b.subs && id in b.waiters)
    && (id in b.channels ==>
          var ch := b.channels[id];
          && id < b.nextID && !ch.broken && |ch.buffer| <= ch.capacity && ch.capacity > 0
          && (ch.closed <==> id !in b.subs && id !in b.waiters)
          && (id in b.waiters ==> ch.capacity == 1 && ch.buffer == []))
  }

  ghost predicate Sound(b: Bus) {
    (forall id :: SoundAt(b, id)) && (b.closed ==> b.subs == {} && b.waiters == map[])
  }

  lemma SoundNew(b: Bus, pred: Predicate, buffer: int)
    requires Sound(b) && !b.closed
    ensures Sound(Subscribed(b, buffer)) && Sound(Registered(b, pred))
  {
    forall id
      ensures SoundAt(Subscribed(b, buffer), id) && SoundAt(Registered(b, pred), id)
    {
      assert SoundAt(b, id);
    }
  }

  lemma SoundEmit(b: Bus, e: Event)
    requires Sound(b)
    ensures Sound(Emitted(b, e))
  {
    forall id
      ensures SoundAt(Emitted(b, e), id)
    {
      assert SoundAt(b, id);
    }
  }

  lemma SoundClose(b: Bus)
    requires Sound(b)
    ensures Sound(Closed(b))
  {
    forall id
      ensures SoundAt(Closed(b), id)
    {
      assert SoundAt(b, id);
    }
  }

  lemma SoundAtOne(b: Bus, id: nat)
    requires Sound(b)
    ensures Sound(Cancelled(b, id)) && Sound(Abandoned(b, id)) && Sound(Received(b, id))
  {
    forall i
      ensures SoundAt(Cancelled(b, id), i) && SoundAt(Abandoned(b, id), i) && SoundAt(Received(b, id), i)
    {
      assert SoundAt(b, i) && SoundAt(b, id);
    }
  }

  /** In no interleaving is a channel closed twice, sent to after closing, or a waiter's channel full. */
  lemma {:induction false} ChannelSafety(moves: seq<Move>)
    ensures Sound(Run(NEW_WORLD, moves).bus)
    decreases |moves|
  {
    hide Sound, Emitted, Cancelled, Abandoned, Closed, Received, Subscribed, Registered;
    if moves == [] {
      NewIsSound();
    } else {
      ChannelSafety(moves[..|moves| - 1]);
      var w := Run(NEW_WORLD, moves[..|moves| - 1]);
      match moves[|moves| - 1]
      case Subscribe(buffer) => if !w.bus.closed { SoundNew(w.bus, None, buffer); }
      case Emit(e) => SoundEmit(w.bus, e);
      case Cancel(id) => SoundAtOne(w.bus, id);
      case Wait(pred) => if !w.bus.closed { SoundNew(w.bus, pred, 0); }
      case WaitReceives(id) => SoundAtOne(w.bus, id);
      case WaitAsks(id) =>
      case WaitGivesUp(id, _) => SoundAtOne(w.bus, id);
      case Close => SoundClose(w.bus);
      case Take(id) => SoundAtOne(w.bus, id);
    }
  }

  lemma NewIsSound()
    ensures Sound(NEW_BUS)
  {
  }

  // ---- the contract of WaitFor ----

  ghost predicate NoneAccepted(p: Predicate, events: seq<Event>) {
    forall k | 0 <= k < |events| :: !Accepts(p, events[k])
  }

  /** `e` is the first of the events that the predicate accepts. */
  ghost predicate FirstAccepted(p: Predicate, events: seq<Event>, e: Event) {
    exists k :: 0 <= k < |events| && events[k] == e && Accepts(p, e) && NoneAccepted(p, events[..k])
  }

  lemma AcceptedLater(p: Predicate, events: seq<Event>, e: Event)
    ensures forall first :: FirstAccepted(p, events, first) ==> FirstAccepted(p, events + [e], first)
    ensures NoneAccepted(p, events) && !Accepts(p, e) ==> NoneAccepted(p, events + [e])
    ensures NoneAccepted(p, events) && Accepts(p, e) ==> FirstAccepted(p, events + [e], e)
  {
    forall first | FirstAccepted(p, events, first)
      ensures FirstAccepted(p, events + [e], first)
    {
      var k :| 0 <= k < |events| && events[k] == first && Accepts(p, first) && NoneAccepted(p, events[..k]);
      assert (events + [e])[..k] == events[..k];
      assert (events + [e])[k] == first;
    }
    if NoneAccepted(p, events) && Accepts(p, e) {
      assert (events + [e])[..|events|] == events;
      assert (events + [e])[|events|] == e;
    }
  }

  /** The events emitted since the id was handed out. */
  function Since(w: World, id: nat): seq<Event>
    requires id in w.records
  {
    if w.records[id].since <= |w.emitted| then w.emitted[w.records[id].since..] else []
  }

  /** The history knows exactly the ids handed out; those with a call belong to WaitFor. */
  ghost predicate KnownAt(w: World, id: nat) {
    && (id in w.records <==> id < w.bus.nextID)
    && (id in w.records ==>
          && id in w.bus.channels && w.records[id].since <= |w.emitted|
          && if w.records[id].call.Some? then id !in w.bus.subs else id !in w.bus.waiters)
  }

  /** Where a WaitFor stands, given what was emitted since it registered. */
  ghost predicate WaiterAt(w: World, id: nat) {
    && KnownAt(w, id)
    && (id in w.records && w.records[id].call.Some? ==>
          var r, b, ch := w.records[id], w.bus, w.bus.channels[id];
          var events := Since(w, id);
          && (id in b.waiters ==> r.call.value.Blocked? && b.waiters[id] == r.pred)
          && match r.call.value
             case Blocked =>
               if id in b.waiters then NoneAccepted(r.pred, events)
               else if ch.buffer != [] then ch.buffer == [ch.buffer[0]] && FirstAccepted(r.pred, events, ch.buffer[0])
               else b.closed && NoneAccepted(r.pred, events)
             case SawClosed => b.closed && NoneAccepted(r.pred, events)
             case Returned(Got(e)) => FirstAccepted(r.pred, events, e)
             case Returned(BusClosed) => b.closed && NoneAccepted(r.pred, events)
             case Returned(Unexpected) => false
             case Returned(_) => true)
  }

  lemma WaiterEmit(w: World, e: Event, id: nat)
    requires Sound(w.bus) && WaiterAt(w, id)
    ensures WaiterAt(Next(w, Emit(e)), id)
  {
    hide FirstAccepted, NoneAccepted;
    if id in w.records {
      var r := w.records[id];
      assert SoundAt(w.bus, id);
      assert (w.emitted + [e])[r.since..] == w.emitted[r.since..] + [e];
      AcceptedLater(r.pred, w.emitted[r.since..], e);
    }
  }

  lemma WaiterNew(w: World, move: Move, id: nat)
    requires move.Subscribe? || move.Wait?
    requires WaiterAt(w, id) && Sound(w.bus)
    ensures WaiterAt(Next(w, move), id)
  {
    hide FirstAccepted;
    assert SoundAt(w.bus, id);
  }

  lemma WaiterOther(w: World, move: Move, id: nat)
    requires !move.Subscribe? && !move.Wait? && !move.Emit?
    requires WaiterAt(w, id) && Sound(w.bus)
    requires (move.Take? || move.Cancel? || move.WaitGivesUp? || move.WaitReceives? || move.WaitAsks?)
      ==> WaiterAt(w, move.id)
    ensures WaiterAt(Next(w, move), id)
  {
    hide FirstAccepted, NoneAccepted;
    assert SoundAt(w.bus, id);
  }

  lemma {:induction false} EveryWaiter(moves: seq<Move>, id: nat)
    ensures WaiterAt(Run(NEW_WORLD, moves), id)
    decreases |moves|
  {
    hide WaiterAt, Sound, Next;
    if moves == [] {
      assert WaiterAt(NEW_WORLD, id) by { NewWaiters(id); }
    } else {
      var before, move := moves[..|moves| - 1], moves[|moves| - 1];
      EveryWaiter(before, id);
      ChannelSafety(before);
      match move {
        case Emit(e) => WaiterEmit(Run(NEW_WORLD, before), e, id);
        case Subscribe(_) => WaiterNew(Run(NEW_WORLD, before), move, id);
        case Wait(_) => WaiterNew(Run(NEW_WORLD, before), move, id);
        case Close => WaiterOther(Run(NEW_WORLD, before), move, id);
        case _ =>
          EveryWaiter(before, move.id);
          WaiterOther(Run(NEW_WORLD, before), move, id);
      }
    }
  }

  lemma NewWaiters(id: nat)
    ensures WaiterAt(NEW_WORLD, id)
  {
  }

  /**
   The contract of WaitFor, in every interleaving. The event it returns is the first one
   emitted after it registered that its predicate accepts; it reports a closed bus only if the
   bus is closed and no such event came; it never takes a closed channel for anything but a
   closed bus; and once it is over, its id is gone from the table.
   */
  lemma WaiterContract(moves: seq<Move>, id: nat)
    requires var w := Run(NEW_WORLD, moves);
      id in w.records && w.records[id].call.Some? && w.records[id].call.value.Returned?
    ensures var w := Run(NEW_WORLD, moves);
      var r, events := w.records[id], Since(w, id);
      && id !in w.bus.waiters
      && match r.call.value.result
         case Got(e) => FirstAccepted(r.pred, events, e)
         case BusClosed => w.bus.closed && NoneAccepted(r.pred, events)
         case Unexpected => false
         case _ => true
  {
    EveryWaiter(moves, id);
  }

  // ---- subscribers ----

  /** The events that were kept, in order. */
  function Kept(events: seq<Event>, kept: seq<bool>): seq<Event>
    requires |kept| <= |events|
    decreases |kept|
  {
    if kept == [] then []
    else Kept(events, kept[..|kept| - 1]) + if kept[|kept| - 1] then [events[|kept| - 1]] else []
  }

  function Dropped(kept: seq<bool>): nat {
    if kept == [] then 0 else Dropped(kept[..|kept| - 1]) + if kept[|kept| - 1] then 0 else 1
  }

  /** What a subscriber has received and has buffered is what was kept for it of the events since it subscribed. */
  ghost predicate SubscriberAt(w: World, id: nat) {
    && KnownAt(w, id)
    && (id in w.records && w.records[id].call.None? ==>
          var r := w.records[id];
          var events := Since(w, id);
          && |r.kept| <= |events| && (id in w.bus.subs ==> |r.kept| == |events|)
          && r.taken + w.bus.channels[id].buffer == Kept(events, r.kept))
  }

  lemma KeptLater(events: seq<Event>, kept: seq<bool>, e: Event)
    requires |kept| <= |events|
    ensures Kept(events + [e], kept) == Kept(events, kept)
    decreases |kept|
  {
    if kept != [] { KeptLater(events, kept[..|kept| - 1], e); }
  }

  lemma SubscriberEmit(w: World, e: Event, id: nat)
    requires Sound(w.bus) && SubscriberAt(w, id)
    ensures SubscriberAt(Next(w, Emit(e)), id)
  {
    hide Kept;
    if !w.bus.closed && id in w.records && w.records[id].call.None? {
      var r, events := w.records[id], Since(w, id);
      assert SoundAt(w.bus, id);
      assert (w.emitted + [e])[r.since..] == events + [e];
      KeptLater(events, r.kept, e);
      if id in w.bus.subs {
        var fits := |w.bus.channels[id].buffer| < w.bus.channels[id].capacity;
        assert Next(w, Emit(e)).records[id].kept == r.kept + [fits];
        KeptOne(events, r.kept, e, fits);
        assert r.taken + (w.bus.channels[id].buffer + [e]) == (r.taken + w.bus.channels[id].buffer) + [e];
      }
    }
  }

  lemma KeptOne(events: seq<Event>, kept: seq<bool>, e: Event, k: bool)
    requires |kept| == |events|
    ensures Kept(events + [e], kept + [k]) == Kept(events, kept) + if k then [e] else []
  {
    KeptLater(events, kept, e);
    assert (kept + [k])[..|kept|] == kept;
  }

  lemma SubscriberOther(w: World, move: Move, id: nat)
    requires !move.Emit? && SubscriberAt(w, id) && Sound(w.bus)
    requires (move.Take? || move.Cancel? || move.WaitGivesUp? || move.WaitReceives? || move.WaitAsks?)
      ==> SubscriberAt(w, move.id)
    ensures SubscriberAt(Next(w, move), id)
  {
    hide Kept;
    assert SoundAt(w.bus, id);
    if move.Subscribe? || move.Wait? {
      EmptyKept([]);
    } else if move.Take? && id == move.id && id in w.records && w.records[id].call.None?
        && w.bus.channels[id].buffer != [] {
      var r, buffer := w.records[id], w.bus.channels[id].buffer;
      assert (r.taken + [buffer[0]]) + buffer[1..] == r.taken + buffer;
    }
  }

  lemma EmptyKept(events: seq<Event>)
    ensures Kept(events, []) == []
  {
  }

  lemma {:induction false} EverySubscriber(moves: seq<Move>, id: nat)
    ensures SubscriberAt(Run(NEW_WORLD, moves), id)
    decreases |moves|
  {
    hide SubscriberAt, Sound, Next;
    if moves == [] {
      assert SubscriberAt(NEW_WORLD, id) by { NewSubscribers(id); }
    } else {
      var before, move := moves[..|moves| - 1], moves[|moves| - 1];
      EverySubscriber(before, id);
      ChannelSafety(before);
      if move.Emit? {
        SubscriberEmit(Run(NEW_WORLD, before), move.event, id);
      } else {
        if move.Take? || move.Cancel? || move.WaitGivesUp? || move.WaitReceives? || move.WaitAsks? {
          EverySubscriber(before, move.id);
        }
        SubscriberOther(Run(NEW_WORLD, before), move, id);
      }
    }
  }

  lemma NewSubscribers(id: nat)
    ensures SubscriberAt(NEW_WORLD, id)
  {
  }

  lemma {:induction false} KeptCounts(events: seq<Event>, kept: seq<bool>)
    requires |kept| <= |events|
    ensures |Kept(events, kept)| + Dropped(kept) == |kept|
    decreases |kept|
  {
    if kept != [] { KeptCounts(events, kept[..|kept| - 1]); }
  }

  /**
   Conservation, in every interleaving: what a subscriber received, followed by what it has
   buffered, is an in-order selection of the events emitted since it subscribed, and with the
   dropped ones they are all of them, as long as it is subscribed.
   */
  lemma Conservation(moves: seq<Move>, id: nat)
    requires var w := Run(NEW_WORLD, moves); id in w.records && w.records[id].call.None?
    ensures var w := Run(NEW_WORLD, moves);
      var r, events := w.records[id], Since(w, id);
      && id in w.bus.channels && |r.kept| <= |events|
      && r.taken + w.bus.channels[id].buffer == Kept(events, r.kept)
      && |r.taken| + |w.bus.channels[id].buffer| + Dropped(r.kept) == |r.kept|
      && (id in w.bus.subs ==> |r.kept| == |events|)
  {
    EverySubscriber(moves, id);
    var w := Run(NEW_WORLD, moves);
    KeptCounts(w.emitted[w.records[id].since..], w.records[id].kept);
  }

  /** In every interleaving, an event is dropped for a subscriber exactly when its buffer is full. */
  lemma DroppedIffFull(moves: seq<Move>, id: nat, e: Event)
    requires var w := Run(NEW_WORLD, moves); !w.bus.closed && id in w.bus.subs
    ensures var w, w' := Run(NEW_WORLD, moves), Run(NEW_WORLD, moves + [Emit(e)]);
      && id in w.bus.channels && id in w.records && id in w'.records
      && w'.records[id].kept ==
           w.records[id].kept + [|w.bus.channels[id].buffer| < w.bus.channels[id].capacity]
  {
    var w := Run(NEW_WORLD, moves);
    assert (moves + [Emit(e)])[..|moves|] == moves;
    ChannelSafety(moves);
    EverySubscriber(moves, id);
    assert SoundAt(w.bus, id);
  }

  /** Cancelling twice is cancelling once, and closing a closed bus does nothing. */
  lemma CancelTwice(b: Bus, id: nat)
    requires Sound(b)
    ensures Cancelled(Cancelled(b, id), id) == Cancelled(b, id)
    ensures Closed(Closed(b)) == Closed(b)
    ensures Cancelled(Closed(b), id) == Closed(b) && Abandoned(Closed(b), id) == Closed(b)
  {
  }
}
