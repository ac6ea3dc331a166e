/**
 What each operation of the bus brings about, in every reachable state of every interleaving,
 and what it leaves alone.
 */
module BusEffects {
  import opened GoStrings
  import opened BusModel

  lemma RunMore(w: World, moves: seq<Move>, move: Move)
    ensures Run(w, moves + [move]) == Next(Run(w, moves), move)
  {
    hide Next;
    assert (moves + [move])[..|moves|] == moves;
  }

  /** Nothing about another id changes: neither where it is listed, nor its channel, nor its history. */
  ghost predicate SameAt(w: World, r: World, id: nat) {
    && (id in r.bus.subs <==> id in w.bus.subs)
    && Lookup(r.bus.waiters, id) == Lookup(w.bus.waiters, id)
    && Lookup(r.bus.channels, id) == Lookup(w.bus.channels, id)
    && Lookup(r.records, id) == Lookup(w.records, id)
  }

  function Lookup<V>(m: map<nat, V>, id: nat): Option<V> {
    if id in m then Some(m[id]) else None
  }

  // ---- starting ----

  /** On an open bus a subscriber gets a new id, and an open channel with the room it asks for, at least one place. */
  lemma SubscribeOpens(moves: seq<Move>, buffer: int)
    ensures var w, r := Run(NEW_WORLD, moves), Run(NEW_WORLD, moves + [Subscribe(buffer)]);
      var id := w.bus.nextID;
      if w.bus.closed then r == w
      else
        && id !in w.bus.subs && id !in w.bus.channels && id !in w.records
        && id in r.bus.subs && id in r.bus.channels && id in r.records
        && r.bus.channels[id] == Channel(if buffer <= 0 then 1 else buffer, [], false, false)
        && r.records[id].call.None? && r.records[id].taken == [] && Since(r, id) == []
        && r.emitted == w.emitted && !r.bus.closed && r.bus.nextID == id + 1
        && forall other | other != id :: SameAt(w, r, other)
  {
    hide Run;
    RunMore(NEW_WORLD, moves, Subscribe(buffer));
    ChannelSafety(moves);
    var w := Run(NEW_WORLD, moves);
    EverySubscriber(moves, w.bus.nextID);
    assert SoundAt(w.bus, w.bus.nextID);
  }

  /** On an open bus a waiter gets a new id, is blocked, and waits for what its predicate accepts. */
  lemma WaitOpens(moves: seq<Move>, pred: Predicate)
    ensures var w, r := Run(NEW_WORLD, moves), Run(NEW_WORLD, moves + [Wait(pred)]);
      var id := w.bus.nextID;
      if w.bus.closed then r == w
      else
        && id !in w.bus.waiters && id !in w.bus.channels && id !in w.records
        && id in r.bus.waiters && r.bus.waiters[id] == pred && id in r.bus.channels
        && r.bus.channels[id] == Channel(1, [], false, false)
        && Waiting(r, id, Blocked) && r.records[id].pred == pred && Since(r, id) == []
        && r.emitted == w.emitted && !r.bus.closed && r.bus.nextID == id + 1
        && forall other | other != id :: SameAt(w, r, other)
  {
    hide Run;
    RunMore(NEW_WORLD, moves, Wait(pred));
    ChannelSafety(moves);
    var w := Run(NEW_WORLD, moves);
    EveryWaiter(moves, w.bus.nextID);
    assert SoundAt(w.bus, w.bus.nextID);
  }

  // ---- ending ----

  /** Cancelling a subscription takes it off the table and closes its channel, which keeps what is in it. */
  lemma CancelEnds(moves: seq<Move>, id: nat)
    ensures var w, r := Run(NEW_WORLD, moves), Run(NEW_WORLD, moves + [Cancel(id)]);
      && id !in r.bus.subs
      && (id in w.bus.subs ==>
            && id in w.bus.channels && !w.bus.channels[id].closed
            && id in r.bus.channels && r.bus.channels[id] == w.bus.channels[id].(closed := true))
      && (id !in w.bus.subs ==> r == w)
      && r.records == w.records && r.emitted == w.emitted && r.bus.closed == w.bus.closed
      && r.bus.waiters == w.bus.waiters && r.bus.nextID == w.bus.nextID
      && forall other | other != id :: SameAt(w, r, other)
  {
    hide Run;
    RunMore(NEW_WORLD, moves, Cancel(id));
    ChannelSafety(moves);
    assert SoundAt(Run(NEW_WORLD, moves).bus, id);
  }

  /**
   A WaitFor that gives up is off the table, its channel is closed, and it tells a deadline from
   a cancelled context.
   */
  lemma GivingUpEnds(moves: seq<Move>, id: nat, deadline: bool)
    ensures var w, r := Run(NEW_WORLD, moves), Run(NEW_WORLD, moves + [WaitGivesUp(id, deadline)]);
      && (Waiting(w, id, Blocked) ==>
            && id !in r.bus.waiters && id in w.bus.channels && id in r.bus.channels
            && r.bus.channels[id] == w.bus.channels[id].(closed := true)
            && id in r.records && r.records[id]
               == w.records[id].(call := Some(Returned(if deadline then Timeout else Canceled))))
      && (!Waiting(w, id, Blocked) ==> r == w)
      && r.emitted == w.emitted && r.bus.closed == w.bus.closed && r.bus.subs == w.bus.subs
      && r.bus.nextID == w.bus.nextID
      && forall other | other != id :: SameAt(w, r, other)
  {
    hide Run, NoneAccepted, FirstAccepted;
    RunMore(NEW_WORLD, moves, WaitGivesUp(id, deadline));
    ChannelSafety(moves);
    EveryWaiter(moves, id);
    assert SoundAt(Run(NEW_WORLD, moves).bus, id);
  }

  /** Closing the bus empties both tables and closes every channel, which keeps what is in it. */
  lemma CloseEnds(moves: seq<Move>)
    ensures var w, r := Run(NEW_WORLD, moves), Run(NEW_WORLD, moves + [Close]);
      && r.bus.closed && r.bus.subs == {} && r.bus.waiters == map[]
      && r.bus.channels.Keys == w.bus.channels.Keys
      && (forall id | id in w.bus.channels :: r.bus.channels[id] == w.bus.channels[id].(closed := true))
      && r.records == w.records && r.emitted == w.emitted && r.bus.nextID == w.bus.nextID
  {
    hide Run;
    RunMore(NEW_WORLD, moves, Close);
    ChannelSafety(moves);
    var b := Run(NEW_WORLD, moves).bus;
    forall id | id in b.channels
      ensures Closed(b).channels[id] == b.channels[id].(closed := true)
    {
      assert SoundAt(b, id);
    }
  }

  /** A subscriber takes the oldest event that it has not taken. */
  lemma TakeGives(moves: seq<Move>, id: nat)
    requires var w := Run(NEW_WORLD, moves);
      id in w.records && w.records[id].call.None? && id in w.bus.channels && w.bus.channels[id].buffer != []
    ensures var w, r := Run(NEW_WORLD, moves), Run(NEW_WORLD, moves + [Take(id)]);
      var ch := w.bus.channels[id];
      && id in r.records && r.records[id] == w.records[id].(taken := w.records[id].taken + [ch.buffer[0]])
      && id in r.bus.channels && r.bus.channels[id] == ch.(buffer := ch.buffer[1..])
      && forall other | other != id :: SameAt(w, r, other)
  {
    hide Run;
    RunMore(NEW_WORLD, moves, Take(id));
  }

  /** An event that the predicate accepts is what the next receive of the waiter returns. */
  lemma EventWakes(moves: seq<Move>, id: nat, e: Event)
    requires var w := Run(NEW_WORLD, moves); !w.bus.closed && id in w.bus.waiters && Accepts(w.bus.waiters[id], e)
    ensures var r := Run(NEW_WORLD, moves + [Emit(e)] + [WaitReceives(id)]);
      id in r.records && r.records[id].call == Some(Returned(Got(e)))
  {
    hide Run, NoneAccepted, FirstAccepted;
    var w := Run(NEW_WORLD, moves);
    RunMore(NEW_WORLD, moves, Emit(e));
    RunMore(NEW_WORLD, moves + [Emit(e)], WaitReceives(id));
    ChannelSafety(moves);
    EveryWaiter(moves, id);
    assert SoundAt(w.bus, id);
    assert id in w.records && w.records[id].call.Some? by { IsBlocked(w, id); }
  }

  lemma IsBlocked(w: World, id: nat)
    requires WaiterAt(w, id) && Sound(w.bus) && id in w.bus.waiters
    ensures id in w.records && w.records[id].call == Some(Blocked)
  {
    hide NoneAccepted, FirstAccepted;
    assert SoundAt(w.bus, id);
  }

  /** Closing the bus lets every waiter know. */
  lemma CloseWakes(moves: seq<Move>, id: nat)
    requires id in Run(NEW_WORLD, moves).bus.waiters
    ensures var r := Run(NEW_WORLD, moves + [Close] + [WaitReceives(id)] + [WaitAsks(id)]);
      id in r.records && r.records[id].call == Some(Returned(BusClosed))
  {
    hide Run, NoneAccepted, FirstAccepted, Closed;
    var w := Run(NEW_WORLD, moves);
    var m1 := moves + [Close];
    RunMore(NEW_WORLD, moves, Close);
    RunMore(NEW_WORLD, m1, WaitReceives(id));
    RunMore(NEW_WORLD, m1 + [WaitReceives(id)], WaitAsks(id));
    ChannelSafety(moves);
    EveryWaiter(moves, id);
    CloseEnds(moves);
    assert SoundAt(w.bus, id);
    IsBlocked(w, id);
  }

  // ---- ever after ----

  /** The id is a subscription that has ended. */
  ghost predicate Over(w: World, id: nat) {
    id in w.records && w.records[id].call.None? && id in w.bus.channels && id !in w.bus.subs
  }

  /** What a step can still do to an ended subscription: one more buffered event is taken. */
  ghost predicate Drains(w: World, r: World, id: nat) {
    && Over(w, id) && Over(r, id)
    && r.records[id].kept == w.records[id].kept && r.records[id].pred == w.records[id].pred
    && r.records[id].taken + r.bus.channels[id].buffer == w.records[id].taken + w.bus.channels[id].buffer
    && |r.bus.channels[id].buffer| <= |w.bus.channels[id].buffer|
    && r.bus.channels[id].closed
  }

  lemma StepDrains(w: World, move: Move, id: nat)
    requires Over(w, id) && Sound(w.bus) && id < w.bus.nextID && id !in w.bus.waiters
    requires move.WaitGivesUp? || move.WaitReceives? || move.WaitAsks? ==> KnownAt(w, move.id)
    ensures Drains(w, Next(w, move), id)
  {
    assert SoundAt(w.bus, id);
    if move.Take? && move.id == id && w.bus.channels[id].buffer != [] {
      var taken, buffer := w.records[id].taken, w.bus.channels[id].buffer;
      assert (taken + [buffer[0]]) + buffer[1..] == taken + buffer;
    }
  }

  /** After its end a subscription is never given an event again: what is buffered is all there is to take. */
  lemma {:induction false} NothingMore(moves: seq<Move>, more: seq<Move>, id: nat)
    requires Over(Run(NEW_WORLD, moves), id)
    ensures Drains(Run(NEW_WORLD, moves), Run(NEW_WORLD, moves + more), id)
    decreases |more|
  {
    hide Next, Sound;
    if more == [] {
      assert moves + more == moves;
      EndedIsShut(moves, id);
    } else {
      var init, move := more[..|more| - 1], more[|more| - 1];
      NothingMore(moves, init, id);
      assert moves + more == (moves + init) + [move];
      RunMore(NEW_WORLD, moves + init, move);
      ChannelSafety(moves + init);
      EveryWaiter(moves + init, id);
      if move.WaitGivesUp? || move.WaitReceives? || move.WaitAsks? { EveryWaiter(moves + init, move.id); }
      StepDrains(Run(NEW_WORLD, moves + init), move, id);
    }
  }

  lemma EndedIsShut(moves: seq<Move>, id: nat)
    requires Over(Run(NEW_WORLD, moves), id)
    ensures Run(NEW_WORLD, moves).bus.channels[id].closed
  {
    hide Run;
    ChannelSafety(moves);
    EveryWaiter(moves, id);
    assert SoundAt(Run(NEW_WORLD, moves).bus, id);
  }

  /** Cancelling ends a subscription for good, whatever happens later. */
  lemma CancelledForGood(moves: seq<Move>, id: nat, more: seq<Move>)
    requires id in Run(NEW_WORLD, moves).bus.subs
    ensures var w, r := Run(NEW_WORLD, moves), Run(NEW_WORLD, moves + [Cancel(id)] + more);
      && id in w.records && id in w.bus.channels && id in r.records && id in r.bus.channels
      && id !in r.bus.subs && r.bus.channels[id].closed && r.records[id].kept == w.records[id].kept
      && r.records[id].taken + r.bus.channels[id].buffer == w.records[id].taken + w.bus.channels[id].buffer
  {
    hide Run;
    ChannelSafety(moves);
    EverySubscriber(moves, id);
    assert SoundAt(Run(NEW_WORLD, moves).bus, id);
    CancelEnds(moves, id);
    assert SameAt(Run(NEW_WORLD, moves), Run(NEW_WORLD, moves + [Cancel(id)]), id + 1);
    NothingMore(moves + [Cancel(id)], more, id);
  }

  /** A closed bus stays closed, hands out no id and emits nothing. */
  lemma {:induction false} ClosedForGood(moves: seq<Move>, more: seq<Move>)
    requires Run(NEW_WORLD, moves).bus.closed
    ensures var w, r := Run(NEW_WORLD, moves), Run(NEW_WORLD, moves + more);
      r.bus.closed && r.emitted == w.emitted && r.bus.nextID == w.bus.nextID && r.bus.subs == {}
          && r.bus.waiters == map[]
    decreases |more|
  {
    hide Next, Sound;
    if more == [] {
      assert moves + more == moves;
    } else {
      var init, move := more[..|more| - 1], more[|more| - 1];
      ClosedForGood(moves, init);
      assert moves + more == (moves + init) + [move];
      RunMore(NEW_WORLD, moves + init, move);
      ClosedStep(Run(NEW_WORLD, moves + init), move);
    }
    ChannelSafety(moves + more);
    ClosedTables(Run(NEW_WORLD, moves + more).bus);
  }

  lemma ClosedTables(b: Bus)
    requires Sound(b) && b.closed
    ensures b.subs == {} && b.waiters == map[]
  {
  }

  lemma ClosedStep(w: World, move: Move)
    requires w.bus.closed
    ensures var r := Next(w, move); r.bus.closed && r.emitted == w.emitted && r.bus.nextID == w.bus.nextID
  {
  }

  // ---- why a WaitFor gave up ----

  /** At the i-th move, the call was blocked and its context ended. */
  ghost predicate GaveUpAt(moves: seq<Move>, id: nat, i: nat, deadline: bool) {
    i < |moves| && moves[i] == WaitGivesUp(id, deadline) && Waiting(Run(NEW_WORLD, moves[..i]), id, Blocked)
  }

  /**
   A WaitFor reports a timeout only when its deadline has passed while it was blocked, and a
   cancellation likewise.
   */
  lemma {:induction false} GaveUpForAReason(moves: seq<Move>, id: nat, deadline: bool)
    requires Waiting(Run(NEW_WORLD, moves), id, Returned(if deadline then Timeout else Canceled))
    ensures exists i: nat :: GaveUpAt(moves, id, i, deadline)
    decreases |moves|
  {
    hide Next;
    if moves == [] {
      assert false;
    } else {
      var init, move := moves[..|moves| - 1], moves[|moves| - 1];
      var w := Run(NEW_WORLD, init);
      if Waiting(w, id, Returned(if deadline then Timeout else Canceled)) {
        GaveUpForAReason(init, id, deadline);
        var i: nat :| GaveUpAt(init, id, i, deadline);
        assert init[..i] == moves[..i];
        assert GaveUpAt(moves, id, i, deadline);
      } else {
        EveryWaiter(init, id);
        ReturnsOnce(w, move, id, deadline);
        assert GaveUpAt(moves, id, |moves| - 1, deadline);
      }
    }
  }

  lemma ReturnsOnce(w: World, move: Move, id: nat, deadline: bool)
    requires WaiterAt(w, id)
    requires !Waiting(w, id, Returned(if deadline then Timeout else Canceled))
    requires Waiting(Next(w, move), id, Returned(if deadline then Timeout else Canceled))
    ensures move == WaitGivesUp(id, deadline) && Waiting(w, id, Blocked)
  {
    hide NoneAccepted, FirstAccepted, Emitted, Closed, Cancelled, Abandoned;
  }
}
