/**
 How supervisors are started, stopped and kept going: what Connect and Close bring about, that a
 supervisor whose context has ended stops within a bounded number of its own steps, and that no
 other one stops but for its budget or a cancelled connection.
 */
module XmppShutdown {
  import opened GoStrings
  import opened Backoff
  import opened XmppModel

  // ---- callers ----

  /** Connect starts a supervisor, and the client is running, unless it is already. */
  lemma ConnectStarts(cfg: Config, moves: seq<Move>)
    ensures var w, r := Run(cfg, moves), Run(cfg, moves + [Connect]);
      r == if w.running then w else w.(running := true, sups := w.sups + [Supervisor(Head, 0, false)])
  {
    hide Run, Next;
    RunMore(cfg, moves, Connect);
    ConnectIs(cfg, Run(cfg, moves));
  }

  lemma ConnectIs(cfg: Config, w: World)
    ensures Next(cfg, w, Connect) == if w.running then w
      else w.(running := true, sups := w.sups + [Supervisor(Head, 0, false)])
  {
  }

  /** Close ends the context of the supervisor that is active, and touches nothing else. */
  lemma CloseCancels(cfg: Config, moves: seq<Move>)
    ensures var w, r := Run(cfg, moves), Run(cfg, moves + [Close]);
      if !w.running then r == w
      else
        && w.sups != [] && r == w.(sups := r.sups) && |r.sups| == |w.sups| && Last(r).canceled && Active(Last(r))
        && Last(r) == Last(w).(canceled := true) && forall s | 0 <= s < |w.sups| - 1 :: r.sups[s] == w.sups[s]
  {
    hide Run;
    RunMore(cfg, moves, Close);
    AlwaysSingle(cfg, moves);
  }

  /** An ended context stays ended, and a supervisor that has stopped stays stopped. */
  lemma {:induction false} EndedForGood(cfg: Config, moves: seq<Move>, more: seq<Move>, s: nat)
    requires s < |Run(cfg, moves).sups|
    ensures var w, r := Run(cfg, moves), Run(cfg, moves + more);
      && s < |r.sups| && (w.sups[s].canceled ==> r.sups[s].canceled)
      && (w.sups[s].pc.Stopped? ==> r.sups[s].pc.Stopped?)
    decreases |more|
  {
    hide Next;
    if more == [] {
      assert moves + more == moves;
    } else {
      var init, move := more[..|more| - 1], more[|more| - 1];
      EndedForGood(cfg, moves, init, s);
      assert moves + more == (moves + init) + [move];
      RunMore(cfg, moves + init, move);
      StepKeepsEnded(cfg, Run(cfg, moves + init), move, s);
    }
  }

  lemma StepKeepsEnded(cfg: Config, w: World, move: Move, s: nat)
    requires s < |w.sups|
    ensures var r := Next(cfg, w, move);
      && s < |r.sups| && (w.sups[s].canceled ==> r.sups[s].canceled)
      && (w.sups[s].pc.Stopped? ==> r.sups[s].pc.Stopped?)
  {
    hide AfterLoop, Delay;
  }

  // ---- an ended context ----

  /** The supervisor waits for an error from its connection, and none has come. */
  predicate Blocked(w: World, s: nat) {
    && s < |w.sups| && w.sups[s].pc.Running?
    && (w.sups[s].pc.conn >= |w.conns| || w.conns[w.sups[s].pc.conn].buffer == [])
  }

  /** The most steps a supervisor still takes once its context has ended. */
  function Left(pc: PC): nat {
    match pc
    case Connecting => 8
    case Entering(_) => 7
    case Running(_) => 6
    case Leaving(_, _) => 5
    case Judging(_) => 4
    case Sleeping => 3
    case Head => 2
    case Stopping => 1
    case Stopped => 0
  }

  /** Connections it may still report as lost. */
  function Open(pc: PC): nat {
    match pc
    case Connecting => 1
    case Entering(_) => 1
    case Running(_) => 1
    case Leaving(_, _) => 1
    case _ => 0
  }

  function Drops(log: seq<Event>, s: nat): nat {
    if log == [] then 0
    else Drops(log[..|log| - 1], s) + var e := log[|log| - 1]; if e.Disconnected? && e.sup == s then 1 else 0
  }

  lemma DropsMore(log: seq<Event>, e: Event, e': Event, s: nat)
    ensures Drops(log + [e], s) == Drops(log, s) + if e.Disconnected? && e.sup == s then 1 else 0
    ensures Drops(log + [e, e'], s) == Drops(log + [e], s) + if e'.Disconnected? && e'.sup == s then 1 else 0
  {
    assert (log + [e])[..|log|] == log;
    assert (log + [e, e'])[..|log| + 1] == log + [e];
  }

  /** A step of the supervisor that is not blocked. */
  predicate Works(w: World, move: Move, s: nat) {
    move.Step? && move.s == s && !Blocked(w, s)
  }

  /** How a step leaves a supervisor whose context has ended. */
  ghost predicate Shrunk(w: World, r: World, move: Move, s: nat)
    requires s < |w.sups|
  {
    && s < |r.sups|
    && (if Works(w, move, s) && Left(w.sups[s].pc) > 0 then Left(r.sups[s].pc) < Left(w.sups[s].pc)
        else Left(r.sups[s].pc) == Left(w.sups[s].pc))
    && Open(r.sups[s].pc) <= Open(w.sups[s].pc)
    && (w.sups[s].pc == Head ==> r.sups[s].pc in {Head, Stopping})
  }

  lemma LeftShrinks(cfg: Config, w: World, move: Move, s: nat)
    requires s < |w.sups| && w.sups[s].canceled && w.sups[s].pc != Judging(Nil)
    ensures Shrunk(w, Next(cfg, w, move), move, s)
  {
    hide SupervisorStep, Shrunk;
    if move.Step? && move.s == s {
      LeftShrinksOwn(cfg, w, s, move.err);
    } else {
      LeftStays(cfg, w, move, s);
    }
  }

  lemma LeftShrinksOwn(cfg: Config, w: World, s: nat, err: Err)
    requires s < |w.sups| && w.sups[s].canceled && w.sups[s].pc != Judging(Nil)
    ensures Shrunk(w, SupervisorStep(cfg, w, s, err), Step(s, err), s)
  {
    hide Delay, Judged;
    if w.sups[s].pc.Judging? { JudgedEnds(cfg, w, s, w.sups[s].pc.err); }
  }

  lemma JudgedEnds(cfg: Config, w: World, s: nat, err: Err)
    requires s < |w.sups| && err != Nil
    ensures var r := Judged(cfg, w, s, err); |r.sups| == |w.sups| && r.sups[s].pc in {Sleeping, Stopping}
  {
    hide Delay;
  }

  lemma LeftStays(cfg: Config, w: World, move: Move, s: nat)
    requires s < |w.sups| && !(move.Step? && move.s == s)
    ensures Shrunk(w, Next(cfg, w, move), move, s)
  {
    hide SupervisorStep, AfterLoop, Left, Open;
    if move.Step? && move.s < |w.sups| { OtherStays(cfg, w, move.s, move.err, s); }
  }

  lemma OtherStays(cfg: Config, w: World, t: nat, err: Err, s: nat)
    requires s < |w.sups| && t < |w.sups| && t != s
    ensures var r := SupervisorStep(cfg, w, t, err); |r.sups| == |w.sups| && r.sups[s] == w.sups[s]
  {
    hide Delay;
  }

  lemma DropsStep(cfg: Config, w: World, move: Move, s: nat)
    requires s < |w.sups|
    requires var r := Next(cfg, w, move); s < |r.sups| && Open(r.sups[s].pc) <= Open(w.sups[s].pc)
    ensures var r := Next(cfg, w, move); Drops(r.log, s) + Open(r.sups[s].pc) <= Drops(w.log, s) + Open(w.sups[s].pc)
  {
    hide AfterLoop, Delay, Drops;
    if move.Step? && move.s < |w.sups| {
      var t, n := move.s, w.sups[move.s].failures + 1;
      var r := Reconnecting(t, n, Delay(n - 1, cfg.minDelay, cfg.maxDelay));
      DropsMore(w.log, Connected(t), Connected(t), s);
      DropsMore(w.log, Disconnected(t, if w.sups[t].pc.Leaving? then w.sups[t].pc.err else Nil), Connected(t), s);
      DropsMore(w.log, r, Error(t, cfg.budget > 0 && n > cfg.budget), s);
    }
  }

  /** The supervisor's own steps in a continuation, not counting those at which it was blocked. */
  ghost function Working(cfg: Config, moves: seq<Move>, more: seq<Move>, s: nat): nat
    decreases |more|
  {
    if more == [] then 0
    else
      Working(cfg, moves, more[..|more| - 1], s)
      + if Works(Run(cfg, moves + more[..|more| - 1]), more[|more| - 1], s) then 1 else 0
  }

  lemma {:induction false} Winding(cfg: Config, moves: seq<Move>, more: seq<Move>, s: nat)
    requires s < |Run(cfg, moves).sups| && Run(cfg, moves).sups[s].canceled
    ensures var w, r := Run(cfg, moves), Run(cfg, moves + more);
      && s < |r.sups| && r.sups[s].canceled
      && (Left(r.sups[s].pc) == 0 || Left(r.sups[s].pc) + Working(cfg, moves, more, s) <= Left(w.sups[s].pc))
      && Open(r.sups[s].pc) <= Open(w.sups[s].pc)
      && Drops(r.log, s) + Open(r.sups[s].pc) <= Drops(w.log, s) + Open(w.sups[s].pc)
    decreases |more|
  {
    hide Next, Drops, Works;
    if more == [] {
      assert moves + more == moves;
    } else {
      var init, move := more[..|more| - 1], more[|more| - 1];
      var now := Run(cfg, moves + init);
      Winding(cfg, moves, init, s);
      assert moves + more == (moves + init) + [move];
      RunMore(cfg, moves + init, move);
      FailuresNeverReset(cfg, moves + init, move, s);
      LeftShrinks(cfg, now, move, s);
      DropsStep(cfg, now, move, s);
      StepKeepsEnded(cfg, now, move, s);
    }
  }

  /**
   From every reachable state: a supervisor whose context has ended has stopped when it has taken
   eight steps of its own, however it is interleaved with others, and reports at most one more
   lost connection.
   */
  lemma CanceledStops(cfg: Config, moves: seq<Move>, more: seq<Move>, s: nat)
    requires s < |Run(cfg, moves).sups| && Run(cfg, moves).sups[s].canceled
    ensures var w, r := Run(cfg, moves), Run(cfg, moves + more);
      && s < |r.sups|
      && (Working(cfg, moves, more, s) >= 8 ==> r.sups[s].pc.Stopped?)
      && Drops(r.log, s) <= Drops(w.log, s) + 1
  {
    hide Run, Working, Drops;
    Winding(cfg, moves, more, s);
  }

  /** And it never sets out to connect again: from the head of its loop it only stops. */
  lemma NoNewConnection(cfg: Config, moves: seq<Move>, move: Move, s: nat)
    requires s < |Run(cfg, moves).sups| && Run(cfg, moves).sups[s].canceled
    ensures var w, r := Run(cfg, moves), Run(cfg, moves + [move]);
      && s < |r.sups|
      && (r.sups[s].pc.Connecting? ==> w.sups[s].pc.Connecting?)
      && (w.sups[s].pc.Head? && move.Step? && move.s == s ==> r.sups[s].pc.Stopping?)
  {
    hide Run;
    RunMore(cfg, moves, move);
    OnlyStops(cfg, Run(cfg, moves), move, s);
  }

  lemma OnlyStops(cfg: Config, w: World, move: Move, s: nat)
    requires s < |w.sups| && w.sups[s].canceled
    ensures var r := Next(cfg, w, move);
      && s < |r.sups|
      && (r.sups[s].pc.Connecting? ==> w.sups[s].pc.Connecting?)
      && (w.sups[s].pc.Head? && move.Step? && move.s == s ==> r.sups[s].pc.Stopping?)
  {
    hide AfterLoop, Delay;
  }

  /** The step with which a supervisor stops leaves the client not running and without a connection. */
  lemma StoppingClears(cfg: Config, moves: seq<Move>, s: nat, err: Err)
    requires s < |Run(cfg, moves).sups| && Run(cfg, moves).sups[s].pc.Stopping?
    ensures var r := Run(cfg, moves + [Step(s, err)]);
      s < |r.sups| && r.sups[s].pc.Stopped? && !r.running && r.conn == None
  {
    hide Run;
    RunMore(cfg, moves, Step(s, err));
  }

  // ---- the connection lets it go ----

  /** The connection that a supervisor is about to wait on, or waits on, has not given up an error yet. */
  ghost predicate Fresh(cfg: Config, w: World, s: nat) {
    s < |w.sups| && (w.sups[s].pc.Entering? || w.sups[s].pc.Running?) ==>
      var c := w.sups[s].pc.conn;
      c < |w.conns| && w.conns[c].received == 0 && w.conns[c].started == Started(cfg)
  }

  lemma FreshStep(cfg: Config, w: World, move: Move, s: nat)
    requires Fresh(cfg, w, s) && Single(w)
    ensures Fresh(cfg, Next(cfg, w, move), s)
  {
    hide AfterLoop, SupervisorStep, Link, Started;
    if move.LoopGets? && move.c < |w.conns| {
      LoopKeeps(w.conns[move.c], move.loop, move.err);
    } else if move.Step? && move.s < |w.sups| {
      if move.s == s { FreshOwn(cfg, w, s, move.err); } else { FreshOther(cfg, w, move.s, move.err, s); }
    }
  }

  lemma FreshOwn(cfg: Config, w: World, s: nat, err: Err)
    requires s < |w.sups| && Fresh(cfg, w, s)
    ensures Fresh(cfg, SupervisorStep(cfg, w, s, err), s)
  {
    hide Judged, Started;
    if w.sups[s].pc.Judging? { JudgedPlace(cfg, w, s, w.sups[s].pc.err); }
  }

  lemma JudgedPlace(cfg: Config, w: World, s: nat, err: Err)
    requires s < |w.sups|
    ensures var r := Judged(cfg, w, s, err); |r.sups| == |w.sups| && !r.sups[s].pc.Entering? && !r.sups[s].pc.Running?
  {
    hide Delay;
  }

  lemma FreshOther(cfg: Config, w: World, t: nat, err: Err, s: nat)
    requires t < |w.sups| && t != s && Fresh(cfg, w, s) && Single(w)
    ensures Fresh(cfg, SupervisorStep(cfg, w, t, err), s)
  {
    hide Judged, Started, Link;
    if s < |w.sups| {
      OtherStays(cfg, w, t, err, s);
      if w.sups[s].pc.Entering? || w.sups[s].pc.Running? {
        assert w.sups[t].pc.Stopped?;
      }
    } else {
      SameNumber(cfg, w, t, err);
    }
  }

  lemma SameNumber(cfg: Config, w: World, t: nat, err: Err)
    requires t < |w.sups|
    ensures |SupervisorStep(cfg, w, t, err).sups| == |w.sups|
  {
    hide Delay;
  }

  lemma LoopKeeps(c: Conn, loop: Loop, err: Err)
    ensures var r := AfterLoop(c, loop, err); r.received == c.received && r.started == c.started
  {
  }

  lemma {:induction false} AlwaysFresh(cfg: Config, moves: seq<Move>, s: nat)
    ensures Fresh(cfg, Run(cfg, moves), s)
  {
    hide Next, Single;
    if moves == [] {
    } else {
      AlwaysFresh(cfg, moves[..|moves| - 1], s);
      AlwaysSingle(cfg, moves[..|moves| - 1]);
      FreshStep(cfg, Run(cfg, moves[..|moves| - 1]), moves[|moves| - 1], s);
    }
  }

  /** A blocked supervisor goes on as soon as one of its loops ends with an error, as they do with the context. */
  lemma ErrorUnblocks(cfg: Config, moves: seq<Move>, s: nat, loop: Loop, err: Err)
    requires Blocked(Run(cfg, moves), s) && loop in Started(cfg) && err != Nil
    ensures !Blocked(Run(cfg, moves + [LoopGets(Run(cfg, moves).sups[s].pc.conn, loop, err)]), s)
  {
    hide Run, Started;
    var w := Run(cfg, moves);
    var c := w.sups[s].pc.conn;
    RunMore(cfg, moves, LoopGets(c, loop, err));
    AlwaysFresh(cfg, moves, s);
    LoopsNeverBlock(cfg, moves);
    assert ConnSound(w.conns[c]);
  }

  /** After Close, an error from the connection and the supervisor's own steps, the client has stopped. */
  lemma ClosedClientStops(cfg: Config, moves: seq<Move>, more: seq<Move>)
    requires Run(cfg, moves).running
    requires var m := moves + [Close]; |Run(cfg, m).sups| > 0 && Working(cfg, m, more, |Run(cfg, m).sups| - 1) >= 8
    ensures var w, r := Run(cfg, moves), Run(cfg, moves + [Close] + more);
      && 0 < |w.sups| <= |r.sups| && r.sups[|w.sups| - 1].pc.Stopped?
      && (|r.sups| == |w.sups| ==> !r.running && r.conn == None)
  {
    hide Run, Working, Drops;
    CloseCancels(cfg, moves);
    CanceledStops(cfg, moves + [Close], more, |Run(cfg, moves).sups| - 1);
    EndedForGood(cfg, moves + [Close], more, |Run(cfg, moves).sups| - 1);
    AlwaysSingle(cfg, moves + [Close] + more);
  }

  // ---- no other end ----

  /** In every reachable state: the supervisor's next step makes it stop exactly for one of these reasons. */
  lemma StopsIff(cfg: Config, moves: seq<Move>, s: nat, err: Err)
    requires var w := Run(cfg, moves); s < |w.sups| && !w.sups[s].pc.Stopping? && !w.sups[s].pc.Stopped?
    ensures var w, r := Run(cfg, moves), Run(cfg, moves + [Step(s, err)]);
      && s < |r.sups|
      && (r.sups[s].pc.Stopping? <==>
            || (w.sups[s].pc.Head? && w.sups[s].canceled)
            || (w.sups[s].pc.Sleeping? && w.sups[s].canceled && err != Nil)
            || w.sups[s].pc == Judging(Canceled)
            || (w.sups[s].pc == Judging(Failure) && cfg.budget > 0 && w.sups[s].failures + 1 > cfg.budget))
  {
    hide Run;
    RunMore(cfg, moves, Step(s, err));
    StopReasons(cfg, Run(cfg, moves), s, err);
  }

  lemma StopReasons(cfg: Config, w: World, s: nat, err: Err)
    requires s < |w.sups| && !w.sups[s].pc.Stopping? && !w.sups[s].pc.Stopped?
    ensures var r := Next(cfg, w, Step(s, err));
      && s < |r.sups|
      && (r.sups[s].pc.Stopping? <==>
            || (w.sups[s].pc.Head? && w.sups[s].canceled)
            || (w.sups[s].pc.Sleeping? && w.sups[s].canceled && err != Nil)
            || w.sups[s].pc == Judging(Canceled)
            || (w.sups[s].pc == Judging(Failure) && cfg.budget > 0 && w.sups[s].failures + 1 > cfg.budget))
  {
    hide Delay;
  }

  /** A failure within the budget is followed by another attempt, unless the context has ended. */
  lemma FailureIsRetried(cfg: Config, moves: seq<Move>, s: nat, e1: Err, e2: Err, e3: Err)
    requires var w := Run(cfg, moves);
      && s < |w.sups| && w.sups[s].pc == Judging(Failure) && !w.sups[s].canceled
      && (cfg.budget <= 0 || w.sups[s].failures < cfg.budget)
    ensures var w, m := Run(cfg, moves), moves + [Step(s, e1)] + [Step(s, e2)];
      && s < |Run(cfg, m).sups| && Run(cfg, m).sups[s] == w.sups[s].(pc := Head, failures := w.sups[s].failures + 1)
      && s < |Run(cfg, m + [Step(s, e3)]).sups| && Run(cfg, m + [Step(s, e3)]).sups[s].pc.Connecting?
  {
    hide Run, Delay;
    RunMore(cfg, moves, Step(s, e1));
    RunMore(cfg, moves + [Step(s, e1)], Step(s, e2));
    RunMore(cfg, moves + [Step(s, e1)] + [Step(s, e2)], Step(s, e3));
  }

  /**
   In every run each connection has had its read and write loops started, and its keep-alive loop
   if that is configured.
   */
  lemma {:induction false} LoopsStarted(cfg: Config, moves: seq<Move>, c: nat)
    requires c < |Run(cfg, moves).conns|
    ensures var started := Run(cfg, moves).conns[c].started;
      Read in started && Write in started && (KeepAlive in started <==> cfg.keepAlive)
  {
    hide Next;
    if moves == [] {
      assert false;
    } else {
      var init, move := moves[..|moves| - 1], moves[|moves| - 1];
      StartedStep(cfg, Run(cfg, init), move, c);
      if c < |Run(cfg, init).conns| { LoopsStarted(cfg, init, c); }
    }
  }

  lemma StartedStep(cfg: Config, w: World, move: Move, c: nat)
    requires c < |Next(cfg, w, move).conns|
    ensures Next(cfg, w, move).conns[c].started == if c < |w.conns| then w.conns[c].started else Started(cfg)
  {
    hide Delay, AfterLoop, Started;
    if move.LoopGets? && move.c < |w.conns| { LoopKeeps(w.conns[move.c], move.loop, move.err); }
  }
}
