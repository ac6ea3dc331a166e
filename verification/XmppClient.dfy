/**
 xmpp/client.go: the client, its fields and the loop of its supervisor. Each method does what the
 steps of the same name in XmppModel do, so what is proved there of all interleavings holds of it.
 */
module XmppClient {
  import opened GoStrings
  import opened Backoff
  import opened XmppModel

  /** Every supervisor is where it was, though its context may have ended; there may be new ones. */
  ghost predicate Kept(before: seq<Supervisor>, after: seq<Supervisor>) {
    |before| <= |after| && forall s | 0 <= s < |before| ::
        after[s].pc == before[s].pc && after[s].failures == before[s].failures
  }

  /** A keep-alive loop ends silently with its context. */
  predicate Possible(move: Move) {
    move.LoopGets? && move.loop == KeepAlive ==> move.err != Canceled
  }

  class Client {
    const cfg: Config
    var running: bool
    var conn: Option<nat>
    var contexts: seq<bool>       // whether the context of each supervisor has ended
    var conns: seq<Conn>
    var log: seq<Event>
    ghost var sups: seq<Supervisor>
    ghost var moves: seq<Move>

    ghost function View(): World
      reads this
    {
      World(running, conn, sups, conns, log)
    }

    /** The client has got where it is by a run of the protocol. */
    ghost predicate Valid()
      reads this
    {
      && View() == Run(cfg, moves)
      && |contexts| == |sups| && forall s | 0 <= s < |sups| :: contexts[s] == sups[s].canceled
    }

    ghost predicate At(s: nat, pc: PC, failures: nat)
      reads this
    {
      s < |sups| && sups[s].pc == pc && sups[s].failures == failures
    }

    constructor (cfg: Config)
      ensures Valid() && this.cfg == cfg && moves == []
    {
      this.cfg := cfg;
      running, conn, contexts, conns, log, sups, moves := false, None, [], [], [], [], [];
    }

    /** The fields have changed as one move says. */
    ghost method Moved(move: Move, before: World)
      requires before == Run(cfg, moves) && View() == Next(cfg, before, move)
      modifies this`moves
      ensures moves == old(moves) + [move] && View() == Run(cfg, moves)
    {
      hide Next;
      moves := moves + [move];
      assert moves[..|moves| - 1] == old(moves);
    }

    method Connect()
      requires Valid()
      modifies this
      ensures Valid() && moves == old(moves) + [Move.Connect]
      ensures running && contexts == if old(running) then old(contexts) else old(contexts) + [false]
      ensures Kept(old(sups), sups) && log == old(log) && |conns| >= |old(conns)|
    {
      hide Run;
      ghost var before := View();
      if !running {
        running := true;
        contexts := contexts + [false];
        sups := sups + [Supervisor(Head, 0, false)];
      }
      Moved(Move.Connect, before);
    }

    method EndContext(s: nat)
      requires Valid()
      modifies this
      ensures Valid() && moves == old(moves) + [Move.EndContext(s)]
      ensures Kept(old(sups), sups) && log == old(log) && |conns| >= |old(conns)|
    {
      hide Run;
      ghost var before := View();
      if s < |contexts| {
        contexts := contexts[s := true];
        sups := sups[s := sups[s].(canceled := true)];
      }
      Moved(Move.EndContext(s), before);
    }

    /** Close, up to the point where it waits for the supervisor. */
    lemma RunningHasOne()
      requires Valid() && running
      ensures |sups| > 0
    {
      hide Run;
      AlwaysSingle(cfg, moves);
    }

    method Close()
      requires Valid()
      modifies this
      ensures Valid() && moves == old(moves) + [Move.Close]
      ensures running == old(running) && |contexts| == |old(contexts)|
      ensures running ==> |contexts| > 0 && contexts == old(contexts)[|contexts| - 1 := true]
      ensures !running ==> contexts == old(contexts)
      ensures Kept(old(sups), sups) && log == old(log) && |conns| >= |old(conns)|
    {
      hide Run;
      if running { RunningHasOne(); }
      ghost var before := View();
      if running && |contexts| > 0 {
        contexts := contexts[|contexts| - 1 := true];
        sups := sups[|sups| - 1 := sups[|sups| - 1].(canceled := true)];
      }
      Moved(Move.Close, before);
    }

    /** `errCh <- err` at the end of a loop: it blocks when the channel is full. */
    method SendError(c: nat, loop: Loop, err: Err)
      requires c < |conns| && loop in conns[c].started && loop !in conns[c].sent && err != Nil
      modifies this`conns
      ensures conns == old(conns)[c := AfterLoop(old(conns)[c], loop, err)]
    {
      var ch := conns[c].buffer;
      if |ch| < ERR_CAPACITY {
        ch := ch + [err];
        conns := conns[c := conns[c].(buffer := ch, sent := conns[c].sent + {loop})];
      } else {
        conns := conns[c := conns[c].(blocked := true)];
      }
    }

    /** The loop has been started and has not ended. */
    predicate Looping(c: nat, loop: Loop)
      reads this
    {
      c < |conns| && loop in conns[c].started && loop !in conns[c].sent
    }

    /** One turn of readLoop: a message, or an error, which is sent and ends the loop. */
    method ReadTurn(c: nat, err: Err)
      requires Valid()
      modifies this
      ensures Valid() && moves == old(moves) + [Move.LoopGets(c, Read, err)]
      ensures Kept(old(sups), sups) && log == old(log) && |conns| >= |old(conns)|
    {
      hide Run;
      ghost var before := View();
      if Looping(c, Read) && err != Nil {
        SendError(c, Read, err);
      }
      Moved(Move.LoopGets(c, Read, err), before);
    }

    /** One turn of writeLoop: the context's error if it has ended, otherwise what writing a message gives. */
    method WriteTurn(c: nat, ended: Option<Err>, written: Err)
      requires Valid() && ended != Some(Nil)
      modifies this
      ensures Valid() && moves == old(moves) + [Move.LoopGets(c, Write, if ended.Some? then ended.value else written)]
      ensures Kept(old(sups), sups) && log == old(log) && |conns| >= |old(conns)|
    {
      hide Run;
      ghost var before := View();
      if Looping(c, Write) {
        if ended.Some? {
          SendError(c, Write, ended.value);
        } else if written != Nil {
          SendError(c, Write, written);
        }
      }
      Moved(Move.LoopGets(c, Write, if ended.Some? then ended.value else written), before);
    }

    /** One turn of keepAliveLoop: it ends silently with the context, and with an error when the send queue is full. */
    method KeepAliveTurn(c: nat, ended: bool, full: bool)
      requires Valid()
      modifies this
      ensures Valid() && moves == old(moves) + [Move.LoopGets(c, KeepAlive, if !ended && full then Failure else Nil)]
      ensures Kept(old(sups), sups) && log == old(log) && |conns| >= |old(conns)|
    {
      hide Run;
      ghost var before := View();
      if Looping(c, KeepAlive) && !ended && full {
        SendError(c, KeepAlive, Failure);
      }
      Moved(Move.LoopGets(c, KeepAlive, if !ended && full then Failure else Nil), before);
    }

    /** Another supervisor is not active, and its steps do nothing. */
    lemma NotActive(s: nat, t: nat, err: Err)
      requires Valid() && s < |sups| && !sups[s].pc.Stopped? && t != s
      ensures Next(cfg, View(), Step(t, err)) == View()
    {
      hide Run;
      AlwaysSingle(cfg, moves);
    }

    /** What callers and loops do while the supervisor s is at work. */
    method Play(move: Move, ghost s: nat)
      requires Valid() && s < |sups| && !sups[s].pc.Stopped? && Possible(move) && (move.Step? ==> move.s != s)
      modifies this
      ensures Valid() && moves == old(moves) + [move]
      ensures Kept(old(sups), sups) && |conns| >= |old(conns)| && log == old(log)
    {
      hide Run, Next;
      match move {
        case Connect => Connect();
        case Close => Close();
        case EndContext(t) => EndContext(t);
        case LoopGets(c, loop, err) =>
          match loop {
            case Read => ReadTurn(c, err);
            case Write => WriteTurn(c, if err == Canceled then Some(Canceled) else None, err);
            case KeepAlive => KeepAliveTurn(c, err == Nil, err == Failure);
          }
        case Step(t, err) =>
          NotActive(s, t, err);
          Moved(move, View());
      }
    }

    /** Everything else that happens before the next step of the supervisor s, if there is one. */
    method Await(env: seq<Move>, n0: nat, s: nat, ghost pc: PC, ghost failures: nat) returns (n: nat, err: Option<Err>)
      requires Valid() && At(s, pc, failures) && !pc.Stopped? && n0 <= |env| && forall move | move in env ::
        Possible(move)
      modifies this
      ensures Valid() && At(s, pc, failures) && n0 <= n <= |env| && moves == old(moves) + env[n0..n]
      ensures if err.None? then n == |env| else n < |env| && env[n] == Step(s, err.value)
    {
      hide Run, Valid, Next;
      n := n0;
      while n < |env|
        invariant n0 <= n <= |env|
        invariant Valid() && At(s, pc, failures) && moves == old(moves) + env[n0..n]
      {
        if env[n].Step? && env[n].s == s { return n, Some(env[n].err); }
        Play(env[n], s);
        assert env[n0..n + 1] == env[n0..n] + [env[n]];
        n := n + 1;
      }
      err := None;
    }

    ghost method Go(s: nat, pc: PC)
      requires s < |sups|
      modifies this`sups
      ensures sups == old(sups)[s := old(sups)[s].(pc := pc)]
    {
      sups := sups[s := sups[s].(pc := pc)];
    }

    /** The n-th of the things that happen has been the supervisor's step. */
    ghost predicate Took(env: seq<Move>, n0: nat, n: nat, before: seq<Move>)
      reads this
    {
      n0 <= n <= |env| && moves == before + env[n0..n]
    }

    lemma TookMore(env: seq<Move>, n0: nat, n1: nat, n: nat, before: seq<Move>, then_: seq<Move>)
      requires n0 <= n1 <= n <= |env| && then_ == before + env[n0..n1] && moves == then_ + env[n1..n]
      ensures Took(env, n0, n, before)
    {
      assert env[n0..n] == env[n0..n1] + env[n1..n];
    }

    lemma TookOne(env: seq<Move>, n0: nat, n: nat, before: seq<Move>)
      requires n0 <= n < |env| && moves == before + env[n0..n] + [env[n]]
      ensures Took(env, n0, n + 1, before)
    {
      assert env[n0..n + 1] == env[n0..n] + [env[n]];
    }

    /** connectAndRun, as far as what happens lets it go. */
    method ConnectAndRun(env: seq<Move>, n0: nat, s: nat, ghost failures: nat) returns (n: nat, end: Option<Err>)
      requires Valid() && At(s, Connecting, failures) && n0 <= |env| && forall move | move in env :: Possible(move)
      modifies this
      ensures Valid() && Took(env, n0, n, old(moves))
      ensures s < |sups| && if end.None? then n == |env| else n > n0 && At(s, Judging(end.value), failures)
    {
      hide Valid;
      var c;
      n, end, c := OpenConn(env, n0, s, failures);
      if n == |env| && end.None? && c.None? { return; }
      if end.Some? { return; }
      ghost var m := moves;
      ghost var n1 := n;
      n, end := WaitForError(env, n, s, failures, c.value);
      TookMore(env, n0, n1, n, old(moves), m);
      if end.None? { return; }
      m, n1 := moves, n;
      var go;
      n, go := Await(env, n, s, Leaving(c.value, end.value), failures);
      TookMore(env, n0, n1, n, old(moves), m);
      if go.None? { return n, None; }
      Leave(s, failures, c.value, end.value, go.value);
      TookOne(env, n0, n, old(moves));
      n := n + 1;
    }

    /** Up to the loops: the connection is open and announced, or opening it has failed. */
    method OpenConn(env: seq<Move>, n0: nat, s: nat, ghost failures: nat)
      returns (n: nat, end: Option<Err>, c: Option<nat>)
      requires Valid() && At(s, Connecting, failures) && n0 <= |env| && forall move | move in env :: Possible(move)
      modifies this
      ensures Valid() && Took(env, n0, n, old(moves))
      ensures end.Some? ==> n > n0 && c.None? && At(s, Judging(end.value), failures)
      ensures end.None? && c.Some? ==> n > n0 && At(s, Running(c.value), failures)
      ensures end.None? && c.None? ==> n == |env| && s < |sups|
    {
      hide Valid;
      c := None;
      n, end := Await(env, n0, s, Connecting, failures);
      if end.None? { return; }
      if end.value != Nil {
        OpenFails(s, failures, end.value);
        TookOne(env, n0, n, old(moves));
        n := n + 1;
        return;
      }
      var made := Open(s, failures);
      TookOne(env, n0, n, old(moves));
      n := n + 1;
      ghost var m, n1 := moves, n;
      n, end := Await(env, n, s, Entering(made), failures);
      TookMore(env, n0, n1, n, old(moves), m);
      if end.None? { return; }
      Announce(s, failures, made, end.value);
      TookOne(env, n0, n, old(moves));
      n, end, c := n + 1, None, Some(made);
    }

    /** `err = <-errCh`: blocked until one of the loops has sent an error. */
    method WaitForError(env: seq<Move>, n0: nat, s: nat, ghost failures: nat, c: nat) returns (n: nat, end: Option<Err>)
      requires Valid() && At(s, Running(c), failures) && n0 <= |env| && forall move | move in env :: Possible(move)
      modifies this
      ensures Valid() && Took(env, n0, n, old(moves))
      ensures s < |sups| && if end.None? then n == |env| else n > n0 && At(s, Leaving(c, end.value), failures)
    {
      hide Valid;
      n := n0;
      while n < |env|
        invariant Valid() && At(s, Running(c), failures) && Took(env, n0, n, old(moves))
      {
        ghost var m, n1 := moves, n;
        var go;
        n, go := Await(env, n, s, Running(c), failures);
        TookMore(env, n0, n1, n, old(moves), m);
        if go.None? { return n, None; }
        if c < |conns| && conns[c].buffer != [] {
          var err := Receive(s, failures, c, go.value);
          TookOne(env, n0, n, old(moves));
          return n + 1, Some(err);
        }
        StillBlocked(s, failures, c, go.value);
        TookOne(env, n0, n, old(moves));
        n := n + 1;
      }
      end := None;
    }

    /** A step at which the receive is blocked. */
    ghost method StillBlocked(s: nat, failures: nat, c: nat, err: Err)
      requires Valid() && At(s, Running(c), failures) && (c >= |conns| || conns[c].buffer == [])
      modifies this
      ensures Valid() && At(s, Running(c), failures) && moves == old(moves) + [Step(s, err)]
    {
      hide Run;
      Moved(Step(s, err), View());
    }

    method OpenFails(s: nat, ghost failures: nat, err: Err)
      requires Valid() && At(s, Connecting, failures) && err != Nil
      modifies this
      ensures Valid() && At(s, Judging(err), failures) && moves == old(moves) + [Step(s, err)]
    {
      hide Run;
      ghost var before := View();
      Go(s, Judging(err));
      Moved(Step(s, err), before);
    }

    method Open(s: nat, ghost failures: nat) returns (c: nat)
      requires Valid() && At(s, Connecting, failures)
      modifies this
      ensures Valid() && At(s, Entering(c), failures) && moves == old(moves) + [Step(s, Nil)]
    {
      hide Run;
      ghost var before := View();
      c := |conns|;
      conns := conns + [Conn(Started(cfg), {}, [], 0, false)];
      SetConn(c);
      Go(s, Entering(c));
      Moved(Step(s, Nil), before);
    }

    method Announce(s: nat, ghost failures: nat, c: nat, err: Err)
      requires Valid() && At(s, Entering(c), failures)
      modifies this
      ensures Valid() && At(s, Running(c), failures) && moves == old(moves) + [Step(s, err)]
    {
      hide Run;
      ghost var before := View();
      log := log + [Connected(s)];
      Go(s, Running(c));
      Moved(Step(s, err), before);
    }

    method Receive(s: nat, ghost failures: nat, c: nat, go: Err) returns (err: Err)
      requires Valid() && At(s, Running(c), failures) && c < |conns| && conns[c].buffer != []
      modifies this
      ensures Valid() && At(s, Leaving(c, err), failures) && moves == old(moves) + [Step(s, go)]
    {
      hide Run;
      ghost var before := View();
      err := conns[c].buffer[0];
      conns := conns[c := conns[c].(buffer := conns[c].buffer[1..], received := conns[c].received + 1)];
      Go(s, Leaving(c, err));
      Moved(Step(s, go), before);
    }

    method Leave(s: nat, ghost failures: nat, c: nat, err: Err, go: Err)
      requires Valid() && At(s, Leaving(c, err), failures)
      modifies this
      ensures Valid() && At(s, Judging(err), failures) && moves == old(moves) + [Step(s, go)]
    {
      hide Run;
      ghost var before := View();
      ClearConn(c);
      log := log + [Disconnected(s, err)];
      Go(s, Judging(err));
      Moved(Step(s, go), before);
    }

    method SetConn(c: nat)
      modifies this`conn
      ensures conn == Some(c)
    {
      conn := Some(c);
    }

    method ClearConn(c: nat)
      modifies this`conn
      ensures conn == if old(conn) == Some(c) then None else old(conn)
    {
      if conn == Some(c) { conn := None; }
    }

    method MarkStopped(ghost s: nat, ghost failures: nat, go: Err)
      requires Valid() && At(s, Stopping, failures)
      modifies this
      ensures Valid() && At(s, Stopped, failures) && !running && conn == None && moves == old(moves) + [Step(s, go)]
    {
      hide Run;
      ghost var before := View();
      running := false;
      if conn.Some? { conn := None; }
      Go(s, Stopped);
      Moved(Step(s, go), before);
    }

    /** Counting a failure, and saying whether it was one too many. */
    method Fail(s: nat, before: nat, go: Err) returns (failures: nat, spent: bool)
      requires Valid() && At(s, Judging(Failure), before) && IsInt64(cfg.minDelay) && IsInt64(cfg.maxDelay)
      modifies this
      ensures Valid() && failures == before + 1 && At(s, if spent then Stopping else Sleeping, failures)
      ensures moves == old(moves) + [Step(s, go)] && (spent <==> cfg.budget > 0 && failures > cfg.budget)
    {
      hide Run, Delay;
      ghost var world := View();
      failures := before + 1;
      var delay := Exponential(failures - 1, cfg.minDelay, cfg.maxDelay);
      log := log + [Reconnecting(s, failures, delay)];
      spent := cfg.budget > 0 && failures > cfg.budget;
      log := log + [Error(s, spent)];
      sups := sups[s := sups[s].(pc := if spent then Stopping else Sleeping, failures := failures)];
      assert log == world.log + [Reconnecting(s, failures, delay), Error(s, spent)];
      Moved(Step(s, go), world);
    }

    method Forgive(s: nat, ghost failures: nat, go: Err)
      requires Valid() && At(s, Judging(Nil), failures)
      modifies this
      ensures Valid() && At(s, Head, 0) && moves == old(moves) + [Step(s, go)]
    {
      hide Run;
      ghost var before := View();
      sups := sups[s := sups[s].(pc := Head, failures := 0)];
      Moved(Step(s, go), before);
    }

    /** From one place to another that brings no change but this. */
    ghost method Turn(s: nat, from: PC, to: PC, failures: nat, err: Err)
      requires Valid() && At(s, from, failures)
      requires (from == Head && to == if sups[s].canceled then Stopping else Connecting)
            || (from == Judging(Canceled) && to == Stopping)
            || (from == Sleeping && to == if sups[s].canceled && err != Nil then Stopping else Head)
      modifies this
      ensures Valid() && At(s, to, failures) && moves == old(moves) + [Step(s, err)]
    {
      hide Run;
      var before := View();
      Go(s, to);
      Moved(Step(s, err), before);
    }

    /** The return of the supervisor: the client is marked as stopped. */
    method Return(env: seq<Move>, n0: nat, s: nat, ghost failures: nat) returns (n: nat, ended: bool)
      requires Valid() && At(s, Stopping, failures) && n0 <= |env| && forall move | move in env :: Possible(move)
      modifies this
      ensures Valid() && Took(env, n0, n, old(moves)) && s < |sups|
      ensures if ended then sups[s].pc.Stopped? && !running && conn == None else n == |env|
    {
      hide Valid;
      var go;
      n, go := Await(env, n0, s, Stopping, failures);
      if go.None? { return n, false; }
      MarkStopped(s, failures, go.value);
      TookOne(env, n0, n, old(moves));
      return n + 1, true;
    }

    /**
     What the supervisor makes of the end of a connection: it returns, or it goes on, after a
     pause if that failed.
     */
    method Judge(env: seq<Move>, n0: nat, s: nat, err: Err, before: nat) returns (n: nat, next: PC, failures: nat)
      requires Valid() && At(s, Judging(err), before) && n0 <= |env| && forall move | move in env :: Possible(move)
      requires IsInt64(cfg.minDelay) && IsInt64(cfg.maxDelay)
      modifies this
      ensures Valid() && Took(env, n0, n, old(moves)) && At(s, next, failures)
      ensures n == |env| || (n > n0 && (next == Head || next == Stopping))
    {
      hide Valid;
      var go;
      n, go := Await(env, n0, s, Judging(err), before);
      next, failures := Judging(err), before;
      if go.None? { return; }
      match err {
        case Nil =>
          Forgive(s, before, go.value);
          next, failures := Head, 0;
        case Canceled =>
          Turn(s, Judging(Canceled), Stopping, before, go.value);
          next := Stopping;
        case Failure =>
          var spent;
          failures, spent := Fail(s, before, go.value);
          next := if spent then Stopping else Sleeping;
      }
      TookOne(env, n0, n, old(moves));
      n := n + 1;
      if next != Sleeping { return; }
      ghost var m, n1 := moves, n;
      n, go := Await(env, n, s, Sleeping, failures);
      TookMore(env, n0, n1, n, old(moves), m);
      if go.None? { return; }
      Ends(s, Sleeping, failures);
      next := if contexts[s] && go.value != Nil then Stopping else Head;
      Turn(s, Sleeping, next, failures, go.value);
      TookOne(env, n0, n, old(moves));
      n := n + 1;
    }

    lemma Ends(s: nat, pc: PC, failures: nat)
      requires Valid() && At(s, pc, failures)
      ensures s < |sups| == |contexts| && contexts[s] == sups[s].canceled
    {
    }

    /**
     The supervisor. Whatever happens, and in whatever order, it takes its steps as the model has
     them: what has become of the client is the model's run of all that has happened, and the
     supervisor has returned, or all has been played.
     */
    method Supervise(env: seq<Move>, s: nat) returns (n: nat, ended: bool)
      requires Valid() && At(s, Head, 0) && IsInt64(cfg.minDelay) && IsInt64(cfg.maxDelay)
      requires forall move | move in env :: Possible(move)
      modifies this
      ensures Valid() && n <= |env| && moves == old(moves) + env[..n] && s < |sups|
      ensures if ended then sups[s].pc.Stopped? && !running && conn == None else n == |env|
    {
      hide Valid, View;
      var failures := 0;
      n := 0;
      assert env[0..0] == [];
      while n < |env|
        invariant Valid() && At(s, Head, failures) && Took(env, 0, n, old(moves))
      {
        var next;
        n, next, failures := OneTurn(env, n, s, failures, old(moves));
        assert env[0..n] == env[..n];
        if next.None? { return n, false; }
        if next == Some(Stopping) {
          ghost var m, n1 := moves, n;
          n, ended := Return(env, n, s, failures);
          TookMore(env, 0, n1, n, old(moves), m);
          assert env[0..n] == env[..n];
          return;
        }
      }
      assert env[0..n] == env[..n];
      ended := false;
    }

    /** One turn of the supervisor's loop: to the next, to its return, or to where everything has been played. */
    method OneTurn(env: seq<Move>, n0: nat, s: nat, before: nat, ghost start: seq<Move>)
      returns (n: nat, next: Option<PC>, failures: nat)
      requires Valid() && At(s, Head, before) && IsInt64(cfg.minDelay) && IsInt64(cfg.maxDelay)
      requires n0 < |env| && Took(env, 0, n0, start) && forall move | move in env :: Possible(move)
      modifies this
      ensures Valid() && s < |sups| && Took(env, 0, n, start) && n0 < n
      ensures if next.None? then n == |env| else next.value in {Head, Stopping} && At(s, next.value, failures)
    {
      hide Valid;
      var go;
      failures := before;
      ghost var m, n1 := moves, n0;
      n, go := Await(env, n0, s, Head, failures);
      TookMore(env, 0, n1, n, start, m);
      Ends(s, Head, failures);
      if go.None? { return n, None, failures; }
      var pc := if contexts[s] then Stopping else Connecting;
      Turn(s, Head, pc, failures, go.value);
      TookOne(env, 0, n, start);
      n := n + 1;
      Ends(s, pc, failures);
      if pc == Stopping { return n, Some(Stopping), failures; }
      m, n1 := moves, n;
      var end;
      n, end := ConnectAndRun(env, n, s, failures);
      TookMore(env, 0, n1, n, start, m);
      if end.None? { return n, None, failures; }
      m, n1 := moves, n;
      n, pc, failures := Judge(env, n, s, end.value, failures);
      TookMore(env, 0, n1, n, start, m);
      Ends(s, pc, failures);
      next := if pc == Head || pc == Stopping then Some(pc) else None;
    }
  }
}
