/**
 xmpp/client.go: a supervisor that keeps a connection alive, its three loops, and callers who
 connect and close; one step per critical section, channel operation or emitted event.
 */
module XmppModel {
  import opened GoStrings
  import opened Backoff

  datatype Config = Config(minDelay: int, maxDelay: int, budget: int, keepAlive: bool)

  /** Any error but context.Canceled is a failure, a missed deadline included. */
  datatype Err = Nil | Canceled | Failure

  datatype Event =
    | Connected(sup: nat)
    | Disconnected(sup: nat, err: Err)
    | Reconnecting(sup: nat, attempt: nat, delay: int)
    | Error(sup: nat, fatal: bool)

  datatype Loop = Read | Write | KeepAlive

  const ERR_CAPACITY := 3

  /** One connection: its loops that have sent to the error channel, and that channel. */
  datatype Conn = Conn(started: set<Loop>, sent: set<Loop>, buffer: seq<Err>, received: nat, blocked: bool)

  datatype PC =
    | Head
    | Connecting
    | Entering(conn: nat)            // setConn is done, Connected not yet emitted
    | Running(conn: nat)
    | Leaving(conn: nat, err: Err)   // an error has come; the connection is still the client's
    | Judging(err: Err)
    | Sleeping
    | Stopping
    | Stopped

  datatype Supervisor = Supervisor(pc: PC, failures: nat, canceled: bool)

  /** Supervisors and connections are numbered in the order in which they were started. */
  datatype World = World(running: bool, conn: Option<nat>, sups: seq<Supervisor>, conns: seq<Conn>, log: seq<Event>)

  const NEW_WORLD := World(false, None, [], [], [])

  datatype Move =
    | Connect
    | Close
    | EndContext(s: nat)
    | LoopGets(c: nat, loop: Loop, err: Err)   // what a read, a write or the context gives a loop
    | Step(s: nat, err: Err)                 // the supervisor's next step; err is how connecting goes

  function Started(cfg: Config): set<Loop> {
    if cfg.keepAlive then {Read, Write, KeepAlive} else {Read, Write}
  }

  /** A loop stops at an error, which it sends; otherwise it goes on. */
  function AfterLoop(c: Conn, loop: Loop, err: Err): Conn {
    if loop !in c.started || loop in c.sent || err.Nil? then c
    else if |c.buffer| >= ERR_CAPACITY then c.(blocked := true)
    else c.(sent := c.sent + {loop}, buffer := c.buffer + [err])
  }

  function Goto(w: World, s: nat, pc: PC): World
    requires s < |w.sups|
  {
    w.(sups := w.sups[s := w.sups[s].(pc := pc)])
  }

  /** The supervisor's verdict on the end of a connection or of an attempt to open one. */
  ghost function Judged(cfg: Config, w: World, s: nat, err: Err): World
    requires s < |w.sups|
  {
    var sup := w.sups[s];
    match err
    case Nil => w.(sups := w.sups[s := sup.(pc := Head, failures := 0)])
    case Canceled => Goto(w, s, Stopping)
    case Failure =>
      var n := sup.failures + 1;
      var spent := cfg.budget > 0 && n > cfg.budget;
      w.(sups := w.sups[s := sup.(pc := if spent then Stopping else Sleeping, failures := n)],
         log := w.log + [Reconnecting(s, n, Delay(n - 1, cfg.minDelay, cfg.maxDelay)), Error(s, spent)])
  }

  ghost function SupervisorStep(cfg: Config, w: World, s: nat, err: Err): World
    requires s < |w.sups|
  {
    match w.sups[s].pc
    case Head => Goto(w, s, if w.sups[s].canceled then Stopping else Connecting)
    case Connecting =>
      if !err.Nil? then Goto(w, s, Judging(err))
      else Goto(w, s, Entering(|w.conns|)).(conn := Some(|w.conns|),
                                            conns := w.conns + [Conn(Started(cfg), {}, [], 0, false)])
    case Entering(c) => Goto(w, s, Running(c)).(log := w.log + [Connected(s)])
    case Running(c) =>
      if c >= |w.conns| || w.conns[c].buffer == [] then w
      else
        var e := w.conns[c].buffer[0];
        Goto(w, s, Leaving(c, e)).(conns := w.conns[c := w.conns[c].(buffer := w.conns[c].buffer[1..],
                                                                     received := w.conns[c].received + 1)])
    case Leaving(c, e) =>
      Goto(w, s, Judging(e)).(conn := if w.conn == Some(c) then None else w.conn, log := w.log + [Disconnected(s, e)])
    case Judging(e) => Judged(cfg, w, s, e)
    case Sleeping => Goto(w, s, if w.sups[s].canceled && !err.Nil? then Stopping else Head)
    case Stopping => Goto(w, s, Stopped).(running := false, conn := None)
    case Stopped => w
  }

  ghost function Next(cfg: Config, w: World, move: Move): World {
    match move
    case Connect => if w.running then w else w.(running := true, sups := w.sups + [Supervisor(Head, 0, false)])
    case Close => if !w.running || w.sups == [] then w
        else w.(sups := w.sups[|w.sups| - 1 := w.sups[|w.sups| - 1].(canceled := true)])
    case EndContext(s) => if s < |w.sups| then w.(sups := w.sups[s := w.sups[s].(canceled := true)]) else w
    case LoopGets(c, loop, err) => if c < |w.conns| then w.(conns := w.conns[c := AfterLoop(w.conns[c], loop, err)])
        else w
    case Step(s, err) => if s < |w.sups| then SupervisorStep(cfg, w, s, err) else w
  }

  ghost function Run(cfg: Config, moves: seq<Move>): World {
    if moves == [] then NEW_WORLD else Next(cfg, Run(cfg, moves[..|moves| - 1]), moves[|moves| - 1])
  }

  // ---- the error channel ----

  ghost predicate ConnSound(c: Conn) {
    && c.sent <= c.started && |c.started| <= ERR_CAPACITY && !c.blocked
    && |c.buffer| + c.received == |c.sent|
    && Nil !in c.buffer
  }

  lemma LoopKeepsSound(c: Conn, loop: Loop, err: Err)
    requires ConnSound(c)
    ensures ConnSound(AfterLoop(c, loop, err))
  {
    if loop in c.started && loop !in c.sent && !err.Nil? {
      assert c.sent + {loop} <= c.started;
      Subset(c.sent + {loop}, c.started);
    }
  }

  lemma {:induction false} Subset(a: set<Loop>, b: set<Loop>)
    requires a <= b
    ensures |a| <= |b|
  {
    if a == {} {
    } else {
      var x :| x in a;
      Subset(a - {x}, b - {x});
    }
  }

  /** No loop ever blocks on the error channel, and the channel never carries a nil. */
  lemma {:induction false} LoopsNeverBlock(cfg: Config, moves: seq<Move>)
    ensures forall c | 0 <= c < |Run(cfg, moves).conns| :: ConnSound(Run(cfg, moves).conns[c])
  {
    hide ConnSound, AfterLoop, Judged;
    if moves == [] {
    } else {
      var w, move := Run(cfg, moves[..|moves| - 1]), moves[|moves| - 1];
      LoopsNeverBlock(cfg, moves[..|moves| - 1]);
      if move.LoopGets? && move.c < |w.conns| {
        LoopKeepsSound(w.conns[move.c], move.loop, move.err);
      } else if move.Step? && move.s < |w.sups| {
        StepKeepsConns(cfg, w, move.s, move.err);
      }
    }
  }

  lemma StepKeepsConns(cfg: Config, w: World, s: nat, err: Err)
    requires s < |w.sups| && forall c | 0 <= c < |w.conns| :: ConnSound(w.conns[c])
    ensures forall c | 0 <= c < |SupervisorStep(cfg, w, s, err).conns| ::
      ConnSound(SupervisorStep(cfg, w, s, err).conns[c])
  {
  }

  // ---- one supervisor at a time ----

  predicate Active(sup: Supervisor) {
    !sup.pc.Stopped?
  }

  /** The connection a supervisor holds. */
  function Held(sup: Supervisor): Option<nat> {
    match sup.pc
    case Entering(c) => Some(c)
    case Running(c) => Some(c)
    case Leaving(c, _) => Some(c)
    case _ => None
  }

  /** Whether the last of Connected and Disconnected was Connected; None when they do not alternate. */
  function Link(log: seq<Event>): Option<bool> {
    if log == [] then Some(false)
    else
      var before := Link(log[..|log| - 1]);
      match log[|log| - 1]
      case Connected(_) => if before == Some(false) then Some(true) else None
      case Disconnected(_, _) => if before == Some(true) then Some(false) else None
      case _ => before
  }

  function Last(w: World): Supervisor
    requires w.sups != []
  {
    w.sups[|w.sups| - 1]
  }

  /** All supervisors but the last have stopped; it is the one that holds what the client holds. */
  ghost predicate Single(w: World) {
    && (forall s | 0 <= s < |w.sups| - 1 :: w.sups[s].pc.Stopped?)
    && (w.running <==> w.sups != [] && Active(Last(w)))
    && w.conn == (if w.sups == [] then None else Held(Last(w)))
    && Link(w.log) == Some(w.sups != [] && (Last(w).pc.Running? || Last(w).pc.Leaving?))
  }

  lemma LinkStep(log: seq<Event>, e: Event, e': Event)
    ensures Link(log + [e]) ==
      match e
      case Connected(_) => if Link(log) == Some(false) then Some(true) else None
      case Disconnected(_, _) => if Link(log) == Some(true) then Some(false) else None
      case _ => Link(log)
    ensures !e.Connected? && !e.Disconnected? && !e'.Connected? && !e'.Disconnected?
      ==> Link(log + [e, e']) == Link(log)
  {
    assert (log + [e])[..|log|] == log;
    assert (log + [e, e'])[..|log| + 1] == log + [e];
  }

  lemma SingleStep(cfg: Config, w: World, move: Move)
    requires Single(w)
    ensures Single(Next(cfg, w, move))
  {
    hide AfterLoop, Link, Delay;
    if move.Step? && move.s < |w.sups| {
      var s := move.s;
      LinkStep(w.log, Connected(s), Error(s, false));
      if w.sups[s].pc.Leaving? { LinkStep(w.log, Disconnected(s, w.sups[s].pc.err), Error(s, false)); }
      var n := w.sups[s].failures + 1;
      LinkStep(w.log, Reconnecting(s, n, Delay(n - 1, cfg.minDelay, cfg.maxDelay)),
               Error(s, cfg.budget > 0 && n > cfg.budget));
    }
  }

  lemma {:induction false} AlwaysSingle(cfg: Config, moves: seq<Move>)
    ensures Single(Run(cfg, moves))
  {
    hide Next;
    if moves == [] {
    } else {
      AlwaysSingle(cfg, moves[..|moves| - 1]);
      SingleStep(cfg, Run(cfg, moves[..|moves| - 1]), moves[|moves| - 1]);
    }
  }

  /** Whatever is called when, no two supervisors are active at once. */
  lemma AtMostOneSupervisor(cfg: Config, moves: seq<Move>, s: nat, t: nat)
    requires s < |Run(cfg, moves).sups| && t < |Run(cfg, moves).sups|
    requires Active(Run(cfg, moves).sups[s]) && Active(Run(cfg, moves).sups[t])
    ensures s == t && Run(cfg, moves).running
  {
    hide Run;
    AlwaysSingle(cfg, moves);
  }

  lemma {:induction false} LinkPrefix(log: seq<Event>, n: nat)
    requires n <= |log| && Link(log).Some?
    ensures Link(log[..n]).Some?
  {
    if n < |log| {
      LinkPrefix(log[..|log| - 1], n);
      assert log[..|log| - 1][..n] == log[..n];
    } else {
      assert log[..n] == log;
    }
  }

  lemma {:induction false} LinkQuiet(log: seq<Event>, i: nat)
    requires i < |log| && (log[i].Connected? || log[i].Disconnected?) && Link(log).Some?
    requires forall k | i < k < |log| :: !log[k].Connected? && !log[k].Disconnected?
    ensures Link(log) == Some(log[i].Connected?)
  {
    if i < |log| - 1 { LinkQuiet(log[..|log| - 1], i); }
  }

  /** Connected and Disconnected strictly alternate: between two of a kind there is one of the other. */
  lemma ConnectsAlternate(cfg: Config, moves: seq<Move>, i: nat, j: nat)
    requires var log := Run(cfg, moves).log;
      && i < j < |log| && (log[i].Connected? || log[i].Disconnected?) && (log[j].Connected? || log[j].Disconnected?)
      && forall k | i < k < j :: !log[k].Connected? && !log[k].Disconnected?
    ensures Run(cfg, moves).log[i].Connected? <==> Run(cfg, moves).log[j].Disconnected?
  {
    hide Run;
    AlwaysSingle(cfg, moves);
    var log := Run(cfg, moves).log;
    LinkPrefix(log, j + 1);
    LinkPrefix(log, j);
    assert log[..j + 1][..j] == log[..j];
    LinkQuiet(log[..j], i);
  }

  // ---- failures ----

  function Attempts(log: seq<Event>, s: nat): nat {
    if log == [] then 0
    else Attempts(log[..|log| - 1], s) + var e := log[|log| - 1]; if e.Reconnecting? && e.sup == s then 1 else 0
  }

  function Fatals(log: seq<Event>, s: nat): nat {
    if log == [] then 0
    else Fatals(log[..|log| - 1], s) + var e := log[|log| - 1]; if e.Error? && e.sup == s && e.fatal then 1 else 0
  }

  /** The k-th failure a supervisor reports is numbered k, with the delay for k - 1. */
  ghost predicate Numbered(cfg: Config, log: seq<Event>) {
    forall i | 0 <= i < |log| && log[i].Reconnecting? ::
      log[i].attempt == Attempts(log[..i], log[i].sup) + 1
          && log[i].delay == Delay(log[i].attempt - 1, cfg.minDelay, cfg.maxDelay)
  }

  /** A supervisor's count is that of all its failures, and its budget is what it says. */
  ghost predicate Accounted(cfg: Config, w: World, s: nat) {
    && (s >= |w.sups| ==> Attempts(w.log, s) == 0 && Fatals(w.log, s) == 0)
    && (s < |w.sups| ==>
          var sup := w.sups[s];
          && sup.failures == Attempts(w.log, s)
          && (sup.pc.Leaving? || sup.pc.Judging? ==> !sup.pc.err.Nil?)
          && Fatals(w.log, s) == (if cfg.budget > 0 && sup.failures > cfg.budget then 1 else 0)
          && (cfg.budget > 0 ==> sup.failures <= cfg.budget + 1)
          && (cfg.budget > 0 && sup.failures > cfg.budget ==> sup.pc.Stopping? || sup.pc.Stopped?))
  }

  lemma CountStep(log: seq<Event>, e: Event, s: nat)
    ensures Attempts(log + [e], s) == Attempts(log, s) + if e.Reconnecting? && e.sup == s then 1 else 0
    ensures Fatals(log + [e], s) == Fatals(log, s) + if e.Error? && e.sup == s && e.fatal then 1 else 0
  {
    assert (log + [e])[..|log|] == log;
  }

  lemma NumberedStep(cfg: Config, log: seq<Event>, e: Event)
    requires Numbered(cfg, log)
    requires e.Reconnecting?
      ==> e.attempt == Attempts(log, e.sup) + 1 && e.delay == Delay(e.attempt - 1, cfg.minDelay, cfg.maxDelay)
    ensures Numbered(cfg, log + [e])
  {
    hide Delay, Attempts;
    forall i | 0 <= i < |log + [e]| && (log + [e])[i].Reconnecting?
      ensures (log + [e])[i].attempt == Attempts((log + [e])[..i], (log + [e])[i].sup) + 1
      ensures (log + [e])[i].delay == Delay((log + [e])[i].attempt - 1, cfg.minDelay, cfg.maxDelay)
    {
      assert (log + [e])[..i] == log[..i];
      if i == |log| { assert log[..i] == log; }
    }
  }

  lemma LogShape(cfg: Config, w: World, move: Move)
    ensures var log := Next(cfg, w, move).log;
      || log == w.log
      || (move.Step? && move.s < |w.sups|
          && (log == w.log + [Connected(move.s)]
              || (w.sups[move.s].pc.Leaving? && log == w.log + [Disconnected(move.s, w.sups[move.s].pc.err)])
              || (var n := w.sups[move.s].failures + 1;
                  log == w.log + [Reconnecting(move.s, n, Delay(n - 1, cfg.minDelay, cfg.maxDelay))]
                      + [Error(move.s, cfg.budget > 0 && n > cfg.budget)])))
  {
    hide AfterLoop, Delay;
  }

  /** What is done by others counts as no failure. */
  lemma AccountedOther(cfg: Config, w: World, move: Move, s: nat)
    requires Accounted(cfg, w, s) && !move.Step?
    ensures Accounted(cfg, Next(cfg, w, move), s)
  {
    hide AfterLoop, Attempts, Fatals;
  }

  lemma AccountedStep(cfg: Config, w: World, move: Move, s: nat)
    requires Accounted(cfg, w, s) && move.Step?
    requires forall c | 0 <= c < |w.conns| :: ConnSound(w.conns[c])
    ensures Accounted(cfg, Next(cfg, w, move), s)
  {
    hide Judged, Delay, Attempts, Fatals;
    if move.s < |w.sups| {
      var t := move.s;
      if w.sups[t].pc.Judging? {
        AccountedJudged(cfg, w, t, w.sups[t].pc.err, s);
      } else {
        CountStep(w.log, Connected(t), s);
        CountStep(w.log, Disconnected(t, if w.sups[t].pc.Leaving? then w.sups[t].pc.err else Nil), s);
      }
    }
  }

  lemma AccountedJudged(cfg: Config, w: World, t: nat, err: Err, s: nat)
    requires Accounted(cfg, w, s) && t < |w.sups| && w.sups[t].pc == Judging(err)
    ensures Accounted(cfg, Judged(cfg, w, t, err), s)
  {
    hide Delay, Attempts, Fatals;
    var n := w.sups[t].failures + 1;
    var r := Reconnecting(t, n, Delay(n - 1, cfg.minDelay, cfg.maxDelay));
    var e := Error(t, cfg.budget > 0 && n > cfg.budget);
    CountStep(w.log, r, s);
    CountStep(w.log + [r], e, s);
    assert w.log + [r, e] == w.log + [r] + [e];
  }

  lemma {:induction false} AlwaysAccounted(cfg: Config, moves: seq<Move>, s: nat)
    ensures Accounted(cfg, Run(cfg, moves), s)
  {
    hide Next, Accounted;
    if moves == [] {
      assert Accounted(cfg, NEW_WORLD, s) by { NewAccounts(cfg, s); }
    } else {
      AlwaysAccounted(cfg, moves[..|moves| - 1], s);
      LoopsNeverBlock(cfg, moves[..|moves| - 1]);
      if moves[|moves| - 1].Step? {
        AccountedStep(cfg, Run(cfg, moves[..|moves| - 1]), moves[|moves| - 1], s);
      } else {
        AccountedOther(cfg, Run(cfg, moves[..|moves| - 1]), moves[|moves| - 1], s);
      }
    }
  }

  lemma NewAccounts(cfg: Config, s: nat)
    ensures Accounted(cfg, NEW_WORLD, s)
  {
  }

  /**
   A positive budget lets a supervisor fail budget + 1 times; the last of these, and nothing
   else, is reported as fatal, once, and is the end of the supervisor. Without a budget
   nothing is fatal.
   */
  lemma BudgetKept(cfg: Config, moves: seq<Move>, s: nat)
    requires s < |Run(cfg, moves).sups|
    ensures var w := Run(cfg, moves);
      && w.sups[s].failures == Attempts(w.log, s)
      && (cfg.budget > 0 ==> Attempts(w.log, s) <= cfg.budget + 1)
      && Fatals(w.log, s) == (if cfg.budget > 0 && Attempts(w.log, s) == cfg.budget + 1 then 1 else 0)
      && (Fatals(w.log, s) > 0 ==> w.sups[s].pc.Stopping? || w.sups[s].pc.Stopped?)
  {
    hide Run, Attempts, Fatals;
    AlwaysAccounted(cfg, moves, s);
  }

  lemma {:induction false} AttemptsNumbered(cfg: Config, moves: seq<Move>)
    ensures Numbered(cfg, Run(cfg, moves).log)
  {
    hide Next, Numbered, Delay, Attempts, Fatals;
    if moves == [] {
      assert Numbered(cfg, []) by { NothingNumbered(cfg); }
    } else {
      var w, move := Run(cfg, moves[..|moves| - 1]), moves[|moves| - 1];
      AttemptsNumbered(cfg, moves[..|moves| - 1]);
      LogShape(cfg, w, move);
      if move.Step? && move.s < |w.sups| {
        AlwaysAccounted(cfg, moves[..|moves| - 1], move.s);
        var t, n := move.s, w.sups[move.s].failures + 1;
        var r := Reconnecting(t, n, Delay(n - 1, cfg.minDelay, cfg.maxDelay));
        NumberedStep(cfg, w.log, Connected(t));
        if w.sups[t].pc.Leaving? { NumberedStep(cfg, w.log, Disconnected(t, w.sups[t].pc.err)); }
        NumberedStep(cfg, w.log, r);
        NumberedStep(cfg, w.log + [r], Error(t, cfg.budget > 0 && n > cfg.budget));
      }
    }
  }

  lemma NothingNumbered(cfg: Config)
    ensures Numbered(cfg, [])
  {
  }

  /** With a cap below 2^62 the k-th failure is followed by a delay of min(max, min * 2^(k-1)). */
  lemma DelaysIdeal(cfg: Config, moves: seq<Move>, i: nat)
    requires i < |Run(cfg, moves).log| && Run(cfg, moves).log[i].Reconnecting?
    requires IsInt64(cfg.minDelay) && IsInt64(cfg.maxDelay) && Upper(cfg.minDelay, cfg.maxDelay) < 0x4000_0000_0000_0000
    ensures var log := Run(cfg, moves).log;
      var k := Attempts(log[..i], log[i].sup) + 1;
      log[i].attempt == k && log[i].delay == Ideal(k - 1, cfg.minDelay, cfg.maxDelay)
  {
    hide Run, Delay, Ideal, Attempts;
    AttemptsNumbered(cfg, moves);
    SmallCapFits(cfg.minDelay, cfg.maxDelay);
    var log := Run(cfg, moves).log;
    ExactWhenItFits(log[i].attempt - 1, cfg.minDelay, cfg.maxDelay);
  }

  /**
   The branch that starts counting afresh is never taken: a connection that ends always ends
   with an error, so the count is of all failures since the supervisor was started, however
   long the connections in between have lasted.
   */
  lemma FailuresNeverReset(cfg: Config, moves: seq<Move>, move: Move, s: nat)
    requires s < |Run(cfg, moves).sups|
    ensures var before, after := Run(cfg, moves), Run(cfg, moves + [move]);
      s < |after.sups| && after.sups[s].failures >= before.sups[s].failures
    ensures Run(cfg, moves).sups[s].pc != Judging(Nil)
  {
    hide Next, Attempts, Fatals;
    assert (moves + [move])[..|moves|] == moves;
    AlwaysAccounted(cfg, moves, s);
    StepKeepsFailures(cfg, Run(cfg, moves), move, s);
  }

  lemma StepKeepsFailures(cfg: Config, w: World, move: Move, s: nat)
    requires s < |w.sups| && w.sups[s].pc != Judging(Nil)
    ensures var after := Next(cfg, w, move); s < |after.sups| && after.sups[s].failures >= w.sups[s].failures
  {
    hide AfterLoop, Delay;
  }

  // ---- consecutive failures ----

  /** Failures since the supervisor was last connected. */
  function Recent(log: seq<Event>, s: nat): nat {
    if log == [] then 0
    else
      match log[|log| - 1]
      case Connected(sup) => if sup == s then 0 else Recent(log[..|log| - 1], s)
      case Reconnecting(sup, _, _) => Recent(log[..|log| - 1], s) + if sup == s then 1 else 0
      case _ => Recent(log[..|log| - 1], s)
  }

  /** Failures before the supervisor was last connected. */
  function Earlier(log: seq<Event>, s: nat): nat {
    if log == [] then 0
    else if log[|log| - 1] == Connected(s) then Attempts(log[..|log| - 1], s)
    else Earlier(log[..|log| - 1], s)
  }

  lemma {:induction false} RecentAndEarlier(log: seq<Event>, s: nat)
    ensures Attempts(log, s) == Recent(log, s) + Earlier(log, s)
  {
    if log == [] {
    } else {
      RecentAndEarlier(log[..|log| - 1], s);
    }
  }

  /**
   The number that is reported is that of the failures in a row exactly when the supervisor had
   none before it was last connected.
   */
  lemma NumberIsConsecutiveIff(cfg: Config, moves: seq<Move>, i: nat)
    requires i < |Run(cfg, moves).log| && Run(cfg, moves).log[i].Reconnecting?
    ensures var log := Run(cfg, moves).log;
      log[i].attempt == Recent(log[..i], log[i].sup) + 1 <==> Earlier(log[..i], log[i].sup) == 0
  {
    hide Run, Delay, Attempts;
    AttemptsNumbered(cfg, moves);
    var log := Run(cfg, moves).log;
    RecentAndEarlier(log[..i], log[i].sup);
  }

  /** The supervisor connects, its connection works, and then drops. */
  function Drop(c: nat): seq<Move> {
    [Step(0, Nil), Step(0, Nil), Step(0, Nil), LoopGets(c, Read, Nil), LoopGets(c, Read, Failure), Step(0, Nil),
     Step(0, Nil), Step(0, Nil)]
  }

  /** One supervisor, about to connect for the next time after n failures. */
  ghost predicate AtHead(w: World, n: nat) {
    w.running && w.conn == None && w.sups == [Supervisor(Head, n, false)]
  }

  lemma RunMore(cfg: Config, moves: seq<Move>, more: Move)
    ensures Run(cfg, moves + [more]) == Next(cfg, Run(cfg, moves), more)
  {
    hide Next;
    assert (moves + [more])[..|moves|] == moves;
  }

  /** What the drop leaves behind, from the head of the supervisor's loop. */
  ghost function Dropped(cfg: Config, w: World, n: nat): World {
    var spent := cfg.budget > 0 && n + 1 > cfg.budget;
    w.(sups := [Supervisor(if spent then Stopping else Sleeping, n + 1, false)],
       conns := w.conns + [Conn(Started(cfg), {Read}, [], 1, false)],
       log := w.log + [Connected(0)] + [Disconnected(0, Failure)]
              + [Reconnecting(0, n + 1, Delay(n, cfg.minDelay, cfg.maxDelay)), Error(0, spent)])
  }

  lemma Connects(cfg: Config, moves: seq<Move>, n: nat)
    requires AtHead(Run(cfg, moves), n)
    ensures var w, c := Run(cfg, moves), |Run(cfg, moves).conns|;
      Run(cfg, moves + [Step(0, Nil)] + [Step(0, Nil)] + [Step(0, Nil)])
      == w.(sups := [Supervisor(Running(c), n, false)], conn := Some(c),
            conns := w.conns + [Conn(Started(cfg), {}, [], 0, false)], log := w.log + [Connected(0)])
  {
    hide Run, Delay;
    RunMore(cfg, moves, Step(0, Nil));
    RunMore(cfg, moves + [Step(0, Nil)], Step(0, Nil));
    RunMore(cfg, moves + [Step(0, Nil)] + [Step(0, Nil)], Step(0, Nil));
  }

  lemma Breaks(cfg: Config, moves: seq<Move>, n: nat, c: nat)
    requires var w := Run(cfg, moves);
      && w.sups == [Supervisor(Running(c), n, false)] && w.conn == Some(c) && w.running
      && |w.conns| == c + 1 && w.conns[c] == Conn(Started(cfg), {}, [], 0, false)
    ensures var w := Run(cfg, moves);
      Run(cfg, moves + [LoopGets(c, Read, Nil)] + [LoopGets(c, Read, Failure)] + [Step(0, Nil)] + [Step(0, Nil)])
      == w.(sups := [Supervisor(Judging(Failure), n, false)], conn := None,
            conns := w.conns[c := Conn(Started(cfg), {Read}, [], 1, false)], log := w.log + [Disconnected(0, Failure)])
  {
    hide Run, Delay;
    var w := Run(cfg, moves);
    var m1 := moves + [LoopGets(c, Read, Nil)];
    var m2 := m1 + [LoopGets(c, Read, Failure)];
    var m3 := m2 + [Step(0, Nil)];
    var sent := w.conns[c := Conn(Started(cfg), {Read}, [Failure], 0, false)];
    var got := w.conns[c := Conn(Started(cfg), {Read}, [], 1, false)];
    RunMore(cfg, moves, LoopGets(c, Read, Nil));
    assert w.conns[c := w.conns[c]] == w.conns;
    assert Run(cfg, m1) == w;
    RunMore(cfg, m1, LoopGets(c, Read, Failure));
    assert {} + {Read} == {Read} && [] + [Failure] == [Failure];
    assert Run(cfg, m2) == w.(conns := sent);
    RunMore(cfg, m2, Step(0, Nil));
    assert sent[c].buffer[1..] == [] && sent[c := got[c]] == got;
    assert Run(cfg, m3) == w.(conns := got, sups := [Supervisor(Leaving(c, Failure), n, false)]);
    RunMore(cfg, m3, Step(0, Nil));
  }

  /** Every drop of a working connection counts as one more failure, however many there have been. */
  lemma DropCounts(cfg: Config, moves: seq<Move>, n: nat)
    requires AtHead(Run(cfg, moves), n)
    ensures Run(cfg, moves + Drop(|Run(cfg, moves).conns|)) == Dropped(cfg, Run(cfg, moves), n)
  {
    hide Run, Delay;
    var c := |Run(cfg, moves).conns|;
    var m1 := moves + [Step(0, Nil)] + [Step(0, Nil)] + [Step(0, Nil)];
    var m2 := m1 + [LoopGets(c, Read, Nil)] + [LoopGets(c, Read, Failure)] + [Step(0, Nil)] + [Step(0, Nil)];
    Connects(cfg, moves, n);
    Breaks(cfg, m1, n, c);
    RunMore(cfg, m2, Step(0, Nil));
    assert moves + Drop(c) == m2 + [Step(0, Nil)];
  }

  /**
   With a budget of one reconnect, a supervisor gives up at the second drop, although it was
   connected, and its connection worked, between the two.
   */
  lemma BudgetSpentBetweenConnections(cfg: Config)
    requires cfg.budget == 1
    ensures var w := Run(cfg, [Connect] + Drop(0) + [Step(0, Nil)] + Drop(1));
      && w.sups == [Supervisor(Stopping, 2, false)] && w.log != [] && w.log[|w.log| - 1] == Error(0, true)
      && Recent(w.log, 0) == 1 && Earlier(w.log, 0) == 1
  {
    hide Delay;
    var m0: seq<Move> := [Connect];
    assert m0[..0] == [];
    assert AtHead(Run(cfg, m0), 0) && Run(cfg, m0) == World(true, None, [Supervisor(Head, 0, false)], [], []);
    SecondDrop(cfg, m0);
  }

  lemma SecondDrop(cfg: Config, moves: seq<Move>)
    requires cfg.budget == 1 && Run(cfg, moves) == World(true, None, [Supervisor(Head, 0, false)], [], [])
    ensures var w := Run(cfg, moves + Drop(0) + [Step(0, Nil)] + Drop(1));
      && w.sups == [Supervisor(Stopping, 2, false)] && w.log != [] && w.log[|w.log| - 1] == Error(0, true)
      && Recent(w.log, 0) == 1 && Earlier(w.log, 0) == 1
  {
    hide Run, Delay, Recent, Earlier, Attempts;
    DropCounts(cfg, moves, 0);
    var m1 := moves + Drop(0);
    var w1 := Run(cfg, m1);
    RunMore(cfg, m1, Step(0, Nil));
    var w2 := Run(cfg, m1 + [Step(0, Nil)]);
    assert AtHead(w2, 1) && w2.log == w1.log;
    DropCounts(cfg, m1 + [Step(0, Nil)], 1);
    NoneYet();
    CountDrop([], 0, Reconnecting(0, 1, Delay(0, cfg.minDelay, cfg.maxDelay)), Error(0, false));
    CountDrop(w1.log, 1, Reconnecting(0, 2, Delay(1, cfg.minDelay, cfg.maxDelay)), Error(0, true));
  }

  lemma NoneYet()
    ensures Attempts([], 0) == 0
  {
  }

  lemma CountDrop(log: seq<Event>, n: nat, r: Event, e: Event)
    requires Attempts(log, 0) == n && r.Reconnecting? && r.sup == 0 && e.Error?
    ensures var longer := log + [Connected(0)] + [Disconnected(0, Failure)] + [r, e];
      Attempts(longer, 0) == n + 1 && Recent(longer, 0) == 1 && Earlier(longer, 0) == n
  {
    var l1 := log + [Connected(0)];
    var l2 := l1 + [Disconnected(0, Failure)];
    var l3 := l2 + [r];
    var l4 := l2 + [r, e];
    assert l1[..|log|] == log && l2[..|l1|] == l1 && l3[..|l2|] == l2 && l4[..|l3|] == l3;
    assert Recent(l1, 0) == 0 && Earlier(l1, 0) == n && Attempts(l1, 0) == n;
    assert Recent(l2, 0) == 0 && Earlier(l2, 0) == n && Attempts(l2, 0) == n;
    assert Recent(l3, 0) == 1 && Earlier(l3, 0) == n && Attempts(l3, 0) == n + 1;
  }
}
