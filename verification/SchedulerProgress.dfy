/**
 That the token scheduler goes on: what each round adds to what it has done, when it stops, and
 that every round that finds tokens ends in a refresh.
 */
module SchedulerProgress {
  import opened GoStrings
  import opened Backoff
  import opened Scheduler

  lemma RoundMore(cfg: Config, now: int, rounds: seq<Round>, r: Round)
    ensures After(cfg, now, rounds + [r]) == AfterRound(cfg, After(cfg, now, rounds), r)
  {
    hide AfterRound;
    assert (rounds + [r])[..|rounds|] == rounds;
  }

  /** The round gets as far as sending the tokens it finds the second time. */
  predicate Sends(r: Round) {
    !r.canceled && r.loaded.Found? && r.firstWait.Some? && r.reloaded.Found?
  }

  /** The larger of the minimal interval and the time until the tokens are due, as 64 bits hold it. */
  function FirstPause(cfg: Config, expiresAt: int, at: int): int {
    var left := expiresAt - cfg.skew - at;
    var held := if left > INT64_MAX then INT64_MAX else if left < INT64_MIN then INT64_MIN else left;
    if held > cfg.minInterval then held else cfg.minInterval
  }

  /** In every run: the next round stops the scheduler exactly for one of these reasons. */
  lemma StopsIff(cfg: Config, now: int, rounds: seq<Round>, r: Round)
    requires !After(cfg, now, rounds).stopped
    ensures After(cfg, now, rounds + [r]).stopped <==>
      || r.canceled
      || r.firstWait.None?
      || (Sends(r) && r.answer == Fatal)
      || (Sends(r) && r.answer == Transient && r.secondWait.None?)
  {
    hide After, Delay;
    RoundMore(cfg, now, rounds, r);
  }

  /** A round without tokens is a wait of the minimal interval. */
  lemma NothingToDo(cfg: Config, now: int, rounds: seq<Round>, r: Round)
    requires Configured(cfg) && !After(cfg, now, rounds).stopped
    requires !r.canceled && !r.loaded.Found? && r.firstWait.Some?
    ensures var s, t := After(cfg, now, rounds), After(cfg, now, rounds + [r]);
      var at := s.now + r.loadTakes;
      && t.log == s.log + [Act.Wait(at, cfg.minInterval, at + cfg.minInterval + r.firstWait.value)]
      && t.failures == s.failures && !t.stopped && t.now == at + cfg.minInterval + r.firstWait.value
  {
    hide After;
    RoundMore(cfg, now, rounds, r);
  }

  /**
   A round that finds tokens twice loads, waits until they are due, loads again, and refreshes
   what it has loaded last.
   */
  lemma Refreshes(cfg: Config, now: int, rounds: seq<Round>, r: Round)
    requires Configured(cfg) && !After(cfg, now, rounds).stopped && Sends(r)
    ensures var s, t := After(cfg, now, rounds), After(cfg, now, rounds + [r]);
      var at := s.now + r.loadTakes;
      var d := FirstPause(cfg, r.loaded.expiresAt, at);
      var until := at + d + r.firstWait.value;
      var sent := until + r.reloadTakes;
      var done := sent + r.refreshTakes;
      var acts := s.log + [Load(at, r.loaded.expiresAt)] + [Act.Wait(at, d, until)]
          + [Reload(sent, r.reloaded.expiresAt)]
        + [Refresh(sent, done, r.answer)];
      match r.answer
      case Fatal => t.log == acts && t.stopped
      case Updated(saved) =>
        t.log == acts && !t.stopped && t.now == done && t.failures == if saved then 0 else s.failures
      case Transient =>
        var pause := Delay(s.failures, cfg.retryMin, cfg.retryMax);
        var real_ := if pause <= 0 then cfg.minInterval else pause;
        && t.failures == s.failures + 1 && (t.stopped <==> r.secondWait.None?)
        && t.log == if r.secondWait.None? then acts
                    else acts + [Act.Wait(done, real_, done + real_ + r.secondWait.value)]
  {
    hide After, Delay;
    RoundMore(cfg, now, rounds, r);
    PauseIs(cfg, r.loaded.expiresAt, After(cfg, now, rounds).now + r.loadTakes);
  }

  lemma PauseIs(cfg: Config, expiresAt: int, at: int)
    requires Configured(cfg)
    ensures UntilDue(cfg, expiresAt, at) == FirstPause(cfg, expiresAt, at) > 0
  {
  }

  /** Nothing that stops the scheduler happens in these rounds. */
  predicate GoesOn(r: Round) {
    && !r.canceled && r.firstWait.Some?
    && (Sends(r) ==> r.answer != Fatal && (r.answer == Transient ==> r.secondWait.Some?))
  }

  function Sent(rounds: seq<Round>): nat {
    if rounds == [] then 0 else Sent(rounds[..|rounds| - 1]) + if Sends(rounds[|rounds| - 1]) then 1 else 0
  }

  function RefreshesIn(log: Log): nat {
    if log == [] then 0 else RefreshesIn(log[..|log| - 1]) + if log[|log| - 1].Refresh? then 1 else 0
  }

  lemma RefreshesMore(log: Log, a: Act)
    ensures RefreshesIn(log + [a]) == RefreshesIn(log) + if a.Refresh? then 1 else 0
  {
    assert (log + [a])[..|log|] == log;
  }

  lemma RoundRefreshes(cfg: Config, s: State, r: Round)
    requires !s.stopped && GoesOn(r)
    ensures var t := AfterRound(cfg, s, r);
      !t.stopped && RefreshesIn(t.log) == RefreshesIn(s.log) + if Sends(r) then 1 else 0
  {
    hide Delay, RefreshesIn, UntilDue, Real;
    var at := s.now + r.loadTakes;
    var d := if r.loaded.Found? then UntilDue(cfg, r.loaded.expiresAt, at) else cfg.minInterval;
    var until := at + Real(cfg, d) + r.firstWait.value;
    var wait := Act.Wait(at, Real(cfg, d), until);
    RefreshesMore(s.log, wait);
    if r.loaded.Found? {
      var l1 := s.log + [Load(at, r.loaded.expiresAt)];
      var l2 := l1 + [wait];
      RefreshesMore(s.log, Load(at, r.loaded.expiresAt));
      RefreshesMore(l1, wait);
      if r.reloaded.Found? {
        var sent := until + r.reloadTakes;
        var l3 := l2 + [Reload(sent, r.reloaded.expiresAt)];
        var l4 := l3 + [Refresh(sent, sent + r.refreshTakes, r.answer)];
        RefreshesMore(l2, Reload(sent, r.reloaded.expiresAt));
        RefreshesMore(l3, Refresh(sent, sent + r.refreshTakes, r.answer));
        if r.answer.Transient? {
          var pause := Real(cfg, Delay(s.failures, cfg.retryMin, cfg.retryMax));
          var from := sent + r.refreshTakes;
          RefreshesMore(l4, Act.Wait(from, pause, from + pause + r.secondWait.value));
        }
      }
    }
  }

  /** As long as nothing stops it, the scheduler refreshes once in every round that finds tokens twice. */
  lemma {:induction false} RefreshesEveryRound(cfg: Config, now: int, rounds: seq<Round>)
    requires forall i | 0 <= i < |rounds| :: GoesOn(rounds[i])
    ensures var s := After(cfg, now, rounds); !s.stopped && RefreshesIn(s.log) == Sent(rounds)
  {
    hide AfterRound, GoesOn, Sends;
    if rounds == [] {
    } else {
      RefreshesEveryRound(cfg, now, rounds[..|rounds| - 1]);
      RoundRefreshes(cfg, After(cfg, now, rounds[..|rounds| - 1]), rounds[|rounds| - 1]);
    }
  }
}
