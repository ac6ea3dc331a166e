/**
 auth/scheduler.go: refreshing the stored tokens before they expire.

 The loop never ends by itself, so it is run here for any finite number of rounds. Time is
 an abstract clock that never goes back; a timer fires no earlier than it should; what the
 store and the token service answer is given per round.
 */
module Scheduler {
  import opened GoStrings
  import opened Backoff

  datatype Config = Config(skew: int, minInterval: int, retryMin: int, retryMax: int)

  predicate Configured(cfg: Config) {
    && 0 < cfg.skew && 0 < cfg.minInterval <= INT64_MAX
    && 0 < cfg.retryMin <= cfg.retryMax <= INT64_MAX
  }

  predicate InRange(cfg: Config) {
    IsInt64(cfg.skew) && IsInt64(cfg.minInterval) && IsInt64(cfg.retryMin) && IsInt64(cfg.retryMax)
  }

  function Positive(n: int, default_: int): int {
    if n <= 0 then default_ else n
  }

  /** NewRefreshScheduler. */
  function Normalized(cfg: Config): (r: Config)
    requires InRange(cfg)
    ensures Configured(r) && (Configured(cfg) ==> r == cfg)
  {
    var retryMin := Positive(cfg.retryMin, 250 * MILLISECOND);
    var retryMax := Positive(cfg.retryMax, 5 * SECOND);
    Config(Positive(cfg.skew, 30 * SECOND), Positive(cfg.minInterval, SECOND), retryMin,
           if retryMax < retryMin then retryMin else retryMax)
  }

  datatype Stored = Unreadable | Missing | Found(expiresAt: int)

  datatype Answer = Updated(saved: bool) | Transient | Fatal

  /** What happens outside during one round; a wait is `late` by some time, or is cut short. */
  datatype Round = Round(
    canceled: bool,
    loadTakes: nat,
    loaded: Stored,
    firstWait: Option<nat>,
    reloadTakes: nat,
    reloaded: Stored,
    refreshTakes: nat,
    answer: Answer,
    secondWait: Option<nat>)

  /** What the scheduler did, and when. */
  datatype Act =
    | Load(at: int, expiresAt: int)
    | Wait(from: int, d: int, until: int)
    | Reload(at: int, expiresAt: int)
    | Refresh(at: int, done: int, answer: Answer)

  type Log = seq<Act>

  /** time.Time.Sub: saturates at the ends of the 64-bit range. */
  function Sub(t: int, u: int): (d: int)
    ensures IsInt64(d)
  {
    if t - u > INT64_MAX then INT64_MAX else if t - u < INT64_MIN then INT64_MIN else t - u
  }

  // ---- one round, and many ----

  /** `failures` counts the transient failures since tokens were last saved. */
  datatype State = State(now: int, failures: nat, log: Log, stopped: bool)

  function Real(cfg: Config, d: int): int {
    if d <= 0 then cfg.minInterval else d
  }

  ghost function AfterWait(cfg: Config, s: State, d: int, fires: Option<nat>): State {
    match fires
    case None => s.(stopped := true)
    case Some(late) =>
      var until := s.now + Real(cfg, d) + late;
      s.(now := until, log := s.log + [Wait(s.now, Real(cfg, d), until)])
  }

  function UntilDue(cfg: Config, expiresAt: int, now: int): int {
    var d := Sub(expiresAt - cfg.skew, now);
    if d < cfg.minInterval then cfg.minInterval else d
  }

  ghost function AfterRefresh(cfg: Config, s: State, r: Round): State {
    var done := s.now + r.refreshTakes;
    var s' := s.(now := done, log := s.log + [Refresh(s.now, done, r.answer)]);
    match r.answer
    case Fatal => s'.(stopped := true)
    case Transient => AfterWait(cfg, s'.(failures := s.failures + 1), Delay(s.failures, cfg.retryMin, cfg.retryMax),
                                r.secondWait)
    case Updated(saved) => if saved then s'.(failures := 0) else s'
  }

  ghost function AfterReload(cfg: Config, s: State, r: Round): State {
    var at := s.now + r.reloadTakes;
    if s.stopped then s
    else if !r.reloaded.Found? then s.(now := at)
    else AfterRefresh(cfg, s.(now := at, log := s.log + [Reload(at, r.reloaded.expiresAt)]), r)
  }

  ghost function AfterRound(cfg: Config, s: State, r: Round): State {
    if s.stopped then s
    else if r.canceled then s.(stopped := true)
    else
      var at := s.now + r.loadTakes;
      if !r.loaded.Found? then AfterWait(cfg, s.(now := at), cfg.minInterval, r.firstWait)
      else
        var s' := s.(now := at, log := s.log + [Load(at, r.loaded.expiresAt)]);
        AfterReload(cfg, AfterWait(cfg, s', UntilDue(cfg, r.loaded.expiresAt, at), r.firstWait), r)
  }

  ghost function After(cfg: Config, now: int, rounds: seq<Round>): State {
    if rounds == [] then State(now, 0, [], false)
    else AfterRound(cfg, After(cfg, now, rounds[..|rounds| - 1]), rounds[|rounds| - 1])
  }

  // ---- discipline ----

  function Begin(a: Act): int {
    match a
    case Load(at, _) => at
    case Wait(from, _, _) => from
    case Reload(at, _) => at
    case Refresh(at, _, _) => at
  }

  function End(a: Act): int {
    match a
    case Load(at, _) => at
    case Wait(_, _, until) => until
    case Reload(at, _) => at
    case Refresh(_, done, _) => done
  }

  /** Transient failures since the last refresh whose tokens were saved. */
  function Failures(log: Log): nat {
    if log == [] then 0
    else
      var rest := Failures(log[..|log| - 1]);
      match log[|log| - 1]
      case Refresh(_, _, Transient) => rest + 1
      case Refresh(_, _, Updated(saved)) => if saved then 0 else rest
      case _ => rest
  }

  predicate Fatally(a: Act) {
    a.Refresh? && a.answer.Fatal?
  }

  predicate Transiently(a: Act) {
    a.Refresh? && a.answer.Transient?
  }

  /** How long a wait that begins now, as the i-th act, has to be. */
  ghost function Called(cfg: Config, log: Log, i: nat, now: int): int
    requires i < |log|
  {
    if i > 0 && log[i - 1].Load? then UntilDue(cfg, log[i - 1].expiresAt, now)
    else if i > 0 && Transiently(log[i - 1]) then Real(cfg, Delay(Failures(log[..i]) - 1, cfg.retryMin, cfg.retryMax))
    else cfg.minInterval
  }

  /** What must hold of the i-th act in view of the ones before it. */
  ghost predicate Governed(cfg: Config, log: Log, i: nat)
    requires i < |log|
  {
    var a := log[i];
    && Begin(a) <= End(a)
    && (i > 0 ==> End(log[i - 1]) <= Begin(a) && !Fatally(log[i - 1]))
    && (i > 0 && log[i - 1].Load? ==> a.Wait?)
    && (i > 0 && log[i - 1].Reload? ==> a.Refresh?)
    && (i > 0 && Transiently(log[i - 1]) ==> a.Wait?)
    && (a.Wait? ==> a.until >= a.from + a.d)
    && (a.Wait? ==> a.d == Called(cfg, log, i, a.from))
    && (a.Wait? && i > 0 && log[i - 1].Load? ==> a.from == log[i - 1].at)
    && (a.Reload? ==> i > 1 && log[i - 1].Wait? && log[i - 2].Load?)
    && (a.Refresh? ==> i > 0 && log[i - 1].Reload? && log[i - 1].at == a.at)
  }

  ghost predicate Disciplined(cfg: Config, log: Log) {
    forall i | 0 <= i < |log| :: Governed(cfg, log, i)
  }

  lemma {:induction false} StoppedStays(cfg: Config, now: int, rounds: seq<Round>, n: nat)
    requires n <= |rounds|
    ensures After(cfg, now, rounds[..n]).stopped ==> After(cfg, now, rounds) == After(cfg, now, rounds[..n])
    decreases |rounds|
  {
    if n < |rounds| {
      StoppedStays(cfg, now, rounds[..|rounds| - 1], n);
      assert rounds[..|rounds| - 1][..n] == rounds[..n];
    } else {
      assert rounds[..n] == rounds;
    }
  }

  class RefreshScheduler {
    const cfg: Config
    var now: int

    constructor (given: Config, now: int)
      requires InRange(given)
      ensures Configured(cfg) && (Configured(given) ==> cfg == given)
      ensures cfg.skew == (if given.skew <= 0 then 30 * SECOND else given.skew)
      ensures cfg.minInterval == (if given.minInterval <= 0 then SECOND else given.minInterval)
      ensures cfg.retryMin == (if given.retryMin <= 0 then 250 * MILLISECOND else given.retryMin)
      ensures cfg.retryMax == Max(cfg.retryMin, if given.retryMax <= 0 then 5 * SECOND else given.retryMax)
      ensures this.now == now
    {
      cfg := Normalized(given);
      this.now := now;
    }

    /** wait: false when the context ends first. */
    method Sleep(d: int, fires: Option<nat>, log: Log) returns (ok: bool, longer: Log)
      modifies this
      ensures ok <==> fires.Some?
      ensures !ok ==> longer == log && now == old(now)
      ensures ok ==> longer == log + [Wait(old(now), Real(cfg, d), now)] && now == old(now) + Real(cfg, d) + fires.value
    {
      var pause := if d <= 0 then cfg.minInterval else d;
      if fires.None? { return false, log; }
      longer := log + [Wait(now, pause, now + pause + fires.value)];
      now := now + pause + fires.value;
      ok := true;
    }

    /** Asking for new tokens, and saving them. */
    method TryRefresh(round: Round, failures: nat, log: Log) returns (stopped: bool, failures': nat, longer: Log)
      requires Configured(cfg)
      modifies this
      ensures State(now, failures', longer, stopped) == AfterRefresh(cfg, State(old(now), failures, log, false), round)
    {
      hide Delay;
      stopped, failures' := false, failures;
      longer := log + [Refresh(now, now + round.refreshTakes, round.answer)];
      now := now + round.refreshTakes;
      match round.answer {
        case Fatal => stopped := true;
        case Transient =>
          var delay := Exponential(failures, cfg.retryMin, cfg.retryMax);
          failures' := failures + 1;
          var ok;
          ok, longer := Sleep(delay, round.secondWait, longer);
          stopped := !ok;
        case Updated(saved) => if saved { failures' := 0; }
      }
    }

    /** One turn of the loop in Run. */
    method Turn(round: Round, failures: nat, log: Log) returns (stopped: bool, failures': nat, longer: Log)
      requires Configured(cfg)
      modifies this
      ensures State(now, failures', longer, stopped) == AfterRound(cfg, State(old(now), failures, log, false), round)
    {
      hide AfterRefresh, Sub;
      stopped, failures', longer := false, failures, log;
      if round.canceled { return true, failures, log; }
      now := now + round.loadTakes;
      var ok;
      if !round.loaded.Found? {
        ok, longer := Sleep(cfg.minInterval, round.firstWait, longer);
        return !ok, failures, longer;
      }
      var expiresAt := round.loaded.expiresAt;
      var delay := Sub(expiresAt - cfg.skew, now);
      if delay < cfg.minInterval { delay := cfg.minInterval; }
      longer := longer + [Load(now, expiresAt)];
      ok, longer := Sleep(delay, round.firstWait, longer);
      if !ok { return true, failures, longer; }
      now := now + round.reloadTakes;
      if !round.reloaded.Found? { return false, failures, longer; }
      longer := longer + [Reload(now, round.reloaded.expiresAt)];
      stopped, failures', longer := TryRefresh(round, failures, longer);
    }

    /** Run, for as many turns of its loop as there are rounds. */
    method Run(rounds: seq<Round>) returns (log: Log)
      requires Configured(cfg)
      modifies this
      ensures log == After(cfg, old(now), rounds).log && now == After(cfg, old(now), rounds).now
    {
      hide AfterRound;
      var failures := 0;
      log := [];
      for i := 0 to |rounds|
        invariant State(now, failures, log, false) == After(cfg, old(now), rounds[..i])
      {
        assert rounds[..i + 1][..i] == rounds[..i];
        StoppedStays(cfg, old(now), rounds, i + 1);
        var stopped;
        stopped, failures, log := Turn(rounds[i], failures, log);
        if stopped { return; }
      }
      assert rounds[..|rounds|] == rounds;
    }
  }

  // ---- every run is disciplined ----

  /** The log ends where the next turn of the loop may begin. */
  ghost predicate Settled(log: Log) {
    log != [] ==> var last := log[|log| - 1]; !last.Load? && !last.Reload? && !Transiently(last) && !Fatally(last)
  }

  ghost predicate Orderly(cfg: Config, s: State) {
    && Disciplined(cfg, s.log) && Failures(s.log) == s.failures
    && (s.log != [] ==> End(s.log[|s.log| - 1]) <= s.now)
  }

  lemma Grows(cfg: Config, log: Log, a: Act)
    requires Disciplined(cfg, log) && Governed(cfg, log + [a], |log|)
    ensures Disciplined(cfg, log + [a])
    ensures Failures(log + [a]) ==
      if Transiently(a) then Failures(log) + 1
      else if a.Refresh? && a.answer.Updated? && a.answer.saved then 0
      else Failures(log)
  {
    hide Delay, UntilDue;
    var longer := log + [a];
    forall i | 0 <= i < |longer|
      ensures Governed(cfg, longer, i)
    {
      if i < |log| {
        assert Governed(cfg, log, i);
        assert longer[..i] == log[..i];
      }
    }
    assert longer[..|log|] == log;
  }

  lemma OrderlyWait(cfg: Config, s: State, d: int, fires: Option<nat>)
    requires Orderly(cfg, s) && (s.log != [] ==> var last := s.log[|s.log| - 1]; !last.Reload? && !Fatally(last))
    requires forall a :: Real(cfg, d) == Called(cfg, s.log + [a], |s.log|, s.now)
    requires s.log != [] && s.log[|s.log| - 1].Load? ==> s.log[|s.log| - 1].at == s.now
    requires Real(cfg, d) >= 0
    ensures Orderly(cfg, AfterWait(cfg, s, d, fires))
    ensures !AfterWait(cfg, s, d, fires).stopped && !s.stopped ==> Settled(AfterWait(cfg, s, d, fires).log)
  {
    hide Disciplined, Failures, Called;
    if fires.Some? {
      var until := s.now + Real(cfg, d) + fires.value;
      var a := Wait(s.now, Real(cfg, d), until);
      assert Governed(cfg, s.log + [a], |s.log|);
      Grows(cfg, s.log, a);
    }
  }

  lemma OrderlyRefresh(cfg: Config, s: State, r: Round)
    requires Configured(cfg) && Orderly(cfg, s) && !s.stopped
    requires s.log != [] && s.log[|s.log| - 1].Reload? && s.log[|s.log| - 1].at == s.now
    ensures Orderly(cfg, AfterRefresh(cfg, s, r))
    ensures !AfterRefresh(cfg, s, r).stopped ==> Settled(AfterRefresh(cfg, s, r).log)
  {
    hide Disciplined, AfterWait, Delay;
    var done := s.now + r.refreshTakes;
    var a := Refresh(s.now, done, r.answer);
    assert Governed(cfg, s.log + [a], |s.log|);
    Grows(cfg, s.log, a);
    if r.answer.Transient? {
      var s' := s.(now := done, log := s.log + [a], failures := s.failures + 1);
      assert forall b :: (s'.log + [b])[..|s'.log|] == s'.log;
      OrderlyWait(cfg, s', Delay(s.failures, cfg.retryMin, cfg.retryMax), r.secondWait);
    }
  }

  lemma OrderlyRound(cfg: Config, s: State, r: Round)
    requires Configured(cfg) && Orderly(cfg, s) && (s.stopped || Settled(s.log))
    ensures Orderly(cfg, AfterRound(cfg, s, r))
    ensures AfterRound(cfg, s, r).stopped || Settled(AfterRound(cfg, s, r).log)
  {
    hide Disciplined, AfterRefresh, AfterWait, Delay, Sub, Failures;
    if !s.stopped && !r.canceled {
      var at := s.now + r.loadTakes;
      if !r.loaded.Found? {
        OrderlyWait(cfg, s.(now := at), cfg.minInterval, r.firstWait);
      } else {
        var load := Load(at, r.loaded.expiresAt);
        assert Governed(cfg, s.log + [load], |s.log|);
        Grows(cfg, s.log, load);
        var s' := s.(now := at, log := s.log + [load]);
        var due := UntilDue(cfg, r.loaded.expiresAt, at);
        OrderlyWait(cfg, s', due, r.firstWait);
        OrderlyReload(cfg, s', due, r);
      }
    }
  }

  lemma OrderlyReload(cfg: Config, s: State, due: int, r: Round)
    requires Configured(cfg) && Orderly(cfg, AfterWait(cfg, s, due, r.firstWait)) && !s.stopped
    requires s.log != [] && s.log[|s.log| - 1].Load?
    ensures var e := AfterReload(cfg, AfterWait(cfg, s, due, r.firstWait), r);
      Orderly(cfg, e) && (e.stopped || Settled(e.log))
  {
    hide Disciplined, AfterRefresh, Failures;
    var w := AfterWait(cfg, s, due, r.firstWait);
    if !w.stopped && r.reloaded.Found? {
      var at := w.now + r.reloadTakes;
      var reload := Reload(at, r.reloaded.expiresAt);
      assert Governed(cfg, w.log + [reload], |w.log|);
      Grows(cfg, w.log, reload);
      OrderlyRefresh(cfg, w.(now := at, log := w.log + [reload]), r);
    }
  }

  lemma {:induction false} RunIsDisciplined(cfg: Config, now: int, rounds: seq<Round>)
    requires Configured(cfg)
    ensures var s := After(cfg, now, rounds); Orderly(cfg, s) && (s.stopped || Settled(s.log))
  {
    hide AfterRound;
    if rounds == [] {
    } else {
      RunIsDisciplined(cfg, now, rounds[..|rounds| - 1]);
      OrderlyRound(cfg, After(cfg, now, rounds[..|rounds| - 1]), rounds[|rounds| - 1]);
    }
  }

  // ---- what discipline means ----

  lemma {:induction false} TimesGrow(cfg: Config, log: Log, i: nat, j: nat)
    requires Disciplined(cfg, log) && i < j < |log|
    ensures End(log[i]) <= Begin(log[j])
    decreases j
  {
    assert Governed(cfg, log, j);
    if i < j - 1 {
      TimesGrow(cfg, log, i, j - 1);
      assert Governed(cfg, log, j - 1);
    }
  }

  /**
   Every refresh comes after a full wait of at least the minimal interval, and no earlier than
   the token loaded before that wait calls for (nor than that of the token loaded after it,
   unless that one expires later); a wait longer than 292 years is cut short.
   */
  lemma RefreshIsDue(cfg: Config, now: int, rounds: seq<Round>, j: nat)
    requires Configured(cfg) && j < |After(cfg, now, rounds).log| && After(cfg, now, rounds).log[j].Refresh?
    ensures var log := After(cfg, now, rounds).log;
      && j >= 3 && log[j - 3].Load? && log[j - 1].Reload?
      && log[j].at >= log[j - 3].at + cfg.minInterval
      && (log[j].at >= log[j - 3].expiresAt - cfg.skew || log[j].at >= log[j - 3].at + INT64_MAX)
      && (log[j - 1].expiresAt <= log[j - 3].expiresAt ==>
            log[j].at >= log[j - 1].expiresAt - cfg.skew || log[j].at >= log[j - 3].at + INT64_MAX)
  {
    hide After, Delay;
    RunIsDisciplined(cfg, now, rounds);
    var log := After(cfg, now, rounds).log;
    assert Governed(cfg, log, j) && Governed(cfg, log, j - 1) && Governed(cfg, log, j - 2);
  }

  /**
   Two refreshes are at least the minimal interval apart, counted from the end of the first;
   when that one was the n-th transient failure since tokens were last saved, the backoff for
   n - 1 comes on top.
   */
  lemma RefreshesSpaced(cfg: Config, now: int, rounds: seq<Round>, i: nat, j: nat)
    requires Configured(cfg) && i < j < |After(cfg, now, rounds).log|
    requires After(cfg, now, rounds).log[i].Refresh? && After(cfg, now, rounds).log[j].Refresh?
    ensures var log := After(cfg, now, rounds).log;
      && log[j].at >= log[i].done + cfg.minInterval
      && (log[i].answer.Transient? ==>
            log[j].at >= log[i].done + Real(cfg, Delay(Failures(log[..i + 1]) - 1, cfg.retryMin, cfg.retryMax))
                + cfg.minInterval)
  {
    hide After, Delay, UntilDue, Sub;
    RunIsDisciplined(cfg, now, rounds);
    var log := After(cfg, now, rounds).log;
    RefreshIsDue(cfg, now, rounds, j);
    assert Governed(cfg, log, j) && Governed(cfg, log, j - 1) && Governed(cfg, log, i + 1);
    assert i < j - 3;
    TimesGrow(cfg, log, i, j - 3);
    if log[i].answer.Transient? { TimesGrow(cfg, log, i + 1, j - 3); }
  }

  /** Nothing happens after a fatal answer. */
  lemma FatalIsLast(cfg: Config, now: int, rounds: seq<Round>, i: nat)
    requires Configured(cfg) && i < |After(cfg, now, rounds).log| && Fatally(After(cfg, now, rounds).log[i])
    ensures i == |After(cfg, now, rounds).log| - 1
  {
    hide After;
    RunIsDisciplined(cfg, now, rounds);
    var log := After(cfg, now, rounds).log;
    assert i + 1 < |log| ==> !Governed(cfg, log, i + 1);
  }

  function Max(a: int, b: int): int {
    if a > b then a else b
  }

  function Min(a: int, b: int): int {
    if a < b then a else b
  }

  /**
   The token that is sent is the one loaded after the wait. It is sent before it calls for it
   exactly when it expires later than everything the wait was for allows, and than the wait
   was late: the token loaded before the wait, and the minimal interval. (The inner minimum
   only matters to waits that are cut short after 292 years.)
   */
  lemma SentEarlyIff(cfg: Config, now: int, rounds: seq<Round>, j: nat)
    requires Configured(cfg) && j < |After(cfg, now, rounds).log| && After(cfg, now, rounds).log[j].Refresh?
    ensures var log := After(cfg, now, rounds).log;
      && j >= 3 && log[j - 3].Load? && log[j - 1].Reload?
      && var slack := log[j].at - (log[j - 3].at + UntilDue(cfg, log[j - 3].expiresAt, log[j - 3].at));
      && slack >= 0
      && (log[j].at < log[j - 1].expiresAt - cfg.skew
          <==> log[j - 1].expiresAt > Max(Min(log[j - 3].expiresAt, log[j - 3].at + INT64_MAX + cfg.skew),
                                          log[j - 3].at + cfg.minInterval + cfg.skew) + slack)
  {
    hide After, Delay;
    RunIsDisciplined(cfg, now, rounds);
    RefreshIsDue(cfg, now, rounds, j);
    var log := After(cfg, now, rounds).log;
    assert Governed(cfg, log, j) && Governed(cfg, log, j - 1) && Governed(cfg, log, j - 2);
  }

  /** With a cap below 2^62 the extra wait is min(retryMax, retryMin * 2^(n-1)). */
  lemma BackoffIsIdeal(cfg: Config, n: nat)
    requires Configured(cfg) && cfg.retryMax < 0x4000_0000_0000_0000 && n > 0
    ensures Real(cfg, Delay(n - 1, cfg.retryMin, cfg.retryMax)) == Ideal(n - 1, cfg.retryMin, cfg.retryMax)
  {
    SmallCapFits(cfg.retryMin, cfg.retryMax);
    ExactWhenItFits(n - 1, cfg.retryMin, cfg.retryMax);
    DelayMonotone(0, n - 1, cfg.retryMin, cfg.retryMax);
  }

  /**
   The token that is sent is the one loaded after the wait; when another writer has just
   replaced it, it is refreshed long before it calls for it.
   */
  lemma FreshTokenRefreshedEarly()
    ensures var cfg := Config(30 * SECOND, SECOND, SECOND, SECOND);
      var r := Round(false, 0, Found(0), Some(0), 0, Found(3600 * SECOND), 0, Updated(true), None);
      var log := After(cfg, 0, [r]).log;
      |log| == 4 && log[3].Refresh? && log[3].at == SECOND && log[2].Reload?
          && log[2].expiresAt - cfg.skew == 3570 * SECOND
  {
    var cfg := Config(30 * SECOND, SECOND, SECOND, SECOND);
    var r := Round(false, 0, Found(0), Some(0), 0, Found(3600 * SECOND), 0, Updated(true), None);
    assert [r][..0] == [];
    assert After(cfg, 0, [r]) == AfterRound(cfg, State(0, 0, [], false), r);
  }
}
