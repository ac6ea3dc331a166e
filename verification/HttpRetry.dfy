/**
 transport/http/client.go: sending one request, with retries and at most one token refresh.

 What the network, the token provider and the clock do is an environment that answers per
 attempt; one call consults each of them at most once in an attempt.
 */
module HttpRetry {
  import opened GoStrings
  import opened Backoff

  datatype Config = Config(maxRetries: int, minBackoff: int, maxBackoff: int, hasProvider: bool)

  /** NewClient. */
  function Normalized(cfg: Config): (r: Config)
    ensures Configured(r)
    ensures Configured(cfg) ==> r == cfg
  {
    var minBackoff := if cfg.minBackoff <= 0 then 100 * MILLISECOND else cfg.minBackoff;
    var maxBackoff := if cfg.maxBackoff <= 0 then 2 * SECOND else cfg.maxBackoff;
    cfg.(maxRetries := if cfg.maxRetries < 0 then 0 else cfg.maxRetries,
         minBackoff := minBackoff,
         maxBackoff := if maxBackoff < minBackoff then minBackoff else maxBackoff)
  }

  predicate Configured(cfg: Config) {
    0 <= cfg.maxRetries && 0 < cfg.minBackoff <= cfg.maxBackoff
  }

  /** The two fields of an error body; None when the body is empty or not a JSON object. */
  datatype ErrorBody = ErrorBody(errorCode: string, error: string)

  datatype Response = Response(status: int, retryAfter: string, body: Option<ErrorBody>)

  /** `answers(k)` is None when the k-th send fails; `dates(k)` is how far off the HTTP date in its header is. */
  datatype Environment = Environment(
    tokens: nat -> bool,
    answers: nat -> Option<Response>,
    dates: nat -> Option<int>,
    interrupts: nat -> bool,
    refreshes: bool)

  datatype Error = Nil | TokenError | SendError | Interrupted | Unauthorized | RefreshFailed | TooManyRequests
      | Upstream

  // ---- classification ----

  predicate ContainsString(s: string, sub: string) {
    sub <= s || (s != [] && ContainsString(s[1..], sub))
  }

  /** parseEpicErrorBody: a body with both fields empty says nothing. */
  function ParseErrorBody(body: Option<ErrorBody>): Option<ErrorBody> {
    if body.Some? && body.value.errorCode == "" && body.value.error == "" then None else body
  }

  predicate IsAuthFailure(body: ErrorBody) {
    var code := ToLower(body.errorCode);
    ToLower(body.error) == "invalid_token"
    || code in {"errors.com.epicgames.common.oauth.invalid_token",
                "errors.com.epicgames.common.authentication.token_verification_failed"}
    || ContainsString(code, "invalid_token")
  }

  predicate ShouldRefresh(resp: Response) {
    match ParseErrorBody(resp.body)
    case Some(parsed) => IsAuthFailure(parsed)
    case None => resp.status == 401
  }

  datatype Class = Good | AuthFailure | Forbidden | Busy | ServerError

  function Classify(resp: Response): Class {
    if ShouldRefresh(resp) then AuthFailure
    else if resp.status == 401 then Forbidden
    else if resp.status == 429 then Busy
    else if 500 <= resp.status <= 599 then ServerError
    else Good
  }

  /** retryAfterDelay. Seconds become nanoseconds by a 64-bit multiplication. */
  function RetryAfterDelay(header: string, date: Option<int>, fallback: int): int {
    var trimmed := TrimSpace(header);
    if trimmed == "" then fallback
    else
      match ParseInt64(trimmed)
      case Some(sec) => if sec < 0 then fallback else Wrap64(sec * SECOND)
      case None => if date.Some? && date.value > 0 then date.value else fallback
  }

  /** A Retry-After in seconds is honoured exactly up to 292 years; beyond that the product wraps. */
  lemma RetryAfterHonoured(sec: nat, date: Option<int>, fallback: int)
    requires sec <= INT64_MAX
    ensures RetryAfterDelay(Print(sec), date, fallback) == sec * SECOND <==> sec <= 9_223_372_036
  {
    PrintParse(sec);
    TrimmedIsFixed(Print(sec));
  }

  // ---- one call, seen as its attempts ----

  predicate HasToken(cfg: Config, env: Environment, k: nat) {
    !cfg.hasProvider || env.tokens(k)
  }

  predicate AuthFails(cfg: Config, env: Environment, k: nat) {
    HasToken(cfg, env, k) && env.answers(k).Some? && Classify(env.answers(k).value).AuthFailure?
  }

  /** How long attempt k is followed by a pause, if it is followed by one. */
  ghost function Pause(cfg: Config, env: Environment, k: nat): int {
    var backoff := Delay(k - 1, cfg.minBackoff, cfg.maxBackoff);
    match env.answers(k)
    case Some(resp) => if Classify(resp).Busy? then RetryAfterDelay(resp.retryAfter, env.dates(k), backoff) else backoff
    case None => backoff
  }

  predicate Transient(env: Environment, k: nat) {
    env.answers(k).None? || Classify(env.answers(k).value).Busy? || Classify(env.answers(k).value).ServerError?
  }

  /** After attempt k the call goes on to attempt k + 1. */
  ghost predicate Recovers(cfg: Config, env: Environment, k: nat) {
    && HasToken(cfg, env, k)
    && if Transient(env, k) then k <= cfg.maxRetries && !(Pause(cfg, env, k) > 0 && env.interrupts(k))
       else AuthFails(cfg, env, k) && cfg.hasProvider && env.refreshes && forall j | 1 <= j < k ::
           !AuthFails(cfg, env, j)
  }

  ghost predicate EndsAt(cfg: Config, env: Environment, n: nat) {
    1 <= n && !Recovers(cfg, env, n) && forall k | 1 <= k < n :: Recovers(cfg, env, k)
  }

  /** What the call returns when attempt n is its last. */
  function Verdict(cfg: Config, env: Environment, n: nat): Error {
    if !HasToken(cfg, env, n) then TokenError
    else
      match env.answers(n)
      case None => if n > cfg.maxRetries then SendError else Interrupted
      case Some(resp) =>
        match Classify(resp)
        case Good => Nil
        case AuthFailure =>
          if !cfg.hasProvider || (exists j | 1 <= j < n :: AuthFails(cfg, env, j)) then Unauthorized else RefreshFailed
        case Forbidden => Unauthorized
        case Busy => if n > cfg.maxRetries then TooManyRequests else Interrupted
        case ServerError => if n > cfg.maxRetries then Upstream else Interrupted
  }

  /** The pauses after the first n attempts. */
  ghost function Pauses(cfg: Config, env: Environment, n: nat): seq<int> {
    if n == 0 then [] else Pauses(cfg, env, n - 1) + if AuthFails(cfg, env, n) then [] else [Pause(cfg, env, n)]
  }

  ghost predicate RefreshedBefore(cfg: Config, env: Environment, n: nat) {
    exists j :: 1 <= j < n && AuthFails(cfg, env, j)
  }

  /** Every call ends, after at most maxRetries + 2 attempts, and the last of these only after a refresh. */
  lemma EndsAtBounded(cfg: Config, env: Environment, n: nat)
    requires cfg.maxRetries >= 0 && EndsAt(cfg, env, n)
    ensures n <= cfg.maxRetries + 2
    ensures n == cfg.maxRetries + 2 ==> RefreshedBefore(cfg, env, n)
  {
    hide Pause, Transient, AuthFails;
    if n >= cfg.maxRetries + 2 {
      assert Recovers(cfg, env, cfg.maxRetries + 1);
      assert n > cfg.maxRetries + 2 ==> Recovers(cfg, env, cfg.maxRetries + 2);
    }
  }

  /** The pauses are at most maxRetries, and with the refresh they make up all the retries. */
  lemma {:induction false} PausesCount(cfg: Config, env: Environment, n: nat)
    requires forall k | 1 <= k <= n :: Recovers(cfg, env, k)
    ensures |Pauses(cfg, env, n)| == n - if RefreshedBefore(cfg, env, n + 1) then 1 else 0
    decreases n
  {
    hide Pause, Transient, AuthFails;
    if n == 0 {
    } else {
      PausesCount(cfg, env, n - 1);
      if RefreshedBefore(cfg, env, n) {
        var j :| 1 <= j < n && AuthFails(cfg, env, j);
        assert Recovers(cfg, env, n) ==> !AuthFails(cfg, env, n) by { AuthIsNotTransient(cfg, env, n); }
      }
    }
  }

  lemma AuthIsNotTransient(cfg: Config, env: Environment, n: nat)
    ensures AuthFails(cfg, env, n) ==> !Transient(env, n)
  {
  }

  lemma HistoryGrows(cfg: Config, env: Environment, n: nat)
    requires n >= 1
    ensures Pauses(cfg, env, n) == Pauses(cfg, env, n - 1) + if AuthFails(cfg, env, n) then [] else [Pause(cfg, env, n)]
    ensures RefreshedBefore(cfg, env, n + 1) <==> RefreshedBefore(cfg, env, n) || AuthFails(cfg, env, n)
    ensures RefreshedBefore(cfg, env, n) <==> exists j | 1 <= j < n :: AuthFails(cfg, env, j)
  {
    hide Pause, AuthFails;
  }

  lemma NothingYet(cfg: Config, env: Environment)
    ensures Pauses(cfg, env, 0) == [] && !RefreshedBefore(cfg, env, 1)
  {
  }

  /** A good answer is one with none of the statuses and bodies that make the call fail. */
  predicate Usable(resp: Response) {
    resp.status !in {401, 429} && !(500 <= resp.status <= 599)
    && (ParseErrorBody(resp.body).Some? ==> !IsAuthFailure(ParseErrorBody(resp.body).value))
  }

  ghost predicate SucceedsAt(cfg: Config, env: Environment, n: nat) {
    && 1 <= n && HasToken(cfg, env, n) && env.answers(n).Some? && Usable(env.answers(n).value)
    && forall k | 1 <= k < n :: Recovers(cfg, env, k)
  }

  /**
   A call returns no error exactly when some attempt gets a usable answer and every one before it
   could be recovered from.
   */
  lemma SuccessIff(cfg: Config, env: Environment, n: nat)
    requires EndsAt(cfg, env, n)
    ensures Verdict(cfg, env, n).Nil? <==> exists m :: SucceedsAt(cfg, env, m)
    ensures Verdict(cfg, env, n).Nil? <==> SucceedsAt(cfg, env, n)
  {
    hide Pause, RetryAfterDelay, IsAuthFailure, ParseErrorBody;
    if exists m :: SucceedsAt(cfg, env, m) {
      var m: nat :| SucceedsAt(cfg, env, m);
      UsableEnds(cfg, env, m);
      assert m == n;
    }
    if SucceedsAt(cfg, env, n) { UsableIsGood(env.answers(n).value); }
    if env.answers(n).Some? { UsableIsGood(env.answers(n).value); }
  }

  lemma UsableIsGood(resp: Response)
    ensures Usable(resp) <==> Classify(resp).Good?
  {
    hide IsAuthFailure;
  }

  lemma UsableEnds(cfg: Config, env: Environment, m: nat)
    requires SucceedsAt(cfg, env, m)
    ensures !Recovers(cfg, env, m)
  {
    hide Pause, Usable, Classify;
    UsableIsGood(env.answers(m).value);
  }

  class Client {
    const cfg: Config

    constructor (given: Config)
      ensures Configured(cfg) && (Configured(given) ==> cfg == given) && cfg.hasProvider == given.hasProvider
      ensures cfg.maxRetries == (if given.maxRetries < 0 then 0 else given.maxRetries)
      ensures cfg.minBackoff == (if given.minBackoff <= 0 then 100 * MILLISECOND else given.minBackoff)
      ensures var asked := if given.maxBackoff <= 0 then 2 * SECOND else given.maxBackoff;
        cfg.maxBackoff == if asked < cfg.minBackoff then cfg.minBackoff else asked
    {
      cfg := Normalized(given);
    }

    method BackoffDelay(attempt: int) returns (delay: int)
      requires IsInt64(cfg.minBackoff) && IsInt64(cfg.maxBackoff)
      ensures delay == Delay(attempt, cfg.minBackoff, cfg.maxBackoff)
    {
      delay := Exponential(attempt, cfg.minBackoff, cfg.maxBackoff);
    }

    /** The pause after a transient outcome of attempt k; false when the context ends first. */
    method PauseAfter(env: Environment, k: nat, slept: seq<int>) returns (ok: bool, longer: seq<int>)
      requires IsInt64(cfg.minBackoff) && IsInt64(cfg.maxBackoff)
      ensures longer == slept + [Pause(cfg, env, k)]
      ensures ok <==> !(Pause(cfg, env, k) > 0 && env.interrupts(k))
    {
      hide Delay, Classify, RetryAfterDelay;
      var delay := BackoffDelay(k - 1);
      if env.answers(k).Some? && Classify(env.answers(k).value).Busy? {
        delay := RetryAfterDelay(env.answers(k).value.retryAfter, env.dates(k), delay);
      }
      longer := slept + [delay];
      ok := delay <= 0 || !env.interrupts(k);
    }

    /** Request. `sends`, `slept` and `refreshes` tell what the call did on the way. */
    method Request(env: Environment)
      returns (err: Error, resp: Option<Response>, sends: nat, slept: seq<int>, refreshes: nat, ghost n: nat)
      requires IsInt64(cfg.minBackoff) && IsInt64(cfg.maxBackoff) && Configured(cfg)
      ensures EndsAt(cfg, env, n) && err == Verdict(cfg, env, n)
      ensures err.Nil? ==> resp == env.answers(n)
      ensures sends == if err.TokenError? then n - 1 else n
      ensures slept == Pauses(cfg, env, n - 1) + if err.Interrupted? then [Pause(cfg, env, n)] else []
      ensures refreshes == if RefreshedBefore(cfg, env, n) || err.RefreshFailed? then 1 else 0
      ensures sends <= cfg.maxRetries + 2 && |slept| <= cfg.maxRetries && refreshes <= 1
    {
      hide Pause, Classify, Pauses, RefreshedBefore;
      var attempt := 0;
      NothingYet(cfg, env);
      var refreshed := false;
      sends, slept, refreshes := 0, [], 0;
      n := 0;
      while true
        invariant n == attempt == sends && attempt <= cfg.maxRetries + if refreshed then 1 else 0
        invariant forall k | 1 <= k <= attempt :: Recovers(cfg, env, k)
        invariant refreshed <==> RefreshedBefore(cfg, env, attempt + 1)
        invariant slept == Pauses(cfg, env, attempt)
        invariant |slept| + refreshes == attempt && refreshes == if refreshed then 1 else 0
        decreases cfg.maxRetries + 1 - attempt
      {
        attempt := attempt + 1;
        n := attempt;
        HistoryGrows(cfg, env, n);
        if cfg.hasProvider && !env.tokens(attempt) { return TokenError, None, sends, slept, refreshes, n; }
        sends := sends + 1;
        var answer := env.answers(attempt);
        var ok;
        if answer.None? {
          if attempt >= cfg.maxRetries + 1 { return SendError, None, sends, slept, refreshes, n; }
          ok, slept := PauseAfter(env, attempt, slept);
          if !ok { return Interrupted, None, sends, slept, refreshes, n; }
          continue;
        }
        var class_ := Classify(answer.value);
        if class_.AuthFailure? {
          assert AuthFails(cfg, env, attempt);
          if refreshed || !cfg.hasProvider { return Unauthorized, answer, sends, slept, refreshes, n; }
          refreshes := refreshes + 1;
          if !env.refreshes { return RefreshFailed, answer, sends, slept, refreshes, n; }
          refreshed := true;
          continue;
        }
        if class_.Forbidden? { return Unauthorized, answer, sends, slept, refreshes, n; }
        if class_.Busy? {
          if attempt >= cfg.maxRetries + 1 { return TooManyRequests, answer, sends, slept, refreshes, n; }
          ok, slept := PauseAfter(env, attempt, slept);
          if !ok { return Interrupted, None, sends, slept, refreshes, n; }
          continue;
        }
        if class_.ServerError? {
          if attempt >= cfg.maxRetries + 1 { return Upstream, answer, sends, slept, refreshes, n; }
          ok, slept := PauseAfter(env, attempt, slept);
          if !ok { return Interrupted, None, sends, slept, refreshes, n; }
          continue;
        }
        return Nil, answer, sends, slept, refreshes, n;
      }
    }
  }
}
