/**
 What one request of the transport comes to, told from the statuses and bodies of the answers:
 that temporary failures are retried, how long it waits, and how it ends.
 */
module HttpOutcome {
  import opened GoStrings
  import opened Backoff
  import opened HttpRetry

  /** The body says that the token is not accepted. */
  predicate Rejected(resp: Response) {
    ParseErrorBody(resp.body).Some? && IsAuthFailure(ParseErrorBody(resp.body).value)
  }

  /** No answer, or one that asks for patience: 429 or 5xx, and nothing about the token. */
  predicate Temporary(answer: Option<Response>) {
    answer.Some? ==> !Rejected(answer.value) && (answer.value.status == 429 || 500 <= answer.value.status <= 599)
  }

  /** The token is not accepted: the body says so, or there is no telling body and the status is 401. */
  predicate Expired(answer: Option<Response>) {
    answer.Some? && (Rejected(answer.value) || (ParseErrorBody(answer.value.body).None? && answer.value.status == 401))
  }

  /** How long the client waits after attempt k. */
  ghost function Wait(cfg: Config, env: Environment, k: nat): int
    requires k >= 1
  {
    var backoff := Delay(k - 1, cfg.minBackoff, cfg.maxBackoff);
    if env.answers(k).Some? && env.answers(k).value.status == 429 then
      RetryAfterDelay(env.answers(k).value.retryAfter, env.dates(k), backoff)
    else backoff
  }

  /** Attempt k fails so that the client goes on: temporarily, or, if it is the a-th, because the token has expired. */
  ghost predicate FailsAt(cfg: Config, env: Environment, k: nat, a: nat) {
    && (cfg.hasProvider ==> env.tokens(k))
    && if k == a then Expired(env.answers(k)) && cfg.hasProvider && env.refreshes
       else Temporary(env.answers(k)) && k <= cfg.maxRetries && !env.interrupts(k)
  }

  /** So do attempts 1 to m. */
  ghost predicate FailsAtFirst(cfg: Config, env: Environment, m: nat, a: nat) {
    forall k | 1 <= k <= m :: FailsAt(cfg, env, k, a)
  }

  lemma TemporaryIs(cfg: Config, env: Environment, k: nat)
    requires k >= 1 && Temporary(env.answers(k))
    ensures Transient(env, k) && !AuthFails(cfg, env, k) && Pause(cfg, env, k) == Wait(cfg, env, k)
  {
    hide IsAuthFailure, ParseErrorBody, RetryAfterDelay, Delay;
    assert forall body | ParseErrorBody(body).Some? :: body == ParseErrorBody(body) by { Parsed(); }
  }

  lemma Parsed()
    ensures forall body | ParseErrorBody(body).Some? :: body == ParseErrorBody(body)
  {
  }

  lemma ExpiredIs(cfg: Config, env: Environment, k: nat)
    requires Expired(env.answers(k)) && (cfg.hasProvider ==> env.tokens(k))
    ensures AuthFails(cfg, env, k) && !Transient(env, k)
  {
    hide IsAuthFailure, ParseErrorBody;
  }

  lemma FailuresRecover(cfg: Config, env: Environment, m: nat, a: nat)
    requires FailsAtFirst(cfg, env, m, a)
    ensures forall k | 1 <= k <= m :: Recovers(cfg, env, k)
    ensures forall k | 1 <= k <= m :: AuthFails(cfg, env, k) <==> k == a
  {
    hide Temporary, Expired, AuthFails, Transient, Pause;
    forall k | 1 <= k <= m
      ensures Recovers(cfg, env, k) || (k == a && AuthFails(cfg, env, k))
      ensures AuthFails(cfg, env, k) <==> k == a
    {
      assert FailsAt(cfg, env, k, a);
      if k == a { ExpiredIs(cfg, env, k); } else { TemporaryIs(cfg, env, k); }
    }
    if 1 <= a <= m {
      assert FailsAt(cfg, env, a, a);
      ExpiredIs(cfg, env, a);
      assert Recovers(cfg, env, a);
    }
  }

  /** The pauses after m such attempts: one for each that failed temporarily, as long as it asked for. */
  ghost function Waits(cfg: Config, env: Environment, m: nat, a: nat): seq<int> {
    if m == 0 then [] else Waits(cfg, env, m - 1, a) + if m == a then [] else [Wait(cfg, env, m)]
  }

  lemma {:induction false} PausesAreWaits(cfg: Config, env: Environment, m: nat, a: nat)
    requires FailsAtFirst(cfg, env, m, a)
    ensures Pauses(cfg, env, m) == Waits(cfg, env, m, a)
    decreases m
  {
    hide Temporary, Expired, AuthFails, Pause, Wait;
    if m == 0 {
    } else {
      PausesAreWaits(cfg, env, m - 1, a);
      FailuresRecover(cfg, env, m, a);
      assert FailsAt(cfg, env, m, a);
      if m != a { TemporaryIs(cfg, env, m); }
    }
  }

  /**
   Every temporary failure within the budget is retried, with the pause it asks for, and one
   expired token is refreshed without a pause; the first usable answer after that is returned.
   */
  lemma RetriedUntilAnswered(cfg: Config, env: Environment, m: nat, a: nat, n: nat)
    requires FailsAtFirst(cfg, env, m, a)
    requires (cfg.hasProvider ==> env.tokens(m + 1)) && env.answers(m + 1).Some? && Usable(env.answers(m + 1).value)
    requires EndsAt(cfg, env, n)
    ensures n == m + 1 && Verdict(cfg, env, n).Nil? && Pauses(cfg, env, n - 1) == Waits(cfg, env, m, a)
    ensures RefreshedBefore(cfg, env, n) <==> 1 <= a <= m
  {
    hide Usable, Temporary, Expired, AuthFails, Transient, Pause, Verdict, Classify;
    FailuresRecover(cfg, env, m, a);
    PausesAreWaits(cfg, env, m, a);
    assert SucceedsAt(cfg, env, m + 1);
    SuccessIff(cfg, env, n);
    UsableEnds(cfg, env, m + 1);
    if 1 <= a <= m { assert AuthFails(cfg, env, a); }
  }

  /** A request that fails temporarily once more often than it may be retried ends with what the last failure was. */
  lemma GivesUp(cfg: Config, env: Environment, n: nat)
    requires Configured(cfg) && EndsAt(cfg, env, n)
    requires forall k | 1 <= k <= cfg.maxRetries + 1 :: (cfg.hasProvider ==> env.tokens(k)) && Temporary(env.answers(k))
    requires forall k | 1 <= k <= cfg.maxRetries :: !env.interrupts(k)
    ensures n == cfg.maxRetries + 1 && |Pauses(cfg, env, n - 1)| == cfg.maxRetries
    ensures Verdict(cfg, env, n) == if env.answers(n).None? then SendError
                                    else if env.answers(n).value.status == 429 then TooManyRequests else Upstream
  {
    hide Temporary, Pause, AuthFails, Transient, Verdict;
    var m := cfg.maxRetries;
    assert forall k | 1 <= k <= m :: FailsAt(cfg, env, k, 0);
    FailuresRecover(cfg, env, m, 0);
    TemporaryIs(cfg, env, m + 1);
    assert !Recovers(cfg, env, m + 1);
    PausesAreWaits(cfg, env, m, 0);
    WaitsCount(cfg, env, m);
    LastVerdict(cfg, env, m + 1);
  }

  lemma {:induction false} WaitsCount(cfg: Config, env: Environment, m: nat)
    ensures |Waits(cfg, env, m, 0)| == m
    decreases m
  {
    if m > 0 { WaitsCount(cfg, env, m - 1); }
  }

  lemma LastVerdict(cfg: Config, env: Environment, n: nat)
    requires n > cfg.maxRetries && (cfg.hasProvider ==> env.tokens(n)) && Temporary(env.answers(n))
    ensures Verdict(cfg, env, n) == if env.answers(n).None? then SendError
                                    else if env.answers(n).value.status == 429 then TooManyRequests else Upstream
  {
    hide IsAuthFailure, ParseErrorBody;
  }

  /** After a 429 the client waits the whole seconds it is told to, up to 292 years. */
  lemma PauseAsTold(cfg: Config, env: Environment, k: nat, sec: nat)
    requires k >= 1 && env.answers(k).Some? && env.answers(k).value.status == 429 && !Rejected(env.answers(k).value)
    requires env.answers(k).value.retryAfter == Print(sec) && sec <= 9_223_372_036
    ensures Pause(cfg, env, k) == sec * SECOND
  {
    hide IsAuthFailure, ParseErrorBody, Delay, RetryAfterDelay, Print;
    TemporaryIs(cfg, env, k);
    RetryAfterHonoured(sec, env.dates(k), Delay(k - 1, cfg.minBackoff, cfg.maxBackoff));
  }

  /** One refresh is all: a second expired token ends the call. */
  lemma OneRefresh(cfg: Config, env: Environment, n: nat, a: nat, b: nat)
    requires EndsAt(cfg, env, n) && 1 <= a < b <= n
    requires Expired(env.answers(a)) && Expired(env.answers(b))
    requires cfg.hasProvider ==> env.tokens(a) && env.tokens(b)
    ensures b == n && Verdict(cfg, env, n) == Unauthorized
  {
    hide Expired, Pause, Transient, IsAuthFailure, ParseErrorBody;
    ExpiredIs(cfg, env, a);
    ExpiredIs(cfg, env, b);
    assert !Recovers(cfg, env, b);
  }

  /** Containing is having as a part. */
  lemma {:induction false} ContainsIff(s: string, sub: string)
    ensures ContainsString(s, sub) <==> exists i :: 0 <= i <= |s| && sub <= s[i..]
  {
    if sub <= s {
      assert s[0..] == s;
    } else if s == [] {
      assert s[0..] == s;
    } else {
      ContainsIff(s[1..], sub);
      assert forall i | 0 <= i <= |s[1..]| :: s[1..][i..] == s[i + 1..];
      assert s[0..] == s;
      if i :| 0 <= i <= |s| && sub <= s[i..] {
        assert i > 0;
        assert s[1..][i - 1..] == s[i..];
      }
      if i :| 0 <= i <= |s[1..]| && sub <= s[1..][i..] {
        assert s[1..][i..] == s[i + 1..];
      }
    }
  }

  predicate Contains(s: string, sub: string) {
    exists i :: 0 <= i <= |s| && sub <= s[i..]
  }

  /** Which bodies say that the token is not accepted, whatever the case of their letters. */
  lemma RejectedIff(resp: Response)
    ensures Rejected(resp) <==>
      && resp.body.Some?
      && (ToLower(resp.body.value.error) == "invalid_token"
          || Contains(ToLower(resp.body.value.errorCode), "invalid_token")
          || ToLower(resp.body.value.errorCode)
             == "errors.com.epicgames.common.authentication.token_verification_failed")
  {
    hide ToLower, ContainsString, Contains;
    if resp.body.Some? { RejectedCode(ToLower(resp.body.value.errorCode)); }
    LowerOfNothing();
  }

  lemma RejectedCode(code: string)
    ensures ContainsString(code, "invalid_token") <==> Contains(code, "invalid_token")
    ensures code == "errors.com.epicgames.common.oauth.invalid_token" ==> Contains(code, "invalid_token")
    ensures code == "" ==> !Contains(code, "invalid_token")
  {
    ContainsIff(code, "invalid_token");
    if code == "errors.com.epicgames.common.oauth.invalid_token" {
      var i := |"errors.com.epicgames.common.oauth."|;
      assert code[i..] == "invalid_token";
    }
    if code == "" {
      assert |"invalid_token"| == 13;
    }
  }

  lemma LowerOfNothing()
    ensures ToLower("") == "" && |"invalid_token"| == 13
    ensures "errors.com.epicgames.common.authentication.token_verification_failed" != ""
  {
  }
}
