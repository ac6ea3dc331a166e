/**
 internal/backoff/backoff.go: the delay before the next attempt.

 Durations are 64-bit counts of nanoseconds, and doubling wraps around.
 */
module Backoff {
  import opened GoStrings

  const MILLISECOND := 1_000_000
  const SECOND := 1_000_000_000

  predicate IsInt64(n: int) {
    INT64_MIN <= n <= INT64_MAX
  }

  /** The 64-bit two's complement value congruent to n. */
  function Wrap64(n: int): (r: int)
    ensures IsInt64(r)
    ensures IsInt64(n) ==> r == n
  {
    (n - INT64_MIN) % 0x1_0000_0000_0000_0000 + INT64_MIN
  }

  /** lo * 2^n. */
  function Shifted(lo: int, n: nat): int {
    if n == 0 then lo else 2 * Shifted(lo, n - 1)
  }

  function Lower(minDelay: int): (lo: int)
    ensures lo > 0
  {
    if minDelay <= 0 then 100 * MILLISECOND else minDelay
  }

  function Upper(minDelay: int, maxDelay: int): (hi: int)
    ensures hi >= Lower(minDelay)
  {
    var hi := if maxDelay <= 0 then 5 * SECOND else maxDelay;
    if hi < Lower(minDelay) then Lower(minDelay) else hi
  }

  /** The delay after n doublings, as the machine computes it. */
  function Doubled(minDelay: int, n: nat): int {
    Wrap64(Shifted(Lower(minDelay), n))
  }

  /** The code's answer, wrap-around included: the cap as soon as some doubling reaches it. */
  ghost function Delay(attempt: int, minDelay: int, maxDelay: int): int {
    if attempt <= 0 then Lower(minDelay)
    else if exists k :: 1 <= k <= attempt && Doubled(minDelay, k) >= Upper(minDelay, maxDelay)
        then Upper(minDelay, maxDelay)
    else Doubled(minDelay, attempt)
  }

  lemma WrapDoubles(n: int)
    ensures Wrap64(2 * Wrap64(n)) == Wrap64(2 * n)
  {
    var m := 0x1_0000_0000_0000_0000;
    var q := (n - INT64_MIN) / m;
    assert Wrap64(n) == n - q * m;
    assert 2 * Wrap64(n) - INT64_MIN == (2 * n - INT64_MIN) - (2 * q) * m;
  }

  lemma DoublesOnce(minDelay: int, n: nat)
    ensures Wrap64(2 * Doubled(minDelay, n)) == Doubled(minDelay, n + 1)
  {
    WrapDoubles(Shifted(Lower(minDelay), n));
  }

  method Exponential(attempt: int, minDelay: int, maxDelay: int) returns (delay: int)
    requires IsInt64(minDelay) && IsInt64(maxDelay)
    ensures delay == Delay(attempt, minDelay, maxDelay)
  {
    hide Wrap64, Doubled;
    var lo, hi := minDelay, maxDelay;
    if lo <= 0 { lo := 100 * MILLISECOND; }
    if hi <= 0 { hi := 5 * SECOND; }
    if hi < lo { hi := lo; }
    if attempt <= 0 { return lo; }
    delay := lo;
    Undoubled(minDelay);
    for i := 0 to attempt
      invariant delay == Doubled(minDelay, i)
      invariant forall k | 1 <= k <= i :: Doubled(minDelay, k) < hi
    {
      DoublesOnce(minDelay, i);
      delay := Wrap64(2 * delay);
      if delay >= hi { return hi; }
    }
  }

  lemma Undoubled(minDelay: int)
    requires IsInt64(minDelay)
    ensures Doubled(minDelay, 0) == Lower(minDelay)
  {
  }

  // ---- what the delay should be ----

  /** min(hi, lo * 2^attempt), without any bound on the numbers. */
  function Ideal(attempt: int, minDelay: int, maxDelay: int): int {
    var lo, hi := Lower(minDelay), Upper(minDelay, maxDelay);
    if attempt <= 0 then lo
    else if Shifted(lo, attempt) < hi then Shifted(lo, attempt) else hi
  }

  /** The first doubling that reaches the cap, counting from `delay` on. */
  function Reaching(delay: int, hi: int): (reached: int)
    requires 0 < delay
    ensures reached >= hi
    decreases if delay < hi then hi - delay else 0
  {
    if 2 * delay >= hi then 2 * delay else Reaching(2 * delay, hi)
  }

  /** A caller's check: doubling the smallest delay reaches the cap before it overflows. */
  predicate Fits(minDelay: int, maxDelay: int) {
    Reaching(Lower(minDelay), Upper(minDelay, maxDelay)) <= INT64_MAX
  }

  lemma {:induction false} ShiftedFirst(lo: int, n: nat)
    ensures Shifted(2 * lo, n) == Shifted(lo, n + 1)
  {
    if n > 0 { ShiftedFirst(lo, n - 1); }
  }

  /** Reaching is the least lo * 2^k, with k at least 1, that is not below the cap. */
  lemma {:induction false} ReachingIsLeast(lo: int, hi: int) returns (k: nat)
    requires 0 < lo
    ensures k >= 1 && Reaching(lo, hi) == Shifted(lo, k)
    ensures k > 1 ==> Shifted(lo, k - 1) < hi
    decreases if lo < hi then hi - lo else 0
  {
    if 2 * lo >= hi {
      k := 1;
      assert Shifted(lo, 1) == 2 * Shifted(lo, 0);
    } else {
      var j := ReachingIsLeast(2 * lo, hi);
      k := j + 1;
      ShiftedFirst(lo, j);
      ShiftedFirst(lo, j - 1);
    }
  }

  lemma {:induction false} PowersGrow(lo: int, j: nat, k: nat)
    requires 0 < lo && j <= k
    ensures 0 < Shifted(lo, j) <= Shifted(lo, k)
    decreases k
  {
    if j < k {
      PowersGrow(lo, j, k - 1);
    } else if k > 0 {
      PowersGrow(lo, k - 1, k - 1);
    }
  }

  lemma ExactWhenItFits(attempt: int, minDelay: int, maxDelay: int)
    requires IsInt64(minDelay) && IsInt64(maxDelay) && Fits(minDelay, maxDelay)
    ensures Delay(attempt, minDelay, maxDelay) == Ideal(attempt, minDelay, maxDelay)
  {
    var lo, hi := Lower(minDelay), Upper(minDelay, maxDelay);
    var k := ReachingIsLeast(lo, hi);
    if attempt > 0 {
      if attempt >= k {
        PowersGrow(lo, k, attempt);
        assert Doubled(minDelay, k) >= hi;
      } else {
        PowersGrow(lo, attempt, k - 1);
        forall j | 1 <= j <= attempt
          ensures Doubled(minDelay, j) < hi
        {
          PowersGrow(lo, j, attempt);
        }
      }
    }
  }

  /**
   The doubling is right at every attempt exactly when it fits; otherwise there is an attempt
   for which the delay comes out negative.
   */
  lemma ExactIff(minDelay: int, maxDelay: int)
    requires IsInt64(minDelay) && IsInt64(maxDelay)
    ensures Fits(minDelay, maxDelay) <==>
            forall attempt :: Delay(attempt, minDelay, maxDelay) == Ideal(attempt, minDelay, maxDelay)
    ensures !Fits(minDelay, maxDelay) ==> exists attempt :: Delay(attempt, minDelay, maxDelay) < 0
  {
    if Fits(minDelay, maxDelay) {
      forall attempt
        ensures Delay(attempt, minDelay, maxDelay) == Ideal(attempt, minDelay, maxDelay)
      {
        ExactWhenItFits(attempt, minDelay, maxDelay);
      }
    } else {
      var k := FirstWrong(minDelay, maxDelay);
      PowersGrow(Lower(minDelay), k, k);
    }
  }

  lemma FirstWrong(minDelay: int, maxDelay: int) returns (k: nat)
    requires IsInt64(minDelay) && IsInt64(maxDelay) && !Fits(minDelay, maxDelay)
    ensures k >= 1 && Delay(k, minDelay, maxDelay) < 0
  {
    var lo, hi := Lower(minDelay), Upper(minDelay, maxDelay);
    k := ReachingIsLeast(lo, hi);
    var half := Shifted(lo, k - 1);
    assert Doubled(minDelay, k) == 2 * half - 0x1_0000_0000_0000_0000;
    forall j | 1 <= j <= k
      ensures Doubled(minDelay, j) < hi
    {
      if j < k {
        PowersGrow(lo, j, k - 1);
      }
    }
  }

  /** A cap below 2^62 always fits. */
  lemma SmallCapFits(minDelay: int, maxDelay: int)
    requires Upper(minDelay, maxDelay) < 0x4000_0000_0000_0000
    ensures Fits(minDelay, maxDelay)
  {
    var lo, hi := Lower(minDelay), Upper(minDelay, maxDelay);
    var k := ReachingIsLeast(lo, hi);
  }

  /** With a cap that fits, waiting never gets shorter and stays between the two bounds. */
  lemma DelayMonotone(a: int, b: int, minDelay: int, maxDelay: int)
    requires IsInt64(minDelay) && IsInt64(maxDelay) && Fits(minDelay, maxDelay) && a <= b
    ensures Lower(minDelay) <= Delay(a, minDelay, maxDelay) <= Delay(b, minDelay, maxDelay) <= Upper(minDelay, maxDelay)
  {
    ExactWhenItFits(a, minDelay, maxDelay);
    ExactWhenItFits(b, minDelay, maxDelay);
    var lo := Lower(minDelay);
    if b > 0 {
      PowersGrow(lo, 0, if a > 0 then a else 0);
      PowersGrow(lo, if a > 0 then a else 0, b);
    }
  }

  /** The bound on the cap is sharp: at 2^62 the very first doubling can overflow. */
  lemma CapAtLimitFails()
    ensures Delay(1, 0x4000_0000_0000_0000, 0x4000_0000_0000_0000) == INT64_MIN
    ensures Ideal(1, 0x4000_0000_0000_0000, 0x4000_0000_0000_0000) == 0x4000_0000_0000_0000
  {
    var d := 0x4000_0000_0000_0000;
    assert Shifted(d, 1) == 2 * d;
    assert Doubled(d, 1) == INT64_MIN;
    assert forall k | 1 <= k <= 1 :: Doubled(d, k) < d;
  }
}
