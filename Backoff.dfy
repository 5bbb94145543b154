/**
 * The reconnect delay: initialDelayMs times multiplier to the power of the
 * attempt (clamped to 0..20), truncated to whole milliseconds, and replaced
 * by maxDelayMs when it is larger than that or negative. The multiplier is an
 * exact real here; the source computes in double precision.
 */
module Backoff {
  import opened Types

  /** Attempts beyond this exponent all get the same delay. */
  const MaxExponent: nat := 20

  function Pow(m: real, k: nat): real
  {
    if k == 0 then 1.0 else m * Pow(m, k - 1)
  }

  function ClampAttempt(attempt: int): (k: nat)
    ensures k <= MaxExponent
    ensures attempt <= 0 ==> k == 0
    ensures attempt >= MaxExponent ==> k == MaxExponent
    ensures 0 <= attempt <= MaxExponent ==> k == attempt
  {
    if attempt < 0 then 0 else if attempt > MaxExponent then MaxExponent else attempt
  }

  /** The delay before truncation. */
  function RawDelay(cfg: ReconnectConfig, attempt: int): real
  {
    cfg.initialDelayMs as real * Pow(cfg.multiplier, ClampAttempt(attempt))
  }

  /**
   * The delay in milliseconds. It never exceeds maxDelayMs; when it is not
   * maxDelayMs it is the non-negative raw delay truncated toward zero.
   */
  function Delay(cfg: ReconnectConfig, attempt: int): (d: int)
    ensures d <= cfg.maxDelayMs
    ensures d == cfg.maxDelayMs ||
            (0 <= d && d as real <= RawDelay(cfg, attempt) < d as real + 1.0)
    ensures 0.0 <= RawDelay(cfg, attempt) <= cfg.maxDelayMs as real ==> d == RawDelay(cfg, attempt).Floor
    ensures RawDelay(cfg, attempt) > cfg.maxDelayMs as real ==> d == cfg.maxDelayMs
    ensures RawDelay(cfg, attempt) < 0.0 ==> d == cfg.maxDelayMs
  {
    var raw := RawDelay(cfg, attempt);
    if raw > cfg.maxDelayMs as real || raw < 0.0 then cfg.maxDelayMs else raw.Floor
  }

  /** With a non-negative cap the delay is within [0, maxDelayMs]. */
  lemma DelayWithinCap(cfg: ReconnectConfig, attempt: int)
    requires cfg.maxDelayMs >= 0
    ensures 0 <= Delay(cfg, attempt) <= cfg.maxDelayMs
  {
  }

  lemma {:induction false} PowAtLeastOne(m: real, k: nat)
    requires m >= 1.0
    ensures Pow(m, k) >= 1.0
  {
    if k > 0 {
      PowAtLeastOne(m, k - 1);
    }
  }

  lemma {:induction false} PowMonotone(m: real, j: nat, k: nat)
    requires m >= 1.0 && j <= k
    ensures Pow(m, j) <= Pow(m, k)
    decreases k
  {
    if j < k {
      PowMonotone(m, j, k - 1);
      PowAtLeastOne(m, k - 1);
      assert Pow(m, k) == m * Pow(m, k - 1);
      assert m * Pow(m, k - 1) >= Pow(m, k - 1);
    }
  }

  /**
   * With a non-negative initial delay and a multiplier of at least 1 the
   * delay never decreases from one attempt to the next.
   */
  lemma DelayMonotone(cfg: ReconnectConfig, a: int, b: int)
    requires cfg.initialDelayMs >= 0 && cfg.multiplier >= 1.0
    requires a <= b
    ensures Delay(cfg, a) <= Delay(cfg, b)
  {
    RawMonotone(cfg, a, b);
    if RawDelay(cfg, b) <= cfg.maxDelayMs as real {
      FloorMonotone(RawDelay(cfg, a), RawDelay(cfg, b));
    }
  }

  lemma RawMonotone(cfg: ReconnectConfig, a: int, b: int)
    requires cfg.initialDelayMs >= 0 && cfg.multiplier >= 1.0
    requires a <= b
    ensures 0.0 <= RawDelay(cfg, a) <= RawDelay(cfg, b)
  {
    var m, i := cfg.multiplier, cfg.initialDelayMs as real;
    var x, y := Pow(m, ClampAttempt(a)), Pow(m, ClampAttempt(b));
    assert 1.0 <= x <= y by {
      PowMonotone(m, ClampAttempt(a), ClampAttempt(b));
      PowAtLeastOne(m, ClampAttempt(a));
    }
    ScaleMonotone(i, x, y);
  }

  lemma FloorMonotone(x: real, y: real)
    requires x <= y
    ensures x.Floor <= y.Floor
  {
  }

  lemma ScaleMonotone(i: real, x: real, y: real)
    requires 0.0 <= i && 1.0 <= x <= y
    ensures 0.0 <= i * x <= i * y
  {
  }

  /** Every attempt past the twentieth waits as long as the twentieth. */
  lemma AttemptSaturates(cfg: ReconnectConfig, attempt: int)
    requires attempt >= MaxExponent
    ensures Delay(cfg, attempt) == Delay(cfg, MaxExponent)
  {
  }

  /**
   * The default policy's schedule: 1000, 2000, 4000, 8000, 16000 and then
   * 30000 (clamped from 32000) for every later attempt.
   */
  lemma DefaultSchedule(attempt: int)
    requires attempt >= 5
    ensures Delay(DefaultReconnectConfig, 0) == 1000
    ensures Delay(DefaultReconnectConfig, 1) == 2000
    ensures Delay(DefaultReconnectConfig, 2) == 4000
    ensures Delay(DefaultReconnectConfig, 3) == 8000
    ensures Delay(DefaultReconnectConfig, 4) == 16000
    ensures Delay(DefaultReconnectConfig, attempt) == 30000
  {
    var d := DefaultReconnectConfig;
    assert Pow(2.0, 1) == 2.0;
    assert Pow(2.0, 2) == 4.0;
    assert Pow(2.0, 3) == 8.0;
    assert Pow(2.0, 4) == 16.0;
    assert Pow(2.0, 5) == 32.0;
    assert Delay(d, 5) == 30000;
    DelayMonotone(d, 5, attempt);
  }
}
