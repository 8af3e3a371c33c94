/**
 The retry delay both the process supervisor and the wildcard resolver apply:
 one second, doubled per consecutive failure, capped at thirty seconds.
 */
module Backoff {

  const SECOND: int := 1_000_000_000
  const BACKOFF_BASE: int := SECOND
  const BACKOFF_MAX: int := 30 * SECOND

  function Pow2(n: nat): (r: nat)
    ensures r >= 1
  {
    if n == 0 then 1 else 2 * Pow2(n - 1)
  }

  /** The delay before the next automatic retry after n consecutive failures. */
  function Delay(n: int): int {
    if n < 1 then 0
    else if Pow2(n - 1) * BACKOFF_BASE < BACKOFF_MAX then Pow2(n - 1) * BACKOFF_BASE
    else BACKOFF_MAX
  }

  lemma {:induction false} Pow2Monotone(m: nat, n: nat)
    requires m <= n
    ensures Pow2(m) <= Pow2(n)
    decreases n - m
  {
    if m < n {
      Pow2Monotone(m + 1, n);
    }
  }

  /** More failures never shorten the wait, and no wait exceeds the cap. */
  lemma {:induction false} DelayMonotoneBounded(m: int, n: int)
    requires m <= n
    ensures Delay(m) <= Delay(n) <= BACKOFF_MAX
    ensures n >= 1 ==> Delay(n) >= BACKOFF_BASE
  {
    if 1 <= m {
      Pow2Monotone(m - 1, n - 1);
    }
  }

  /** One second after the first failure, and twice the last delay after each further one, up to thirty seconds. */
  lemma DelayDoubles(n: nat)
    ensures Delay(0) == 0 && Delay(1) == 1_000_000_000
    ensures n >= 1 ==> Delay(n + 1) == if 2 * Delay(n) <= 30_000_000_000 then 2 * Delay(n) else 30_000_000_000
  {
    if n >= 1 {
      assert Pow2(n) == 2 * Pow2(n - 1);
    }
  }

  /** The supervisor's loop: it leaves early, once the doubled delay reaches the cap. */
  method BackoffDelay(failures: int) returns (d: int)
    ensures d == Delay(failures)
  {
    if failures < 1 {
      return 0;
    }
    d := BACKOFF_BASE;
    for i := 1 to failures
      invariant d == Pow2(i - 1) * BACKOFF_BASE < BACKOFF_MAX
    {
      d := d * 2;
      if d >= BACKOFF_MAX {
        DelayMonotoneBounded(i + 1, failures);
        return BACKOFF_MAX;
      }
    }
    if d > BACKOFF_MAX {
      return BACKOFF_MAX;
    }
  }

  /**
   The resolver's loop stops on the delay instead and clips the result; it agrees with the
   supervisor's schedule for every count the resolver passes. At zero failures it does not:
   it yields the base delay where the supervisor yields none.
   */
  method ResolveBackoff(n: int) returns (d: int)
    ensures n >= 1 ==> d == Delay(n)
    ensures n < 1 ==> d == BACKOFF_BASE
  {
    d := BACKOFF_BASE;
    var i := 1;
    while i < n && d < BACKOFF_MAX
      invariant 1 <= i && (i == 1 || i <= n)
      invariant d == Pow2(i - 1) * BACKOFF_BASE
    {
      d := d * 2;
      i := i + 1;
    }
    if n >= 1 {
      DelayMonotoneBounded(i, n);
    }
    d := if d < BACKOFF_MAX then d else BACKOFF_MAX;
  }
}
