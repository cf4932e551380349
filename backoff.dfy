/** The poll delay of the follow-request counter
    (app/hooks/useFollowRequests.ts): it starts at 15 s and after every poll
    becomes `Math.min(maxDelay, delay * 2)`, so it runs 15 s, 30 s, 60 s and
    then stays at the 2 min ceiling. */
module Backoff {

  const BaseDelay: int := 15000
  const MaxDelay: int := 120000

  predicate InRange(d: int) {
    BaseDelay <= d <= MaxDelay
  }

  function Min(a: int, b: int): int {
    if a <= b then a else b
  }

  /** `Math.min(maxDelay, delay * 2)` */
  function NextDelay(d: int): (r: int)
    ensures r <= MaxDelay
    ensures InRange(d) ==> InRange(r) && d <= r
    ensures d <= MaxDelay / 2 ==> r == 2 * d
  {
    Min(MaxDelay, d * 2)
  }

  /** The delay in force after `n` polls of a chain that started at the base. */
  function DelayAfter(n: nat): int {
    if n == 0 then BaseDelay else NextDelay(DelayAfter(n - 1))
  }

  function Pow2(n: nat): (p: nat)
    ensures p >= 1
  {
    if n == 0 then 1 else 2 * Pow2(n - 1)
  }

  /** The delay doubles from the base until it meets the ceiling. */
  lemma {:induction false} DelayAfterClosedForm(n: nat)
    ensures DelayAfter(n) == Min(MaxDelay, BaseDelay * Pow2(n))
  {
    if n > 0 {
      DelayAfterClosedForm(n - 1);
      assert BaseDelay * Pow2(n) == 2 * (BaseDelay * Pow2(n - 1));
    }
  }

  /** Every delay of the schedule lies between the base and the ceiling. */
  lemma {:induction false} DelayAfterInRange(n: nat)
    ensures InRange(DelayAfter(n))
  {
    if n > 0 {
      DelayAfterInRange(n - 1);
    }
  }

  /** The schedule never shrinks. */
  lemma {:induction false} DelayAfterMonotone(m: nat, n: nat)
    requires m <= n
    ensures DelayAfter(m) <= DelayAfter(n)
  {
    if m < n {
      DelayAfterMonotone(m, n - 1);
      DelayAfterInRange(n - 1);
    }
  }

  /** The concrete schedule: 15000, 30000, 60000, then 120000 for good. */
  lemma {:induction false} DelaySchedule(n: nat)
    ensures n == 0 ==> DelayAfter(n) == 15000
    ensures n == 1 ==> DelayAfter(n) == 30000
    ensures n == 2 ==> DelayAfter(n) == 60000
    ensures n >= 3 ==> DelayAfter(n) == 120000
  {
    if n >= 3 {
      DelaySchedule(n - 1);
    } else if n > 0 {
      DelaySchedule(n - 1);
    }
  }
}
