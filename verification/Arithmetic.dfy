/** Facts about integers that several modules need. */
module Arithmetic {
  function Least(a: int, b: int): int { if a < b then a else b }

  function Most(a: int, b: int): int { if a < b then b else a }

  lemma MulMonotone(x: nat, y: nat, d: nat)
    ensures x <= y ==> x * d <= y * d && d * x <= d * y
  {
  }

  const MAX_BACKOFF := 60_000

  function Doubled(d: nat, times: nat): (r: nat)
    ensures d <= r
  {
    if times == 0 then d else 2 * Doubled(d, times - 1)
  }

  /** d * 2^errors milliseconds, at most a minute. */
  function Backoff(d: nat, errors: nat): nat { Least(Doubled(d, errors), MAX_BACKOFF) }

  /** Every error in a row doubles the sleep, up to a minute. */
  lemma BackoffDoubles(d: nat, errors: nat)
    ensures Backoff(d, 1) == Least(2 * d, 60_000)
    ensures Backoff(d, errors + 1) == Least(2 * Backoff(d, errors), 60_000)
  {
    assert Doubled(d, 1) == 2 * Doubled(d, 0);
  }
}
