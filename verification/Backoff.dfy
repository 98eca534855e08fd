/** Arithmetic that the two backoffs share: the relisten loop's and the poller's. */
module Backoff {
  function Min(a: int, b: int): int { if a < b then a else b }

  function Pow2(n: nat): nat { if n == 0 then 1 else 2 * Pow2(n - 1) }
}
