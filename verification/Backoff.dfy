/** Capped doubling, as every retry loop of the system waits. */
module Backoff {
  function Pow2(i: nat): (p: nat)
    ensures p >= 1
  {
    if i == 0 then 1 else 2 * Pow2(i - 1)
  }

  function Min(a: nat, b: nat): nat {
    if a < b then a else b
  }

  /** Next wait of a loop that has just waited `w`. */
  function Doubled(w: nat, max: nat): nat {
    Min(2 * w, max)
  }

  /** Wait number `i` of a loop that starts at `first`. */
  function Wait(first: nat, max: nat, i: nat): nat {
    if i == 0 then first else Doubled(Wait(first, max, i - 1), max)
  }

  lemma PowDoubles(first: nat, i: nat)
    ensures first * Pow2(i + 1) == 2 * (first * Pow2(i))
  {
  }

  lemma DoubledAtLeast(first: nat, max: nat, i: nat, w: nat)
    requires w >= Min(first * Pow2(i), max)
    ensures Doubled(w, max) >= Min(first * Pow2(i + 1), max)
  {
    PowDoubles(first, i);
  }

  /** Every wait but the first is the first doubled as often, or the maximum. */
  lemma {:induction false} WaitIsCapped(first: nat, max: nat, i: nat)
    ensures Wait(first, max, i) == if i == 0 then first else Min(first * Pow2(i), max)
  {
    if i > 0 {
      WaitIsCapped(first, max, i - 1);
      PowDoubles(first, i - 1);
    }
  }

  /** Time taken by the first `n` waits. */
  function Waits(first: nat, max: nat, n: nat): nat {
    if n == 0 then 0 else Waits(first, max, n - 1) + Wait(first, max, n - 1)
  }

  function CappedSum(first: nat, max: nat, n: nat): nat {
    if n == 0 then 0 else CappedSum(first, max, n - 1) + Min(first * Pow2(n - 1), max)
  }

  lemma {:induction false} WaitsAtLeast(first: nat, max: nat, n: nat)
    ensures Waits(first, max, n) >= CappedSum(first, max, n)
  {
    if n > 0 {
      WaitsAtLeast(first, max, n - 1);
      WaitIsCapped(first, max, n - 1);
    }
  }
}
