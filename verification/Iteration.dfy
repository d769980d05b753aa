/** Repeating a step. */
module Iteration {

  function Iterate<S>(step: (S, nat) -> S, s: S, n: nat): S {
    if n == 0 then s else step(Iterate(step, s, n - 1), n - 1)
  }

  /** What every step before `end` keeps holds after `n` of them. */
  lemma {:induction false} IterateKeeps<S(!new)>(step: (S, nat) -> S, good: (S, nat) -> bool, s: S, n: nat, end: nat)
    requires n <= end && good(s, 0)
    requires forall x: S, k: nat :: k < end && good(x, k) ==> good(step(x, k), k + 1)
    ensures good(Iterate(step, s, n), n)
  {
    if n > 0 {
      IterateKeeps(step, good, s, n - 1, end);
    }
  }
}
