/** Facts about integer arithmetic that the models share. */
module Arith {

  /** Multiplying both sides by a natural keeps their order. */
  lemma MulMonotone(x: int, y: int, k: nat)
    requires x <= y
    ensures x * k <= y * k
  {
  }
}
