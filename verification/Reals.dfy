/** Signs of products, which the verifier needs named to find. */
module Reals {

  lemma ProductSign(x: real, y: real)
    requires x >= 0.0 && y >= 0.0
    ensures x * y >= 0.0
  {
  }

  lemma Positive(x: real, y: real)
    requires x > 0.0 && y > 0.0
    ensures x * y > 0.0
  {
  }

  lemma Cancels(x: real, y: real)
    requires y != 0.0
    ensures y * (x / y) == x
  {
  }
}
