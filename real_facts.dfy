/** Small facts of real arithmetic that the verifier does not find reliably inside a larger proof. */
module RealFacts {

  /** The product of two positive reals is positive. */
  lemma ProductOfPositives(a: real, b: real)
    requires a > 0.0 && b > 0.0
    ensures a * b > 0.0
  {
  }
}
