/** The remapping of the API's 0-100 progress into the task's 20-90 window
    (index.ts line 145). */
module Progress {

  /** Reported percentage for API progress `p`: 20 plus the floor of 70% of `p`.
      Dafny's `/` by a positive divisor rounds down, like `Math.floor`. */
  function MapProgress(p: int): (pct: int)
    // pct - 20 is the floor of p * 70 / 100
    ensures 100 * (pct - 20) <= 70 * p < 100 * (pct - 20) + 100
    ensures 0 <= p <= 100 ==> 20 <= pct <= 90
  {
    20 + (p * 70) / 100
  }

  /** A larger API progress never yields a smaller report. */
  lemma MapProgressMonotone(p: int, q: int)
    requires p <= q
    ensures MapProgress(p) <= MapProgress(q)
  {
  }

  /** The window is fully used: 0 maps to 20, 50 to 55 and 100 to 90. */
  lemma MapProgressExamples()
    ensures MapProgress(0) == 20
    ensures MapProgress(50) == 55
    ensures MapProgress(100) == 90
  {
  }
}
