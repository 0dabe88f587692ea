/**
 * How the job turns the engine's raw completion estimate of one pass into the single
 * 0..100 percentage reported to the caller: pass 1 fills 0..80, pass 2 fills 80..100.
 */
module ProgressScale {
  import opened Wrappers

  /**
   * A completion estimate the engine reports: elapsed over total duration times 100,
   * so never negative (it may exceed 100).
   */
  type EnginePercent = r: real | 0.0 <= r

  /** A missing estimate counts as 0. */
  function OrZero(p: Option<EnginePercent>): EnginePercent {
    if p.Some? then p.value else 0.0
  }

  function Min(a: int, b: int): int {
    if a <= b then a else b
  }

  /** Rounding to the nearest integer with halves going up, as JavaScript's Math.round does. */
  function Round(x: real): (r: int)
    ensures r as real - 0.5 <= x < r as real + 0.5
  {
    (x + 0.5).Floor
  }

  /** The job percent reported for a pass-1 estimate, whatever the number of passes. */
  function Pass1Percent(p: Option<EnginePercent>): (r: int)
    ensures 0 <= r <= 80
    ensures p.None? ==> r == 0
    ensures r == 80 <==> OrZero(p) >= 79.5
    ensures r < 80 ==> r as real - 0.5 <= OrZero(p) < r as real + 0.5
  {
    Min(80, Round(OrZero(p)))
  }

  /** The job percent reported for a pass-2 estimate: a fifth of it, on top of 80. */
  function Pass2Percent(p: Option<EnginePercent>): (r: int)
    ensures 80 <= r <= 100
    ensures p.None? ==> r == 80
    ensures r == 100 <==> OrZero(p) >= 97.5
    ensures r < 100 ==> (r - 80) as real - 0.5 <= OrZero(p) / 5.0 < (r - 80) as real + 0.5
  {
    80 + Min(20, Round(OrZero(p) * 0.2))
  }

  lemma RoundMonotone(x: real, y: real)
    requires x <= y
    ensures Round(x) <= Round(y)
  {
  }

  lemma Pass1Monotone(p: Option<EnginePercent>, q: Option<EnginePercent>)
    requires OrZero(p) <= OrZero(q)
    ensures Pass1Percent(p) <= Pass1Percent(q)
  {
    RoundMonotone(OrZero(p), OrZero(q));
  }

  lemma Pass2Monotone(p: Option<EnginePercent>, q: Option<EnginePercent>)
    requires OrZero(p) <= OrZero(q)
    ensures Pass2Percent(p) <= Pass2Percent(q)
  {
    RoundMonotone(OrZero(p) * 0.2, OrZero(q) * 0.2);
  }

  /** No pass-2 percent is below any pass-1 percent. */
  lemma PassesOrdered(p: Option<EnginePercent>, q: Option<EnginePercent>)
    ensures Pass1Percent(p) <= Pass2Percent(q)
  {
  }
}
