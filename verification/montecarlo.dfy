/**
 * The interval arithmetic at the end of `runMonteCarlo`: from the hit count
 * of a simulation to the estimate and its 95% interval. The sampling itself
 * is random and is not modelled; the margin `z * sqrt(pc * (1 - pc) / samples)`
 * is an input, characterised by its square where that matters.
 */
module MonteCarlo {

  /** The 95% normal quantile the source uses. */
  const Z: real := 1.96

  datatype Estimate = Estimate(pc: real, samples: nat, ciLower: real, ciUpper: real)

  function Max(a: real, b: real): real {
    if a < b then b else a
  }

  /** `m` is `z * sqrt(pc * (1 - pc) / samples)`: non-negative, with the right square. */
  predicate IsMargin(m: real, pc: real, samples: nat)
    requires samples > 0
  {
    m >= 0.0 && m * m == Z * Z * pc * (1.0 - pc) / samples as real
  }

  /** The hit ratio is a probability, so the quantity under the square root is never negative. */
  lemma VarianceNonNegative(hits: nat, samples: nat)
    requires 0 < samples && hits <= samples
    ensures var pc := hits as real / samples as real;
            0.0 <= pc <= 1.0 && 0.0 <= pc * (1.0 - pc) / samples as real
  {
    var pc := hits as real / samples as real;
    assert pc * samples as real == hits as real <= samples as real;
    assert pc <= 1.0;
    assert 0.0 <= pc * (1.0 - pc);
  }

  /**
   * `pc = hits / samples`, `ciLower = max(0, pc - margin)`, `ciUpper = pc + margin`:
   * the interval contains the estimate, its lower end is clamped at zero and
   * its upper end is not clamped.
   */
  function ConfidenceInterval(hits: nat, samples: nat, margin: real): (r: Estimate)
    requires 0 < samples && hits <= samples
    requires margin >= 0.0
    ensures r.pc * samples as real == hits as real && r.samples == samples
    ensures 0.0 <= r.pc <= 1.0
    ensures 0.0 <= r.ciLower <= r.pc <= r.ciUpper
    ensures r.ciUpper - r.pc == margin
    ensures r.ciLower == 0.0 || r.pc - r.ciLower == margin
    ensures r.ciLower == 0.0 ==> r.pc <= margin
  {
    VarianceNonNegative(hits, samples);
    var pc := hits as real / samples as real;
    Estimate(pc, samples, Max(0.0, pc - margin), pc + margin)
  }

  lemma SmallSquare(m: real)
    requires 0.0 <= m <= 0.01
    ensures m * m <= 0.0001
  {
    assert m * m <= 0.01 * m;
  }

  /** The upper end can leave [0, 1]: 99 hits in 100 samples give an upper end above 1. */
  lemma UpperEndCanExceedOne(margin: real)
    requires IsMargin(margin, 0.99, 100)
    ensures ConfidenceInterval(99, 100, margin).ciUpper > 1.0
  {
    if margin <= 0.01 {
      SmallSquare(margin);
      assert false;
    }
  }
}
