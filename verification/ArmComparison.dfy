/**
 The metric gate between the two arms of a canary: cross-multiplied integer
 comparisons that stand for exact comparisons of rates and means.
 */
module ArmComparison {
  import opened Common

  datatype ArmMetrics = ArmMetrics(
    samples: nat,
    successes: nat,
    latencySum: nat,
    tokenSum: nat,
    missingMetrics: bool,
    safetyViolations: nat)

  datatype MetricGate = Pass | QualityRegression | ResourceRegression | Missing | SafetyViolation

  function RegressesOverTenPercent(candidateSum: nat, candidateSamples: nat, controlSum: nat,
                                   controlSamples: nat): bool {
    10 * candidateSum * controlSamples > 11 * controlSum * candidateSamples
  }

  function CompareArms(candidate: ArmMetrics, control: ArmMetrics): MetricGate {
    if candidate.safetyViolations != 0 then SafetyViolation
    else if candidate.missingMetrics || control.missingMetrics then Missing
    else if candidate.samples == 0 || control.samples == 0 then QualityRegression
    else if 10 * candidate.successes * control.samples
            < 10 * control.successes * candidate.samples + candidate.samples * control.samples then QualityRegression
    else if || RegressesOverTenPercent(candidate.latencySum, candidate.samples, control.latencySum, control.samples)
            || RegressesOverTenPercent(candidate.tokenSum, candidate.samples, control.tokenSum, control.samples)
    then ResourceRegression
    else Pass
  }

  /** The exact rational `sum / count`. */
  ghost function Ratio(sum: nat, count: nat): real
    requires count > 0
  {
    sum as real / count as real
  }

  /** What promotion promises, as exact comparisons of rationals. */
  ghost predicate ClearlyBetter(candidate: ArmMetrics, control: ArmMetrics) {
    && candidate.samples > 0 && control.samples > 0
    && Ratio(candidate.successes, candidate.samples) >= Ratio(control.successes, control.samples) + 0.1
    && Ratio(candidate.latencySum, candidate.samples) <= 1.1 * Ratio(control.latencySum, control.samples)
    && Ratio(candidate.tokenSum, candidate.samples) <= 1.1 * Ratio(control.tokenSum, control.samples)
  }

  lemma RatioTimesCount(sum: nat, count: nat)
    requires count > 0
    ensures Ratio(sum, count) * count as real == sum as real
  {
  }

  lemma RealProduct(a: nat, b: nat)
    ensures a as real * b as real == (a * b) as real
  {
  }

  /** Clearing positive denominators preserves and reflects `<=` between reals. */
  lemma ScaleOrder(x: real, y: real, k: real)
    requires k > 0.0
    ensures x <= y <==> x * k <= y * k
  {
  }

  /** The resource gate is the comparison of means with factor 11/10. */
  lemma RegressionIsExact(candidateSum: nat, candidateSamples: nat, controlSum: nat, controlSamples: nat)
    requires candidateSamples > 0 && controlSamples > 0
    ensures RegressesOverTenPercent(candidateSum, candidateSamples, controlSum, controlSamples)
       <==> Ratio(candidateSum, candidateSamples) > 1.1 * Ratio(controlSum, controlSamples)
  {
    var x, y := Ratio(candidateSum, candidateSamples), Ratio(controlSum, controlSamples);
    var n, m := candidateSamples as real, controlSamples as real;
    RatioTimesCount(candidateSum, candidateSamples);
    RatioTimesCount(controlSum, controlSamples);
    ScaleOrder(x, 1.1 * y, 10.0 * n * m);
    assert x * (10.0 * n * m) == 10.0 * (x * n) * m;
    assert 1.1 * y * (10.0 * n * m) == 11.0 * (y * m) * n;
    RealProduct(candidateSum, controlSamples);
    RealProduct(controlSum, candidateSamples);
    assert 10 * candidateSum * controlSamples == 10 * (candidateSum * controlSamples);
    assert 11 * controlSum * candidateSamples == 11 * (controlSum * candidateSamples);
  }

  /** The quality gate is the comparison of success rates with a margin of 1/10. */
  lemma QualityIsExact(candidateSuccesses: nat, candidateSamples: nat, controlSuccesses: nat, controlSamples: nat)
    requires candidateSamples > 0 && controlSamples > 0
    ensures 10 * candidateSuccesses * controlSamples
              >= 10 * controlSuccesses * candidateSamples + candidateSamples * controlSamples
       <==> Ratio(candidateSuccesses, candidateSamples) >= Ratio(controlSuccesses, controlSamples) + 0.1
  {
    var x, y := Ratio(candidateSuccesses, candidateSamples), Ratio(controlSuccesses, controlSamples);
    var n, m := candidateSamples as real, controlSamples as real;
    RatioTimesCount(candidateSuccesses, candidateSamples);
    RatioTimesCount(controlSuccesses, controlSamples);
    ScaleOrder(y + 0.1, x, 10.0 * n * m);
    assert x * (10.0 * n * m) == 10.0 * (x * n) * m;
    assert (y + 0.1) * (10.0 * n * m) == 10.0 * (y * m) * n + n * m;
    RealProduct(candidateSuccesses, controlSamples);
    RealProduct(controlSuccesses, candidateSamples);
    RealProduct(candidateSamples, controlSamples);
    assert 10 * candidateSuccesses * controlSamples == 10 * (candidateSuccesses * controlSamples);
    assert 10 * controlSuccesses * candidateSamples == 10 * (controlSuccesses * candidateSamples);
  }

  /** The gate passes exactly for a safe, fully measured candidate that is clearly better. */
  lemma PassIsExact(candidate: ArmMetrics, control: ArmMetrics)
    ensures CompareArms(candidate, control) == Pass
       <==> && candidate.safetyViolations == 0
            && !candidate.missingMetrics && !control.missingMetrics
            && ClearlyBetter(candidate, control)
  {
    if candidate.samples > 0 && control.samples > 0 {
      QualityIsExact(candidate.successes, candidate.samples, control.successes, control.samples);
      RegressionIsExact(candidate.latencySum, candidate.samples, control.latencySum, control.samples);
      RegressionIsExact(candidate.tokenSum, candidate.samples, control.tokenSum, control.samples);
    }
  }

  const U128_MAX: int := 0xffff_ffff_ffff_ffff_ffff_ffff_ffff_ffff
  /** An arm larger than this many samples is outside the overflow argument. */
  const ARM_BOUND: nat := 0x4000_0000

  /** Every metric of one observation fits a signed 64-bit integer. */
  ghost predicate Measurable(arm: ArmMetrics) {
    && arm.samples <= ARM_BOUND
    && arm.successes <= arm.samples
    && arm.latencySum <= I64_MAX * arm.samples
    && arm.tokenSum <= I64_MAX * arm.samples
  }

  lemma ProductAtMost(a: nat, b: nat, x: nat, y: nat)
    requires a <= x && b <= y
    ensures a * b <= x * y
  {
    assert a * b <= x * b;
    assert x * b <= x * y;
  }

  lemma ResourceProductFits(sum: nat, own: nat, other: nat)
    requires own <= ARM_BOUND && other <= ARM_BOUND && sum <= I64_MAX * own
    ensures 11 * sum * other <= U128_MAX
  {
    ProductAtMost(I64_MAX, own, I64_MAX, ARM_BOUND);
    ProductAtMost(11 * sum, other, 11 * (I64_MAX * ARM_BOUND), ARM_BOUND);
  }

  /** No product or sum formed by the gate leaves the unsigned 128-bit range. */
  lemma GateNeverOverflows(candidate: ArmMetrics, control: ArmMetrics)
    requires Measurable(candidate) && Measurable(control)
    ensures 10 * candidate.successes * control.samples <= U128_MAX
    ensures 10 * control.successes * candidate.samples + candidate.samples * control.samples <= U128_MAX
    ensures 10 * candidate.latencySum * control.samples <= U128_MAX
    ensures 11 * control.latencySum * candidate.samples <= U128_MAX
    ensures 10 * candidate.tokenSum * control.samples <= U128_MAX
    ensures 11 * control.tokenSum * candidate.samples <= U128_MAX
  {
    ProductAtMost(10 * candidate.successes, control.samples, 10 * ARM_BOUND, ARM_BOUND);
    ProductAtMost(10 * control.successes, candidate.samples, 10 * ARM_BOUND, ARM_BOUND);
    ProductAtMost(candidate.samples, control.samples, ARM_BOUND, ARM_BOUND);
    ResourceProductFits(candidate.latencySum, candidate.samples, control.samples);
    ResourceProductFits(control.latencySum, control.samples, candidate.samples);
    ResourceProductFits(candidate.tokenSum, candidate.samples, control.samples);
    ResourceProductFits(control.tokenSum, control.samples, candidate.samples);
    ProductAtMost(10 * candidate.latencySum, control.samples, 11 * candidate.latencySum, control.samples);
    ProductAtMost(10 * candidate.tokenSum, control.samples, 11 * candidate.tokenSum, control.samples);
  }
}
