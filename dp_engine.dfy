/**
 * The browser-side differential-privacy arithmetic (frontend/src/services/dpEngine.js):
 * the Laplace scale, the noise draw applied to a true value, the accuracy bound,
 * the budget check with its low-budget warning band, the per-kind sensitivity
 * estimate, and the audit hash of a certificate.
 *
 * Numbers are `real`. The uniform draw of `Math.random` is the parameter `u`
 * (already shifted by -0.5, as the source does) and `Math.log` is the
 * uninterpreted parameter `ln`, so what is proved is the arithmetic around them.
 */
module DpEngine {
  import opened Common

  /** The default `sensitivity` argument of the engine's functions. */
  const DefaultSensitivity: real := 1.0

  /** The default `confidence` argument of `calculateAccuracyBound`. */
  const DefaultConfidence: real := 0.95

  /** `calculateNoise`: the Laplace scale b = sensitivity / epsilon. */
  function CalculateNoise(epsilon: real, sensitivity: real): (scale: real)
    requires epsilon != 0.0
    ensures scale * epsilon == sensitivity
    ensures epsilon > 0.0 && sensitivity >= 0.0 ==> scale >= 0.0
  {
    sensitivity / epsilon
  }

  /** `Math.sign`. */
  function Sign(x: real): (s: real)
    ensures s == -1.0 || s == 0.0 || s == 1.0
    ensures s * x >= 0.0 && (s == 0.0 <==> x == 0.0)
  {
    if x > 0.0 then 1.0 else if x < 0.0 then -1.0 else 0.0
  }

  /** `Math.abs`. */
  function Abs(x: real): (a: real)
    ensures a >= 0.0 && (a == x || a == -x)
  {
    if x < 0.0 then -x else x
  }

  /** The inverse-CDF Laplace sample of the source: -b * sign(u) * ln(1 - 2|u|). */
  function LaplaceSample(scale: real, u: real, ln: real -> real): (x: real)
    ensures u == 0.0 ==> x == 0.0
  {
    -scale * Sign(u) * ln(1.0 - 2.0 * Abs(u))
  }

  /** The sample is linear in the scale, draw for draw. */
  lemma SampleIsLinearInScale(scale: real, k: real, u: real, ln: real -> real)
    ensures LaplaceSample(k * scale, u, ln) == k * LaplaceSample(scale, u, ln)
  {
    var l := Sign(u) * ln(1.0 - 2.0 * Abs(u));
    calc {
      LaplaceSample(k * scale, u, ln);
      -(k * scale) * l;
      k * (-scale * l);
    }
  }

  /**
   * `addLaplaceNoise(trueValue, epsilon, sensitivity)` with the draw
   * `u = Math.random() - 0.5`, which lies in [-0.5, 0.5).
   */
  function AddLaplaceNoise(trueValue: real, epsilon: real, sensitivity: real, u: real, ln: real -> real): (noisy: real)
    requires epsilon != 0.0
    requires -0.5 <= u < 0.5
    ensures noisy - trueValue == LaplaceSample(CalculateNoise(epsilon, sensitivity), u, ln)
  {
    trueValue + LaplaceSample(CalculateNoise(epsilon, sensitivity), u, ln)
  }

  /** A draw of exactly 0 leaves the true value untouched, whatever `ln` is. */
  lemma ZeroDrawIsExact(trueValue: real, epsilon: real, sensitivity: real, ln: real -> real)
    requires epsilon != 0.0
    ensures AddLaplaceNoise(trueValue, epsilon, sensitivity, 0.0, ln) == trueValue
  {
  }

  /** Mirrored draws give opposite noise: the sampler is symmetric around the true value. */
  lemma NoiseIsAntisymmetric(trueValue: real, epsilon: real, sensitivity: real, u: real, ln: real -> real)
    requires epsilon != 0.0
    requires -0.5 < u < 0.5
    ensures AddLaplaceNoise(trueValue, epsilon, sensitivity, -u, ln) - trueValue
         == -(AddLaplaceNoise(trueValue, epsilon, sensitivity, u, ln) - trueValue)
  {
    assert Abs(-u) == Abs(u);
    assert Sign(-u) == -Sign(u);
  }

  /** The noise grows linearly with the sensitivity, draw for draw. */
  lemma NoiseIsLinearInSensitivity(trueValue: real, epsilon: real, sensitivity: real, k: real, u: real, ln: real -> real)
    requires epsilon != 0.0
    requires -0.5 <= u < 0.5
    ensures AddLaplaceNoise(trueValue, epsilon, k * sensitivity, u, ln) - trueValue
         == k * (AddLaplaceNoise(trueValue, epsilon, sensitivity, u, ln) - trueValue)
  {
    assert CalculateNoise(epsilon, k * sensitivity) == k * CalculateNoise(epsilon, sensitivity);
    SampleIsLinearInScale(CalculateNoise(epsilon, sensitivity), k, u, ln);
  }

  /**
   * `calculateAccuracyBound(epsilon, sensitivity, confidence)`: the half-width
   * b * ln(2 / (1 - confidence)) of the interval around the true value.
   */
  function CalculateAccuracyBound(epsilon: real, sensitivity: real, confidence: real, ln: real -> real): (bound: real)
    requires epsilon != 0.0 && confidence != 1.0
  {
    var scale := sensitivity / epsilon;
    scale * ln(2.0 / (1.0 - confidence))
  }

  /** The bound is the Laplace scale times a factor that depends on the confidence only. */
  lemma AccuracyBoundIsScaleTimesFactor(epsilon: real, sensitivity: real, confidence: real, ln: real -> real)
    requires epsilon != 0.0 && confidence != 1.0
    ensures CalculateAccuracyBound(epsilon, sensitivity, confidence, ln)
         == CalculateNoise(epsilon, sensitivity) * ln(2.0 / (1.0 - confidence))
  {
  }

  /** The bound is linear in the sensitivity. */
  lemma AccuracyBoundLinearInSensitivity(epsilon: real, sensitivity: real, k: real, confidence: real, ln: real -> real)
    requires epsilon != 0.0 && confidence != 1.0
    ensures CalculateAccuracyBound(epsilon, k * sensitivity, confidence, ln)
         == k * CalculateAccuracyBound(epsilon, sensitivity, confidence, ln)
  {
    assert (k * sensitivity) / epsilon == k * (sensitivity / epsilon);
  }

  /** The bound is inversely proportional to epsilon: k times the epsilon, 1/k times the bound. */
  lemma AccuracyBoundInverseInEpsilon(epsilon: real, k: real, sensitivity: real, confidence: real, ln: real -> real)
    requires epsilon != 0.0 && k != 0.0 && confidence != 1.0
    ensures k * CalculateAccuracyBound(k * epsilon, sensitivity, confidence, ln)
         == CalculateAccuracyBound(epsilon, sensitivity, confidence, ln)
  {
    var f := ln(2.0 / (1.0 - confidence));
    assert k * (sensitivity / (k * epsilon)) == sensitivity / epsilon;
    calc {
      k * ((sensitivity / (k * epsilon)) * f);
      (k * (sensitivity / (k * epsilon))) * f;
      (sensitivity / epsilon) * f;
    }
  }

  /** With epsilon 0.5, sensitivity 1 and the default 95% confidence, the bound is 2 ln 40. */
  lemma AccuracyBoundAtDefaults(ln: real -> real)
    ensures CalculateAccuracyBound(0.5, DefaultSensitivity, DefaultConfidence, ln) == 2.0 * ln(40.0)
  {
    assert 2.0 / (1.0 - 0.95) == 40.0;
  }

  /** What `validateBudget` reports: the message texts carry the two numbers. */
  datatype BudgetValidation =
    | Insufficient(remaining: real, requested: real)
    | Sufficient(exhaustWarning: bool)

  /** The width of the band below which a sufficient budget draws a warning. */
  const WarningBand: real := 0.1

  /** `validateBudget(requestedEpsilon, remainingBudget)`. */
  function ValidateBudget(requested: real, remaining: real): (v: BudgetValidation)
    ensures v.Insufficient? <==> requested > remaining
    ensures v.Insufficient? ==> v.remaining == remaining && v.requested == requested
    ensures v.Sufficient? ==> (v.exhaustWarning <==> remaining - requested < WarningBand)
  {
    if requested > remaining then Insufficient(remaining, requested)
    else if remaining - requested < WarningBand then Sufficient(true)
    else Sufficient(false)
  }

  /** A warning is only ever attached to an admitted query whose leftover lies in [0, 0.1). */
  lemma WarningBandIsNarrow(requested: real, remaining: real)
    ensures ValidateBudget(requested, remaining) == Sufficient(true)
        <==> 0.0 <= remaining - requested < WarningBand
  {
  }

  /** The statistics `estimateSensitivity` reads: `dataStats.maxValue` and `dataStats.minCount`. */
  datatype DataStats = DataStats(maxValue: Option<real>, minCount: Option<real>)

  /** No statistics, the default `dataStats = {}`. */
  const NoStats: DataStats := DataStats(None, None)

  /** The fallback of `x || 100`: absent and zero values are falsy. */
  function OrHundred(x: Option<real>): (r: real)
    ensures r != 0.0
    ensures x.Some? && x.value != 0.0 ==> r == x.value
    ensures x.None? || x.value == 0.0 ==> r == 100.0
  {
    if x.Some? && x.value != 0.0 then x.value else 100.0
  }

  /** `estimateSensitivity(queryType, dataStats)`. */
  function EstimateSensitivity(queryType: string, stats: DataStats): (s: real)
    ensures queryType != "sum" && queryType != "average" ==> s == 1.0
    ensures queryType == "sum" ==> s == OrHundred(stats.maxValue)
    ensures queryType == "average" ==> s * OrHundred(stats.minCount) == OrHundred(stats.maxValue)
  {
    match queryType
    case "count" => 1.0
    case "sum" => OrHundred(stats.maxValue)
    case "average" => OrHundred(stats.maxValue) / OrHundred(stats.minCount)
    case "histogram" => 1.0
    case _ => 1.0
  }

  /** Without statistics: sum is 100, average is 100/100 = 1, everything else 1. */
  lemma SensitivityWithoutStats(queryType: string)
    ensures EstimateSensitivity(queryType, NoStats) == (if queryType == "sum" then 100.0 else 1.0)
  {
  }

  /** Positive declared bounds give a positive sensitivity for every kind. */
  lemma SensitivityIsPositive(queryType: string, stats: DataStats)
    requires stats.maxValue.Some? ==> stats.maxValue.value >= 0.0
    requires stats.minCount.Some? ==> stats.minCount.value >= 0.0
    ensures EstimateSensitivity(queryType, stats) > 0.0
  {
    var m, c := OrHundred(stats.maxValue), OrHundred(stats.minCount);
    assert m > 0.0 && c > 0.0;
    if queryType == "average" {
      assert m / c > 0.0;
    }
  }

  // ---------------------------------------------------------------------------
  // The verification hash of `generateVerificationHash`.

  const TwoTo31: int := 0x8000_0000
  const TwoTo32: int := 0x1_0000_0000

  /** JavaScript's ToInt32: the 32-bit two's-complement value congruent to `x`. */
  function ToInt32(x: int): (r: int)
    ensures -TwoTo31 <= r < TwoTo31
    ensures (x - r) % TwoTo32 == 0
  {
    (x + TwoTo31) % TwoTo32 - TwoTo31
  }

  /** Congruent integers have the same 32-bit value. */
  lemma {:induction false} ToInt32Congruent(x: int, y: int)
    requires (x - y) % TwoTo32 == 0
    ensures ToInt32(x) == ToInt32(y)
  {
    var k := (x - y) / TwoTo32;
    assert x == y + k * TwoTo32;
    assert (y + TwoTo31 + k * TwoTo32) % TwoTo32 == (y + TwoTo31) % TwoTo32;
  }

  /** The 32-bit string hash of Java's `String.hashCode`: h := int32(31 h + c), from the left. */
  function JavaHash(units: seq<int>): (h: int)
    ensures -TwoTo31 <= h < TwoTo31
  {
    if units == [] then 0
    else ToInt32(31 * JavaHash(units[..|units| - 1]) + units[|units| - 1])
  }

  /** One JavaScript step `hash = ((hash << 5) - hash) + c; hash = hash & hash` is one Java step. */
  lemma {:induction false} JsStepIsJavaStep(h: int, c: int)
    requires -TwoTo31 <= h < TwoTo31
    ensures ToInt32(ToInt32(h * 32) - h + c) == ToInt32(31 * h + c)
  {
    var s := ToInt32(h * 32);
    assert (h * 32 - s) % TwoTo32 == 0;
    assert (s - h + c) - (31 * h + c) == s - h * 32;
    assert (s - h * 32) % TwoTo32 == 0 by {
      var k := (h * 32 - s) / TwoTo32;
      assert h * 32 - s == k * TwoTo32;
      assert s - h * 32 == (-k) * TwoTo32;
    }
    ToInt32Congruent(s - h + c, 31 * h + c);
  }

  /** `Math.abs(hash)` of a 32-bit hash lies in [0, 2^31]. */
  function AbsInt(x: int): (a: nat)
    ensures a == x || a == -x
  {
    if x < 0 then -x else x
  }

  /** One upper-case base-36 digit. */
  function Base36Digit(d: nat): (c: char)
    requires d < 36
    ensures IsBase36Digit(c)
    ensures Base36Value(c) == d
  {
    if d < 10 then ('0' as int + d) as char else ('A' as int + d - 10) as char
  }

  /** The value of one upper-case base-36 digit. */
  function Base36Value(c: char): (d: nat)
    requires IsBase36Digit(c)
    ensures d < 36
  {
    if c <= '9' then c as int - '0' as int else c as int - 'A' as int + 10
  }

  predicate IsBase36Digit(c: char)
  {
    '0' <= c <= '9' || 'A' <= c <= 'Z'
  }

  /** `n.toString(36).toUpperCase()` for a natural number. */
  function ToBase36(n: nat): (s: string)
    ensures |s| >= 1
    ensures forall i :: 0 <= i < |s| ==> IsBase36Digit(s[i])
    ensures |s| > 1 ==> s[0] != '0'
  {
    if n < 36 then [Base36Digit(n)] else ToBase36(n / 36) + [Base36Digit(n % 36)]
  }

  /** Reading an upper-case base-36 numeral back. */
  function FromBase36(s: string): (n: nat)
    requires forall i :: 0 <= i < |s| ==> IsBase36Digit(s[i])
  {
    if s == [] then 0 else FromBase36(s[..|s| - 1]) * 36 + Base36Value(s[|s| - 1])
  }

  /** Rendering in base 36 loses nothing: the numeral reads back as the number. */
  lemma {:induction false} Base36RoundTrip(n: nat)
    ensures FromBase36(ToBase36(n)) == n
  {
    if n >= 36 {
      var s := ToBase36(n);
      Base36RoundTrip(n / 36);
      assert s[..|s| - 1] == ToBase36(n / 36);
    }
  }

  /**
   * `generateVerificationHash` over the UTF-16 code units of the certificate's
   * JSON text: the loop of the source, with `<<` and `&` on 32-bit values.
   */
  method GenerateVerificationHash(units: seq<int>) returns (digest: string)
    requires forall i :: 0 <= i < |units| ==> 0 <= units[i] < 0x1_0000
    ensures digest == ToBase36(AbsInt(JavaHash(units)))
    ensures FromBase36(digest) <= TwoTo31
  {
    var hash := 0;
    for i := 0 to |units|
      invariant hash == JavaHash(units[..i])
    {
      assert units[..i + 1][..i] == units[..i];
      JsStepIsJavaStep(hash, units[i]);
      var shifted := ToInt32(hash * 32);
      hash := shifted - hash + units[i];
      hash := ToInt32(hash);
    }
    assert units[..|units|] == units;
    digest := ToBase36(AbsInt(hash));
    Base36RoundTrip(AbsInt(hash));
  }

  /** The empty text hashes to "0". */
  lemma EmptyTextHash()
    ensures ToBase36(AbsInt(JavaHash([]))) == "0"
  {
  }
}
