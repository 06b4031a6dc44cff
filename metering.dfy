/** The four automatic-exposure policies of the metering engine. Each one
    reduces the image to a statistic, turns that statistic into a gain
    through a guard and a clamp, and multiplies every sample by that single
    gain. The statistics themselves (the geometric mean of luminance, its
    Gaussian-weighted mean, a percentile of the per-pixel channel maximum)
    are floating-point reductions over the image and are parameters here. */
module Metering {
  import opened Images

  /** `np.clip` of a scalar gain. */
  function ClipGain(x: real, lo: real, hi: real): (r: real)
    requires lo <= hi
    ensures lo <= r <= hi
    ensures lo <= x <= hi ==> r == x
    ensures x < lo ==> r == lo
    ensures x > hi ==> r == hi
  {
    Min(Max(x, lo), hi)
  }

  /** `r` is `img` with every sample multiplied by one gain lying in [lo, hi]. */
  ghost predicate UniformGain(img: Image, r: Image, lo: real, hi: real)
  {
    exists g :: lo <= g <= hi && r == Scale(img, g)
  }

  // ---------------------------------------------------------------- average

  /** Below this geometric-mean luminance the image counts as black. */
  const AverageDarkLimit: real := 0.0001

  /** The gain of the average (geometric-mean) policy: the gain that brings the
      geometric-mean luminance `avgLum` to `targetGray`, clamped to [1, 50]
      (a very dark but not black frame gets the full 50); a black image gets
      gain 1. */
  function AverageGain(avgLum: real, targetGray: real): (g: real)
    ensures 1.0 <= g <= 50.0
    ensures avgLum < AverageDarkLimit ==> g == 1.0
    ensures avgLum >= AverageDarkLimit && 1.0 <= targetGray / avgLum <= 50.0 ==> g * avgLum == targetGray
    ensures avgLum >= AverageDarkLimit && targetGray / avgLum < 1.0 ==> g == 1.0
    ensures avgLum >= AverageDarkLimit && targetGray / avgLum > 50.0 ==> g == 50.0
  {
    var gain := if avgLum < AverageDarkLimit then 1.0 else targetGray / avgLum;
    ClipGain(gain, 1.0, 50.0)
  }

  /** Above the black limit, a brighter image never gets a larger gain. */
  lemma AverageGainAntitone(a1: real, a2: real, targetGray: real)
    requires AverageDarkLimit <= a1 <= a2
    requires targetGray >= 0.0
    ensures AverageGain(a2, targetGray) <= AverageGain(a1, targetGray)
  {
    var q1, q2 := targetGray / a1, targetGray / a2;
    assert q1 * a1 == targetGray && q2 * a2 == targetGray;
    assert q2 * a1 <= q2 * a2;
    assert q2 <= q1;
  }

  /** `auto_expose_linear`: the average policy applied to the image. */
  function AutoExposeLinear(img: Image, avgLum: real, targetGray: real): (r: Image)
    ensures UniformGain(img, r, 1.0, 50.0)
    ensures avgLum < AverageDarkLimit ==> r == img
  {
    ScaleByOne(img);
    Scale(img, AverageGain(avgLum, targetGray))
  }

  // -------------------------------------------------------- center-weighted

  /** The 1e-6 guard of the center-weighted and highlight-safe policies. */
  const Epsilon: real := 0.000001

  /** The gain of the center-weighted policy: the gain that brings the
      Gaussian-weighted mean luminance to `targetGray`, clamped to [0.1, 100];
      a black image gets gain 1. */
  function CenterWeightedGain(weightedLum: real, targetGray: real): (g: real)
    ensures 0.1 <= g <= 100.0
    ensures weightedLum < Epsilon ==> g == 1.0
    ensures weightedLum >= Epsilon && 0.1 <= targetGray / weightedLum <= 100.0 ==> g * weightedLum == targetGray
    ensures weightedLum >= Epsilon && targetGray / weightedLum < 0.1 ==> g == 0.1
    ensures weightedLum >= Epsilon && targetGray / weightedLum > 100.0 ==> g == 100.0
  {
    var gain := if weightedLum < Epsilon then 1.0 else targetGray / weightedLum;
    ClipGain(gain, 0.1, 100.0)
  }

  /** `auto_expose_center_weighted`: the center-weighted policy applied to the image. */
  function AutoExposeCenterWeighted(img: Image, weightedLum: real, targetGray: real): (r: Image)
    ensures UniformGain(img, r, 0.1, 100.0)
    ensures weightedLum < Epsilon ==> r == img
  {
    ScaleByOne(img);
    Scale(img, CenterWeightedGain(weightedLum, targetGray))
  }

  // --------------------------------------------------------- highlight-safe

  /** Where the 99.5th percentile of the channel maximum is placed. */
  const HighlightTarget: real := 0.9

  /** The gain of the highlight-safe policy: the gain that puts the 99.5th
      percentile `p995` of the per-pixel channel maximum at 0.9, with no clamp;
      a percentile below 1e-6 gives gain 1. */
  function HighlightSafeGain(p995: real): (g: real)
    ensures 0.0 < g <= 900000.0
    ensures p995 < Epsilon ==> g == 1.0
    ensures p995 >= Epsilon ==> g * p995 == HighlightTarget
  {
    if p995 < Epsilon then 1.0
    else
      var g := HighlightTarget / p995;
      assert g * p995 == HighlightTarget;
      g
  }

  /** `auto_expose_highlight_safe`: the highlight-safe policy applied to the image. */
  function AutoExposeHighlightSafe(img: Image, p995: real): (r: Image)
    ensures exists g :: 0.0 < g <= 900000.0 && r == Scale(img, g)
    ensures p995 < Epsilon ==> r == img
  {
    ScaleByOne(img);
    Scale(img, HighlightSafeGain(p995))
  }

  // ----------------------------------------------------------------- hybrid

  /** The highest post-gain value the hybrid policy lets the 99th percentile reach. */
  const MaxAllowedPeak: real := 6.0

  /** The geometric-mean gain of the hybrid policy, with 1e-6 added to the
      mean instead of a black-image guard. */
  function HybridBaseGain(avgLum: real, targetGray: real): (g: real)
    requires avgLum >= 0.0
    ensures g * (avgLum + 0.000001) == targetGray
  {
    targetGray / (avgLum + 0.000001)
  }

  /** Highlight protection: the base gain unless it would lift the 99th
      percentile `p99` above 6, in which case the gain that puts `p99`
      exactly at 6. The predicted peak `p99 * g` never exceeds 6, and the
      override never divides by zero. */
  function HybridLimitedGain(baseGain: real, p99: real): (g: real)
    ensures p99 * baseGain > MaxAllowedPeak ==> p99 != 0.0 && g * p99 == MaxAllowedPeak
    ensures p99 * baseGain <= MaxAllowedPeak ==> g == baseGain
    ensures g * p99 <= MaxAllowedPeak
  {
    if p99 * baseGain > MaxAllowedPeak then MaxAllowedPeak / p99 else baseGain
  }

  /** The final gain of the hybrid policy: the protected gain, clamped to [0.1, 100]. */
  function HybridGain(avgLum: real, p99: real, targetGray: real): (g: real)
    requires avgLum >= 0.0
    ensures 0.1 <= g <= 100.0
    ensures var limited := HybridLimitedGain(HybridBaseGain(avgLum, targetGray), p99);
            (0.1 <= limited <= 100.0 ==> g == limited) &&
            (limited < 0.1 ==> g == 0.1) && (limited > 100.0 ==> g == 100.0)
  {
    ClipGain(HybridLimitedGain(HybridBaseGain(avgLum, targetGray), p99), 0.1, 100.0)
  }

  /** With a positive target the override branch is only taken for a
      positive percentile. */
  lemma HybridOverrideHasPositivePercentile(avgLum: real, p99: real, targetGray: real)
    requires avgLum >= 0.0 && targetGray > 0.0
    requires p99 * HybridBaseGain(avgLum, targetGray) > MaxAllowedPeak
    ensures p99 > 0.0
  {
    var base := HybridBaseGain(avgLum, targetGray);
    assert base * (avgLum + 0.000001) == targetGray;
    assert base > 0.0;
  }

  /** After the final clamp the 99th percentile still ends at most at 6,
      as long as the lower clamp 0.1 does not itself push it higher (p99 <= 60). */
  lemma HybridProtectsHighlights(avgLum: real, p99: real, targetGray: real)
    requires avgLum >= 0.0
    requires 0.0 < p99 <= 60.0
    ensures p99 * HybridGain(avgLum, p99, targetGray) <= MaxAllowedPeak
  {
    var limited := HybridLimitedGain(HybridBaseGain(avgLum, targetGray), p99);
    var g := HybridGain(avgLum, p99, targetGray);
    assert limited * p99 <= MaxAllowedPeak;
    if limited < 0.1 {
      assert g == 0.1;
      assert p99 * g <= 60.0 * 0.1;
    } else if limited > 100.0 {
      assert g == 100.0;
      assert p99 * g < p99 * limited;
    } else {
      assert g == limited;
    }
  }

  /** `auto_expose_hybrid`: the hybrid policy applied to the image. */
  function AutoExposeHybrid(img: Image, avgLum: real, p99: real, targetGray: real): (r: Image)
    requires avgLum >= 0.0
    ensures UniformGain(img, r, 0.1, 100.0)
  {
    Scale(img, HybridGain(avgLum, p99, targetGray))
  }
}
