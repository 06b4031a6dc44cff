/** The camera-match saturation and contrast boost: an element-wise formula
    on linear samples. Luminance uses the luma coefficients of ITU-R BT.709
    (item 3.2 of Recommendation BT.709); saturation pushes each channel away
    from that luminance, contrast pushes every sample away from the 0.18
    pivot, and the result is floored at 0. */
module Boost {
  import opened Images

  /** Neutral grey: the contrast pivot. */
  const Pivot: real := 0.18

  /** Default factors of `apply_saturation_and_contrast`; the pipeline passes the same values. */
  const DefaultSaturation: real := 1.25
  const DefaultContrast: real := 1.10

  /** BT.709 luminance of a linear pixel. */
  function Luminance(p: Pixel): real
  {
    0.2126 * p.r + 0.7152 * p.g + 0.0722 * p.b
  }

  /** One channel: saturation around `lum`, then contrast around the pivot. */
  function BoostSample(x: real, lum: real, saturation: real, contrast: real): real
  {
    var saturated := lum + (x - lum) * saturation;
    (saturated - Pivot) * contrast + Pivot
  }

  /** The boost of one pixel, before the floor at 0. */
  function BoostUnclamped(p: Pixel, saturation: real, contrast: real): Pixel
  {
    var lum := Luminance(p);
    Pixel(BoostSample(p.r, lum, saturation, contrast),
          BoostSample(p.g, lum, saturation, contrast),
          BoostSample(p.b, lum, saturation, contrast))
  }

  /** The boost of one pixel, floored at 0 as `np.maximum(..., 0.0)` does. */
  function BoostPixel(p: Pixel, saturation: real, contrast: real): Pixel
  {
    var q := BoostUnclamped(p, saturation, contrast);
    Pixel(Max(q.r, 0.0), Max(q.g, 0.0), Max(q.b, 0.0))
  }

  function BoostBy(saturation: real, contrast: real): Pixel -> Pixel
  {
    (p: Pixel) => BoostPixel(p, saturation, contrast)
  }

  /** `apply_saturation_and_contrast`: same shape, every sample non-negative. */
  function ApplySaturationAndContrast(img: Image, saturation: real, contrast: real): (r: Image)
    ensures |r| == |img|
    ensures SamplesAtLeast(r, 0.0)
  {
    MapImage(img, BoostBy(saturation, contrast))
  }

  /** With both factors 1 the boost is `max(x, 0)` on every sample. */
  lemma NeutralFactorsOnlyFloor(img: Image)
    ensures ApplySaturationAndContrast(img, 1.0, 1.0) == Floor(img, 0.0)
  {
    var r := ApplySaturationAndContrast(img, 1.0, 1.0);
    forall i | 0 <= i < |img|
      ensures r[i] == Floor(img, 0.0)[i]
    {
      var p := img[i];
      var lum := Luminance(p);
      assert BoostSample(p.r, lum, 1.0, 1.0) == p.r;
      assert BoostSample(p.g, lum, 1.0, 1.0) == p.g;
      assert BoostSample(p.b, lum, 1.0, 1.0) == p.b;
    }
  }

  /** With both factors 1 the boost is the identity on a non-negative image. */
  lemma NeutralFactorsIdentity(img: Image)
    requires SamplesAtLeast(img, 0.0)
    ensures ApplySaturationAndContrast(img, 1.0, 1.0) == img
  {
    NeutralFactorsOnlyFloor(img);
    FloorBounds(img, 0.0);
  }

  /** The pivot grey is a fixed point for every pair of factors, because the
      BT.709 weights sum to 1. */
  lemma PivotGreyFixed(saturation: real, contrast: real)
    ensures BoostPixel(Pixel(Pivot, Pivot, Pivot), saturation, contrast) == Pixel(Pivot, Pivot, Pivot)
  {
    var grey := Pixel(Pivot, Pivot, Pivot);
    assert Luminance(grey) == Pivot;
    assert BoostSample(Pivot, Pivot, saturation, contrast) == Pivot;
  }

  /** Saturation never tints a grey pixel: grey stays grey. */
  lemma GreyStaysGrey(v: real, saturation: real, contrast: real)
    ensures var q := BoostPixel(Pixel(v, v, v), saturation, contrast); q.r == q.g == q.b
  {
    assert Luminance(Pixel(v, v, v)) == v;
  }

  /** Saturation 0 turns every pixel grey (all three channels equal). */
  lemma ZeroSaturationIsMonochrome(p: Pixel, contrast: real)
    ensures var q := BoostPixel(p, 0.0, contrast); q.r == q.g == q.b
  {
  }
}
