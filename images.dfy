/** Linear-light RGB images as sequences of real sample triples, and the
    element-wise operations the pipeline applies to them (NumPy's broadcast
    multiply, `np.maximum`, `np.clip` and a per-pixel 3x3 matrix product). */
module Images {

  /** One pixel: its red, green and blue samples. */
  datatype Pixel = Pixel(r: real, g: real, b: real)

  /** A height x width x 3 raster, flattened to its pixels; only the pixel
      count of the shape is kept. */
  type Image = seq<Pixel>

  /** A 3x3 matrix given by its rows. */
  datatype Matrix3 = Matrix3(row0: Pixel, row1: Pixel, row2: Pixel)

  function Max(x: real, y: real): real { if x >= y then x else y }

  function Min(x: real, y: real): real { if x <= y then x else y }

  /** Applies `f` to every pixel. */
  function MapImage(img: Image, f: Pixel -> Pixel): (r: Image)
    ensures |r| == |img|
    ensures forall i :: 0 <= i < |img| ==> r[i] == f(img[i])
  {
    seq(|img|, i requires 0 <= i < |img| => f(img[i]))
  }

  /** Multiplying every sample by one scalar gain. */
  function ScaleBy(gain: real): Pixel -> Pixel
  {
    (p: Pixel) => Pixel(p.r * gain, p.g * gain, p.b * gain)
  }

  /** `np.maximum(p, lo)` on one pixel. */
  function FloorAt(lo: real): Pixel -> Pixel
  {
    (p: Pixel) => Pixel(Max(p.r, lo), Max(p.g, lo), Max(p.b, lo))
  }

  /** `np.clip(p, lo, hi)`, that is `minimum(maximum(p, lo), hi)`, on one pixel. */
  function ClipTo(lo: real, hi: real): Pixel -> Pixel
  {
    (p: Pixel) => Pixel(Min(Max(p.r, lo), hi), Min(Max(p.g, lo), hi), Min(Max(p.b, lo), hi))
  }

  /** The matrix-vector product `m * p`. */
  function Times(m: Matrix3): Pixel -> Pixel
  {
    (p: Pixel) => Pixel(m.row0.r * p.r + m.row0.g * p.g + m.row0.b * p.b,
                        m.row1.r * p.r + m.row1.g * p.g + m.row1.b * p.b,
                        m.row2.r * p.r + m.row2.g * p.g + m.row2.b * p.b)
  }

  function Scale(img: Image, gain: real): Image { MapImage(img, ScaleBy(gain)) }

  function Floor(img: Image, lo: real): Image { MapImage(img, FloorAt(lo)) }

  function Clip(img: Image, lo: real, hi: real): Image { MapImage(img, ClipTo(lo, hi)) }

  function Transform(img: Image, m: Matrix3): Image { MapImage(img, Times(m)) }

  predicate PixelAtLeast(p: Pixel, lo: real)
  {
    p.r >= lo && p.g >= lo && p.b >= lo
  }

  predicate PixelWithin(p: Pixel, lo: real, hi: real)
  {
    lo <= p.r <= hi && lo <= p.g <= hi && lo <= p.b <= hi
  }

  /** Every sample of `img` is at least `lo`. */
  predicate SamplesAtLeast(img: Image, lo: real)
  {
    forall i :: 0 <= i < |img| ==> PixelAtLeast(img[i], lo)
  }

  /** Every sample of `img` lies in [lo, hi]. */
  predicate SamplesWithin(img: Image, lo: real, hi: real)
  {
    forall i :: 0 <= i < |img| ==> PixelWithin(img[i], lo, hi)
  }

  /** Scaling by 1.0 leaves every image unchanged. */
  lemma ScaleByOne(img: Image)
    ensures Scale(img, 1.0) == img
  {
    assert forall i :: 0 <= i < |img| ==> Scale(img, 1.0)[i] == img[i];
  }

  /** The floor bounds every sample from below, and leaves an image that is
      already above it unchanged. */
  lemma FloorBounds(img: Image, lo: real)
    ensures |Floor(img, lo)| == |img|
    ensures SamplesAtLeast(Floor(img, lo), lo)
    ensures SamplesAtLeast(img, lo) ==> Floor(img, lo) == img
  {
    if SamplesAtLeast(img, lo) {
      assert forall i :: 0 <= i < |img| ==> Floor(img, lo)[i] == img[i];
    }
  }

  /** The clip puts every sample in [lo, hi], and leaves an image already in
      that range unchanged. */
  lemma ClipBounds(img: Image, lo: real, hi: real)
    requires lo <= hi
    ensures |Clip(img, lo, hi)| == |img|
    ensures SamplesWithin(Clip(img, lo, hi), lo, hi)
    ensures SamplesWithin(img, lo, hi) ==> Clip(img, lo, hi) == img
  {
    if SamplesWithin(img, lo, hi) {
      assert forall i :: 0 <= i < |img| ==> Clip(img, lo, hi)[i] == img[i];
    }
  }

  /** A fresh buffer holding `img`. */
  method NewBuffer(img: Image) returns (buf: array<Pixel>)
    ensures fresh(buf)
    ensures buf[..] == img
  {
    buf := new Pixel[|img|](i requires 0 <= i < |img| => img[i]);
  }

  /** Applies `f` to every pixel of `buf` in place: the shape of NumPy's
      `out=` operations and of the in-place gain and matrix kernels. */
  method MapInPlace(buf: array<Pixel>, f: Pixel -> Pixel)
    modifies buf
    ensures buf[..] == MapImage(old(buf[..]), f)
  {
    for i := 0 to buf.Length
      invariant forall k :: 0 <= k < i ==> buf[k] == f(old(buf[k]))
      invariant forall k :: i <= k < buf.Length ==> buf[k] == old(buf[k])
    {
      buf[i] := f(buf[i]);
    }
  }
}
