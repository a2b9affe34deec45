/** Picture geometry of the size-budget engine
    (utils/compressor_engine_spire.py): the never-upscale fit into the maximum
    box and the per-axis downscale step with its floor at the minimum size. */
module SpireGeometry {
  import opened Common

  /** The bound-to-size ratio of one axis is below 1 exactly when the axis
      exceeds its bound, and the axis scaled by it lands on the bound. */
  lemma AxisRatio(m: int, d: int)
    requires d >= 1
    ensures m as real / d as real < 1.0 <==> m < d
    ensures d as real * (m as real / d as real) == m as real
  {
    var q := m as real / d as real;
    assert q * d as real == m as real;
    if q < 1.0 {
      assert q * d as real < 1.0 * d as real;
    } else {
      assert q * d as real >= 1.0 * d as real;
    }
  }

  /** The uniform ratio of the resize: the smaller bound ratio, capped at 1. */
  function FitRatio(img: Image, maxW: int, maxH: int): (ratio: real)
    requires img.Decoded() && maxW > 0 && maxH > 0
    ensures 0.0 < ratio <= 1.0
    ensures ratio <= maxW as real / img.width as real && ratio <= maxH as real / img.height as real
    ensures ratio < 1.0 <==> img.width > maxW || img.height > maxH
    ensures ratio < 1.0 ==> ratio == maxW as real / img.width as real || ratio == maxH as real / img.height as real
  {
    AxisRatio(maxW, img.width);
    AxisRatio(maxH, img.height);
    MinReal(MinReal(maxW as real / img.width as real, maxH as real / img.height as real), 1.0)
  }

  /** One axis scaled by a ratio below 1, truncated, and floored at 1 pixel. */
  function ScaleAxis(d: int, ratio: real): (r: int)
    requires d >= 1 && 0.0 < ratio < 1.0
    ensures 1 <= r <= d
  {
    ShrinkTrunc(d, ratio);
    Max(Trunc(d as real * ratio), 1)
  }

  /** A positive size times a ratio strictly between 0 and 1, truncated,
      lies in [0, size). */
  lemma ShrinkTrunc(d: int, ratio: real)
    requires d >= 1 && 0.0 < ratio < 1.0
    ensures 0 <= Trunc(d as real * ratio) < d
  {
    var x := d as real;
    assert x * ratio > 0.0;
    assert x * (1.0 - ratio) > 0.0;
    assert x * ratio == x - x * (1.0 - ratio);
    assert x * ratio < d as real;
    TruncBelow(x * ratio, d);
  }

  /** An axis scaled by at most its bound ratio stays within a positive bound;
      scaled by exactly that ratio it lands on the bound. */
  lemma ScaleAxisWithin(d: int, m: int, ratio: real)
    requires d >= 1 && m >= 1 && 0.0 < ratio < 1.0
    requires ratio <= m as real / d as real
    ensures ScaleAxis(d, ratio) <= m
    ensures ratio == m as real / d as real ==> ScaleAxis(d, ratio) == m
  {
    AxisRatio(m, d);
    assert d as real * ratio <= d as real * (m as real / d as real);
  }

  /** The never-upscale uniform scale into a bounding box: a bound that is not
      positive, or a picture that already fits, leaves it unchanged; otherwise
      both axes scale by the smaller of the two bound ratios, truncated and
      floored at 1 pixel. */
  function ResizeToFit(img: Image, maxDimensions: (int, int)): (r: Image)
    requires img.Decoded()
    ensures r.Decoded() && r.mode == img.mode && r.transparency == img.transparency
    ensures r.width <= img.width && r.height <= img.height
    ensures maxDimensions.0 <= 0 || maxDimensions.1 <= 0 ==> r == img
    ensures img.width <= maxDimensions.0 && img.height <= maxDimensions.1 ==> r == img
    ensures maxDimensions.0 > 0 && maxDimensions.1 > 0 ==>
              r.width <= maxDimensions.0 && r.height <= maxDimensions.1
  {
    var (maxW, maxH) := maxDimensions;
    if maxW <= 0 || maxH <= 0 then img
    else
      var ratio := FitRatio(img, maxW, maxH);
      if ratio >= 1.0 then img
      else
        ScaleAxisWithin(img.width, maxW, ratio);
        ScaleAxisWithin(img.height, maxH, ratio);
        img.(width := ScaleAxis(img.width, ratio), height := ScaleAxis(img.height, ratio))
  }

  /** An axis r is the old axis d scaled by ratio: within 1 pixel below the
      exact multiple d * ratio, or 1 pixel when that multiple is below 1. */
  ghost predicate ScaledNear(d: int, ratio: real, r: int)
  {
    d as real * ratio - 1.0 < r as real <= MaxReal(d as real * ratio, 1.0)
  }

  /** Both axes scale by the one ratio min(maxW / w, maxH / h, 1): each new
      axis is that multiple of the old one, truncated, or 1 pixel when the
      multiple is below 1. */
  lemma ResizeToFitUniform(img: Image, maxDimensions: (int, int))
    requires img.Decoded() && maxDimensions.0 > 0 && maxDimensions.1 > 0
    ensures var ratio := FitRatio(img, maxDimensions.0, maxDimensions.1);
      var r := ResizeToFit(img, maxDimensions);
      ScaledNear(img.width, ratio, r.width) && ScaledNear(img.height, ratio, r.height)
  {
    var ratio := FitRatio(img, maxDimensions.0, maxDimensions.1);
    var r := ResizeToFit(img, maxDimensions);
    if ratio < 1.0 {
      assert r.width == ScaleAxis(img.width, ratio) && r.height == ScaleAxis(img.height, ratio);
      ScaledAxisBracket(img.width, ratio);
      ScaledAxisBracket(img.height, ratio);
    } else {
      assert r == img && ratio == 1.0;
      UnitRatioBracket(img.width);
      UnitRatioBracket(img.height);
    }
  }

  /** At ratio 1 an axis is its own exact multiple. */
  lemma UnitRatioBracket(d: int)
    requires d >= 1
    ensures ScaledNear(d, 1.0, d)
  {
  }

  /** An axis scaled by a ratio below 1 lies within 1 pixel below the exact
      multiple, or is 1 pixel when the multiple is below 1. */
  lemma ScaledAxisBracket(d: int, ratio: real)
    requires d >= 1 && 0.0 < ratio < 1.0
    ensures ScaledNear(d, ratio, ScaleAxis(d, ratio))
  {
    var x := d as real * ratio;
    assert x > 0.0;
    assert Trunc(x) == x.Floor;
  }

  /** When the picture does not fit, the axis whose bound is the tighter one
      lands exactly on that bound. */
  lemma ResizeToFitTouchesBox(img: Image, maxDimensions: (int, int))
    requires img.Decoded() && maxDimensions.0 > 0 && maxDimensions.1 > 0
    requires img.width > maxDimensions.0 || img.height > maxDimensions.1
    ensures ResizeToFit(img, maxDimensions).width == maxDimensions.0 ||
            ResizeToFit(img, maxDimensions).height == maxDimensions.1
  {
    var (maxW, maxH) := maxDimensions;
    var ratio := FitRatio(img, maxW, maxH);
    ScaleAxisWithin(img.width, maxW, ratio);
    ScaleAxisWithin(img.height, maxH, ratio);
  }

  /** Resizing into the same box a second time does nothing. */
  lemma ResizeToFitIdempotent(img: Image, maxDimensions: (int, int))
    requires img.Decoded()
    ensures ResizeToFit(ResizeToFit(img, maxDimensions), maxDimensions) == ResizeToFit(img, maxDimensions)
  {
  }

  /** One downscale step: each axis shrinks by `step` but is floored at its
      minimum, which raises an axis already below it. No step is taken unless
      some axis gets strictly smaller, or when an axis would be empty. */
  function Downscale(w: int, h: int, step: real, minDimensions: (int, int)): (r: Option<(int, int)>)
    ensures r.Some? ==> r.value.0 < w || r.value.1 < h
    ensures r.Some? ==> r.value.0 >= 1 && r.value.1 >= 1
    ensures r.Some? ==> r.value.0 >= minDimensions.0 && r.value.1 >= minDimensions.1
  {
    var targetW := Max(Trunc(w as real * step), minDimensions.0);
    var targetH := Max(Trunc(h as real * step), minDimensions.1);
    if targetW >= w && targetH >= h then None
    else if targetW < 1 || targetH < 1 then None
    else Some((targetW, targetH))
  }

  /** With a step below 1 and positive minimums, a step is taken exactly when
      some axis is still above its minimum. */
  lemma DownscaleStopsAtMinimum(w: int, h: int, step: real, minDimensions: (int, int))
    requires w >= 1 && h >= 1 && 0.0 < step < 1.0
    requires minDimensions.0 >= 1 && minDimensions.1 >= 1
    ensures Downscale(w, h, step, minDimensions).Some? <==> (w > minDimensions.0 || h > minDimensions.1)
  {
    ShrinkTrunc(w, step);
    ShrinkTrunc(h, step);
  }

  /** A narrow axis is widened to its minimum while the other one shrinks:
      100 x 1200 pixels become 320 x 1020. */
  lemma DownscaleWidensNarrowAxis()
    ensures Downscale(100, 1200, 0.85, (320, 320)) == Some((320, 1020))
  {
    assert (100 as real * 0.85).Floor == 85;
    assert (1200 as real * 0.85).Floor == 1020;
  }
}
