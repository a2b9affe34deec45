/** Preparation of a picture for saving in the clipboard engine
    (utils/compressor_engine_pil.py): the shrink when a configured bound is
    exceeded, the output format chosen from the (case-insensitive) mode, the
    colour-mode conversion for that format and the encoder parameters. */
module PilPrepare {
  import opened Common
  import opened PilOptions

  datatype PilFormat = Jpeg | Png | Webp

  /** A value of the encoder-parameter dictionary. */
  datatype Param = Dpi(x: int, y: int) | IntParam(i: int) | BoolParam(b: bool)

  /** Python truthiness of an optional integer: present and not 0. */
  predicate Truthy(o: Option<int>)
  {
    o.Some? && o.value != 0
  }

  /** `max(lo, min(hi, x))`. */
  function Clamp(x: int, lo: int, hi: int): (r: int)
    requires lo <= hi
    ensures lo <= r <= hi
    ensures lo <= x <= hi ==> r == x
    ensures x < lo ==> r == lo
    ensures x > hi ==> r == hi
  {
    Max(lo, Min(hi, x))
  }

  // ---------------------------------------------------------------------------
  // Resize when a bound is exceeded
  // ---------------------------------------------------------------------------

  /** The bound on one axis: the configured one when truthy, else the axis. */
  function Bound(configured: Option<int>, d: int): int
  {
    if Truthy(configured) then configured.value else d
  }

  /** The smaller of the two bound ratios. */
  function BoundRatio(w: int, h: int, maxW: int, maxH: int): real
    requires w >= 1 && h >= 1
  {
    MinReal(maxW as real / w as real, maxH as real / h as real)
  }

  /** The size after shrinking by the smaller of the two bound ratios,
      each axis truncated. */
  function ShrunkSize(w: int, h: int, maxW: int, maxH: int): (int, int)
    requires w >= 1 && h >= 1
  {
    var ratio := BoundRatio(w, h, maxW, maxH);
    (Trunc(w as real * ratio), Trunc(h as real * ratio))
  }

  /** The shrink: when a bound is configured and exceeded, both axes scale
      by the smaller bound ratio and are truncated; the picture is kept as it
      is when an axis would end up 0 or less. */
  function ResizeIfExceeds(img: Image, maxWidth: Option<int>, maxHeight: Option<int>): Image
    requires img.Decoded()
  {
    if !(Truthy(maxWidth) || Truthy(maxHeight)) then img
    else
      var maxW := Bound(maxWidth, img.width);
      var maxH := Bound(maxHeight, img.height);
      if !(img.width > maxW || img.height > maxH) then img
      else
        var size := ShrunkSize(img.width, img.height, maxW, maxH);
        if size.0 > 0 && size.1 > 0 then img.(width := size.0, height := size.1) else img
  }

  /** Truncating a non-negative real at most an integer stays at most it. */
  lemma TruncAtMost(x: real, n: int)
    requires 0.0 <= x <= n as real
    ensures Trunc(x) <= n
  {
    assert Trunc(x) == x.Floor;
  }

  /** Scaling by a non-negative factor keeps the order of reals. */
  lemma ScaleMonotone(a: real, b: real, d: real)
    requires a <= b && 0.0 <= d
    ensures d * a <= d * b
  {
    assert d * b - d * a == d * (b - a);
  }

  /** A factor in (0, 1] scales a non-negative real to at most itself. */
  lemma ScaleAtMostOne(d: real, ratio: real)
    requires 0.0 <= d && 0.0 < ratio <= 1.0
    ensures 0.0 <= d * ratio <= d
  {
    ScaleMonotone(0.0, ratio, d);
    ScaleMonotone(ratio, 1.0, d);
  }

  /** Multiplying back by the divisor undoes a division. */
  lemma DivTimes(m: real, d: real)
    requires d > 0.0
    ensures d * (m / d) == m
  {
  }

  /** A positive factor at most `m / d` scales `d` to within (0, m]. */
  lemma ScaleWithin(d: real, m: real, ratio: real)
    requires d > 0.0 && 0.0 < ratio <= m / d
    ensures 0.0 <= d * ratio <= m
  {
    ScaleMonotone(0.0, ratio, d);
    ScaleMonotone(ratio, m / d, d);
    DivTimes(m, d);
  }

  /** A scaled axis truncates to at most its bound when the ratio is at
      most the bound ratio of the axis. */
  lemma ScaledWithinBound(d: int, m: int, ratio: real)
    requires d >= 1 && 0.0 < ratio <= m as real / d as real
    ensures Trunc(d as real * ratio) <= m
  {
    var x := d as real * ratio;
    ScaleWithin(d as real, m as real, ratio);
    TruncAtMost(x, m);
  }

  /** A scaled axis truncates to at most itself when the ratio is at most 1. */
  lemma ScaledWithinAxis(d: int, ratio: real)
    requires d >= 1 && 0.0 < ratio <= 1.0
    ensures Trunc(d as real * ratio) <= d
  {
    var x := d as real * ratio;
    ScaleAtMostOne(d as real, ratio);
    TruncAtMost(x, d);
  }

  /** An axis scaled by a ratio at most 1 and at most the bound ratio of
      the axis truncates, when positive, to within the bound and within the
      axis. */
  lemma ScaledAxisWithin(d: int, m: int, ratio: real)
    requires d >= 1 && ratio <= 1.0 && ratio <= m as real / d as real
    ensures Trunc(d as real * ratio) > 0 ==> Trunc(d as real * ratio) <= m && Trunc(d as real * ratio) <= d
  {
    if ratio <= 0.0 {
      ScaleMonotone(ratio, 0.0, d as real);
    } else {
      ScaledWithinBound(d, m, ratio);
      ScaledWithinAxis(d, ratio);
    }
  }

  /** The ratio is at most each bound ratio, and below 1 when an axis
      exceeds its bound. */
  lemma BoundRatioFacts(w: int, h: int, maxW: int, maxH: int)
    requires w >= 1 && h >= 1
    ensures var r := BoundRatio(w, h, maxW, maxH);
      r <= maxW as real / w as real && r <= maxH as real / h as real &&
      (w > maxW || h > maxH ==> r < 1.0)
  {
    if w > maxW {
      ExceededRatio(w, maxW);
    }
    if h > maxH {
      ExceededRatio(h, maxH);
    }
  }

  /** When an axis exceeds its bound, a shrunk size with both axes positive
      lies within both bounds and within the original size. */
  lemma ShrunkSizeWithin(w: int, h: int, maxW: int, maxH: int)
    requires w >= 1 && h >= 1 && (w > maxW || h > maxH)
    ensures var s := ShrunkSize(w, h, maxW, maxH);
      s.0 > 0 && s.1 > 0 ==> s.0 <= maxW && s.1 <= maxH && s.0 <= w && s.1 <= h
  {
    var ratio := BoundRatio(w, h, maxW, maxH);
    BoundRatioFacts(w, h, maxW, maxH);
    ScaledAxisWithin(w, maxW, ratio);
    ScaledAxisWithin(h, maxH, ratio);
  }

  /** The bound ratio of an axis that exceeds its bound is below 1. */
  lemma ExceededRatio(d: int, m: int)
    requires d >= 1 && d > m
    ensures m as real / d as real < 1.0
  {
    DivTimes(m as real, d as real);
  }

  /** The shrink never grows the picture, keeps its mode, leaves a picture
      within its bounds (or without bounds) as it is, and a picture that it
      does change ends within every positive configured bound. */
  lemma ResizeIfExceedsBounds(img: Image, maxWidth: Option<int>, maxHeight: Option<int>)
    requires img.Decoded()
    ensures var r := ResizeIfExceeds(img, maxWidth, maxHeight);
      r.Decoded() && r.mode == img.mode && r.transparency == img.transparency &&
      r.width <= img.width && r.height <= img.height &&
      (!Truthy(maxWidth) && !Truthy(maxHeight) ==> r == img) &&
      (img.width <= Bound(maxWidth, img.width) && img.height <= Bound(maxHeight, img.height) ==> r == img) &&
      (r != img ==> r.width <= Bound(maxWidth, img.width) && r.height <= Bound(maxHeight, img.height))
  {
    var maxW := Bound(maxWidth, img.width);
    var maxH := Bound(maxHeight, img.height);
    if (Truthy(maxWidth) || Truthy(maxHeight)) && (img.width > maxW || img.height > maxH) {
      ShrunkSizeWithin(img.width, img.height, maxW, maxH);
    }
  }

  /** A shrink scales both axes by the one ratio min(maxW / w, maxH / h),
      each truncated; it happens exactly when a bound is configured and
      exceeded and both truncated axes are positive. */
  lemma ResizeIfExceedsUniform(img: Image, maxWidth: Option<int>, maxHeight: Option<int>)
    requires img.Decoded()
    ensures var maxW := Bound(maxWidth, img.width);
      var maxH := Bound(maxHeight, img.height);
      var ratio := BoundRatio(img.width, img.height, maxW, maxH);
      var r := ResizeIfExceeds(img, maxWidth, maxHeight);
      var shrinks := (Truthy(maxWidth) || Truthy(maxHeight)) && (img.width > maxW || img.height > maxH) &&
                     ShrunkSize(img.width, img.height, maxW, maxH).0 > 0 &&
                     ShrunkSize(img.width, img.height, maxW, maxH).1 > 0;
      (shrinks ==>
         ratio < 1.0 &&
         img.width as real * ratio - 1.0 < r.width as real <= img.width as real * ratio &&
         img.height as real * ratio - 1.0 < r.height as real <= img.height as real * ratio) &&
      (!shrinks ==> r == img)
  {
    var maxW := Bound(maxWidth, img.width);
    var maxH := Bound(maxHeight, img.height);
    var size := ShrunkSize(img.width, img.height, maxW, maxH);
    var r := ResizeIfExceeds(img, maxWidth, maxHeight);
    if (Truthy(maxWidth) || Truthy(maxHeight)) && (img.width > maxW || img.height > maxH) && size.0 > 0 && size.1 > 0 {
      assert r.width == size.0 && r.height == size.1;
      BoundRatioFacts(img.width, img.height, maxW, maxH);
      ShrunkSizeBracket(img.width, img.height, maxW, maxH);
    } else {
      assert r == img;
    }
  }

  /** Each positive axis of the shrunk size lies within 1 below the exact
      multiple of the old axis by the bound ratio. */
  lemma ShrunkSizeBracket(w: int, h: int, maxW: int, maxH: int)
    requires w >= 1 && h >= 1
    ensures var ratio := BoundRatio(w, h, maxW, maxH);
      var size := ShrunkSize(w, h, maxW, maxH);
      (size.0 > 0 ==> w as real * ratio - 1.0 < size.0 as real <= w as real * ratio) &&
      (size.1 > 0 ==> h as real * ratio - 1.0 < size.1 as real <= h as real * ratio)
  {
    var ratio := BoundRatio(w, h, maxW, maxH);
    PositiveTruncBracket(w as real * ratio);
    PositiveTruncBracket(h as real * ratio);
  }

  /** A positive truncation lies within 1 below its argument. */
  lemma PositiveTruncBracket(x: real)
    ensures Trunc(x) > 0 ==> x - 1.0 < Trunc(x) as real <= x
  {
  }

  /** Shrinking a second time with the same bounds changes nothing. */
  lemma ResizeIfExceedsIdempotent(img: Image, maxWidth: Option<int>, maxHeight: Option<int>)
    requires img.Decoded()
    ensures ResizeIfExceeds(img, maxWidth, maxHeight).Decoded()
    ensures ResizeIfExceeds(ResizeIfExceeds(img, maxWidth, maxHeight), maxWidth, maxHeight) ==
            ResizeIfExceeds(img, maxWidth, maxHeight)
  {
    ResizeIfExceedsBounds(img, maxWidth, maxHeight);
    var r := ResizeIfExceeds(img, maxWidth, maxHeight);
    if r != img {
      assert r.width <= Bound(maxWidth, r.width) && r.height <= Bound(maxHeight, r.height);
    }
  }

  // ---------------------------------------------------------------------------
  // Format resolution
  // ---------------------------------------------------------------------------

  /** The automatic choice: PNG for an RGBA, LA or P picture whose
      transparency entry has a value, JPEG otherwise. */
  function AutoFormat(img: Image): PilFormat
  {
    if (img.mode == RGBA || img.mode == LA || img.mode == P) && img.transparency == KeyValue then Png
    else Jpeg
  }

  /** The format a lower-cased mode names, if it names one. */
  function NamedFormat(mode: string, img: Image): Option<PilFormat>
  {
    if mode == "auto" then Some(AutoFormat(img))
    else if mode == "jpeg" then Some(Jpeg)
    else if mode == "png" then Some(Png)
    else if mode == "webp" then Some(Webp)
    else None
  }

  /** The format of a configured mode, with an unknown mode falling back to
      the automatic choice. */
  function ResolvedFormat(mode: string, img: Image): PilFormat
  {
    match NamedFormat(LowerAscii(mode), img)
    case Some(f) => f
    case None => AutoFormat(img)
  }

  /** The resolution ignores letter case, and an unknown mode resolves like
      "auto". */
  lemma ResolvedFormatCaseInsensitive(mode: string, img: Image)
    ensures ResolvedFormat(mode, img) == ResolvedFormat(LowerAscii(mode), img)
    ensures NamedFormat(LowerAscii(mode), img).None? ==> ResolvedFormat(mode, img) == ResolvedFormat("auto", img)
  {
    LowerAsciiIdempotent(mode);
    assert LowerAscii("auto") == "auto";
  }

  /** Upper-case spellings name the same formats: "JPEG" gives JPEG, "Png"
      gives PNG and "WEBP" gives WebP. */
  lemma ResolvedFormatExamples(img: Image)
    ensures ResolvedFormat("JPEG", img) == Jpeg
    ensures ResolvedFormat("Png", img) == Png
    ensures ResolvedFormat("WEBP", img) == Webp
  {
    assert LowerAscii("JPEG") == "jpeg";
    assert LowerAscii("Png") == "png";
    assert LowerAscii("WEBP") == "webp";
  }

  /** The automatic choice gives PNG exactly for a transparent RGBA, LA or P
      picture; a "transparency" key whose value is None does not count. */
  lemma AutoFormatPng(img: Image)
    ensures AutoFormat(img) == Png <==>
              (img.mode in {RGBA, LA, P} && img.transparency == KeyValue)
    ensures img.transparency == KeyNone ==> AutoFormat(img) == Jpeg
  {
  }

  // ---------------------------------------------------------------------------
  // Colour mode and encoder parameters per format
  // ---------------------------------------------------------------------------

  /** The colour mode the picture is saved in: JPEG takes RGB or greyscale
      (transparent pictures are flattened onto the background colour);
      PNG takes RGBA, LA, RGB or greyscale and then, with a palette size
      set, palette mode unless greyscale; WebP takes RGB, RGBA or greyscale. */
  function SavedMode(fmt: PilFormat, m: Mode, pngColors: Option<int>): Mode
  {
    match fmt
    case Jpeg => if m == RGB || m == L then m else RGB
    case Png =>
      var m1 := if m == RGBA || m == LA || m == RGB || m == L then m else RGBA;
      if Truthy(pngColors) && m1 != L && m1 != P then P else m1
    case Webp => if m == RGB || m == RGBA || m == L then m else RGB
  }

  /** The saved mode is one the format can store. */
  lemma SavedModeStorable(fmt: PilFormat, m: Mode, pngColors: Option<int>)
    ensures fmt == Jpeg ==> SavedMode(fmt, m, pngColors) in {RGB, L}
    ensures fmt == Png ==> SavedMode(fmt, m, pngColors) in {RGBA, LA, RGB, L, P}
    ensures fmt == Png && Truthy(pngColors) ==> SavedMode(fmt, m, pngColors) in {L, P}
    ensures fmt == Webp ==> SavedMode(fmt, m, pngColors) in {RGB, RGBA, L}
    ensures fmt == Jpeg && (m == RGB || m == L) ==> SavedMode(fmt, m, pngColors) == m
  {
  }

  /** The DPI entry, present when the DPI is set and not 0. */
  function DpiParams(opts: Options): map<string, Param>
  {
    if Truthy(opts.keepDpi) then map["dpi" := Dpi(opts.keepDpi.value, opts.keepDpi.value)] else map[]
  }

  /** The format's own keys, added to `base`. */
  function FormatParams(fmt: PilFormat, opts: Options, base: map<string, Param>): map<string, Param>
  {
    match fmt
    case Jpeg =>
      base["quality" := IntParam(Clamp(opts.jpegQuality, 1, 100))]
          ["optimize" := BoolParam(opts.jpegOptimize)]
          ["progressive" := BoolParam(opts.jpegProgressive)]
    case Png =>
      base["optimize" := BoolParam(opts.pngOptimize)]
          ["compress_level" := IntParam(Clamp(opts.pngCompressLevel, 0, 9))]
    case Webp =>
      base["quality" := IntParam(Clamp(opts.webpQuality, 1, 100))]
          ["lossless" := BoolParam(opts.webpLossless)]
          ["method" := IntParam(6)]
  }

  /** The encoder parameters: the DPI entry, then the format's own keys. */
  function SaveParams(fmt: PilFormat, opts: Options): map<string, Param>
  {
    FormatParams(fmt, opts, DpiParams(opts))
  }

  /** The DPI entry is present exactly when the DPI is truthy; qualities are
      within [1, 100], the PNG compression level within [0, 9], and WebP
      always uses method 6. */
  lemma SaveParamsRanges(fmt: PilFormat, opts: Options)
    ensures var ps := SaveParams(fmt, opts);
      ("dpi" in ps <==> Truthy(opts.keepDpi)) &&
      ("dpi" in ps ==> ps["dpi"] == Dpi(opts.keepDpi.value, opts.keepDpi.value)) &&
      ("quality" in ps <==> fmt != Png) &&
      ("quality" in ps ==> ps["quality"].IntParam? && 1 <= ps["quality"].i <= 100) &&
      ("compress_level" in ps <==> fmt == Png) &&
      ("compress_level" in ps ==> ps["compress_level"].IntParam? && 0 <= ps["compress_level"].i <= 9) &&
      ("method" in ps <==> fmt == Webp) &&
      ("method" in ps ==> ps["method"] == IntParam(6))
  {
  }

  /** A quality already in [1, 100] is passed on unchanged. */
  lemma SaveParamsKeepsValidQuality(opts: Options)
    requires 1 <= opts.jpegQuality <= 100
    ensures SaveParams(Jpeg, opts)["quality"] == IntParam(opts.jpegQuality)
  {
  }

  // ---------------------------------------------------------------------------
  // The preparation step
  // ---------------------------------------------------------------------------

  /** Whether a lower-cased mode is one the preparation step knows. */
  predicate KnownMode(mode: string)
  {
    mode == "auto" || mode == "jpeg" || mode == "png" || mode == "webp"
  }

  /** Prepares a picture for saving: shrinks it when a bound is exceeded,
      resolves the format from the lower-cased mode (an unknown mode retries
      once as "auto", on the already shrunk picture), converts the colour
      mode for the format and builds the encoder parameters. */
  method PrepareImage(img: Image, opts: Options) returns (out: Image, fmt: PilFormat, params: map<string, Param>)
    requires img.Decoded()
    ensures var r := ResizeIfExceeds(img, opts.maxWidth, opts.maxHeight);
      fmt == ResolvedFormat(opts.mode, r) &&
      out == r.(mode := SavedMode(fmt, r.mode, opts.pngColors)) &&
      params == SaveParams(fmt, opts)
    decreases if KnownMode(LowerAscii(opts.mode)) then 0 else 1
  {
    var work := Shrink(img, opts.maxWidth, opts.maxHeight);

    var mode := LowerAscii(opts.mode);
    params := DpiParams(opts);
    var named := ChooseFormat(mode, work);
    if named.None? {
      ResolvedFormatCaseInsensitive(opts.mode, work);
      assert LowerAscii("auto") == "auto";
      ResizeIfExceedsIdempotent(img, opts.maxWidth, opts.maxHeight);
      out, fmt, params := PrepareImage(work, opts.(mode := "auto"));
      return;
    }
    fmt := named.value;
    out, params := ConvertForFormat(work, fmt, opts, params);
  }

  /** The format choice of the preparation: the format a lower-cased mode
      names, with "auto" looking at the picture's mode and transparency. */
  method ChooseFormat(mode: string, img: Image) returns (fmt: Option<PilFormat>)
    ensures fmt == NamedFormat(mode, img)
  {
    if mode == "auto" {
      if (img.mode == RGBA || img.mode == LA || img.mode == P) && img.transparency == KeyValue {
        fmt := Some(Png);
      } else {
        fmt := Some(Jpeg);
      }
    } else if mode == "jpeg" {
      fmt := Some(Jpeg);
    } else if mode == "png" {
      fmt := Some(Png);
    } else if mode == "webp" {
      fmt := Some(Webp);
    } else {
      fmt := None;
    }
  }

  /** The shrink phase of the preparation. */
  method Shrink(img: Image, maxWidth: Option<int>, maxHeight: Option<int>) returns (r: Image)
    requires img.Decoded()
    ensures r == ResizeIfExceeds(img, maxWidth, maxHeight)
  {
    r := img;
    if Truthy(maxWidth) || Truthy(maxHeight) {
      var maxW := if Truthy(maxWidth) then maxWidth.value else img.width;
      var maxH := if Truthy(maxHeight) then maxHeight.value else img.height;
      if img.width > maxW || img.height > maxH {
        var size := ShrunkSize(img.width, img.height, maxW, maxH);
        if size.0 > 0 && size.1 > 0 {
          r := img.(width := size.0, height := size.1);
        }
      }
    }
  }

  /** The conversion phase: the colour mode the format needs and the
      format's encoder keys added to `params`. */
  method ConvertForFormat(img: Image, fmt: PilFormat, opts: Options, params0: map<string, Param>)
    returns (out: Image, params: map<string, Param>)
    ensures out == img.(mode := SavedMode(fmt, img.mode, opts.pngColors))
    ensures params == FormatParams(fmt, opts, params0)
  {
    out := img;
    params := params0;
    if fmt == Jpeg {
      if out.mode != RGB && out.mode != L {
        out := out.(mode := RGB);
      }
      params := params["quality" := IntParam(Clamp(opts.jpegQuality, 1, 100))];
      params := params["optimize" := BoolParam(opts.jpegOptimize)];
      params := params["progressive" := BoolParam(opts.jpegProgressive)];
    } else if fmt == Png {
      if out.mode != RGBA && out.mode != LA && out.mode != RGB && out.mode != L {
        out := out.(mode := RGBA);
      }
      if Truthy(opts.pngColors) && out.mode != L && out.mode != P {
        out := out.(mode := P);
      }
      params := params["optimize" := BoolParam(opts.pngOptimize)];
      params := params["compress_level" := IntParam(Clamp(opts.pngCompressLevel, 0, 9))];
    } else {
      if out.mode != RGB && out.mode != RGBA && out.mode != L {
        out := out.(mode := RGB);
      }
      params := params["quality" := IntParam(Clamp(opts.webpQuality, 1, 100))];
      params := params["lossless" := BoolParam(opts.webpLossless)];
      params := params["method" := IntParam(6)];
    }
  }
}
