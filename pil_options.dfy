/** The frozen options record of the clipboard engine
    (utils/compressor_engine_pil.py) and its construction from the legacy
    `quality` / `mode` / `keep_dpi` parameters. */
module PilOptions {
  import opened Common

  type Color = (int, int, int)

  /** The fields of the options record. `resizeFilter` is the raster
      library's resampling constant, kept as an opaque number. */
  datatype Options = Options(
    mode: string,
    jpegQuality: int, jpegOptimize: bool, jpegProgressive: bool, jpegBackground: Option<Color>,
    pngOptimize: bool, pngColors: Option<int>, pngCompressLevel: int,
    webpQuality: int, webpLossless: bool,
    keepDpi: Option<int>, maxWidth: Option<int>, maxHeight: Option<int>,
    resizeFilter: int, stripMetadata: bool)

  /** The raster library's LANCZOS constant, the default resampling filter. */
  const Lanczos: int := 1

  /** The field defaults of the record. */
  function Defaults(): Options
  {
    Options("auto", 70, true, true, Some((255, 255, 255)), true, Some(256), 9, 75, false,
            Some(96), None, None, Lanczos, true)
  }

  /** The palette size that a legacy quality maps to in PNG mode:
      `quality / 100 * 256`, truncated, then held within [16, 256]. */
  function PngColorsFor(quality: int): int
  {
    Max(16, Min(256, Trunc(quality as real / 100.0 * 256.0)))
  }

  /** Construction from the legacy parameters. `fromKwargs` is the record
      that the extra keyword arguments alone would build, and
      `pngColorsGiven` says whether `png_colors` was among them. The mode is
      compared case-sensitively: "jpeg" and "auto" set the JPEG quality,
      "png" derives the palette size unless it was given, "webp" sets the
      WebP quality, and any other spelling sets nothing. */
  function FromLegacy(quality: int, mode: string, keepDpi: Option<int>,
                      fromKwargs: Options, pngColorsGiven: bool): Options
  {
    var opts := fromKwargs.(mode := mode, keepDpi := keepDpi);
    if mode == "jpeg" || mode == "auto" then opts.(jpegQuality := quality)
    else if mode == "png" then
      if !pngColorsGiven then opts.(pngColors := Some(PngColorsFor(quality))) else opts
    else if mode == "webp" then opts.(webpQuality := quality)
    else opts
  }

  /** Truncation of non-negative reals is monotone. */
  lemma TruncMonotone(x: real, y: real)
    requires 0.0 <= x <= y
    ensures Trunc(x) <= Trunc(y)
  {
    assert Trunc(x) == x.Floor && Trunc(y) == y.Floor;
  }

  /** The derived palette size is always within [16, 256], grows with the
      quality, is 16 up to quality 6 and 256 from quality 100 on. */
  lemma PngColorsForRange(quality: int, other: int)
    ensures 16 <= PngColorsFor(quality) <= 256
    ensures quality <= other ==> PngColorsFor(quality) <= PngColorsFor(other)
    ensures quality <= 6 ==> PngColorsFor(quality) == 16
    ensures quality >= 100 ==> PngColorsFor(quality) == 256
  {
    var x := quality as real / 100.0 * 256.0;
    var y := other as real / 100.0 * 256.0;
    if quality <= other {
      if 0 <= quality {
        TruncMonotone(x, y);
      } else if 0 <= other {
        assert Trunc(x) <= 0 <= Trunc(y);
      } else {
        assert Trunc(x) <= 0 && Trunc(y) <= 0;
      }
    }
    if 0 <= quality <= 6 {
      TruncMonotone(x, 6.0 / 100.0 * 256.0);
      assert Trunc(6.0 / 100.0 * 256.0) == 15;
    }
    if quality >= 100 {
      TruncMonotone(256.0, x);
      assert Trunc(256.0) == 256;
    }
  }

  /** Quality 70 maps to 179 colours, quality 50 to 128. */
  lemma PngColorsForExamples()
    ensures PngColorsFor(70) == 179
    ensures PngColorsFor(50) == 128
  {
    assert 70 as real / 100.0 * 256.0 == 179.2;
    assert 50 as real / 100.0 * 256.0 == 128.0;
  }

  /** What each legacy mode sets: the mode and DPI always; the JPEG quality
      for "jpeg" and "auto"; the palette size for "png" unless given; the
      WebP quality for "webp". Every other field is the keyword arguments'. */
  lemma FromLegacyFields(quality: int, mode: string, keepDpi: Option<int>, k: Options, pngColorsGiven: bool)
    ensures var r := FromLegacy(quality, mode, keepDpi, k, pngColorsGiven);
      r.mode == mode && r.keepDpi == keepDpi &&
      r.jpegQuality == (if mode == "jpeg" || mode == "auto" then quality else k.jpegQuality) &&
      r.webpQuality == (if mode == "webp" then quality else k.webpQuality) &&
      r.pngColors == (if mode == "png" && !pngColorsGiven then Some(PngColorsFor(quality)) else k.pngColors) &&
      SameOtherFields(r, k)
  {
    var opts := k.(mode := mode, keepDpi := keepDpi);
    assert SameOtherFields(opts, k);
    if mode == "jpeg" || mode == "auto" {
      assert mode != "png" && mode != "webp";
    } else if mode == "png" {
      assert mode != "webp";
    }
  }

  /** The fields that construction from legacy parameters never sets agree. */
  predicate SameOtherFields(a: Options, b: Options)
  {
    a.jpegOptimize == b.jpegOptimize && a.jpegProgressive == b.jpegProgressive &&
    a.jpegBackground == b.jpegBackground && a.pngOptimize == b.pngOptimize &&
    a.pngCompressLevel == b.pngCompressLevel && a.webpLossless == b.webpLossless &&
    a.maxWidth == b.maxWidth && a.maxHeight == b.maxHeight &&
    a.resizeFilter == b.resizeFilter && a.stripMetadata == b.stripMetadata
  }

  /** The mode comparison is case-sensitive: "JPEG" leaves the JPEG quality
      at the keyword arguments' value, although the preparation step later
      treats "JPEG" like "jpeg". */
  lemma FromLegacyIgnoresUpperCaseMode(quality: int, k: Options)
    ensures FromLegacy(quality, "JPEG", None, k, false).jpegQuality == k.jpegQuality
  {
  }
}
