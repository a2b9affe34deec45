/** The options record of the size-budget engine
    (utils/compressor_engine_spire.py): its defaults, the clamps applied right
    after construction, and the batch entry point's later budget override. */
module SpireOptions {
  import opened Common

  type Color = (int, int, int)

  /** The fields of the engine's options record, as plain values. */
  datatype Settings = Settings(
    maxSizeKb: int,
    maxDimensions: (int, int),
    minDimensions: (int, int),
    minQuality: int,
    maxQuality: int,
    qualityStep: int,
    allowDownscaling: bool,
    downscaleStep: real,
    maxDownscaleIterations: int,
    progressiveJpeg: bool,
    preferPng: bool,
    convertPngToJpeg: bool,
    alphaReplacementColor: Color,
    pngCompressLevel: int,
    preserveExcelDimensions: bool,
    skipSmallImagesKb: int)

  /** The field defaults of the options record. */
  function Defaults(): Settings
  {
    Settings(300, (1200, 1200), (320, 320), 35, 90, 5, true, 0.85, 4,
             true, false, true, (255, 255, 255), 9, true, 0)
  }

  /** The ranges that construction establishes for the eight numeric knobs. */
  predicate InRange(s: Settings)
  {
    10 <= s.maxQuality <= 100 &&
    5 <= s.minQuality <= s.maxQuality &&
    s.qualityStep >= 1 &&
    s.maxSizeKb >= 10 &&
    0 <= s.pngCompressLevel <= 9 &&
    0.1 <= s.downscaleStep <= 0.95 &&
    s.maxDownscaleIterations >= 0 &&
    s.skipSmallImagesKb >= 0
  }

  /** The fields that construction never rewrites agree. */
  predicate SameUnclampedFields(a: Settings, b: Settings)
  {
    a.maxDimensions == b.maxDimensions && a.minDimensions == b.minDimensions &&
    a.allowDownscaling == b.allowDownscaling && a.progressiveJpeg == b.progressiveJpeg &&
    a.preferPng == b.preferPng && a.convertPngToJpeg == b.convertPngToJpeg &&
    a.alphaReplacementColor == b.alphaReplacementColor &&
    a.preserveExcelDimensions == b.preserveExcelDimensions
  }

  /** The eight clamps of construction, in the order the source applies them
      (the minimum quality is clamped against the already clamped maximum). */
  function Clamped(raw: Settings): Settings
  {
    var maxQ := Max(Min(raw.maxQuality, 100), 10);
    Settings(Max(10, raw.maxSizeKb), raw.maxDimensions, raw.minDimensions,
             Max(Min(raw.minQuality, maxQ), 5), maxQ, Max(1, raw.qualityStep),
             raw.allowDownscaling, MinReal(MaxReal(raw.downscaleStep, 0.1), 0.95),
             Max(0, raw.maxDownscaleIterations), raw.progressiveJpeg, raw.preferPng,
             raw.convertPngToJpeg, raw.alphaReplacementColor,
             Min(Max(raw.pngCompressLevel, 0), 9), raw.preserveExcelDimensions,
             Max(0, raw.skipSmallImagesKb))
  }

  /** Construction puts every knob in range, leaves the other fields alone,
      keeps in-range values, and pins a minimum quality above the clamped
      maximum to that maximum. */
  lemma ClampedEstablishesRanges(raw: Settings)
    ensures InRange(Clamped(raw))
    ensures SameUnclampedFields(raw, Clamped(raw))
    ensures InRange(raw) ==> Clamped(raw) == raw
    ensures 10 <= raw.maxQuality <= 100 ==> Clamped(raw).maxQuality == raw.maxQuality
    ensures raw.minQuality >= Clamped(raw).maxQuality ==> Clamped(raw).minQuality == Clamped(raw).maxQuality
    ensures raw.maxSizeKb >= 10 ==> Clamped(raw).maxSizeKb == raw.maxSizeKb
  {
  }

  /** Clamping twice changes nothing beyond clamping once. */
  lemma ClampedIdempotent(raw: Settings)
    ensures Clamped(Clamped(raw)) == Clamped(raw)
  {
    ClampedEstablishesRanges(raw);
    ClampedEstablishesRanges(Clamped(raw));
  }

  /** A minimum quality of 200 with the other defaults is pinned to the maximum. */
  lemma ClampedPinsMinQuality()
    ensures Clamped(Defaults().(minQuality := 200)).minQuality == 90
    ensures Clamped(Defaults().(minQuality := 200)).maxQuality == 90
  {
  }

  /** Replacing the budget after construction, as the batch entry point does
      with a caller's options record, keeps the ranges only for budgets of at
      least 10 KB: the clamps are not applied again. */
  lemma OverrideKeepsRangeOnlyAboveFloor(s: Settings, kb: int)
    requires InRange(s)
    ensures InRange(s.(maxSizeKb := kb)) <==> kb >= 10
  {
  }

  /** The mutable options record. Construction runs the clamps in place. */
  class CompressionOptions {
    var maxSizeKb: int
    var maxDimensions: (int, int)
    var minDimensions: (int, int)
    var minQuality: int
    var maxQuality: int
    var qualityStep: int
    var allowDownscaling: bool
    var downscaleStep: real
    var maxDownscaleIterations: int
    var progressiveJpeg: bool
    var preferPng: bool
    var convertPngToJpeg: bool
    var alphaReplacementColor: Color
    var pngCompressLevel: int
    var preserveExcelDimensions: bool
    var skipSmallImagesKb: int

    function Snapshot(): Settings
      reads this
    {
      Settings(maxSizeKb, maxDimensions, minDimensions, minQuality, maxQuality,
               qualityStep, allowDownscaling, downscaleStep, maxDownscaleIterations,
               progressiveJpeg, preferPng, convertPngToJpeg, alphaReplacementColor,
               pngCompressLevel, preserveExcelDimensions, skipSmallImagesKb)
    }

    /** Field initialisation followed by the post-initialisation clamps. */
    constructor (raw: Settings)
      ensures Snapshot() == Clamped(raw)
    {
      maxSizeKb := raw.maxSizeKb;
      maxDimensions := raw.maxDimensions;
      minDimensions := raw.minDimensions;
      minQuality := raw.minQuality;
      maxQuality := raw.maxQuality;
      qualityStep := raw.qualityStep;
      allowDownscaling := raw.allowDownscaling;
      downscaleStep := raw.downscaleStep;
      maxDownscaleIterations := raw.maxDownscaleIterations;
      progressiveJpeg := raw.progressiveJpeg;
      preferPng := raw.preferPng;
      convertPngToJpeg := raw.convertPngToJpeg;
      alphaReplacementColor := raw.alphaReplacementColor;
      pngCompressLevel := raw.pngCompressLevel;
      preserveExcelDimensions := raw.preserveExcelDimensions;
      skipSmallImagesKb := raw.skipSmallImagesKb;
      new;
      PostInit();
    }

    /** The post-initialisation hook: eight knobs are overwritten in place,
        the quality knobs first. */
    method PostInit()
      modifies this
      ensures Snapshot() == Clamped(old(Snapshot()))
    {
      ClampQualities();
      ClampLimits();
    }

    /** The quality clamps, in this order: the minimum quality is clamped
        against the already clamped maximum. */
    method ClampQualities()
      modifies this
      ensures Snapshot() == old(Snapshot()).(
                maxQuality := Max(Min(old(maxQuality), 100), 10),
                minQuality := Max(Min(old(minQuality), Max(Min(old(maxQuality), 100), 10)), 5),
                qualityStep := Max(1, old(qualityStep)))
    {
      maxQuality := Max(Min(maxQuality, 100), 10);
      minQuality := Max(Min(minQuality, maxQuality), 5);
      qualityStep := Max(1, qualityStep);
    }

    /** The clamps of the budget, the PNG level, the downscale step, the
        iteration count and the skip threshold. */
    method ClampLimits()
      modifies this
      ensures Snapshot() == old(Snapshot()).(
                maxSizeKb := Max(10, old(maxSizeKb)),
                pngCompressLevel := Min(Max(old(pngCompressLevel), 0), 9),
                downscaleStep := MinReal(MaxReal(old(downscaleStep), 0.1), 0.95),
                maxDownscaleIterations := Max(0, old(maxDownscaleIterations)),
                skipSmallImagesKb := Max(0, old(skipSmallImagesKb)))
    {
      maxSizeKb := Max(10, maxSizeKb);
      pngCompressLevel := Min(Max(pngCompressLevel, 0), 9);
      downscaleStep := MinReal(MaxReal(downscaleStep, 0.1), 0.95);
      maxDownscaleIterations := Max(0, maxDownscaleIterations);
      skipSmallImagesKb := Max(0, skipSmallImagesKb);
    }

    /** The batch entry point's assignment of its budget argument to a
        caller-supplied record; no clamp runs. */
    method OverrideMaxSize(kb: int)
      modifies this
      ensures Snapshot() == old(Snapshot()).(maxSizeKb := kb)
    {
      maxSizeKb := kb;
    }
  }
}
