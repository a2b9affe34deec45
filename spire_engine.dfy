/** The size-budget engine (utils/compressor_engine_spire.py): option clamping,
    the never-upscale resize, the per-axis downscale step, the PNG/JPEG choice
    and the bounded two-level search over (scale, quality) that looks for the
    first JPEG payload within the byte budget.

    The JPEG and PNG encoders are parameters: `jpeg(w, h, q)` is the number of
    bytes the encoder produces for the working picture at w x h pixels and
    quality q, `png(w, h)` the same for PNG. Nothing is assumed about them. */
module SpireEngine {
  import opened Common
  import opened SpireOptions
  import opened SpirePaths
  import opened SpireGeometry

  // ---------------------------------------------------------------------------
  // Target format
  // ---------------------------------------------------------------------------

  datatype Format = PNG | JPEG

  /** How the working picture is prepared for its target format. */
  datatype Preparation = AsIs | ConvertToRgb | FlattenOnto(background: Color)

  /** An alpha channel, or a palette with a transparency entry. */
  predicate HasAlpha(img: Image)
  {
    img.mode == RGBA || img.mode == LA || (img.mode == P && img.transparency != NoKey)
  }

  function PreparedMode(m: Mode, prep: Preparation): Mode
  {
    if prep == AsIs then m else RGB
  }

  /** The format choice: PNG when alpha is kept, or when there is no alpha and
      PNG is preferred; JPEG otherwise, flattening alpha onto the replacement
      colour and converting any other non-RGB, non-greyscale mode to RGB. */
  function ChooseTarget(img: Image, s: Settings): (r: (Format, Preparation))
    ensures r.0 == PNG <==> (HasAlpha(img) && !s.convertPngToJpeg) || (!HasAlpha(img) && s.preferPng)
    ensures r.0 == PNG ==> r.1 == AsIs
    ensures r.0 == JPEG && HasAlpha(img) ==> r.1 == FlattenOnto(s.alphaReplacementColor)
    ensures r.0 == JPEG ==> PreparedMode(img.mode, r.1) == RGB || PreparedMode(img.mode, r.1) == L
  {
    var alpha := HasAlpha(img);
    var initial := if s.preferPng then PNG else JPEG;
    if alpha && !s.convertPngToJpeg then (PNG, AsIs)
    else if alpha && s.convertPngToJpeg then (JPEG, FlattenOnto(s.alphaReplacementColor))
    else if img.mode != RGB && img.mode != L && initial == JPEG then (JPEG, ConvertToRgb)
    else (initial, AsIs)
  }

  // ---------------------------------------------------------------------------
  // The bounded (scale, quality) search
  // ---------------------------------------------------------------------------

  /** Bytes of a JPEG encoding at (width, height, quality). */
  type JpegEncoder = (int, int, int) -> nat
  /** Bytes of a PNG encoding at (width, height). */
  type PngEncoder = (int, int) -> nat

  /** One encoding made by the search: the scale round, the working size,
      the quality and the payload's byte count. */
  datatype Attempt = Attempt(round: nat, width: int, height: int, quality: int, bytes: nat)

  /** The payload is within the budget: `bytes / 1024 <= max_size_kb`. */
  predicate Fits(a: Attempt, s: Settings)
  {
    a.bytes <= s.maxSizeKb * 1024
  }

  predicate RoundMet(t: seq<Attempt>, s: Settings)
  {
    t != [] && Fits(t[|t| - 1], s)
  }

  /** The encodings tried at one scale: from quality `q` down in steps of
      `qualityStep` while the quality is at least `minQuality`, stopping after
      the first one within the budget. */
  function InnerTrace(round: nat, w: int, h: int, q: int, s: Settings, jpeg: JpegEncoder): (t: seq<Attempt>)
    requires s.qualityStep >= 1
    ensures q >= s.minQuality <==> t != []
    ensures t != [] ==> t[0] == Attempt(round, w, h, q, jpeg(w, h, q))
    decreases if q < s.minQuality then 0 else q - s.minQuality + 1
  {
    if q < s.minQuality then []
    else
      var a := Attempt(round, w, h, q, jpeg(w, h, q));
      if Fits(a, s) then [a] else [a] + InnerTrace(round, w, h, q - s.qualityStep, s, jpeg)
  }

  /** Every attempt was made in round `round` at `w` x `h` pixels. */
  predicate AtScale(t: seq<Attempt>, round: nat, w: int, h: int)
  {
    forall i :: 0 <= i < |t| ==> t[i].round == round && t[i].width == w && t[i].height == h
  }

  /** Every quality lies in [lo, hi] and every payload is the encoder's output
      for its attempt. */
  predicate EncodedWithin(t: seq<Attempt>, lo: int, hi: int, jpeg: JpegEncoder)
  {
    forall i :: 0 <= i < |t| ==>
      lo <= t[i].quality <= hi && t[i].bytes == jpeg(t[i].width, t[i].height, t[i].quality)
  }

  /** Each quality is the previous one minus `step`. */
  ghost predicate StepsDown(t: seq<Attempt>, step: int)
  {
    forall i, j :: 0 <= i && j == i + 1 && j < |t| ==> t[j].quality == t[i].quality - step
  }

  predicate StrictlyDescending(t: seq<Attempt>)
  {
    forall i, j :: 0 <= i < j < |t| ==> t[i].quality > t[j].quality
  }

  /** Every encoding but the last one missed the budget. */
  predicate MissesBeforeLast(t: seq<Attempt>, s: Settings)
  {
    forall i :: 0 <= i < |t| - 1 ==> !Fits(t[i], s)
  }

  /** A last encoding that missed the budget was made at the lowest quality
      the descent allows. */
  predicate ExhaustedIfMissed(t: seq<Attempt>, s: Settings)
  {
    t != [] && !Fits(t[|t| - 1], s) ==> t[|t| - 1].quality - s.qualityStep < s.minQuality
  }

  /** Within one scale every attempt has that round and size. */
  lemma {:induction false} InnerTraceAtScale(round: nat, w: int, h: int, q: int, s: Settings, jpeg: JpegEncoder)
    requires s.qualityStep >= 1
    ensures AtScale(InnerTrace(round, w, h, q, s, jpeg), round, w, h)
    decreases if q < s.minQuality then 0 else q - s.minQuality + 1
  {
    if q >= s.minQuality {
      var a := Attempt(round, w, h, q, jpeg(w, h, q));
      if !Fits(a, s) {
        InnerTraceAtScale(round, w, h, q - s.qualityStep, s, jpeg);
        assert InnerTrace(round, w, h, q, s, jpeg) == [a] + InnerTrace(round, w, h, q - s.qualityStep, s, jpeg);
      }
    }
  }

  /** Within one scale every attempt has a quality in [minQuality, q] and
      the encoder's output for it as its payload. */
  lemma {:induction false} InnerTraceEncoded(round: nat, w: int, h: int, q: int, s: Settings, jpeg: JpegEncoder)
    requires s.qualityStep >= 1
    ensures EncodedWithin(InnerTrace(round, w, h, q, s, jpeg), s.minQuality, q, jpeg)
    decreases if q < s.minQuality then 0 else q - s.minQuality + 1
  {
    if q >= s.minQuality {
      var a := Attempt(round, w, h, q, jpeg(w, h, q));
      if !Fits(a, s) {
        InnerTraceEncoded(round, w, h, q - s.qualityStep, s, jpeg);
        assert InnerTrace(round, w, h, q, s, jpeg) == [a] + InnerTrace(round, w, h, q - s.qualityStep, s, jpeg);
      }
    }
  }

  /** Within one scale, qualities go q, q - step, q - 2 step, ... and so
      strictly down. */
  lemma {:induction false} InnerTraceDescends(round: nat, w: int, h: int, q: int, s: Settings, jpeg: JpegEncoder)
    requires s.qualityStep >= 1
    ensures StepsDown(InnerTrace(round, w, h, q, s, jpeg), s.qualityStep)
    ensures StrictlyDescending(InnerTrace(round, w, h, q, s, jpeg))
    decreases if q < s.minQuality then 0 else q - s.minQuality + 1
  {
    if q >= s.minQuality {
      var a := Attempt(round, w, h, q, jpeg(w, h, q));
      if !Fits(a, s) {
        InnerTraceDescends(round, w, h, q - s.qualityStep, s, jpeg);
        InnerTraceEncoded(round, w, h, q - s.qualityStep, s, jpeg);
        assert InnerTrace(round, w, h, q, s, jpeg) == [a] + InnerTrace(round, w, h, q - s.qualityStep, s, jpeg);
      }
    }
  }

  /** Within one scale the qualities strictly descend. */
  lemma InnerTraceStrictlyDescends(round: nat, w: int, h: int, q: int, s: Settings, jpeg: JpegEncoder)
    requires s.qualityStep >= 1
    ensures StrictlyDescending(InnerTrace(round, w, h, q, s, jpeg))
  {
    InnerTraceDescends(round, w, h, q, s, jpeg);
  }

  /** Within one scale every encoding but the last missed the budget, and a
      last one that also missed it leaves no quality untried. */
  lemma {:induction false} InnerTraceStops(round: nat, w: int, h: int, q: int, s: Settings, jpeg: JpegEncoder)
    requires s.qualityStep >= 1
    ensures MissesBeforeLast(InnerTrace(round, w, h, q, s, jpeg), s)
    ensures ExhaustedIfMissed(InnerTrace(round, w, h, q, s, jpeg), s)
    decreases if q < s.minQuality then 0 else q - s.minQuality + 1
  {
    if q >= s.minQuality {
      var a := Attempt(round, w, h, q, jpeg(w, h, q));
      if !Fits(a, s) {
        InnerTraceStops(round, w, h, q - s.qualityStep, s, jpeg);
        assert InnerTrace(round, w, h, q, s, jpeg) == [a] + InnerTrace(round, w, h, q - s.qualityStep, s, jpeg);
      }
    }
  }

  /** Number of scale rounds the search may run. */
  function Rounds(s: Settings): (n: nat)
    ensures n >= 1 && n >= s.maxDownscaleIterations + 1
  {
    Max(1, s.maxDownscaleIterations + 1)
  }

  /** All encodings of the search from scale round `round` on, with `left`
      rounds still allowed: each round runs the quality descent; the search
      ends after a round that met the budget, when downscaling is off, or
      when no downscale step can be taken. */
  function OuterTrace(round: nat, w: int, h: int, left: nat, s: Settings, jpeg: JpegEncoder): (t: seq<Attempt>)
    requires s.qualityStep >= 1
    ensures left >= 1 && s.minQuality <= s.maxQuality ==>
              t != [] && t[0] == Attempt(round, w, h, s.maxQuality, jpeg(w, h, s.maxQuality))
    decreases left
  {
    if left == 0 then []
    else
      var t := InnerTrace(round, w, h, s.maxQuality, s, jpeg);
      if RoundMet(t, s) || !s.allowDownscaling then t
      else match Downscale(w, h, s.downscaleStep, s.minDimensions)
        case None => t
        case Some(d) => t + OuterTrace(round + 1, d.0, d.1, left - 1, s, jpeg)
  }

  /** Every attempt was made in a round in [lo, hi). */
  predicate RoundsBetween(t: seq<Attempt>, lo: nat, hi: int)
  {
    forall i :: 0 <= i < |t| ==> lo <= t[i].round < hi
  }

  /** Rounds never go back. */
  predicate RoundsOrdered(t: seq<Attempt>)
  {
    forall i, j :: 0 <= i < j < |t| ==> t[i].round <= t[j].round
  }

  /** One round followed by later rounds keeps the round bounds. */
  lemma RoundsBetweenConcat(a: seq<Attempt>, b: seq<Attempt>, round: nat, w: int, h: int, hi: int)
    requires AtScale(a, round, w, h) && hi > round && RoundsBetween(b, round + 1, hi)
    ensures RoundsBetween(a + b, round, hi)
  {
    var t := a + b;
    forall i | 0 <= i < |t|
      ensures t[i] == if i < |a| then a[i] else b[i - |a|]
    {
    }
  }

  /** One round followed by ordered later rounds stays ordered. */
  lemma RoundsOrderedConcat(a: seq<Attempt>, b: seq<Attempt>, round: nat, w: int, h: int, hi: int)
    requires AtScale(a, round, w, h) && RoundsBetween(b, round + 1, hi) && RoundsOrdered(b)
    ensures RoundsOrdered(a + b)
  {
    var t := a + b;
    forall i | 0 <= i < |t|
      ensures t[i] == if i < |a| then a[i] else b[i - |a|]
    {
    }
  }

  /** A search that ends after its first round stays within its rounds. */
  lemma RoundsBetweenBase(round: nat, w: int, h: int, left: nat, s: Settings, jpeg: JpegEncoder)
    requires s.qualityStep >= 1 && left >= 1
    requires OuterTrace(round, w, h, left, s, jpeg) == InnerTrace(round, w, h, s.maxQuality, s, jpeg)
    ensures RoundsBetween(OuterTrace(round, w, h, left, s, jpeg), round, round + left)
  {
    InnerTraceAtScale(round, w, h, s.maxQuality, s, jpeg);
  }

  /** A search that ends after its first round is ordered by round. */
  lemma RoundsOrderedBase(round: nat, w: int, h: int, left: nat, s: Settings, jpeg: JpegEncoder)
    requires s.qualityStep >= 1 && left >= 1
    requires OuterTrace(round, w, h, left, s, jpeg) == InnerTrace(round, w, h, s.maxQuality, s, jpeg)
    ensures RoundsOrdered(OuterTrace(round, w, h, left, s, jpeg))
  {
    InnerTraceAtScale(round, w, h, s.maxQuality, s, jpeg);
  }

  /** A search that ends after its first round has no later round. */
  lemma LaterRoundsBase(round: nat, w: int, h: int, left: nat, s: Settings, jpeg: JpegEncoder)
    requires s.qualityStep >= 1 && left >= 1
    requires OuterTrace(round, w, h, left, s, jpeg) == InnerTrace(round, w, h, s.maxQuality, s, jpeg)
    ensures LaterRoundsWithin(OuterTrace(round, w, h, left, s, jpeg), round, s.minDimensions)
  {
    InnerTraceAtScale(round, w, h, s.maxQuality, s, jpeg);
  }

  /** A search that ends after its first round never changes round. */
  lemma ShrinksBase(round: nat, w: int, h: int, left: nat, s: Settings, jpeg: JpegEncoder)
    requires s.qualityStep >= 1 && left >= 1
    requires OuterTrace(round, w, h, left, s, jpeg) == InnerTrace(round, w, h, s.maxQuality, s, jpeg)
    ensures ShrinksBetweenRounds(OuterTrace(round, w, h, left, s, jpeg))
  {
    InnerTraceAtScale(round, w, h, s.maxQuality, s, jpeg);
  }

  /** A search that ends after its first round descends in quality. */
  lemma DescendsBase(round: nat, w: int, h: int, left: nat, s: Settings, jpeg: JpegEncoder)
    requires s.qualityStep >= 1 && left >= 1
    requires OuterTrace(round, w, h, left, s, jpeg) == InnerTrace(round, w, h, s.maxQuality, s, jpeg)
    ensures DescendsWithinRounds(OuterTrace(round, w, h, left, s, jpeg))
  {
    InnerTraceStrictlyDescends(round, w, h, s.maxQuality, s, jpeg);
  }

  /** Rounds are numbered from `round` on and stay below `round + left`. */
  lemma {:induction false} OuterTraceRoundsBetween(round: nat, w: int, h: int, left: nat, s: Settings, jpeg: JpegEncoder)
    requires s.qualityStep >= 1
    ensures RoundsBetween(OuterTrace(round, w, h, left, s, jpeg), round, round + left)
    decreases left
  {
    if left > 0 {
      var more, d := OuterTraceStep(round, w, h, left, s, jpeg);
      if more {
        OuterTraceRoundsBetween(round + 1, d.0, d.1, left - 1, s, jpeg);
        RoundsBetweenStep(round, w, h, left, s, jpeg, d);
      } else {
        RoundsBetweenBase(round, w, h, left, s, jpeg);
      }
    }
  }

  /** A round followed by a search one round later within its rounds stays
      within the rounds. */
  lemma RoundsBetweenStep(round: nat, w: int, h: int, left: nat, s: Settings, jpeg: JpegEncoder, d: (int, int))
    requires s.qualityStep >= 1 && left >= 1
    requires OuterTrace(round, w, h, left, s, jpeg) ==
             InnerTrace(round, w, h, s.maxQuality, s, jpeg) + OuterTrace(round + 1, d.0, d.1, left - 1, s, jpeg)
    requires RoundsBetween(OuterTrace(round + 1, d.0, d.1, left - 1, s, jpeg), round + 1, round + 1 + (left - 1))
    ensures RoundsBetween(OuterTrace(round, w, h, left, s, jpeg), round, round + left)
  {
    var inner := InnerTrace(round, w, h, s.maxQuality, s, jpeg);
    var rest := OuterTrace(round + 1, d.0, d.1, left - 1, s, jpeg);
    InnerTraceAtScale(round, w, h, s.maxQuality, s, jpeg);
    assert round + 1 + (left - 1) == round + left;
    RoundsBetweenConcat(inner, rest, round, w, h, round + left);
  }

  /** Rounds never go back. */
  lemma {:induction false} OuterTraceRoundsOrdered(round: nat, w: int, h: int, left: nat, s: Settings, jpeg: JpegEncoder)
    requires s.qualityStep >= 1
    ensures RoundsOrdered(OuterTrace(round, w, h, left, s, jpeg))
    decreases left
  {
    if left > 0 {
      var more, d := OuterTraceStep(round, w, h, left, s, jpeg);
      if more {
        OuterTraceRoundsOrdered(round + 1, d.0, d.1, left - 1, s, jpeg);
        RoundsOrderedStep(round, w, h, left, s, jpeg, d);
      } else {
        RoundsOrderedBase(round, w, h, left, s, jpeg);
      }
    }
  }

  /** A round followed by an ordered search one round later is ordered. */
  lemma RoundsOrderedStep(round: nat, w: int, h: int, left: nat, s: Settings, jpeg: JpegEncoder, d: (int, int))
    requires s.qualityStep >= 1 && left >= 1
    requires OuterTrace(round, w, h, left, s, jpeg) ==
             InnerTrace(round, w, h, s.maxQuality, s, jpeg) + OuterTrace(round + 1, d.0, d.1, left - 1, s, jpeg)
    requires RoundsOrdered(OuterTrace(round + 1, d.0, d.1, left - 1, s, jpeg))
    ensures RoundsOrdered(OuterTrace(round, w, h, left, s, jpeg))
  {
    var inner := InnerTrace(round, w, h, s.maxQuality, s, jpeg);
    var rest := OuterTrace(round + 1, d.0, d.1, left - 1, s, jpeg);
    InnerTraceAtScale(round, w, h, s.maxQuality, s, jpeg);
    OuterTraceRoundsBetween(round + 1, d.0, d.1, left - 1, s, jpeg);
    RoundsOrderedConcat(inner, rest, round, w, h, round + 1 + (left - 1));
  }

  /** With an empty quality range nothing is encoded at all. */
  lemma {:induction false} OuterTraceEmpty(round: nat, w: int, h: int, left: nat, s: Settings, jpeg: JpegEncoder)
    requires s.qualityStep >= 1 && s.minQuality > s.maxQuality
    ensures OuterTrace(round, w, h, left, s, jpeg) == []
    decreases left
  {
    if left > 0 {
      var more, d := OuterTraceStep(round, w, h, left, s, jpeg);
      if more {
        OuterTraceEmpty(round + 1, d.0, d.1, left - 1, s, jpeg);
      }
    }
  }

  /** Every quality lies within [minQuality, maxQuality] and every payload
      is the encoder's output for its attempt. */
  predicate QualitiesWithin(t: seq<Attempt>, s: Settings, jpeg: JpegEncoder)
  {
    forall a :: a in t ==>
      s.minQuality <= a.quality <= s.maxQuality && a.bytes == jpeg(a.width, a.height, a.quality)
  }

  lemma {:induction false} OuterTraceQualities(round: nat, w: int, h: int, left: nat, s: Settings, jpeg: JpegEncoder)
    requires s.qualityStep >= 1
    ensures QualitiesWithin(OuterTrace(round, w, h, left, s, jpeg), s, jpeg)
    decreases left
  {
    if left > 0 {
      var inner := InnerTrace(round, w, h, s.maxQuality, s, jpeg);
      InnerTraceEncoded(round, w, h, s.maxQuality, s, jpeg);
      assert QualitiesWithin(inner, s, jpeg);
      var more, d := OuterTraceStep(round, w, h, left, s, jpeg);
      if more {
        OuterTraceQualities(round + 1, d.0, d.1, left - 1, s, jpeg);
      }
    }
  }

  /** Attempts of the same round come in strictly descending quality. */
  predicate DescendsWithinRounds(t: seq<Attempt>)
  {
    forall i, j :: 0 <= i < j < |t| && t[i].round == t[j].round ==> t[i].quality > t[j].quality
  }

  lemma DescendsWithinRoundsConcat(a: seq<Attempt>, b: seq<Attempt>, round: nat, w: int, h: int, hi: int)
    requires StrictlyDescending(a) && AtScale(a, round, w, h)
    requires DescendsWithinRounds(b) && RoundsBetween(b, round + 1, hi)
    ensures DescendsWithinRounds(a + b)
  {
    var t := a + b;
    forall i, j | 0 <= i < j < |t| && t[i].round == t[j].round
      ensures t[i].quality > t[j].quality
    {
      if i >= |a| {
        assert t[i] == b[i - |a|] && t[j] == b[j - |a|];
      }
    }
  }

  /** Within one round the qualities strictly descend. */
  lemma {:induction false} OuterTraceQualitiesDescend(round: nat, w: int, h: int, left: nat, s: Settings, jpeg: JpegEncoder)
    requires s.qualityStep >= 1
    ensures DescendsWithinRounds(OuterTrace(round, w, h, left, s, jpeg))
    decreases left
  {
    if left > 0 {
      var more, d := OuterTraceStep(round, w, h, left, s, jpeg);
      if more {
        OuterTraceQualitiesDescend(round + 1, d.0, d.1, left - 1, s, jpeg);
        DescendsStep(round, w, h, left, s, jpeg, d);
      } else {
        DescendsBase(round, w, h, left, s, jpeg);
      }
    }
  }

  /** A round followed by a search one round later that descends within its
      rounds descends within its rounds. */
  lemma DescendsStep(round: nat, w: int, h: int, left: nat, s: Settings, jpeg: JpegEncoder, d: (int, int))
    requires s.qualityStep >= 1 && left >= 1
    requires OuterTrace(round, w, h, left, s, jpeg) ==
             InnerTrace(round, w, h, s.maxQuality, s, jpeg) + OuterTrace(round + 1, d.0, d.1, left - 1, s, jpeg)
    requires DescendsWithinRounds(OuterTrace(round + 1, d.0, d.1, left - 1, s, jpeg))
    ensures DescendsWithinRounds(OuterTrace(round, w, h, left, s, jpeg))
  {
    var inner := InnerTrace(round, w, h, s.maxQuality, s, jpeg);
    var rest := OuterTrace(round + 1, d.0, d.1, left - 1, s, jpeg);
    InnerTraceAtScale(round, w, h, s.maxQuality, s, jpeg);
    InnerTraceStrictlyDescends(round, w, h, s.maxQuality, s, jpeg);
    OuterTraceRoundsBetween(round + 1, d.0, d.1, left - 1, s, jpeg);
    DescendsWithinRoundsConcat(inner, rest, round, w, h, round + 1 + (left - 1));
  }

  lemma MissesBeforeLastConcat(a: seq<Attempt>, b: seq<Attempt>, s: Settings)
    requires MissesBeforeLast(a, s) && !RoundMet(a, s) && MissesBeforeLast(b, s)
    ensures MissesBeforeLast(a + b, s)
  {
    forall i | 0 <= i < |a + b| - 1 ensures !Fits((a + b)[i], s) {
      if i < |a| {
        assert (a + b)[i] == a[i];
      } else {
        assert (a + b)[i] == b[i - |a|];
      }
    }
  }

  /** The search stops at the first payload within the budget: every encoding
      but the last one missed it. */
  lemma {:induction false} OuterTraceStopsAtFirstFit(round: nat, w: int, h: int, left: nat, s: Settings, jpeg: JpegEncoder)
    requires s.qualityStep >= 1
    ensures MissesBeforeLast(OuterTrace(round, w, h, left, s, jpeg), s)
    decreases left
  {
    if left > 0 {
      var inner := InnerTrace(round, w, h, s.maxQuality, s, jpeg);
      InnerTraceStops(round, w, h, s.maxQuality, s, jpeg);
      var more, d := OuterTraceStep(round, w, h, left, s, jpeg);
      if more {
        var rest := OuterTrace(round + 1, d.0, d.1, left - 1, s, jpeg);
        OuterTraceStopsAtFirstFit(round + 1, d.0, d.1, left - 1, s, jpeg);
        MissesBeforeLastConcat(inner, rest, s);
      }
    }
  }

  /** Every attempt works at a size within the minimum dimensions, with at
      least one pixel on each axis. */
  predicate WithinMinimums(t: seq<Attempt>, minDimensions: (int, int))
  {
    forall i :: 0 <= i < |t| ==>
      t[i].width >= minDimensions.0 && t[i].height >= minDimensions.1 &&
      t[i].width >= 1 && t[i].height >= 1
  }

  /** Attempts after round `round` respect the minimum dimensions. */
  predicate LaterRoundsWithin(t: seq<Attempt>, round: nat, minDimensions: (int, int))
  {
    forall i :: 0 <= i < |t| && t[i].round > round ==>
      t[i].width >= minDimensions.0 && t[i].height >= minDimensions.1 &&
      t[i].width >= 1 && t[i].height >= 1
  }

  lemma AtScaleWithin(t: seq<Attempt>, round: nat, w: int, h: int, minDimensions: (int, int))
    requires AtScale(t, round, w, h)
    requires w >= minDimensions.0 && h >= minDimensions.1 && w >= 1 && h >= 1
    ensures WithinMinimums(t, minDimensions)
  {
  }

  lemma WithinConcat(a: seq<Attempt>, b: seq<Attempt>, minDimensions: (int, int))
    requires WithinMinimums(a, minDimensions) && WithinMinimums(b, minDimensions)
    ensures WithinMinimums(a + b, minDimensions)
  {
    var t := a + b;
    forall i | 0 <= i < |t|
      ensures t[i] == if i < |a| then a[i] else b[i - |a|]
    {
    }
  }

  lemma LaterRoundsConcat(a: seq<Attempt>, b: seq<Attempt>, round: nat, w: int, h: int, minDimensions: (int, int))
    requires AtScale(a, round, w, h) && WithinMinimums(b, minDimensions)
    ensures LaterRoundsWithin(a + b, round, minDimensions)
  {
    var t := a + b;
    forall i | 0 <= i < |t|
      ensures t[i] == if i < |a| then a[i] else b[i - |a|]
    {
    }
  }

  /** A search that starts within the minimums stays within them: every
      downscale step is floored at the minimums. */
  lemma {:induction false} OuterTraceKeepsMinimums(round: nat, w: int, h: int, left: nat, s: Settings, jpeg: JpegEncoder)
    requires s.qualityStep >= 1
    requires w >= s.minDimensions.0 && h >= s.minDimensions.1 && w >= 1 && h >= 1
    ensures WithinMinimums(OuterTrace(round, w, h, left, s, jpeg), s.minDimensions)
    decreases left
  {
    if left > 0 {
      var inner := InnerTrace(round, w, h, s.maxQuality, s, jpeg);
      InnerTraceAtScale(round, w, h, s.maxQuality, s, jpeg);
      AtScaleWithin(inner, round, w, h, s.minDimensions);
      var more, d := OuterTraceStep(round, w, h, left, s, jpeg);
      if more {
        var rest := OuterTrace(round + 1, d.0, d.1, left - 1, s, jpeg);
        OuterTraceKeepsMinimums(round + 1, d.0, d.1, left - 1, s, jpeg);
        WithinConcat(inner, rest, s.minDimensions);
      }
    }
  }

  /** Every round after the first works at a downscaled size, which respects
      the minimum dimensions, whatever the size the search started at. */
  lemma OuterTraceLaterRoundsWithin(round: nat, w: int, h: int, left: nat, s: Settings, jpeg: JpegEncoder)
    requires s.qualityStep >= 1
    ensures LaterRoundsWithin(OuterTrace(round, w, h, left, s, jpeg), round, s.minDimensions)
  {
    if left > 0 {
      var more, d := OuterTraceStep(round, w, h, left, s, jpeg);
      if more {
        OuterTraceKeepsMinimums(round + 1, d.0, d.1, left - 1, s, jpeg);
        LaterRoundsStep(round, w, h, left, s, jpeg, d);
      } else {
        LaterRoundsBase(round, w, h, left, s, jpeg);
      }
    }
  }

  /** A round followed by a search within the minimums keeps every later
      round within them. */
  lemma LaterRoundsStep(round: nat, w: int, h: int, left: nat, s: Settings, jpeg: JpegEncoder, d: (int, int))
    requires s.qualityStep >= 1 && left >= 1
    requires OuterTrace(round, w, h, left, s, jpeg) ==
             InnerTrace(round, w, h, s.maxQuality, s, jpeg) + OuterTrace(round + 1, d.0, d.1, left - 1, s, jpeg)
    requires WithinMinimums(OuterTrace(round + 1, d.0, d.1, left - 1, s, jpeg), s.minDimensions)
    ensures LaterRoundsWithin(OuterTrace(round, w, h, left, s, jpeg), round, s.minDimensions)
  {
    var inner := InnerTrace(round, w, h, s.maxQuality, s, jpeg);
    var rest := OuterTrace(round + 1, d.0, d.1, left - 1, s, jpeg);
    InnerTraceAtScale(round, w, h, s.maxQuality, s, jpeg);
    LaterRoundsConcat(inner, rest, round, w, h, s.minDimensions);
  }

  /** The first attempt, if any, was made in round `round` at `w` x `h`. */
  predicate StartsAt(t: seq<Attempt>, round: nat, w: int, h: int)
  {
    t != [] ==> t[0].round == round && t[0].width == w && t[0].height == h
  }

  lemma OuterTraceStarts(round: nat, w: int, h: int, left: nat, s: Settings, jpeg: JpegEncoder)
    requires s.qualityStep >= 1
    ensures StartsAt(OuterTrace(round, w, h, left, s, jpeg), round, w, h)
  {
    if s.minQuality > s.maxQuality {
      OuterTraceEmpty(round, w, h, left, s, jpeg);
    }
  }

  /** Where the round changes between neighbours, it grows by one and the
      size shrinks along at least one axis. */
  ghost predicate ShrinksBetweenRounds(t: seq<Attempt>)
  {
    forall i, j :: 0 <= i && j == i + 1 && j < |t| && t[j].round != t[i].round ==>
      t[j].round == t[i].round + 1 && (t[j].width < t[i].width || t[j].height < t[i].height)
  }

  /** One round at `w` x `h` followed by later rounds that start one round
      later at a smaller size keeps the shrink facts. */
  lemma ShrinksConcat(a: seq<Attempt>, b: seq<Attempt>, round: nat, w: int, h: int, d: (int, int))
    requires AtScale(a, round, w, h) && StartsAt(b, round + 1, d.0, d.1)
    requires d.0 < w || d.1 < h
    requires ShrinksBetweenRounds(b)
    ensures ShrinksBetweenRounds(a + b)
  {
    var t := a + b;
    forall i, j | 0 <= i && j == i + 1 && j < |t| && t[j].round != t[i].round
      ensures t[j].round == t[i].round + 1 && (t[j].width < t[i].width || t[j].height < t[i].height)
    {
      if i >= |a| {
        assert t[i] == b[i - |a|] && t[j] == b[j - |a|];
      }
    }
  }

  /** Each new round is strictly smaller than the one before it along at
      least one axis. */
  lemma {:induction false} OuterTraceShrinks(round: nat, w: int, h: int, left: nat, s: Settings, jpeg: JpegEncoder)
    requires s.qualityStep >= 1
    ensures ShrinksBetweenRounds(OuterTrace(round, w, h, left, s, jpeg))
    decreases left
  {
    if left > 0 {
      var more, d := OuterTraceStep(round, w, h, left, s, jpeg);
      if more {
        OuterTraceShrinks(round + 1, d.0, d.1, left - 1, s, jpeg);
        ShrinksStep(round, w, h, left, s, jpeg, d);
      } else {
        ShrinksBase(round, w, h, left, s, jpeg);
      }
    }
  }

  /** A round followed by a smaller search one round later that shrinks
      between its rounds shrinks between its rounds. */
  lemma ShrinksStep(round: nat, w: int, h: int, left: nat, s: Settings, jpeg: JpegEncoder, d: (int, int))
    requires s.qualityStep >= 1 && left >= 1 && (d.0 < w || d.1 < h)
    requires OuterTrace(round, w, h, left, s, jpeg) ==
             InnerTrace(round, w, h, s.maxQuality, s, jpeg) + OuterTrace(round + 1, d.0, d.1, left - 1, s, jpeg)
    requires ShrinksBetweenRounds(OuterTrace(round + 1, d.0, d.1, left - 1, s, jpeg))
    ensures ShrinksBetweenRounds(OuterTrace(round, w, h, left, s, jpeg))
  {
    var inner := InnerTrace(round, w, h, s.maxQuality, s, jpeg);
    var rest := OuterTrace(round + 1, d.0, d.1, left - 1, s, jpeg);
    InnerTraceAtScale(round, w, h, s.maxQuality, s, jpeg);
    OuterTraceStarts(round + 1, d.0, d.1, left - 1, s, jpeg);
    ShrinksConcat(inner, rest, round, w, h, d);
  }

  /** Where the round changes between neighbours, the new round runs at the
      size the downscale step gives for the previous one. */
  ghost predicate DownscaledBetweenRounds(t: seq<Attempt>, s: Settings)
  {
    forall i, j :: 0 <= i && j == i + 1 && j < |t| && t[j].round != t[i].round ==>
      Downscale(t[i].width, t[i].height, s.downscaleStep, s.minDimensions) == Some((t[j].width, t[j].height))
  }

  /** One round at `w` x `h` followed by later rounds that start at its
      downscaled size keeps the downscale facts. */
  lemma DownscaledConcat(a: seq<Attempt>, b: seq<Attempt>, round: nat, w: int, h: int, d: (int, int), s: Settings)
    requires AtScale(a, round, w, h) && StartsAt(b, round + 1, d.0, d.1)
    requires Downscale(w, h, s.downscaleStep, s.minDimensions) == Some(d)
    requires DownscaledBetweenRounds(b, s)
    ensures DownscaledBetweenRounds(a + b, s)
  {
    var t := a + b;
    forall i, j | 0 <= i && j == i + 1 && j < |t| && t[j].round != t[i].round
      ensures Downscale(t[i].width, t[i].height, s.downscaleStep, s.minDimensions) == Some((t[j].width, t[j].height))
    {
      if i >= |a| {
        assert t[i] == b[i - |a|] && t[j] == b[j - |a|];
      }
    }
  }

  /** A search that ends after its first round never changes round. */
  lemma DownscaledBase(round: nat, w: int, h: int, left: nat, s: Settings, jpeg: JpegEncoder)
    requires s.qualityStep >= 1 && left >= 1
    requires OuterTrace(round, w, h, left, s, jpeg) == InnerTrace(round, w, h, s.maxQuality, s, jpeg)
    ensures DownscaledBetweenRounds(OuterTrace(round, w, h, left, s, jpeg), s)
  {
    InnerTraceAtScale(round, w, h, s.maxQuality, s, jpeg);
  }

  /** A round followed by the search at its downscaled size keeps the
      downscale facts. */
  lemma DownscaledStep(round: nat, w: int, h: int, left: nat, s: Settings, jpeg: JpegEncoder, d: (int, int))
    requires s.qualityStep >= 1 && left >= 1
    requires Downscale(w, h, s.downscaleStep, s.minDimensions) == Some(d)
    requires OuterTrace(round, w, h, left, s, jpeg) ==
             InnerTrace(round, w, h, s.maxQuality, s, jpeg) + OuterTrace(round + 1, d.0, d.1, left - 1, s, jpeg)
    requires DownscaledBetweenRounds(OuterTrace(round + 1, d.0, d.1, left - 1, s, jpeg), s)
    ensures DownscaledBetweenRounds(OuterTrace(round, w, h, left, s, jpeg), s)
  {
    var inner := InnerTrace(round, w, h, s.maxQuality, s, jpeg);
    var rest := OuterTrace(round + 1, d.0, d.1, left - 1, s, jpeg);
    InnerTraceAtScale(round, w, h, s.maxQuality, s, jpeg);
    OuterTraceStarts(round + 1, d.0, d.1, left - 1, s, jpeg);
    DownscaledConcat(inner, rest, round, w, h, d, s);
  }

  /** Each new round runs at the downscaled size of the round before it. */
  lemma {:induction false} OuterTraceDownscaled(round: nat, w: int, h: int, left: nat, s: Settings, jpeg: JpegEncoder)
    requires s.qualityStep >= 1
    ensures DownscaledBetweenRounds(OuterTrace(round, w, h, left, s, jpeg), s)
    decreases left
  {
    if left > 0 {
      var more, d := OuterTraceStep(round, w, h, left, s, jpeg);
      if more {
        OuterTraceDownscaled(round + 1, d.0, d.1, left - 1, s, jpeg);
        DownscaledStep(round, w, h, left, s, jpeg, d);
      } else {
        DownscaledBase(round, w, h, left, s, jpeg);
      }
    }
  }

  /** The engine's result: output path, pixel size, format and size in KB. */
  datatype Output = Output(path: string, width: int, height: int, format: Format, sizeKb: real)

  /** What the whole optimisation returns. The JPEG payload is always the last
      attempt: the search stops right after the first one within the budget. */
  function OptimizeSpec(img: Image, stub: string, s: Settings, jpeg: JpegEncoder, png: PngEncoder): Option<Output>
    requires img.Decoded() && s.qualityStep >= 1
  {
    var resized := ResizeToFit(img, s.maxDimensions);
    if ChooseTarget(resized, s).0 == PNG then
      Some(Output(NormalizeOutputPath(stub, "png"), resized.width, resized.height, PNG,
                  png(resized.width, resized.height) as real / 1024.0))
    else
      var t := OuterTrace(0, resized.width, resized.height, Rounds(s), s, jpeg);
      if t == [] then None
      else
        var a := t[|t| - 1];
        Some(Output(NormalizeOutputPath(stub, "jpg"), a.width, a.height, JPEG, a.bytes as real / 1024.0))
  }

  /** The JPEG search of a picture, as the list of its encodings. */
  function SearchTrace(img: Image, s: Settings, jpeg: JpegEncoder): seq<Attempt>
    requires img.Decoded() && s.qualityStep >= 1
  {
    var resized := ResizeToFit(img, s.maxDimensions);
    OuterTrace(0, resized.width, resized.height, Rounds(s), s, jpeg)
  }

  /** If any encoding the search made is within the budget, the returned
      payload is within the budget. */
  lemma OptimizeMeetsBudgetIfAnyAttemptDoes(img: Image, stub: string, s: Settings, jpeg: JpegEncoder, png: PngEncoder, k: nat)
    requires img.Decoded() && s.qualityStep >= 1
    requires ChooseTarget(ResizeToFit(img, s.maxDimensions), s).0 == JPEG
    requires k < |SearchTrace(img, s, jpeg)| && Fits(SearchTrace(img, s, jpeg)[k], s)
    ensures OptimizeSpec(img, stub, s, jpeg, png).Some?
    ensures OptimizeSpec(img, stub, s, jpeg, png).value.sizeKb <= s.maxSizeKb as real
  {
    var resized := ResizeToFit(img, s.maxDimensions);
    OuterTraceStopsAtFirstFit(0, resized.width, resized.height, Rounds(s), s, jpeg);
    var t := SearchTrace(img, s, jpeg);
    assert k == |t| - 1;
    var a := t[|t| - 1];
    assert a.bytes as real <= (s.maxSizeKb * 1024) as real;
  }

  /** Whenever the quality range is not empty, as construction guarantees,
      the search always yields a payload, even when no encoding met the
      budget: a miss degrades to the last attempt. */
  lemma OptimizeNeverFailsWithClampedOptions(img: Image, stub: string, s: Settings, jpeg: JpegEncoder, png: PngEncoder)
    requires img.Decoded() && s.qualityStep >= 1 && s.minQuality <= s.maxQuality
    ensures OptimizeSpec(img, stub, s, jpeg, png).Some?
  {
    var resized := ResizeToFit(img, s.maxDimensions);
    var t := OuterTrace(0, resized.width, resized.height, Rounds(s), s, jpeg);
    assert t != [];
  }

  /** The search runs at most `max(1, iterations + 1)` rounds, never goes below
      the minimum quality, tries qualities in strictly descending order within
      a round and finishes a round before the next scale. */
  lemma SearchIsBounded(img: Image, s: Settings, jpeg: JpegEncoder)
    requires img.Decoded() && s.qualityStep >= 1
    ensures forall a :: a in SearchTrace(img, s, jpeg) ==>
              a.round < Rounds(s) && s.minQuality <= a.quality <= s.maxQuality
    ensures forall i, j :: 0 <= i < j < |SearchTrace(img, s, jpeg)| ==>
              SearchTrace(img, s, jpeg)[i].round <= SearchTrace(img, s, jpeg)[j].round
    ensures forall i, j :: (0 <= i < j < |SearchTrace(img, s, jpeg)| &&
              SearchTrace(img, s, jpeg)[i].round == SearchTrace(img, s, jpeg)[j].round) ==>
              SearchTrace(img, s, jpeg)[i].quality > SearchTrace(img, s, jpeg)[j].quality
  {
    var resized := ResizeToFit(img, s.maxDimensions);
    OuterTraceRoundsBetween(0, resized.width, resized.height, Rounds(s), s, jpeg);
    OuterTraceRoundsOrdered(0, resized.width, resized.height, Rounds(s), s, jpeg);
    OuterTraceQualities(0, resized.width, resized.height, Rounds(s), s, jpeg);
    OuterTraceQualitiesDescend(0, resized.width, resized.height, Rounds(s), s, jpeg);
  }

  /** The search starts at the resized picture, and every later round runs
      at the size one downscale step gives for the round before it. */
  lemma SearchRoundsFollowDownscale(img: Image, s: Settings, jpeg: JpegEncoder)
    requires img.Decoded() && s.qualityStep >= 1
    ensures StartsAt(SearchTrace(img, s, jpeg), 0, ResizeToFit(img, s.maxDimensions).width,
                     ResizeToFit(img, s.maxDimensions).height)
    ensures DownscaledBetweenRounds(SearchTrace(img, s, jpeg), s)
  {
    var resized := ResizeToFit(img, s.maxDimensions);
    OuterTraceStarts(0, resized.width, resized.height, Rounds(s), s, jpeg);
    OuterTraceDownscaled(0, resized.width, resized.height, Rounds(s), s, jpeg);
  }

  /** With downscaling off the search runs one round only, at the resized
      size. */
  lemma SearchWithoutDownscalingKeepsScale(img: Image, s: Settings, jpeg: JpegEncoder)
    requires img.Decoded() && s.qualityStep >= 1 && !s.allowDownscaling
    ensures AtScale(SearchTrace(img, s, jpeg), 0, ResizeToFit(img, s.maxDimensions).width,
                    ResizeToFit(img, s.maxDimensions).height)
  {
    var resized := ResizeToFit(img, s.maxDimensions);
    OuterTraceUnfold(0, resized.width, resized.height, Rounds(s), s, jpeg);
    InnerTraceAtScale(0, resized.width, resized.height, s.maxQuality, s, jpeg);
  }

  /** The last attempt of a trace, if any. */
  function LastOf(t: seq<Attempt>): Option<Attempt>
  {
    if t == [] then None else Some(t[|t| - 1])
  }

  /** The last attempt once the attempts `t` follow a search whose last
      attempt so far was `last`. */
  function Resume(last: Option<Attempt>, t: seq<Attempt>): Option<Attempt>
  {
    if t == [] then last else Some(t[|t| - 1])
  }

  lemma ResumeConcat(last: Option<Attempt>, a: seq<Attempt>, b: seq<Attempt>)
    ensures Resume(last, a + b) == Resume(Resume(last, a), b)
  {
  }

  lemma InnerTraceUnfold(round: nat, w: int, h: int, q: int, s: Settings, jpeg: JpegEncoder)
    requires s.qualityStep >= 1 && q >= s.minQuality
    ensures var a := Attempt(round, w, h, q, jpeg(w, h, q));
      InnerTrace(round, w, h, q, s, jpeg) ==
        if Fits(a, s) then [a] else [a] + InnerTrace(round, w, h, q - s.qualityStep, s, jpeg)
  {
  }

  lemma OuterTraceUnfold(round: nat, w: int, h: int, left: nat, s: Settings, jpeg: JpegEncoder)
    requires s.qualityStep >= 1 && left >= 1
    ensures var t := InnerTrace(round, w, h, s.maxQuality, s, jpeg);
      var next := Downscale(w, h, s.downscaleStep, s.minDimensions);
      OuterTrace(round, w, h, left, s, jpeg) ==
        if RoundMet(t, s) || !s.allowDownscaling || next.None? then t
        else t + OuterTrace(round + 1, next.value.0, next.value.1, left - 1, s, jpeg)
  {
  }

  /** One round of the search: either the search ends with this round's
      attempts, or it goes on one round later at a downscaled size `d` that
      respects the minimums and is smaller along some axis. */
  lemma OuterTraceStep(round: nat, w: int, h: int, left: nat, s: Settings, jpeg: JpegEncoder)
    returns (more: bool, d: (int, int))
    requires s.qualityStep >= 1 && left >= 1
    ensures !more ==> OuterTrace(round, w, h, left, s, jpeg) == InnerTrace(round, w, h, s.maxQuality, s, jpeg)
    ensures more ==> (OuterTrace(round, w, h, left, s, jpeg) ==
                      InnerTrace(round, w, h, s.maxQuality, s, jpeg) + OuterTrace(round + 1, d.0, d.1, left - 1, s, jpeg))
    ensures more ==> d.0 >= 1 && d.1 >= 1 && d.0 >= s.minDimensions.0 && d.1 >= s.minDimensions.1
    ensures more ==> d.0 < w || d.1 < h
    ensures more ==> !RoundMet(InnerTrace(round, w, h, s.maxQuality, s, jpeg), s)
    ensures more ==> Downscale(w, h, s.downscaleStep, s.minDimensions) == Some(d)
  {
    var next := Downscale(w, h, s.downscaleStep, s.minDimensions);
    more := !(RoundMet(InnerTrace(round, w, h, s.maxQuality, s, jpeg), s) || !s.allowDownscaling || next.None?);
    d := if more then next.value else (w, h);
  }

  /** The quality descent at one scale: encodes at max_quality, then lower
      by quality_step while at least min_quality, and stops at the first
      payload within the budget. Returns the last payload made (if any) and
      whether it met the budget. */
  method DescendQuality(s: Settings, round: nat, width: int, height: int, jpeg: JpegEncoder)
    returns (last: Option<Attempt>, met: bool)
    requires s.qualityStep >= 1
    ensures last == LastOf(InnerTrace(round, width, height, s.maxQuality, s, jpeg))
    ensures met == RoundMet(InnerTrace(round, width, height, s.maxQuality, s, jpeg), s)
  {
    ghost var goal := LastOf(InnerTrace(round, width, height, s.maxQuality, s, jpeg));
    last, met := None, false;
    var quality := s.maxQuality;
    while quality >= s.minQuality
      invariant !met && (last.None? || !Fits(last.value, s))
      invariant Resume(last, InnerTrace(round, width, height, quality, s, jpeg)) == goal
      decreases quality - s.minQuality
    {
      var size := jpeg(width, height, quality);
      InnerTraceUnfold(round, width, height, quality, s, jpeg);
      last := Some(Attempt(round, width, height, quality, size));
      if size <= s.maxSizeKb * 1024 {
        met := true;
        return;
      }
      quality := quality - s.qualityStep;
    }
  }

  /** One scale round of the JPEG search (the body of the outer loop): the
      quality descent at the current size, then, unless it met the budget or
      downscaling is off, the next smaller size. `stop` says whether the
      search ends after this round. */
  method SearchRound(s: Settings, round: nat, width: int, height: int, left: nat, jpeg: JpegEncoder,
                     lastIn: Option<Attempt>)
    returns (lastOut: Option<Attempt>, met: bool, stop: bool, next: (int, int))
    requires s.qualityStep >= 1 && left >= 1
    ensures met ==> stop && lastOut.Some? && Fits(lastOut.value, s)
    ensures stop ==> Resume(lastIn, OuterTrace(round, width, height, left, s, jpeg)) == lastOut
    ensures !stop ==> Resume(lastIn, OuterTrace(round, width, height, left, s, jpeg)) ==
                      Resume(lastOut, OuterTrace(round + 1, next.0, next.1, left - 1, s, jpeg))
  {
    ghost var inner := InnerTrace(round, width, height, s.maxQuality, s, jpeg);
    var roundLast;
    roundLast, met := DescendQuality(s, round, width, height, jpeg);
    lastOut := if roundLast.Some? then roundLast else lastIn;
    assert lastOut == Resume(lastIn, inner);
    OuterTraceUnfold(round, width, height, left, s, jpeg);
    next := (width, height);
    if met || !s.allowDownscaling {
      stop := true;
      return;
    }
    var downsized := Downscale(width, height, s.downscaleStep, s.minDimensions);
    if downsized.None? {
      stop := true;
      return;
    }
    stop, next := false, downsized.value;
    ResumeConcat(lastIn, inner, OuterTrace(round + 1, next.0, next.1, left - 1, s, jpeg));
  }

  /** The two-level JPEG search at a starting size: at most
      `max(1, iterations + 1)` rounds of quality descent with a downscale
      step between rounds; returns the first payload within the budget, or
      else the last one made. */
  method SearchJpeg(s: Settings, width: int, height: int, jpeg: JpegEncoder) returns (payload: Option<Attempt>)
    requires s.qualityStep >= 1
    ensures payload == LastOf(OuterTrace(0, width, height, Rounds(s), s, jpeg))
  {
    var bestPayload: Option<Attempt> := None;
    var lastPayload: Option<Attempt> := None;
    var currentW, currentH := width, height;
    var rounds := Max(1, s.maxDownscaleIterations + 1);
    ghost var goal := LastOf(OuterTrace(0, width, height, rounds, s, jpeg));

    for round := 0 to rounds
      invariant bestPayload == None
      invariant Resume(lastPayload, OuterTrace(round, currentW, currentH, rounds - round, s, jpeg)) == goal
    {
      var met, stop, next;
      lastPayload, met, stop, next := SearchRound(s, round, currentW, currentH, rounds - round, jpeg, lastPayload);
      if met {
        bestPayload := lastPayload;
      }
      if stop {
        break;
      }
      currentW, currentH := next.0, next.1;
    }
    payload := if bestPayload.Some? then bestPayload else lastPayload;
  }

  /** The engine: resize, choose the format, then either one PNG encoding or
      the two-level JPEG search. */
  method Optimize(img: Image, stub: string, options: CompressionOptions, jpeg: JpegEncoder, png: PngEncoder)
    returns (r: Option<Output>)
    requires img.Decoded() && options.qualityStep >= 1
    ensures r == OptimizeSpec(img, stub, options.Snapshot(), jpeg, png)
  {
    var s := options.Snapshot();
    var resized := ResizeToFit(img, s.maxDimensions);
    var target := ChooseTarget(resized, s);
    if target.0 == PNG {
      var size := png(resized.width, resized.height);
      return Some(Output(NormalizeOutputPath(stub, "png"), resized.width, resized.height, PNG, size as real / 1024.0));
    }
    var payload := SearchJpeg(s, resized.width, resized.height, jpeg);
    if payload.None? {
      return None;
    }
    var a := payload.value;
    r := Some(Output(NormalizeOutputPath(stub, "jpg"), a.width, a.height, JPEG, a.bytes as real / 1024.0));
  }
}
