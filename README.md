# Picture compression and print layout for Excel workbooks, modelled in Dafny

This project models the decision logic inside three Python modules of an
Excel automation toolkit. It proves properties of that logic. The COM object
model, the raster library and the encoders are replaced by abstract values.

- `utils/compressor_engine_spire.py` is the size-budget engine:
  - the options record, whose construction clamps every numeric knob
    (`spire_options.dfy`, class `SpireOptions.CompressionOptions`);
  - output file naming with Windows extension rules (`spire_paths.dfy`);
  - the never-upscale fit into the maximum box and the per-axis downscale
    step (`spire_geometry.dfy`);
  - the PNG/JPEG choice and the bounded two-level JPEG search
    (`spire_engine.dfy`);
  - the skip-small-picture test and the scan for the original shape to
    delete (`spire_batch.dfy`).
  The search runs quality descent inside each scale and shrinks the scale
  between rounds. It is modelled twice:
  - as methods with loops (`DescendQuality`, `SearchRound`, `SearchJpeg`,
    `Optimize`);
  - as the list of encodings it makes (`InnerTrace`, `OuterTrace`).
  Each method is proved equal to the list's last element, and the search's
  promises are proved about the list.
- `utils/compressor_engine_pil.py` is the clipboard engine:
  - the tri-state aspect-lock normalisation and the order in which a shape
    snapshot is written back onto the new picture (`pil_lock.dfy`, class
    `PilLock.Picture`);
  - construction of the options from legacy parameters (`pil_options.dfy`);
  - the preparation step: shrink, format resolution with its one fallback,
    colour-mode conversion and encoder parameters (`pil_prepare.dfy`);
  - collection of the back-to-front name list, renaming, and the
    bring-to-front replay (`pil_zorder.dfy`, class `PilZOrder.Sheet`).
- `utils/print_ops.py` holds the print-layout operations:
  - bijective base-26 column letters, with both round trips;
  - the title-range addresses, proved injective;
  - the validated orientation setter;
  - the per-sheet smart page setup, over `PageSetup` and `Worksheet`
    classes (`print_ops.dfy`).

The encoders are function parameters: `jpeg(w, h, q)` and `png(w, h)` give
the byte count of an encoding. Nothing is assumed about them. The budget test
`len / 1024 <= max_size_kb` is stated exactly as `bytes <= max_size_kb * 1024`.

Two points where the code is followed over its informal description:

- The temporary unlock before writing the size happens only when the
  snapshot is locked and the new picture's own lock is not 0. The comment
  above it promises a size that matches exactly. Excel's answer to a size
  write under an aspect lock is part of the model: writing one axis
  rescales the other by the same factor. So a snapshot that was not locked,
  put back on a picture that is, can come back with another width (see
  "## Findings").
- `from_legacy` compares the mode case-sensitively, while the preparation
  step lower-cases it. So mode "JPEG" does not carry the legacy quality into
  `jpeg_quality`, yet it still resolves to JPEG
  (`PilOptions.FromLegacyIgnoresUpperCaseMode`).

## Model

| member | source | states |
|---|---|---|
| Common.Trunc | utils/compressor_engine_spire.py:73 | `int()` of a real truncates toward zero: the result is within 1 of the input on the side of 0, and is the floor for non-negative inputs |
| Common.LowerAscii | utils/compressor_engine_spire.py:60 | lower-casing keeps the length and maps each character on its own: ASCII capitals become lower case, everything else is kept |
| Common.LowerAsciiIdempotent | utils/compressor_engine_spire.py:60 | lower-casing twice equals lower-casing once |
| SpireOptions.ClampedEstablishesRanges | utils/compressor_engine_spire.py:47-55 | after the clamps: 10 <= max_quality <= 100, 5 <= min_quality <= max_quality, quality_step >= 1, max_size_kb >= 10, png level in [0, 9], downscale step in [0.1, 0.95], iterations >= 0, skip threshold >= 0; unclamped fields unchanged; in-range values kept; a min_quality at or above the clamped maximum is pinned to it |
| SpireOptions.ClampedIdempotent | utils/compressor_engine_spire.py:47-55 | applying the clamps a second time changes nothing |
| SpireOptions.ClampedPinsMinQuality | utils/compressor_engine_spire.py:48-49 | min_quality 200 with the other defaults yields min_quality == max_quality == 90 |
| SpireOptions.OverrideKeepsRangeOnlyAboveFloor | utils/compressor_engine_spire.py:199-200 | assigning a budget to constructed options keeps every range if and only if the budget is at least 10 KB, because no clamp runs again |
| SpireOptions.CompressionOptions.constructor | utils/compressor_engine_spire.py:47-55 | the new record's fields are the clamped raw values |
| SpireOptions.CompressionOptions.PostInit | utils/compressor_engine_spire.py:47-55 | the post-initialisation hook turns the fields into their clamped values |
| SpireOptions.CompressionOptions.ClampQualities | utils/compressor_engine_spire.py:48-50 | clamps max_quality first, then min_quality against the new maximum, then the step; no other field changes |
| SpireOptions.CompressionOptions.ClampLimits | utils/compressor_engine_spire.py:51-55 | clamps the budget, png level, downscale step, iteration count and skip threshold; no other field changes |
| SpireOptions.CompressionOptions.OverrideMaxSize | utils/compressor_engine_spire.py:199-200 | only the budget changes, to the given value, without clamping |
| SpirePaths.SplitExt | utils/compressor_engine_spire.py:59 | base + extension is the path; the extension is empty or a dot followed by neither dots nor separators; a non-empty extension follows a non-dot character of the last component |
| SpirePaths.NormalizeOutputPathParts | utils/compressor_engine_spire.py:58-60 | the output is the stub's base (a prefix of the stub), then ".", then the lower-cased extension |
| SpirePaths.SplitExtOfDotted | utils/compressor_engine_spire.py:59 | splitting base + "." + plain extension gives back the base and the dotted extension when the base's last component is named |
| SpirePaths.NormalizeOutputPathIdempotent | utils/compressor_engine_spire.py:58-60 | normalising an already normalised path with the same extension returns it unchanged |
| SpireGeometry.FitRatio | utils/compressor_engine_spire.py:69 | the ratio lies in (0, 1], is at most both bound ratios, is below 1 exactly when an axis exceeds its bound, and then equals one of the bound ratios |
| SpireGeometry.ScaleAxis | utils/compressor_engine_spire.py:73 | a scaled axis lies between 1 and the original size |
| SpireGeometry.ScaleAxisWithin | utils/compressor_engine_spire.py:73 | an axis scaled by at most its bound ratio stays within the bound, and lands on it at exactly that ratio |
| SpireGeometry.ResizeToFit | utils/compressor_engine_spire.py:63-74 | never larger than the input; unchanged when a bound is not positive or the picture fits; otherwise within both bounds; mode and transparency kept |
| SpireGeometry.ResizeToFitUniform | utils/compressor_engine_spire.py:63-74 | both axes scale by the one ratio min(max_w / w, max_h / h, 1): each new axis lies within 1 pixel below d * ratio, or is 1 pixel when d * ratio is below 1 |
| SpireGeometry.ScaledAxisBracket | utils/compressor_engine_spire.py:73 | an axis scaled by a ratio below 1, truncated and floored at 1, lies within 1 pixel below the exact multiple, or is 1 pixel |
| SpireGeometry.ResizeToFitTouchesBox | utils/compressor_engine_spire.py:69-73 | a picture that does not fit ends with one axis exactly on its bound |
| SpireGeometry.ResizeToFitIdempotent | utils/compressor_engine_spire.py:63-74 | resizing into the same box twice equals resizing once |
| SpireGeometry.Downscale | utils/compressor_engine_spire.py:77-88 | a step, when taken, makes some axis strictly smaller, keeps both axes at least 1 and at least their minimums |
| SpireGeometry.DownscaleStopsAtMinimum | utils/compressor_engine_spire.py:77-88 | with a step below 1 and positive minimums, a step is taken if and only if some axis is above its minimum |
| SpireGeometry.DownscaleWidensNarrowAxis | utils/compressor_engine_spire.py:79-80 | an axis below its minimum is raised to it: 100 x 1200 becomes 320 x 1020 |
| SpireBatch.SkipSmallMonotone | utils/compressor_engine_spire.py:231-233 | a threshold of 0 never skips, and a skipped size stays skipped for every smaller size |
| SpireBatch.FindOriginal | utils/compressor_engine_spire.py:304-310 | returns the first shape within 5 points of the recorded position in both directions that is a picture; none is returned only when no shape matches |
| SpireEngine.ChooseTarget | utils/compressor_engine_spire.py:101-116 | PNG if and only if (alpha and not convert_png_to_jpeg) or (no alpha and prefer_png); PNG keeps the picture; JPEG with alpha flattens onto the replacement colour; a JPEG picture ends RGB or greyscale |
| SpireEngine.InnerTrace | utils/compressor_engine_spire.py:136-152 | a scale makes an encoding if and only if max_quality >= min_quality, and the first one is at the starting quality |
| SpireEngine.InnerTraceAtScale | utils/compressor_engine_spire.py:136-152 | every encoding of a round has that round's number and size |
| SpireEngine.InnerTraceEncoded | utils/compressor_engine_spire.py:137-148 | every quality tried lies in [min_quality, start], and every payload is the encoder's output for it |
| SpireEngine.InnerTraceDescends | utils/compressor_engine_spire.py:136-152 | qualities go start, start - step, ... and so strictly down |
| SpireEngine.InnerTraceStops | utils/compressor_engine_spire.py:149-152 | every encoding but the last missed the budget, and a last one that missed was made at the lowest quality allowed |
| SpireEngine.Rounds | utils/compressor_engine_spire.py:135 | the round count is at least 1 and at least iterations + 1 |
| SpireEngine.OuterTrace | utils/compressor_engine_spire.py:135-160 | with a round left and a non-empty quality range, the search starts with max_quality at the starting size |
| SpireEngine.OuterTraceRoundsBetween | utils/compressor_engine_spire.py:135-160 | every encoding is made in one of the allowed rounds |
| SpireEngine.OuterTraceRoundsOrdered | utils/compressor_engine_spire.py:135-160 | rounds never go back |
| SpireEngine.OuterTraceEmpty | utils/compressor_engine_spire.py:136-137 | with min_quality above max_quality nothing is encoded |
| SpireEngine.OuterTraceQualities | utils/compressor_engine_spire.py:136-148 | every quality tried lies in [min_quality, max_quality], and every payload is the encoder's output |
| SpireEngine.OuterTraceQualitiesDescend | utils/compressor_engine_spire.py:136-152 | within a round the qualities strictly descend |
| SpireEngine.OuterTraceStopsAtFirstFit | utils/compressor_engine_spire.py:149-155 | the search stops at the first payload within the budget: every earlier one missed it |
| SpireEngine.OuterTraceKeepsMinimums | utils/compressor_engine_spire.py:157-160 | starting at or above the minimum size, every encoding is at or above it |
| SpireEngine.OuterTraceLaterRoundsWithin | utils/compressor_engine_spire.py:157-160 | every encoding after the first round is at or above the minimum size, whatever the starting size |
| SpireEngine.OuterTraceStarts | utils/compressor_engine_spire.py:135-139 | a non-empty search starts in its first round at the starting size |
| SpireEngine.OuterTraceShrinks | utils/compressor_engine_spire.py:154-160 | where the round changes, it grows by one and the size shrinks along at least one axis |
| SpireEngine.OuterTraceDownscaled | utils/compressor_engine_spire.py:154-160 | wherever the round changes, the new round runs at the size one downscale step gives for the round before it |
| SpireEngine.SearchRoundsFollowDownscale | utils/compressor_engine_spire.py:131-160 | the search starts in round 0 at the resized picture, and each later round runs at the downscaled size of the round before |
| SpireEngine.SearchWithoutDownscalingKeepsScale | utils/compressor_engine_spire.py:135-155 | with allow_downscaling off, every encoding is made in round 0 at the resized size |
| SpireEngine.OptimizeMeetsBudgetIfAnyAttemptDoes | utils/compressor_engine_spire.py:131-171 | if any encoding met the budget, the result is within the budget |
| SpireEngine.OptimizeNeverFailsWithClampedOptions | utils/compressor_engine_spire.py:162-164 | whenever min_quality <= max_quality and the step is at least 1, as constructed options guarantee, the engine always returns a result: a miss falls back to the last attempt |
| SpireEngine.SearchIsBounded | utils/compressor_engine_spire.py:135-155 | every encoding is made in a round below max(1, iterations + 1) with a quality in [min, max]; rounds are ordered and qualities strictly descend within a round |
| SpireEngine.DescendQuality | utils/compressor_engine_spire.py:136-152 | the inner loop returns the last encoding of the quality descent, and whether it met the budget |
| SpireEngine.SearchRound | utils/compressor_engine_spire.py:136-160 | one outer iteration: met implies stop with a payload within the budget; the rest of the search continues from the next, smaller size |
| SpireEngine.SearchJpeg | utils/compressor_engine_spire.py:131-162 | the two loops return the last encoding of the whole search |
| SpireEngine.Optimize | utils/compressor_engine_spire.py:98-171 | resize, format choice, and then the single PNG encoding or the JPEG search, with the output path, size and KB of the chosen payload |
| PilLock.NormalizeLockCases | utils/compressor_engine_pil.py:106-131 | locked for True, -1 and 1; unlocked for False and 0; unknown for None, values `int()` rejects and every other integer |
| PilLock.NormalizeLockConsistent | utils/compressor_engine_pil.py:109-131 | the boolean is unknown if and only if the constant is absent; the constant is -1 exactly for True and 0 exactly for False |
| PilLock.NormalizeLockStable | utils/compressor_engine_pil.py:120-129 | normalising the produced constant gives the same pair back |
| PilLock.FinishPhase | utils/compressor_engine_pil.py:194-223 | placement, visibility, alternative text and hyperlink never write the lock |
| PilLock.RestoreWritesOrder | utils/compressor_engine_pil.py:157-192 | the unlock to 0 happens if and only if the snapshot is locked and the current lock is not 0, and comes right before the size; the lock is written at all if and only if the snapshot's lock is known |
| PilLock.RestoreWritesFinalLock | utils/compressor_engine_pil.py:174-192 | a known snapshot lock is the picture's final lock; an unknown one leaves the lock untouched |
| PilLock.WidthWritten | utils/compressor_engine_pil.py:169 | a width write sets the width; with lock 0 the height is kept, with any other lock the height keeps its ratio to the width |
| PilLock.HeightWritten | utils/compressor_engine_pil.py:170 | a height write sets the height; with lock 0 the width is kept, with any other lock the width keeps its ratio to the height |
| PilLock.SizeWritten | utils/compressor_engine_pil.py:169-170 | after the width and then the height are written, the height is the target's; with lock 0 the size is exactly the target |
| PilLock.SizeWrittenLocked | utils/compressor_engine_pil.py:155-170 | with the lock on, the width ends at the target height times the picture's old aspect, so the target survives if and only if it has the picture's aspect |
| PilLock.RestoredSizeExact | utils/compressor_engine_pil.py:155-178 | the snapshot's size is restored exactly under a temporary unlock or when the picture's lock is already 0 |
| PilLock.RestoredSizeUnderPictureLock | utils/compressor_engine_pil.py:155-178 | a snapshot not locked, on a picture that is locked, gets its height back and a width from the picture's own aspect; the width is right if and only if the aspects agree |
| PilLock.RestoreSizeMissesUnlockedSnapshot | utils/compressor_engine_pil.py:157-170 | a 200 x 100 snapshot whose lock was off, on a locked 100 x 100 picture, comes back 100 x 100 |
| PilLock.CorrectedRestoreSizeExact | utils/compressor_engine_pil.py:155-170 | with the unlock made whenever the picture's lock is not 0, the snapshot's size is always restored |
| PilLock.Picture.ApplyProps | utils/compressor_engine_pil.py:134-223 | the writes made are the restore sequence, and the picture ends with the snapshot's name, position, the size the lock-aware writes leave, rotation (when not 0), lock (when known), placement (when given), visibility, alternative text (empty when absent) and hyperlink (when it has an address) |
| PilLock.Picture.RestoreLockPhase | utils/compressor_engine_pil.py:142-192 | name, position, size, rotation and lock are written in that order; the size is the one the width and height writes leave under the lock in force |
| PilLock.Picture.RestoreSize | utils/compressor_engine_pil.py:157-178 | the size is written under a temporary unlock exactly when the snapshot is locked and the current lock is not 0; the width and then the height are written under the lock in force at that point; the lock is written back right after |
| PilLock.Picture.RestoreRotationAndLock | utils/compressor_engine_pil.py:180-192 | a rotation that is not 0 is written, then the lock unless the size step already wrote it back |
| PilLock.Picture.RestoreRest | utils/compressor_engine_pil.py:194-223 | placement, visibility, alternative text and the hyperlink are written; the lock is not touched |
| PilOptions.PngColorsForRange | utils/compressor_engine_pil.py:264-268 | the derived palette size lies in [16, 256], grows with the quality, is 16 up to quality 6 and 256 from quality 100 |
| PilOptions.PngColorsForExamples | utils/compressor_engine_pil.py:267 | quality 70 gives 179 colours, quality 50 gives 128 |
| PilOptions.FromLegacyFields | utils/compressor_engine_pil.py:258-271 | the mode and DPI are always set; "jpeg"/"auto" set jpeg_quality, "png" derives png_colors unless given, "webp" sets webp_quality; every other field is the keyword arguments' |
| PilOptions.FromLegacyIgnoresUpperCaseMode | utils/compressor_engine_pil.py:262 | the mode test is case-sensitive: "JPEG" leaves jpeg_quality as the keyword arguments set it |
| PilPrepare.Clamp | utils/compressor_engine_pil.py:329-346 | the result lies in [lo, hi], equals an in-range input, and is the nearer bound otherwise |
| PilPrepare.ShrunkSizeWithin | utils/compressor_engine_pil.py:290-295 | a shrunk size with both axes positive lies within both bounds and within the original size |
| PilPrepare.ResizeIfExceedsBounds | utils/compressor_engine_pil.py:287-296 | never grows, keeps mode and transparency; unchanged without a truthy bound or when within the bounds; a changed picture lies within the bounds |
| PilPrepare.ResizeIfExceedsUniform | utils/compressor_engine_pil.py:287-296 | a shrink happens if and only if a bound is set and exceeded and both truncated axes are positive; then both axes scale by the one ratio min(max_w / w, max_h / h) below 1, each within 1 below d * ratio; otherwise the picture is unchanged |
| PilPrepare.ShrunkSizeBracket | utils/compressor_engine_pil.py:290-294 | each positive axis of the shrunk size lies within 1 below the old axis times the bound ratio |
| PilPrepare.ResizeIfExceedsIdempotent | utils/compressor_engine_pil.py:287-296 | a second shrink with the same bounds, as the fallback retry performs, changes nothing |
| PilPrepare.ResolvedFormatCaseInsensitive | utils/compressor_engine_pil.py:298-317 | the format does not depend on letter case, and an unknown mode resolves as "auto" |
| PilPrepare.ResolvedFormatExamples | utils/compressor_engine_pil.py:298-314 | "JPEG", "Png" and "WEBP" name JPEG, PNG and WebP |
| PilPrepare.AutoFormatPng | utils/compressor_engine_pil.py:304-308 | auto gives PNG if and only if the mode is RGBA, LA or P and the transparency entry has a value; an entry whose value is None gives JPEG |
| PilPrepare.SavedModeStorable | utils/compressor_engine_pil.py:319-346 | the saved colour mode is one the format stores; PNG with a palette size is palette or greyscale; an RGB or greyscale JPEG keeps its mode |
| PilPrepare.SaveParamsRanges | utils/compressor_engine_pil.py:299-346 | "dpi" is present if and only if keep_dpi is truthy; quality (JPEG, WebP) lies in [1, 100]; compress_level (PNG only) lies in [0, 9]; method is 6 exactly for WebP |
| PilPrepare.SaveParamsKeepsValidQuality | utils/compressor_engine_pil.py:329-333 | a JPEG quality already in [1, 100] is passed on unchanged |
| PilPrepare.PrepareImage | utils/compressor_engine_pil.py:274-348 | the result is the shrunk picture in the saved mode of the resolved format, with that format's parameters; an unknown mode retries once as "auto" |
| PilPrepare.ChooseFormat | utils/compressor_engine_pil.py:303-317 | the branch chain yields the format a lower-cased mode names, or none |
| PilPrepare.Shrink | utils/compressor_engine_pil.py:287-296 | the shrink phase computes the resize-if-exceeds picture |
| PilPrepare.ConvertForFormat | utils/compressor_engine_pil.py:319-346 | the conversion phase gives the saved mode and adds the format's parameters |
| PilZOrder.Raised | utils/compressor_engine_pil.py:428-429 | bring-to-front keeps the same shapes; a present shape ends at the front; a missing name changes nothing |
| PilZOrder.ReplayedStacksSavedOrder | utils/compressor_engine_pil.py:420-432 | after the replay, the unlisted shapes stay at the back in their order, and the listed shapes present on the sheet follow in listed order; missing names are skipped |
| PilZOrder.ReplayRestoresFullOrder | utils/compressor_engine_pil.py:420-432 | when every shape is listed, the replay reproduces the listed order of the present shapes, and exactly the saved list when all are present |
| PilZOrder.Sheet.BringToFront | utils/compressor_engine_pil.py:427-432 | one bring-to-front on the sheet's stacking order |
| PilZOrder.Sheet.ReorderZOrderExact | utils/compressor_engine_pil.py:420-432 | the loop leaves the stacking order of the replay |
| PilZOrder.WithZMembers | utils/compressor_engine_pil.py:481-488 | the collected pairs are exactly the shapes that report a position |
| PilZOrder.InsertSorted | utils/compressor_engine_pil.py:489 | inserting into a list sorted by position keeps it sorted |
| PilZOrder.SortByZ | utils/compressor_engine_pil.py:489 | the sort is a permutation and is ascending by position |
| PilZOrder.SortByZStable | utils/compressor_engine_pil.py:489 | the sort is stable: entries with the same position keep their order |
| PilZOrder.CollectZOrder | utils/compressor_engine_pil.py:481-490 | the loop collects the names of the sorted pairs |
| PilZOrder.CollectedOrder | utils/compressor_engine_pil.py:481-490 | the collected list is ascending by position, a permutation of the reporting shapes, stable among equal positions, and holds exactly those shapes |
| PilZOrder.Renamed | utils/compressor_engine_pil.py:541 | same length; each name is replaced by its new name when it was renamed |
| PilZOrder.RenamedDistinct | utils/compressor_engine_pil.py:541 | renaming keeps the names distinct when no two new names clash with each other or with a kept name |
| PrintOps.ColName | utils/print_ops.py:14-20 | the name is empty if and only if the index is 0 or less, and is made of letters A-Z |
| PrintOps.ColValueOfName | utils/print_ops.py:14-20 | reading a column name as bijective base-26 digits gives back the index |
| PrintOps.ColNameOfValue | utils/print_ops.py:14-20 | every string of capital letters is the name of the index it reads as |
| PrintOps.ColNameInjective | utils/print_ops.py:14-20 | distinct non-negative indices have distinct names |
| PrintOps.ColNameExamples | utils/print_ops.py:14-20 | 1 is A, 26 is Z, 27 is AA, 702 is ZZ, 703 is AAA |
| PrintOps.ColToStr | utils/print_ops.py:14-20 | the while loop builds the column name |
| PrintOps.DigitsRoundTrip | utils/print_ops.py:51 | reading the decimal digits of a natural number gives it back |
| PrintOps.Decimal | utils/print_ops.py:51 | `str` of an integer is non-empty, starts with "-" exactly for negatives, and has no colon |
| PrintOps.DecimalInjective | utils/print_ops.py:51 | distinct integers print differently |
| PrintOps.TitleRowsInjective | utils/print_ops.py:51 | distinct row ranges give distinct `$r1:$r2` addresses |
| PrintOps.TitleColumnsInjective | utils/print_ops.py:67 | distinct column ranges give distinct `$A:$C` addresses |
| PrintOps.TitleColumnsExample | utils/print_ops.py:46-67 | columns 1 to 3 give `$A:$C`, rows 1 to 2 give `$1:$2` |
| PrintOps.SetPrintTitleRows | utils/print_ops.py:46-60 | succeeds exactly when the sheet exists and writes only the title rows, as `$start:$end` |
| PrintOps.SetPrintTitleColumns | utils/print_ops.py:62-76 | succeeds exactly when the sheet exists and writes only the title columns, in letters |
| PrintOps.SetPageOrientation | utils/print_ops.py:82-102 | succeeds if and only if the sheet exists and the value is 1 or 2; only then is the orientation written, and nothing else changes |
| PrintOps.SmartSetupDecisions | utils/print_ops.py:215-267 | landscape if and only if width > height (equal gives portrait); A4 on the first sheet; elsewhere A3 if and only if wide; all six margins 0, no centring, zoom off, 1 x 1 pages, no title rows or columns; print area kept |
| PrintOps.SheetResultIdempotent | utils/print_ops.py:211-267 | running the smart settings twice leaves what running them once left |
| PrintOps.ApplySmartSettings | utils/print_ops.py:215-267 | one sheet gets the smart setup for its measured area: the print area when one is set, else the used range |
| PrintOps.ClearMargins | utils/print_ops.py:217-224 | the six margins become 0 and centring is off; nothing else changes |
| PrintOps.FitToOnePage | utils/print_ops.py:225-229 | zoom off, 1 x 1 pages, title rows and columns cleared; nothing else changes |
| PrintOps.ChooseOrientationAndPaper | utils/print_ops.py:246-267 | writes the orientation and paper decision for the measured size |
| PrintOps.SmartPrintSettings | utils/print_ops.py:204-272 | every sheet whose `Visible` value is not 0 (a very hidden sheet included) gets its smart setup, with only the sheet at position 0 counting as first; a sheet whose `Visible` is 0 is untouched; returns true |

## Findings

| source | as written | input that shows it | evidently intended | confidence | as-written member | corrected member |
|---|---|---|---|---|---|---|
| utils/compressor_engine_pil.py:155-170 | the aspect lock is lifted for the size writes only when the snapshot was locked | a 200 x 100 shape whose lock was off, replaced by a 100 x 100 picture that comes in locked, is restored to 100 x 100 | the comment asks for a size that matches exactly, so the lock should be lifted whenever the picture's lock is not 0 | medium, not executed; it depends on Excel rescaling under the lock and on the new picture's aspect differing from the shape's | PilLock.RestoreSizeMissesUnlockedSnapshot | PilLock.CorrectedRestoreSizeExact |

## Left out

- Every COM, xlwings and spreadsheet-SDK call is left out: workbook load and save, `AddPicture`, `Delete`, `Hyperlinks.Add`, Excel dispatch and the property snapshot reads. The model sees their inputs and results as values.
- Exceptions raised by those calls, and the `try`/`except` paths around them, are left out. Each restore write and each smart-settings sheet is assumed to succeed, so partial writes after an exception inside one sheet's `try` block are not modelled.
- `_optimize_image` returns None when an exception is raised (spire :172-174). This is not modelled.
- The z-order collection falls back to plain sheet order when an exception is raised (pil :491-492). This is not modelled.
- The palette conversion can fail, and the failure is then ignored (pil :337-341). The model assumes the conversion succeeds.
- Pixel work is left out: LANCZOS resampling, alpha compositing onto the background colour, palette quantisation, EXIF stripping and the encoders themselves. An image is its size, colour mode and transparency entry, and an encoder is a function parameter.
- Float rounding is left out. Ratios, `downscale_step` and the KB sizes are reals.
- SpireEngine.Optimize: the reported size in KB is the exact quotient `bytes / 1024`, not a binary float.
- Common.LowerAscii: Python's `str.lower()` is modelled for ASCII letters only. There is no Unicode case folding.
- Files are left out: temporary directories, uuid file names, the written outputs and their removal.
- Logging, the message pump and clipboard polling are left out. They are timing and external state.
- Host-state toggling (screen updating, alerts, calculation mode) is left out. It is glue with no decision in it.
- The plain setters `set_print_area`, `set_fit_to_page`, `set_paper_size`, `set_header_footer`, `set_margins` and `toggle_print_options` are left out. Each only copies its arguments into page-setup fields.
- A sheet name that finds no sheet is modelled as a null `Worksheet?`, in place of the `KeyError` branch.
- The host's measurement of a range's width and height is a function supplied by the sheet.
- The choice of the inserted picture's size, from the Excel size or the picture size, is left out (spire :314-323). It is a plain selection between two recorded values, made for the insertion call.
- The spire options field `extra_metadata` is left out. No modelled operation reads it.
- The z-order lemmas assume distinct shape names on a sheet. Duplicate names are not modelled.
- PilLock.WidthWritten: Excel's response to a size write is modelled as a proportional rescale whenever the lock is not 0. When the axis written is currently 0 there is no factor, and only that axis changes. Excel's own behaviour is outside the source.
- PilOptions.FromLegacy: keyword arguments are given as the options record they alone would build. The `TypeError` Python raises when they repeat `mode` or `keep_dpi` is not modelled.
- compress_images in the clipboard engine is modelled only through its z-order collection, renaming and replay. Its filters on sheet visibility and shape type, and its counters, are left out.
