/** Small decision rules of the size-budget engine's batch entry point
    (utils/compressor_engine_spire.py): which pictures are skipped as already
    small, and which shape on the sheet is the original to delete. */
module SpireBatch {
  import opened Common

  /** A picture is left alone when a threshold is set and its exported size
      (bytes / 1024 KB) is at most the threshold. */
  predicate SkipSmall(skipSmallImagesKb: int, exportedBytes: nat)
  {
    skipSmallImagesKb != 0 && exportedBytes <= skipSmallImagesKb * 1024
  }

  /** Skipping is off at threshold 0 and downward closed in the size. */
  lemma SkipSmallMonotone(skipSmallImagesKb: int, a: nat, b: nat)
    requires a <= b
    ensures !SkipSmall(0, b)
    ensures SkipSmall(skipSmallImagesKb, b) ==> SkipSmall(skipSmallImagesKb, a)
  {
  }

  /** What the replacement pass reads of a shape on the sheet. */
  datatype ShapeGeometry = ShapeGeometry(left: real, top: real, kind: int)

  const MsoPicture: int := 13

  function Abs(x: real): real { if x < 0.0 then -x else x }

  /** A picture within 5 points of the recorded position in both directions. */
  predicate MatchesRecorded(g: ShapeGeometry, left: real, top: real)
  {
    Abs(g.left - left) < 5.0 && Abs(g.top - top) < 5.0 && g.kind == MsoPicture
  }

  /** The scan for the original picture to delete: the first shape, in sheet
      order, that matches the recorded position. */
  method FindOriginal(shapes: seq<ShapeGeometry>, left: real, top: real) returns (found: Option<nat>)
    ensures found.Some? ==> found.value < |shapes| && MatchesRecorded(shapes[found.value], left, top)
    ensures found.Some? ==> forall j :: 0 <= j < found.value ==> !MatchesRecorded(shapes[j], left, top)
    ensures found.None? ==> forall j :: 0 <= j < |shapes| ==> !MatchesRecorded(shapes[j], left, top)
  {
    found := None;
    for i := 0 to |shapes|
      invariant forall j :: 0 <= j < i ==> !MatchesRecorded(shapes[j], left, top)
    {
      if MatchesRecorded(shapes[i], left, top) {
        found := Some(i);
        break;
      }
    }
  }
}
