/** Aspect-ratio lock handling of the clipboard engine
    (utils/compressor_engine_pil.py): the tri-state normalisation of a COM
    `LockAspectRatio` value and the order in which the snapshot of a shape's
    properties is written back onto the picture that replaces it. */
module PilLock {
  import opened Common

  /** The Office tri-state constants. */
  const MsoTrue: int := -1
  const MsoFalse: int := 0

  /** A value read back through COM, as far as the normalisation tells values
      apart: nothing, a boolean, a value that `int()` accepts (given by the
      integer it converts to), or one that `int()` rejects. */
  datatype ComValue = Null | Flag(b: bool) | Convertible(intval: int) | NotConvertible

  /** The normalised lock: a boolean (or unknown) paired with the Office
      constant to write back (or nothing). */
  type NormalizedLock = (Option<bool>, Option<int>)

  /** The normalisation, branch by branch: booleans map to themselves with
      their constant, convertible values by their integer, where both -1 and
      1 mean locked and 0 means unlocked; everything else is unknown. */
  function NormalizeLock(value: ComValue): NormalizedLock
  {
    match value
    case Null => (None, None)
    case Flag(b) => (Some(b), Some(if b then MsoTrue else MsoFalse))
    case NotConvertible => (None, None)
    case Convertible(intval) =>
      if intval == MsoTrue then (Some(true), Some(MsoTrue))
      else if intval == MsoFalse then (Some(false), Some(MsoFalse))
      else if intval == 1 then (Some(true), Some(MsoTrue))
      else if intval == 0 then (Some(false), Some(MsoFalse))
      else (None, None)
  }

  /** Which values normalise to locked, unlocked and unknown. */
  lemma NormalizeLockCases(value: ComValue)
    ensures NormalizeLock(value) == (Some(true), Some(MsoTrue)) <==>
              value == Flag(true) || value == Convertible(-1) || value == Convertible(1)
    ensures NormalizeLock(value) == (Some(false), Some(MsoFalse)) <==>
              value == Flag(false) || value == Convertible(0)
    ensures NormalizeLock(value) == (None, None) <==>
              value == Null || value == NotConvertible ||
              (value.Convertible? && value.intval != -1 && value.intval != 0 && value.intval != 1)
  {
  }

  /** The two halves agree: the boolean is unknown exactly when there is no
      constant, and the constant is -1 exactly when the boolean is true and 0
      exactly when it is false. */
  lemma NormalizeLockConsistent(value: ComValue)
    ensures NormalizeLock(value).0.None? <==> NormalizeLock(value).1.None?
    ensures NormalizeLock(value).1 == Some(MsoTrue) <==> NormalizeLock(value).0 == Some(true)
    ensures NormalizeLock(value).1 == Some(MsoFalse) <==> NormalizeLock(value).0 == Some(false)
  {
  }

  /** Normalising the constant it produced gives the same pair back. */
  lemma NormalizeLockStable(value: ComValue)
    requires NormalizeLock(value).1.Some?
    ensures NormalizeLock(Convertible(NormalizeLock(value).1.value)) == NormalizeLock(value)
  {
  }

  /** A hyperlink recorded on the original shape. */
  datatype Link = Link(address: string, subAddress: string, screenTip: string, textToDisplay: string)

  /** The snapshot of the original shape that is written back. The rotation
      is skipped when it is 0, the placement when it is absent, and a missing
      alternative text is written as the empty string. */
  datatype Props = Props(
    name: string, left: real, top: real, width: real, height: real,
    rotation: real, lockAspect: ComValue, placement: Option<int>,
    visible: bool, altText: Option<string>, hyperlink: Option<Link>)

  /** The writes made on the new picture, in order. */
  datatype Write =
    | SetName | SetPosition | SetLock(value: int) | SetSize
    | SetRotation | SetPlacement | SetVisible | SetAltText | AddHyperlink(link: Link)

  /** Whether the size is written under a temporary unlock: the snapshot
      normalises to locked and the picture's current lock is not 0. */
  predicate TemporaryUnlock(snapshot: ComValue, currentLock: int)
  {
    NormalizeLock(snapshot).0 == Some(true) && currentLock != MsoFalse
  }

  /** How Excel answers one write of the width: with the aspect lock at 0
      only the width changes; with any other lock the height is rescaled by
      the same factor, unless the current width is 0 and there is no factor. */
  function WidthWritten(size: (real, real), lock: int, w: real): (r: (real, real))
    ensures r.0 == w
    ensures lock == MsoFalse || size.0 == 0.0 ==> r.1 == size.1
    ensures lock != MsoFalse && size.0 != 0.0 ==> r.1 * size.0 == size.1 * w
  {
    if lock != MsoFalse && size.0 != 0.0 then (w, size.1 * (w / size.0)) else (w, size.1)
  }

  /** How Excel answers one write of the height, symmetrically. */
  function HeightWritten(size: (real, real), lock: int, h: real): (r: (real, real))
    ensures r.1 == h
    ensures lock == MsoFalse || size.1 == 0.0 ==> r.0 == size.0
    ensures lock != MsoFalse && size.1 != 0.0 ==> r.0 * size.1 == size.0 * h
  {
    if lock != MsoFalse && size.1 != 0.0 then (size.0 * (h / size.1), h) else (size.0, h)
  }

  /** The size after writing the width and then the height of `target` on a
      picture of size `size` whose lock stays `lock` meanwhile. */
  function SizeWritten(size: (real, real), lock: int, target: (real, real)): (r: (real, real))
    ensures r.1 == target.1
    ensures lock == MsoFalse ==> r == target
  {
    HeightWritten(WidthWritten(size, lock, target.0), lock, target.1)
  }

  /** With the lock on, the two writes leave the height as written and the
      width at the picture's old aspect times that height, so the written
      width survives only when the target has the picture's aspect. */
  lemma SizeWrittenLocked(size: (real, real), lock: int, target: (real, real))
    requires lock != MsoFalse && size.0 != 0.0 && size.1 != 0.0 && target.0 != 0.0
    ensures SizeWritten(size, lock, target) == (target.1 * (size.0 / size.1), target.1)
    ensures SizeWritten(size, lock, target) == target <==> target.0 * size.1 == target.1 * size.0
  {
    var mid := WidthWritten(size, lock, target.0);
    assert mid.0 == target.0 && mid.1 == size.1 * (target.0 / size.0);
    RescaleTwice(size.0, size.1, target.0, target.1);
    assert mid.1 != 0.0;
    var r := HeightWritten(mid, lock, target.1);
    assert r.0 == mid.0 * (target.1 / mid.1);
    assert r.0 == target.1 * (size.0 / size.1);
    assert r == SizeWritten(size, lock, target);
    AspectQuotient(size.0, size.1, target.0, target.1);
  }

  /** Rescaling the height by w' / w and then the width by h' over the new
      height gives the width h' * (w / h). */
  lemma RescaleTwice(w: real, h: real, w': real, h': real)
    requires w != 0.0 && h != 0.0 && w' != 0.0
    ensures h * (w' / w) != 0.0
    ensures w' * (h' / (h * (w' / w))) == h' * (w / h)
  {
    var a := w' / w;
    assert w' == a * w;
    assert h * a != 0.0;
    var q := h' / (h * a);
    assert q * (h * a) == h';
    var r := w / h;
    assert r * h == w;
    calc {
      h' * r;
      (q * (h * a)) * r;
      q * a * (h * r);
      q * a * w;
      w' * q;
    }
  }

  /** h' * (w / h) is w' exactly when w' : h' is w : h. */
  lemma AspectQuotient(w: real, h: real, w': real, h': real)
    requires h != 0.0
    ensures h' * (w / h) == w' <==> w' * h == h' * w
  {
    var r := w / h;
    assert r * h == w;
    assert (h' * r) * h == h' * w;
  }

  /** The lock the picture has while its size is written: 0 under a
      temporary unlock, its own lock otherwise. */
  function LockDuringSize(snapshot: ComValue, currentLock: int): int
  {
    if TemporaryUnlock(snapshot, currentLock) then MsoFalse else currentLock
  }

  /** The size the restore leaves on a picture of size `size` whose lock is
      `currentLock` when the restore starts. */
  function SizeAfterRestore(p: Props, size: (real, real), currentLock: int): (real, real)
  {
    SizeWritten(size, LockDuringSize(p.lockAspect, currentLock), (p.width, p.height))
  }

  /** The snapshot's size is restored exactly when the size is written under
      a temporary unlock or on a picture whose lock is already 0. */
  lemma RestoredSizeExact(p: Props, size: (real, real), currentLock: int)
    requires TemporaryUnlock(p.lockAspect, currentLock) || currentLock == MsoFalse
    ensures SizeAfterRestore(p, size, currentLock) == (p.width, p.height)
  {
    assert LockDuringSize(p.lockAspect, currentLock) == MsoFalse;
  }

  /** Otherwise, a snapshot that is not locked put on a picture that is
      locked, the size is written proportionally: the height is restored and
      the width follows the picture's own aspect. */
  lemma RestoredSizeUnderPictureLock(p: Props, size: (real, real), currentLock: int)
    requires NormalizeLock(p.lockAspect).0 != Some(true) && currentLock != MsoFalse
    requires size.0 != 0.0 && size.1 != 0.0 && p.width != 0.0
    ensures SizeAfterRestore(p, size, currentLock) == (p.height * (size.0 / size.1), p.height)
    ensures SizeAfterRestore(p, size, currentLock) == (p.width, p.height) <==>
              p.width * size.1 == p.height * size.0
  {
    assert LockDuringSize(p.lockAspect, currentLock) == currentLock;
    SizeWrittenLocked(size, currentLock, (p.width, p.height));
    var r := SizeAfterRestore(p, size, currentLock);
    assert r.0 == p.height * (size.0 / size.1) && r.1 == p.height;
  }

  /** A stretched 200 x 100 shape whose lock was off, replaced by a 100 x 100
      picture that comes in locked, is restored to 100 x 100. */
  lemma RestoreSizeMissesUnlockedSnapshot()
    ensures var p := Props("Picture 1", 0.0, 0.0, 200.0, 100.0, 0.0, Flag(false), None, true, None, None);
      SizeAfterRestore(p, (100.0, 100.0), MsoTrue) == (100.0, 100.0) &&
      SizeAfterRestore(p, (100.0, 100.0), MsoTrue) != (p.width, p.height)
  {
    var p := Props("Picture 1", 0.0, 0.0, 200.0, 100.0, 0.0, Flag(false), None, true, None, None);
    assert WidthWritten((100.0, 100.0), MsoTrue, 200.0) == (200.0, 200.0);
    assert HeightWritten((200.0, 200.0), MsoTrue, 100.0) == (100.0, 100.0);
  }

  /** The restore of the size with the unlock the comment at the size write
      asks for: whenever the picture's lock is not 0 it is set to 0 for the
      writes, whatever the snapshot's lock. */
  function CorrectedLockDuringSize(currentLock: int): int
  {
    if currentLock != MsoFalse then MsoFalse else currentLock
  }

  function CorrectedSizeAfterRestore(p: Props, size: (real, real), currentLock: int): (real, real)
  {
    SizeWritten(size, CorrectedLockDuringSize(currentLock), (p.width, p.height))
  }

  /** With the corrected unlock the snapshot's size is always restored. */
  lemma CorrectedRestoreSizeExact(p: Props, size: (real, real), currentLock: int)
    ensures CorrectedSizeAfterRestore(p, size, currentLock) == (p.width, p.height)
  {
    assert CorrectedLockDuringSize(currentLock) == MsoFalse;
  }

  predicate LinkWanted(h: Option<Link>)
  {
    h.Some? && (h.value.address != [] || h.value.subAddress != [])
  }

  /** The size writes: under a temporary unlock the lock is first set to 0
      and written back right after the size. */
  function SizeWrites(p: Props, currentLock: int): seq<Write>
  {
    var lockMso := NormalizeLock(p.lockAspect).1;
    var unlock := TemporaryUnlock(p.lockAspect, currentLock);
    (if unlock then [SetLock(MsoFalse)] else []) + [SetSize] +
    (if unlock && lockMso.Some? then [SetLock(lockMso.value)] else [])
  }

  /** The rotation, when not 0, then the lock, unless a temporary unlock
      already wrote it back. */
  function AfterSizeWrites(p: Props, unlock: bool): seq<Write>
  {
    var lockMso := NormalizeLock(p.lockAspect).1;
    (if p.rotation != 0.0 then [SetRotation] else []) +
    (if lockMso.Some? && !unlock then [SetLock(lockMso.value)] else [])
  }

  /** The first writes of the restore, given the picture's lock when it
      starts: name, position, the size and the rotation, and the lock. */
  function LockPhase(p: Props, currentLock: int): seq<Write>
  {
    [SetName, SetPosition] + SizeWrites(p, currentLock) +
    AfterSizeWrites(p, TemporaryUnlock(p.lockAspect, currentLock))
  }

  /** The remaining writes, none of which touches the lock. */
  function FinishPhase(p: Props): (ws: seq<Write>)
    ensures NoLockWrite(ws)
  {
    (if p.placement.Some? then [SetPlacement] else []) +
    [SetVisible, SetAltText] +
    (if LinkWanted(p.hyperlink) then [AddHyperlink(p.hyperlink.value)] else [])
  }

  /** Every write of the restore, in order. */
  function RestoreWrites(p: Props, currentLock: int): seq<Write>
  {
    LockPhase(p, currentLock) + FinishPhase(p)
  }

  predicate NoLockWrite(ws: seq<Write>)
  {
    forall i :: 0 <= i < |ws| ==> !ws[i].SetLock?
  }

  /** The lock value after a sequence of writes that starts from `lock`: the
      last lock written, if any. */
  function LockAfter(lock: int, ws: seq<Write>): int
  {
    if ws == [] then lock
    else if ws[|ws| - 1].SetLock? then ws[|ws| - 1].value
    else LockAfter(lock, ws[..|ws| - 1])
  }

  /** One more write changes the lock only if it writes the lock. */
  lemma LockAfterPush(lock: int, ws: seq<Write>, w: Write)
    ensures LockAfter(lock, ws + [w]) == if w.SetLock? then w.value else LockAfter(lock, ws)
  {
    assert (ws + [w])[..|ws|] == ws;
  }

  /** Writes that do not touch the lock leave it alone. */
  lemma {:induction false} LockAfterNoLockWrite(lock: int, a: seq<Write>, b: seq<Write>)
    requires NoLockWrite(b)
    ensures LockAfter(lock, a + b) == LockAfter(lock, a)
    decreases |b|
  {
    if b != [] {
      var b' := b[..|b| - 1];
      assert (a + b)[..|a + b| - 1] == a + b';
      LockAfterNoLockWrite(lock, a, b');
    } else {
      assert a + b == a;
    }
  }

  /** Where the lock is written: an unlock to 0 happens only under a
      temporary unlock and then comes right before the size; the lock is
      written at all exactly when the snapshot normalises to a known value. */
  lemma RestoreWritesOrder(p: Props, currentLock: int)
    ensures var ws := RestoreWrites(p, currentLock);
      (TemporaryUnlock(p.lockAspect, currentLock) <==> ws[2] == SetLock(MsoFalse)) &&
      (TemporaryUnlock(p.lockAspect, currentLock) ==> ws[3] == SetSize) &&
      (!TemporaryUnlock(p.lockAspect, currentLock) ==> ws[2] == SetSize)
    ensures !NoLockWrite(RestoreWrites(p, currentLock)) <==> NormalizeLock(p.lockAspect).1.Some?
  {
    var ws := RestoreWrites(p, currentLock);
    var lockMso := NormalizeLock(p.lockAspect).1;
    if TemporaryUnlock(p.lockAspect, currentLock) {
      assert ws[2].SetLock?;
    } else if lockMso.Some? {
      var k := 3 + (if p.rotation != 0.0 then 1 else 0);
      assert ws[k] == SetLock(lockMso.value);
    } else {
      forall i | 0 <= i < |ws| ensures !ws[i].SetLock? {
      }
    }
  }

  /** Whenever the snapshot's lock normalises to a constant, the picture ends
      with exactly that constant; otherwise its lock is not touched. */
  lemma RestoreWritesFinalLock(p: Props, currentLock: int)
    ensures NormalizeLock(p.lockAspect).1.Some? ==>
              LockAfter(currentLock, RestoreWrites(p, currentLock)) == NormalizeLock(p.lockAspect).1.value
    ensures NormalizeLock(p.lockAspect).1.None? ==>
              LockAfter(currentLock, RestoreWrites(p, currentLock)) == currentLock
  {
    var ws := LockPhase(p, currentLock);
    LockAfterNoLockWrite(currentLock, ws, FinishPhase(p));
    var lockMso := NormalizeLock(p.lockAspect).1;
    if lockMso.None? {
      assert NoLockWrite(ws);
      LockAfterNoLockWrite(currentLock, [], ws);
      assert [] + ws == ws;
    } else if TemporaryUnlock(p.lockAspect, currentLock) && p.rotation != 0.0 {
      assert ws[..|ws| - 1][|ws| - 2] == SetLock(lockMso.value);
    }
  }

  /** The properties of a picture that the restore writes. */
  datatype PictureState = PictureState(
    name: string, left: real, top: real, width: real, height: real, rotation: real,
    lock: int, placement: int, visible: bool, altText: string, links: seq<Link>)

  /** The picture that replaced the original shape, with the properties the
      restore writes, and the list of writes made on it so far. */
  class Picture {
    var name: string
    var left: real
    var top: real
    var width: real
    var height: real
    var rotation: real
    var lock: int
    var placement: int
    var visible: bool
    var altText: string
    var links: seq<Link>
    ghost var writes: seq<Write>

    function State(): PictureState
      reads this
    {
      PictureState(name, left, top, width, height, rotation, lock, placement, visible, altText, links)
    }

    constructor (name: string, left: real, top: real, width: real, height: real, lock: int)
      ensures State() == PictureState(name, left, top, width, height, 0.0, lock, 0, true, [], [])
      ensures writes == []
    {
      this.name, this.left, this.top := name, left, top;
      this.width, this.height, this.lock := width, height, lock;
      rotation, placement, visible, altText := 0.0, 0, true, [];
      links, writes := [], [];
    }

    /** Writes the snapshot back: name, position, the size (under a
        temporary unlock when the snapshot was locked and the picture is),
        rotation, the lock, then placement, visibility, alternative text and
        hyperlink. The lock ends as the snapshot's normalised constant, or
        untouched when the snapshot's lock is unknown. */
    method ApplyProps(p: Props)
      modifies this
      ensures writes == old(writes) + RestoreWrites(p, old(lock))
      ensures State() == old(State()).(
        name := p.name, left := p.left, top := p.top,
        width := SizeAfterRestore(p, (old(width), old(height)), old(lock)).0,
        height := SizeAfterRestore(p, (old(width), old(height)), old(lock)).1,
        rotation := if p.rotation != 0.0 then p.rotation else old(rotation),
        lock := if NormalizeLock(p.lockAspect).1.Some? then NormalizeLock(p.lockAspect).1.value else old(lock),
        placement := if p.placement.Some? then p.placement.value else old(placement),
        visible := p.visible,
        altText := if p.altText.Some? then p.altText.value else [],
        links := old(links) + (if LinkWanted(p.hyperlink) then [p.hyperlink.value] else []))
    {
      ghost var written := writes;
      RestoreLockPhase(p);
      RestoreRest(p);
      AppendAssoc(written, LockPhase(p, old(lock)), FinishPhase(p));
    }

    /** Name, position, size, rotation and lock. */
    method RestoreLockPhase(p: Props)
      modifies this
      ensures writes == old(writes) + LockPhase(p, old(lock))
      ensures State() == old(State()).(
        name := p.name, left := p.left, top := p.top,
        width := SizeAfterRestore(p, (old(width), old(height)), old(lock)).0,
        height := SizeAfterRestore(p, (old(width), old(height)), old(lock)).1,
        rotation := if p.rotation != 0.0 then p.rotation else old(rotation),
        lock := if NormalizeLock(p.lockAspect).1.Some? then NormalizeLock(p.lockAspect).1.value else old(lock))
    {
      ghost var lock0 := lock;
      ghost var written := writes;
      name := p.name;
      left, top := p.left, p.top;
      writes := writes + [SetName, SetPosition];
      var temporaryUnlock := RestoreSize(p);
      RestoreRotationAndLock(p, temporaryUnlock);
      ghost var prelude: seq<Write> := [SetName, SetPosition];
      AppendAssoc(written, prelude, SizeWrites(p, lock0));
      AppendAssoc(written, prelude + SizeWrites(p, lock0), AfterSizeWrites(p, temporaryUnlock));
      NormalizeLockConsistent(p.lockAspect);
    }

    /** The size, under a temporary unlock when the snapshot normalises to
        locked and the picture's lock is not 0; the lock is written back
        right after the size. */
    method RestoreSize(p: Props) returns (temporaryUnlock: bool)
      modifies this
      ensures temporaryUnlock == TemporaryUnlock(p.lockAspect, old(lock))
      ensures writes == old(writes) + SizeWrites(p, old(lock))
      ensures State() == old(State()).(
        width := SizeAfterRestore(p, (old(width), old(height)), old(lock)).0,
        height := SizeAfterRestore(p, (old(width), old(height)), old(lock)).1,
        lock := if temporaryUnlock then MsoTrue else old(lock))
    {
      var (lockBool, lockMso) := NormalizeLock(p.lockAspect);
      NormalizeLockConsistent(p.lockAspect);
      temporaryUnlock := false;
      ghost var before: seq<Write> := [];
      if lockBool == Some(true) {
        var currentLock := lock;
        if currentLock != MsoFalse {
          lock := MsoFalse;
          before := [SetLock(MsoFalse)];
          temporaryUnlock := true;
        }
      }
      var (w1, h1) := WidthWritten((width, height), lock, p.width);
      width, height := w1, h1;
      var (w2, h2) := HeightWritten((width, height), lock, p.height);
      width, height := w2, h2;
      if temporaryUnlock && lockMso.Some? {
        lock := lockMso.value;
        writes := writes + (before + [SetSize] + [SetLock(lockMso.value)]);
      } else {
        writes := writes + (before + [SetSize] + []);
      }
    }

    /** The rotation when it is not 0, then the lock unless the size step
        already wrote it back. */
    method RestoreRotationAndLock(p: Props, temporaryUnlock: bool)
      modifies this
      ensures writes == old(writes) + AfterSizeWrites(p, temporaryUnlock)
      ensures State() == old(State()).(
        rotation := if p.rotation != 0.0 then p.rotation else old(rotation),
        lock := if NormalizeLock(p.lockAspect).1.Some? && !temporaryUnlock
                then NormalizeLock(p.lockAspect).1.value else old(lock))
    {
      var lockMso := NormalizeLock(p.lockAspect).1;
      var rotated: seq<Write> := [];
      if p.rotation != 0.0 {
        rotation := p.rotation;
        rotated := [SetRotation];
      }
      if lockMso.Some? && !temporaryUnlock {
        lock := lockMso.value;
        writes := writes + (rotated + [SetLock(lockMso.value)]);
      } else {
        writes := writes + (rotated + []);
      }
    }

    /** Placement, visibility, alternative text and hyperlink. */
    method RestoreRest(p: Props)
      modifies this
      ensures writes == old(writes) + FinishPhase(p)
      ensures State() == old(State()).(
        placement := if p.placement.Some? then p.placement.value else old(placement),
        visible := p.visible,
        altText := if p.altText.Some? then p.altText.value else [],
        links := old(links) + (if LinkWanted(p.hyperlink) then [p.hyperlink.value] else []))
    {
      ghost var done: seq<Write> := [];
      if p.placement.Some? {
        placement := p.placement.value;
        done := done + [SetPlacement];
      }
      visible := p.visible;
      altText := if p.altText.Some? then p.altText.value else [];
      done := done + [SetVisible, SetAltText];
      if LinkWanted(p.hyperlink) {
        links := links + [p.hyperlink.value];
        done := done + [AddHyperlink(p.hyperlink.value)];
      }
      writes := writes + done;
    }
  }
}
