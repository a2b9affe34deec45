/** Output file naming of the size-budget engine
    (utils/compressor_engine_spire.py): the extension of the output stub is
    replaced by the lower-cased target extension, with the extension rules of
    Windows paths (`ntpath.splitext`). */
module SpirePaths {
  import opened Common

  /** Index of the last occurrence of `c` in `s`, or -1. */
  function RFind(s: string, c: char): (i: int)
    ensures -1 <= i < |s|
    ensures i >= 0 ==> s[i] == c
    ensures forall j :: i < j < |s| ==> s[j] != c
  {
    if s == [] then -1
    else if s[|s| - 1] == c then |s| - 1
    else RFind(s[..|s| - 1], c)
  }

  predicate IsSeparator(c: char) { c == '\\' || c == '/' }

  /** Index of the last path separator (either slash), or -1. */
  function LastSeparator(p: string): (i: int)
    ensures -1 <= i < |p|
    ensures i >= 0 ==> IsSeparator(p[i])
    ensures forall j :: i < j < |p| ==> !IsSeparator(p[j])
  {
    Max(RFind(p, '\\'), RFind(p, '/'))
  }

  /** Some character strictly between positions lo and hi is not a dot. */
  predicate NonDotBetween(p: string, lo: int, hi: int)
    requires -1 <= lo && hi <= |p|
  {
    exists k :: lo < k < hi && p[k] != '.'
  }

  /** The extension split of the Windows path library: the extension starts
      at the last dot of the last path component, unless that component has
      only dots before it (".bashrc" has no extension). */
  function SplitExt(p: string): (r: (string, string))
    ensures r.0 + r.1 == p
    ensures r.1 == [] || (r.1[0] == '.' && forall j :: 1 <= j < |r.1| ==> r.1[j] != '.' && !IsSeparator(r.1[j]))
    ensures r.1 != [] ==> NonDotBetween(p, LastSeparator(p), |r.0|)
  {
    var sep := LastSeparator(p);
    var dot := RFind(p, '.');
    if dot > sep && NonDotBetween(p, sep, dot) then (p[..dot], p[dot..]) else (p, [])
  }

  /** The stub without its extension, then a dot and the lower-cased extension. */
  function NormalizeOutputPath(stub: string, extension: string): string
  {
    SplitExt(stub).0 + "." + LowerAscii(extension)
  }

  /** The output path is the stub up to its extension, then a dot and the
      extension lower-cased: the stub's own extension, if any, is dropped. */
  lemma NormalizeOutputPathParts(stub: string, extension: string)
    ensures var r := NormalizeOutputPath(stub, extension);
      var base := SplitExt(stub).0;
      |r| == |base| + 1 + |extension| && base <= stub &&
      r[..|base|] == base && r[|base|..] == "." + LowerAscii(extension)
  {
    var base := SplitExt(stub).0;
    var r := NormalizeOutputPath(stub, extension);
    assert r == base + ("." + LowerAscii(extension));
  }

  /** Whether the last path component has a character other than a dot. */
  predicate NamedComponent(p: string)
  {
    NonDotBetween(p, LastSeparator(p), |p|)
  }

  predicate PlainExtension(e: string)
  {
    e != [] && forall j :: 0 <= j < |e| ==> e[j] != '.' && !IsSeparator(e[j])
  }

  lemma {:induction false} RFindAppend(s: string, t: string, c: char)
    requires forall j :: 0 <= j < |t| ==> t[j] != c
    ensures RFind(s + t, c) == RFind(s, c)
    decreases |t|
  {
    if t != [] {
      var t' := t[..|t| - 1];
      assert (s + t)[..|s + t| - 1] == s + t';
      RFindAppend(s, t', c);
    } else {
      assert s + t == s;
    }
  }

  /** The separators of a path followed by a plain extension are those of the path. */
  lemma LastSeparatorAppend(base: string, tail: string)
    requires forall j :: 0 <= j < |tail| ==> !IsSeparator(tail[j])
    ensures LastSeparator(base + tail) == LastSeparator(base)
  {
    RFindAppend(base, tail, '\\');
    RFindAppend(base, tail, '/');
  }

  /** A base whose last component has a non-dot character, a dot and a plain
      extension split back into the base and the dotted extension. */
  lemma SplitExtOfDotted(base: string, e: string)
    requires PlainExtension(e)
    requires NamedComponent(base)
    ensures SplitExt(base + "." + e) == (base, "." + e)
  {
    var tail := "." + e;
    var p := base + tail;
    assert base + "." + e == p;
    LastSeparatorAppend(base, tail);
    RFindAppend(p[..|base| + 1], e, '.') by {
      assert p == p[..|base| + 1] + e;
    }
    assert RFind(p[..|base| + 1], '.') == |base|;
    assert RFind(p, '.') == |base| by { assert p == p[..|base| + 1] + e; }
    var k :| LastSeparator(base) < k < |base| && base[k] != '.';
    assert p[k] == base[k];
    assert p[..|base|] == base && p[|base|..] == tail;
  }

  /** The base that the split leaves still has a named last component. */
  lemma SplitExtBaseNamed(stub: string)
    requires NamedComponent(stub)
    ensures NamedComponent(SplitExt(stub).0)
  {
    var (base, ext) := SplitExt(stub);
    if ext != [] {
      assert stub == base + ext;
      LastSeparatorAppend(base, ext);
      var k :| LastSeparator(stub) < k < |base| && stub[k] != '.';
      assert base[k] == stub[k];
    }
  }

  /** Normalising a path that already carries the extension gives it back:
      its split yields the same base and the dotted extension. */
  lemma NormalizeOutputPathIdempotent(stub: string, extension: string)
    requires NamedComponent(stub)
    requires PlainExtension(LowerAscii(extension))
    ensures SplitExt(NormalizeOutputPath(stub, extension)) == (SplitExt(stub).0, "." + LowerAscii(extension))
    ensures NormalizeOutputPath(NormalizeOutputPath(stub, extension), extension) == NormalizeOutputPath(stub, extension)
  {
    SplitExtBaseNamed(stub);
    SplitExtOfDotted(SplitExt(stub).0, LowerAscii(extension));
  }
}
