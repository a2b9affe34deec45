/** Shared vocabulary of the two picture-compression engines: optional values,
    the abstract image the engines work on, and a few arithmetic and text helpers
    that Python provides as built-ins. */
module Common {

  datatype Option<+T> = None | Some(value: T)

  /** Colour modes of the raster library that the engines test for.
      `Other` stands for every mode they never name (CMYK, I, F, ...). */
  datatype Mode = RGB | RGBA | L | LA | P | Other

  /** What the image's `info` dictionary says about a "transparency" entry:
      no key at all, a key whose value is None, or a key with a value. */
  datatype TransparencyInfo = NoKey | KeyNone | KeyValue

  /** A decoded raster, reduced to what the decisions look at: its size in
      pixels, its colour mode and its transparency entry. Pixels are not modelled. */
  datatype Image = Image(width: int, height: int, mode: Mode, transparency: TransparencyInfo)
  {
    predicate Decoded() { width >= 1 && height >= 1 }
  }

  function Min(a: int, b: int): int { if a <= b then a else b }
  function Max(a: int, b: int): int { if a >= b then a else b }
  function MinReal(a: real, b: real): real { if a <= b then a else b }
  function MaxReal(a: real, b: real): real { if a >= b then a else b }

  /** Python's `int(x)` on a real: truncation toward zero. */
  function Trunc(x: real): (r: int)
    ensures x >= 0.0 ==> r == x.Floor
    ensures r as real <= x < r as real + 1.0 || r as real - 1.0 < x <= r as real
  {
    if x >= 0.0 then x.Floor else -((-x).Floor)
  }

  /** Truncating a non-negative real below an integer bound stays below it. */
  lemma TruncBelow(x: real, n: int)
    requires 0.0 <= x < n as real
    ensures 0 <= Trunc(x) < n
  {
    assert Trunc(x) == x.Floor;
    assert x.Floor as real <= x;
  }

  /** `str.lower()` restricted to ASCII letters; other characters are kept. */
  function LowerChar(c: char): (r: char)
    ensures 'A' <= c <= 'Z' ==> 'a' <= r <= 'z'
    ensures !('A' <= c <= 'Z') ==> r == c
  {
    if 'A' <= c <= 'Z' then (c as int + 32) as char else c
  }

  function LowerAscii(s: string): (r: string)
    ensures |r| == |s|
    ensures forall i :: 0 <= i < |s| ==> r[i] == LowerChar(s[i])
  {
    if s == [] then [] else [LowerChar(s[0])] + LowerAscii(s[1..])
  }

  /** Lower-casing leaves a string without upper-case ASCII letters unchanged,
      so lower-casing twice is lower-casing once. */
  lemma LowerAsciiIdempotent(s: string)
    ensures LowerAscii(LowerAscii(s)) == LowerAscii(s)
  {
  }

  /** Concatenation of sequences is associative. */
  lemma AppendAssoc<T>(a: seq<T>, b: seq<T>, c: seq<T>)
    ensures (a + b) + c == a + (b + c)
  {
  }
}
