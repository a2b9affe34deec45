/** Print-layout operations on a workbook (utils/print_ops.py): bijective
    base-26 column letters, the title-range address strings, the validated
    orientation setter and the per-sheet "smart" page setup. */
module PrintOps {
  import opened Common

  const A4Paper: int := 9
  const A3Paper: int := 8
  const Portrait: int := 1
  const Landscape: int := 2

  // ---------------------------------------------------------------------------
  // Column letters
  // ---------------------------------------------------------------------------

  predicate IsLetter(c: char) { 'A' <= c <= 'Z' }

  predicate Letters(s: string)
  {
    forall i :: 0 <= i < |s| ==> IsLetter(s[i])
  }

  /** The column name of an index: bijective base 26 with digits A..Z for
      1..26; indices 0 and below name nothing. */
  function ColName(n: int): (r: string)
    ensures r == [] <==> n <= 0
    ensures Letters(r)
    decreases n
  {
    if n <= 0 then ""
    else ColName((n - 1) / 26) + [(65 + (n - 1) % 26) as char]
  }

  /** Reads letters as bijective base-26 digits A = 1 .. Z = 26. */
  function ColValue(s: string): (v: int)
    ensures Letters(s) ==> v >= 0
    ensures Letters(s) && s != [] ==> v >= 1
    decreases |s|
  {
    if s == [] then 0
    else ColValue(s[..|s| - 1]) * 26 + (s[|s| - 1] as int - 64)
  }

  /** Decoding a column name gives back its index. */
  lemma {:induction false} ColValueOfName(n: int)
    requires n >= 0
    ensures ColValue(ColName(n)) == n
    decreases n
  {
    if n > 0 {
      var q := (n - 1) / 26;
      var name := ColName(n);
      assert name[..|name| - 1] == ColName(q);
      ColValueOfName(q);
    }
  }

  /** Every string of letters is the name of the index it decodes to. */
  lemma {:induction false} ColNameOfValue(s: string)
    requires Letters(s)
    ensures ColName(ColValue(s)) == s
    decreases |s|
  {
    if s != [] {
      var p := s[..|s| - 1];
      var d := s[|s| - 1] as int - 64;
      assert Letters(p) by {
        forall i | 0 <= i < |p| ensures IsLetter(p[i]) {
          assert p[i] == s[i];
        }
      }
      ColNameOfValue(p);
      var v := ColValue(s);
      assert v - 1 == ColValue(p) * 26 + (d - 1) && 0 <= d - 1 < 26;
      assert (v - 1) / 26 == ColValue(p) && (v - 1) % 26 == d - 1;
      assert s == p + [s[|s| - 1]];
    }
  }

  /** Distinct non-negative indices have distinct names. */
  lemma ColNameInjective(a: int, b: int)
    requires a >= 0 && b >= 0 && ColName(a) == ColName(b)
    ensures a == b
  {
    ColValueOfName(a);
    ColValueOfName(b);
  }

  /** The first names of each length: 1 is A, 26 is Z, 27 is AA, 702 is ZZ
      and 703 is AAA. */
  lemma ColNameExamples()
    ensures ColName(1) == "A" && ColName(26) == "Z" && ColName(27) == "AA"
    ensures ColName(702) == "ZZ" && ColName(703) == "AAA"
  {
    assert ColName(0) == "";
    assert ColName(1) == "A";
    assert ColName(26) == "Z";
    assert ColName(27) == ColName(1) + "A";
    assert ColName(702) == ColName(26) + "Z";
    assert ColName(703) == ColName(27) + "A";
  }

  /** Builds the column name digit by digit, least significant first. */
  method ColToStr(colIndex: int) returns (s: string)
    ensures s == ColName(colIndex)
  {
    var col := colIndex;
    s := "";
    while col > 0
      invariant ColName(colIndex) == ColName(col) + s
      decreases col
    {
      var q, rem := (col - 1) / 26, (col - 1) % 26;
      var c := (65 + rem) as char;
      assert ColName(col) == ColName(q) + [c];
      assert ColName(q) + [c] + s == ColName(q) + ([c] + s);
      col, s := q, [c] + s;
    }
    assert ColName(col) == "";
  }

  // ---------------------------------------------------------------------------
  // Title-range addresses
  // ---------------------------------------------------------------------------

  predicate IsDigit(c: char) { '0' <= c <= '9' }

  /** The decimal digits of a natural number. */
  function Digits(n: nat): (r: string)
    ensures |r| >= 1
    ensures forall i :: 0 <= i < |r| ==> IsDigit(r[i])
  {
    if n < 10 then [(48 + n) as char] else Digits(n / 10) + [(48 + n % 10) as char]
  }

  /** Reads decimal digits. */
  function DigitsValue(s: string): int
    decreases |s|
  {
    if s == [] then 0 else DigitsValue(s[..|s| - 1]) * 10 + (s[|s| - 1] as int - 48)
  }

  /** Reading the digits of a number gives back the number. */
  lemma {:induction false} DigitsRoundTrip(n: nat)
    ensures DigitsValue(Digits(n)) == n
  {
    if n >= 10 {
      var d := Digits(n);
      assert d[..|d| - 1] == Digits(n / 10);
      DigitsRoundTrip(n / 10);
    }
  }

  /** Python's `str` of an integer. */
  function Decimal(n: int): (r: string)
    ensures |r| >= 1 && (r[0] == '-' <==> n < 0)
    ensures forall i :: 0 <= i < |r| ==> r[i] != ':'
  {
    if n < 0 then "-" + Digits(-n) else Digits(n)
  }

  /** Distinct integers print differently. */
  lemma DecimalInjective(a: int, b: int)
    requires Decimal(a) == Decimal(b)
    ensures a == b
  {
    if a < 0 {
      assert Digits(-a) == Decimal(a)[1..] == Decimal(b)[1..] == Digits(-b);
      DigitsRoundTrip(-a);
      DigitsRoundTrip(-b);
    } else {
      DigitsRoundTrip(a);
      DigitsRoundTrip(b);
    }
  }

  /** The repeated-rows address `$start:$end`. */
  function TitleRows(startRow: int, endRow: int): string
  {
    "$" + Decimal(startRow) + ":$" + Decimal(endRow)
  }

  /** The repeated-columns address `$A:$C`, built from column letters. */
  function TitleColumns(startCol: int, endCol: int): string
  {
    "$" + ColName(startCol) + ":$" + ColName(endCol)
  }

  /** The position of the first colon, or the length when there is none. */
  function ColonAt(s: string): nat
    decreases |s|
  {
    if s == [] || s[0] == ':' then 0 else 1 + ColonAt(s[1..])
  }

  lemma {:induction false} ColonAtPrefix(a: string, rest: string)
    requires forall i :: 0 <= i < |a| ==> a[i] != ':'
    requires rest != [] && rest[0] == ':'
    ensures ColonAt(a + rest) == |a|
  {
    if a != [] {
      assert (a + rest)[1..] == a[1..] + rest;
      ColonAtPrefix(a[1..], rest);
    } else {
      assert a + rest == rest;
    }
  }

  /** An address `$x:$y` whose first part has no colon determines both parts. */
  lemma RangeParts(x: string, y: string, x': string, y': string)
    requires forall i :: 0 <= i < |x| ==> x[i] != ':'
    requires forall i :: 0 <= i < |x'| ==> x'[i] != ':'
    requires "$" + x + ":$" + y == "$" + x' + ":$" + y'
    ensures x == x' && y == y'
  {
    var r := "$" + x + ":$" + y;
    assert r == "$" + (x + (":$" + y));
    assert r == "$" + (x' + (":$" + y'));
    ColonAtPrefix("$" + x, ":$" + y);
    ColonAtPrefix("$" + x', ":$" + y');
    assert "$" + x + (":$" + y) == r;
    assert "$" + x' + (":$" + y') == r;
    assert |x| == |x'|;
    assert x == r[1..|x| + 1] == x';
    assert y == r[|x| + 3..] == y';
  }

  /** Distinct row ranges give distinct addresses. */
  lemma TitleRowsInjective(a: int, b: int, c: int, d: int)
    requires TitleRows(a, b) == TitleRows(c, d)
    ensures a == c && b == d
  {
    RangeParts(Decimal(a), Decimal(b), Decimal(c), Decimal(d));
    DecimalInjective(a, c);
    DecimalInjective(b, d);
  }

  /** Distinct column ranges (of indices 0 or more) give distinct addresses. */
  lemma TitleColumnsInjective(a: int, b: int, c: int, d: int)
    requires a >= 0 && b >= 0 && c >= 0 && d >= 0
    requires TitleColumns(a, b) == TitleColumns(c, d)
    ensures a == c && b == d
  {
    RangeParts(ColName(a), ColName(b), ColName(c), ColName(d));
    ColNameInjective(a, c);
    ColNameInjective(b, d);
  }

  /** Columns 1 to 3 give `$A:$C`; rows 1 to 2 give `$1:$2`. */
  lemma TitleColumnsExample()
    ensures TitleColumns(1, 3) == "$A:$C"
    ensures TitleRows(1, 2) == "$1:$2"
  {
    assert ColName(1) == "A";
    assert ColName(3) == ColName(0) + "C";
  }

  // ---------------------------------------------------------------------------
  // Page setup
  // ---------------------------------------------------------------------------

  /** The host's zoom setting: off (fit-to-pages applies) or a percentage. */
  datatype Zoom = ZoomOff | ZoomPercent(percent: int)

  /** A snapshot of a sheet's page setup. */
  datatype Setup = Setup(
    leftMargin: real, rightMargin: real, topMargin: real, bottomMargin: real,
    headerMargin: real, footerMargin: real,
    centerHorizontally: bool, centerVertically: bool, zoom: Zoom,
    fitToPagesWide: int, fitToPagesTall: int,
    printTitleRows: string, printTitleColumns: string, printArea: string,
    orientation: int, paperSize: int)

  /** A sheet's page setup, whose fields the operations write. */
  class PageSetup {
    var leftMargin: real
    var rightMargin: real
    var topMargin: real
    var bottomMargin: real
    var headerMargin: real
    var footerMargin: real
    var centerHorizontally: bool
    var centerVertically: bool
    var zoom: Zoom
    var fitToPagesWide: int
    var fitToPagesTall: int
    var printTitleRows: string
    var printTitleColumns: string
    var printArea: string
    var orientation: int
    var paperSize: int

    function State(): Setup
      reads this
    {
      Setup(leftMargin, rightMargin, topMargin, bottomMargin, headerMargin, footerMargin,
            centerHorizontally, centerVertically, zoom, fitToPagesWide, fitToPagesTall,
            printTitleRows, printTitleColumns, printArea, orientation, paperSize)
    }

    constructor(s: Setup)
      ensures State() == s
    {
      leftMargin, rightMargin, topMargin, bottomMargin := s.leftMargin, s.rightMargin, s.topMargin, s.bottomMargin;
      headerMargin, footerMargin := s.headerMargin, s.footerMargin;
      centerHorizontally, centerVertically, zoom := s.centerHorizontally, s.centerVertically, s.zoom;
      fitToPagesWide, fitToPagesTall := s.fitToPagesWide, s.fitToPagesTall;
      printTitleRows, printTitleColumns, printArea := s.printTitleRows, s.printTitleColumns, s.printArea;
      orientation, paperSize := s.orientation, s.paperSize;
    }
  }

  /** The `Visible` values of an Excel sheet. */
  const XlSheetVisible: int := -1
  const XlSheetHidden: int := 0
  const XlSheetVeryHidden: int := 2

  /** A worksheet: its `Visible` value, its page setup, the size in points of
      its used range, and the host's measurement of the range an address names. */
  class Worksheet {
    const name: string
    const visibility: int
    const pageSetup: PageSetup
    const usedSize: (real, real)
    const measure: string -> (real, real)

    constructor(name: string, visibility: int, pageSetup: PageSetup, usedSize: (real, real),
                measure: string -> (real, real))
      ensures this.name == name && this.visibility == visibility && this.pageSetup == pageSetup
      ensures this.usedSize == usedSize && this.measure == measure
    {
      this.name := name;
      this.visibility := visibility;
      this.pageSetup := pageSetup;
      this.usedSize := usedSize;
      this.measure := measure;
    }
  }

  /** Sets the orientation of a sheet (null when the name finds no sheet):
      only portrait (1) and landscape (2) are written; any other value, like
      a missing sheet, returns false and writes nothing. */
  method SetPageOrientation(sheet: Worksheet?, orientation: int) returns (ok: bool)
    modifies if sheet != null then {sheet.pageSetup} else {}
    ensures ok <==> sheet != null && (orientation == Portrait || orientation == Landscape)
    ensures sheet != null ==>
      sheet.pageSetup.State() == if ok then old(sheet.pageSetup.State()).(orientation := orientation)
                                 else old(sheet.pageSetup.State())
  {
    if sheet == null {
      return false;
    }
    if orientation == Portrait {
      sheet.pageSetup.orientation := Portrait;
    } else if orientation == Landscape {
      sheet.pageSetup.orientation := Landscape;
    } else {
      return false;
    }
    ok := true;
  }

  /** Sets the repeated rows of a sheet to `$start:$end`. */
  method SetPrintTitleRows(sheet: Worksheet?, startRow: int, endRow: int) returns (ok: bool)
    modifies if sheet != null then {sheet.pageSetup} else {}
    ensures ok <==> sheet != null
    ensures sheet != null ==>
      sheet.pageSetup.State() == old(sheet.pageSetup.State()).(printTitleRows := TitleRows(startRow, endRow))
  {
    if sheet == null {
      return false;
    }
    sheet.pageSetup.printTitleRows := "$" + Decimal(startRow) + ":$" + Decimal(endRow);
    ok := true;
  }

  /** Sets the repeated columns of a sheet to `$A:$C` form, from indices. */
  method SetPrintTitleColumns(sheet: Worksheet?, startCol: int, endCol: int) returns (ok: bool)
    modifies if sheet != null then {sheet.pageSetup} else {}
    ensures ok <==> sheet != null
    ensures sheet != null ==>
      sheet.pageSetup.State() == old(sheet.pageSetup.State()).(printTitleColumns := TitleColumns(startCol, endCol))
  {
    if sheet == null {
      return false;
    }
    var first := ColToStr(startCol);
    var last := ColToStr(endCol);
    sheet.pageSetup.printTitleColumns := "$" + first + ":$" + last;
    ok := true;
  }

  // ---------------------------------------------------------------------------
  // Smart print settings
  // ---------------------------------------------------------------------------

  /** The measured area: the print area when one is set, else the used range. */
  function MeasuredSize(s: Setup, usedSize: (real, real), measure: string -> (real, real)): (real, real)
  {
    if s.printArea != "" then measure(s.printArea) else usedSize
  }

  /** No margins and no centring. */
  function NoMargins(s: Setup): Setup
  {
    s.(leftMargin := 0.0, rightMargin := 0.0, topMargin := 0.0, bottomMargin := 0.0,
       headerMargin := 0.0, footerMargin := 0.0,
       centerHorizontally := false, centerVertically := false)
  }

  /** Zoom off, one page wide and tall, no title rows or columns. */
  function FitOnePage(s: Setup): Setup
  {
    s.(zoom := ZoomOff, fitToPagesWide := 1, fitToPagesTall := 1,
       printTitleRows := "", printTitleColumns := "")
  }

  /** Landscape for a wide area; A4 for the first sheet, else A3 for a wide
      area and A4 otherwise. */
  function Oriented(s: Setup, first: bool, size: (real, real)): Setup
  {
    var wide := size.0 > size.1;
    s.(orientation := if wide then Landscape else Portrait,
       paperSize := if first then A4Paper else if wide then A3Paper else A4Paper)
  }

  /** The page setup the smart settings leave on a processed sheet of the
      given measured size. */
  function SmartSetup(s: Setup, first: bool, size: (real, real)): Setup
  {
    Oriented(FitOnePage(NoMargins(s)), first, size)
  }

  /** Whether the smart settings process a sheet: only a `Visible` value of 0
      (hidden) is skipped, so a very hidden sheet is processed. */
  predicate Processed(sheet: Worksheet)
  {
    sheet.visibility != XlSheetHidden
  }

  /** What the smart settings do to one sheet: a hidden sheet is untouched. */
  function SheetResult(sheet: Worksheet, s: Setup, first: bool): Setup
  {
    if Processed(sheet) then SmartSetup(s, first, MeasuredSize(s, sheet.usedSize, sheet.measure)) else s
  }

  /** The decisions: landscape exactly when the measured width exceeds the
      height (a square area prints portrait); A4 on the first sheet; on the
      others A3 exactly when the area is wide; the print area and every
      layout-independent field are kept. */
  lemma SmartSetupDecisions(s: Setup, first: bool, size: (real, real))
    ensures var r := SmartSetup(s, first, size);
      (r.orientation == Landscape <==> size.0 > size.1) &&
      (r.orientation == Portrait <==> size.0 <= size.1) &&
      (first ==> r.paperSize == A4Paper) &&
      (!first ==> (r.paperSize == A3Paper <==> size.0 > size.1)) &&
      (r.paperSize == A3Paper || r.paperSize == A4Paper) &&
      r.leftMargin == r.rightMargin == r.topMargin == r.bottomMargin == 0.0 &&
      r.headerMargin == r.footerMargin == 0.0 &&
      !r.centerHorizontally && !r.centerVertically && r.zoom == ZoomOff &&
      r.fitToPagesWide == 1 && r.fitToPagesTall == 1 &&
      r.printTitleRows == "" && r.printTitleColumns == "" &&
      r.printArea == s.printArea
  {
  }

  /** Running the smart settings twice leaves what running them once did. */
  lemma SheetResultIdempotent(sheet: Worksheet, s: Setup, first: bool)
    ensures SheetResult(sheet, SheetResult(sheet, s, first), first) == SheetResult(sheet, s, first)
  {
  }

  /** Applies the smart settings to one sheet. */
  method ApplySmartSettings(sheet: Worksheet, first: bool)
    modifies sheet.pageSetup
    ensures sheet.pageSetup.State() ==
      SmartSetup(old(sheet.pageSetup.State()), first,
                 MeasuredSize(old(sheet.pageSetup.State()), sheet.usedSize, sheet.measure))
  {
    var ps := sheet.pageSetup;
    ClearMargins(ps);
    FitToOnePage(ps);

    var width: real, height: real;
    if ps.printArea != "" {
      width, height := sheet.measure(ps.printArea).0, sheet.measure(ps.printArea).1;
    } else {
      width, height := sheet.usedSize.0, sheet.usedSize.1;
    }
    ChooseOrientationAndPaper(ps, first, width, height);
  }

  method ClearMargins(ps: PageSetup)
    modifies ps
    ensures ps.State() == NoMargins(old(ps.State()))
  {
    ps.leftMargin, ps.rightMargin, ps.topMargin, ps.bottomMargin := 0.0, 0.0, 0.0, 0.0;
    ps.headerMargin, ps.footerMargin := 0.0, 0.0;
    ps.centerHorizontally, ps.centerVertically := false, false;
  }

  method FitToOnePage(ps: PageSetup)
    modifies ps
    ensures ps.State() == FitOnePage(old(ps.State()))
  {
    ps.zoom := ZoomOff;
    ps.fitToPagesWide, ps.fitToPagesTall := 1, 1;
    ps.printTitleRows, ps.printTitleColumns := "", "";
  }

  method ChooseOrientationAndPaper(ps: PageSetup, first: bool, width: real, height: real)
    modifies ps
    ensures ps.State() == Oriented(old(ps.State()), first, (width, height))
  {
    if width > height {
      ps.orientation := Landscape;
    } else {
      ps.orientation := Portrait;
    }
    if first {
      ps.paperSize := A4Paper;
    } else if width > height {
      ps.paperSize := A3Paper;
    } else {
      ps.paperSize := A4Paper;
    }
  }

  /** Applies the smart settings to every sheet of a workbook that is not
      hidden (a very hidden sheet included) in order, the first sheet
      counting as first whether processed or not. */
  method SmartPrintSettings(sheets: seq<Worksheet>) returns (ok: bool)
    requires forall i, j :: 0 <= i < j < |sheets| ==> sheets[i].pageSetup != sheets[j].pageSetup
    modifies set i | 0 <= i < |sheets| :: sheets[i].pageSetup
    ensures ok
    ensures forall k :: 0 <= k < |sheets| ==>
      sheets[k].pageSetup.State() == SheetResult(sheets[k], old(sheets[k].pageSetup.State()), k == 0)
  {
    var i := 0;
    while i < |sheets|
      invariant 0 <= i <= |sheets|
      invariant forall k :: 0 <= k < i ==>
        sheets[k].pageSetup.State() == SheetResult(sheets[k], old(sheets[k].pageSetup.State()), k == 0)
      invariant forall k :: i <= k < |sheets| ==>
        sheets[k].pageSetup.State() == old(sheets[k].pageSetup.State())
    {
      if sheets[i].visibility != XlSheetHidden {
        ApplySmartSettings(sheets[i], i == 0);
      }
      i := i + 1;
    }
    ok := true;
  }
}
