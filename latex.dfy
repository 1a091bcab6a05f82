/** Model of `rtktools/latex.py`: a LaTeX document made of a preamble, a body
    and a postamble, and the generic `longtable` document whose body is one
    cell per item, laid out row-major over `ncols` columns, followed by
    padding cells. */
module Latex {
  import opened Wrappers
  import opened Text
  import opened Arith

  // ---------------------------------------------------------------------
  // Defaults set by the constructors
  // ---------------------------------------------------------------------

  const DefaultPaperFormat: string := "a3paper"
  const DefaultPageMargin: string := "1cm"
  const DefaultColumns: nat := 9
  const DefaultGrid: bool := true

  // ---------------------------------------------------------------------
  // Document preamble and postamble
  // ---------------------------------------------------------------------

  /** The preamble up to the geometry options, after dedenting. */
  const DocumentHead: string := "\\documentclass[]{article}\n\\usepackage["

  /** The preamble after the geometry options, after dedenting; it ends with
      the line that opens the document and no line break. */
  const DocumentTail: string :=
    "]{geometry}\n"
    + "\\usepackage{xeCJK}\n"
    + "\\setCJKmainfont[BoldFont=AozoraMincho-bold,AutoFakeSlant=0.15]{Aozora Mincho}\n"
    + "\\usepackage{xcolor}\n"
    + "\\usepackage{longtable}\n"
    + "\\pagenumbering{gobble}  % no page numbers\n"
    + "\\begin{document}"

  /** The option list of the `geometry` package: margin first, then paper. */
  function GeometryOptions(paper: string, margin: string): string {
    "margin=" + margin + "," + paper
  }

  /** `_begin_document`: the fixed preamble with the paper format and page
      margin spliced into the `geometry` line. */
  function BeginDocument(paper: string, margin: string): (r: string)
    ensures StartsWith(r, "\\documentclass[]{article}\n")
    ensures EndsWith(r, "\\begin{document}")
    ensures StartsWith(r, DocumentHead + GeometryOptions(paper, margin) + "]{geometry}\n")
  {
    DocumentHead + GeometryOptions(paper, margin) + DocumentTail
  }

  /** Two preambles are equal exactly when their geometry options are: paper
      format and page margin enter the preamble nowhere else. */
  lemma PreambleDeterminedByGeometry(p1: string, m1: string, p2: string, m2: string)
    ensures BeginDocument(p1, m1) == BeginDocument(p2, m2)
        <==> GeometryOptions(p1, m1) == GeometryOptions(p2, m2)
  {
    if BeginDocument(p1, m1) == BeginDocument(p2, m2) {
      CancelFrame(DocumentHead, GeometryOptions(p1, m1), GeometryOptions(p2, m2), DocumentTail);
    }
  }

  /** `_end_document`: `\end{document}` framed by blank space (a line break and
      the indentation of the raw string literal on either side). */
  function EndDocument(): (r: string)
    ensures |r| == 32
    ensures IsBlank(r[..9]) && r[9..23] == "\\end{document}" && IsBlank(r[23..])
  {
    var r := "\n" + Indent + "\\end{document}" + "\n" + Indent;
    assert r[..9] == "\n" + Indent;
    assert r[23..] == "\n" + Indent;
    r
  }

  /** The indentation of the raw string literal `_end_document` returns. */
  const Indent: string := "        "

  // ---------------------------------------------------------------------
  // Table preamble and postamble
  // ---------------------------------------------------------------------

  /** The `longtable` column specification: `col_line + ("c" + col_line) * ncols`
      where `col_line` is `|` with grid lines and empty without. */
  function ColumnSpec(ncols: nat, grid: bool): string {
    var colLine := if grid then "|" else "";
    colLine + Repeat("c" + colLine, ncols)
  }

  /** With grid lines the column specification is `|c|c|...|c|`. */
  lemma GridColumnSpec(ncols: nat)
    ensures Count(ColumnSpec(ncols, true), 'c') == ncols
    ensures |ColumnSpec(ncols, true)| == 2 * ncols + 1
    ensures forall j :: 0 <= j < |ColumnSpec(ncols, true)| ==>
      ColumnSpec(ncols, true)[j] == if j % 2 == 0 then '|' else 'c'
  {
    var pairs := Repeat(['c', '|'], ncols);
    assert "c" + "|" == ['c', '|'];
    assert ColumnSpec(ncols, true) == "|" + pairs;
    CountRepeat(['c', '|'], ncols, 'c');
    CountConcat("|", pairs, 'c');
    forall j | 0 <= j < |ColumnSpec(ncols, true)|
      ensures ColumnSpec(ncols, true)[j] == if j % 2 == 0 then '|' else 'c'
    {
      if j > 0 {
        RepeatPairAt('c', '|', ncols, j - 1);
      }
    }
  }

  /** Without grid lines the column specification is `cc...c`. */
  lemma PlainColumnSpec(ncols: nat)
    ensures Count(ColumnSpec(ncols, false), 'c') == ncols
    ensures |ColumnSpec(ncols, false)| == ncols
    ensures forall j :: 0 <= j < |ColumnSpec(ncols, false)| ==> ColumnSpec(ncols, false)[j] == 'c'
  {
    assert "c" + "" == ['c'];
    assert ColumnSpec(ncols, false) == Repeat(['c'], ncols);
    CountRepeat(['c'], ncols, 'c');
    forall j | 0 <= j < ncols
      ensures ColumnSpec(ncols, false)[j] == 'c'
    {
      RepeatCharAt('c', ncols, j);
    }
  }

  /** The column specification holds exactly `ncols` centred columns; with grid
      lines it is `|c|c|...|c|`, without them `cc...c`. */
  lemma ColumnSpecShape(ncols: nat, grid: bool)
    ensures Count(ColumnSpec(ncols, grid), 'c') == ncols
    ensures grid ==> |ColumnSpec(ncols, grid)| == 2 * ncols + 1
    ensures grid ==> forall j :: 0 <= j < |ColumnSpec(ncols, grid)| ==>
      ColumnSpec(ncols, grid)[j] == if j % 2 == 0 then '|' else 'c'
    ensures !grid ==> |ColumnSpec(ncols, grid)| == ncols
    ensures !grid ==> forall j :: 0 <= j < |ColumnSpec(ncols, grid)| ==> ColumnSpec(ncols, grid)[j] == 'c'
  {
    if grid {
      GridColumnSpec(ncols);
    } else {
      PlainColumnSpec(ncols);
    }
  }

  /** The line drawn under the table head: `\hline` with grid lines, nothing without. */
  function RowLine(grid: bool): string {
    if grid then "\\hline" else ""
  }

  /** `_begin_table`: the line opening the `longtable` with the column spec,
      then the row line (empty without grid lines) and its line break. */
  function BeginTable(ncols: nat, grid: bool): (r: string)
    ensures StartsWith(r, "\\begin{longtable}{" + ColumnSpec(ncols, grid) + "}\n")
    ensures EndsWith(r, RowLine(grid) + "\n")
    ensures |r| == |"\\begin{longtable}{" + ColumnSpec(ncols, grid) + "}\n"| + |RowLine(grid)| + 1
  {
    "\\begin{longtable}{" + ColumnSpec(ncols, grid) + "}\n" + RowLine(grid) + "\n"
  }

  /** `_end_table`: the line that closes the `longtable`. */
  function EndTable(): (r: string)
    ensures EndsWith(r, "\n") && r[..|r| - 1] == "\\end{longtable}"
  {
    "\\end{longtable}\n"
  }

  // ---------------------------------------------------------------------
  // The table body: which cell and column each `_format_cell` call receives
  // ---------------------------------------------------------------------

  /** One call of the `_format_cell(cell, icol)` hook: an item, or `None` for padding. */
  datatype Slot<T> = Slot(cell: Option<T>, icol: nat)

  /** Padding cell `j` after `n` items sits in column `n % ncols + j`, which is
      the row-major column `(n + j) % ncols` of its position. */
  lemma PaddingColumn(n: nat, ncols: nat, j: nat)
    requires ncols >= 1 && j < ncols - n % ncols
    ensures (n + j) % ncols == n % ncols + j
  {
    DivModUnique(n + j, ncols, n / ncols, n % ncols + j);
  }

  /** How many times `_generate_body` calls `_format_cell` for `n` items:
      the items, then the padding columns `n % ncols` to `ncols - 1`. */
  function SlotCount(n: nat, ncols: nat): nat
    requires ncols >= 1
  {
    n + (ncols - n % ncols)
  }

  /** The arguments of the `k`-th `_format_cell` call: item `k` in column
      `k % ncols` while items last, then `None` in the padding columns
      counted up from `n % ncols`. */
  function SlotAt<T>(items: seq<T>, ncols: nat, k: nat): Slot<T>
    requires ncols >= 1 && k < SlotCount(|items|, ncols)
  {
    if k < |items| then Slot(Some(items[k]), k % ncols)
    else Slot(None, |items| % ncols + (k - |items|))
  }

  /** The layout of the cells: their number is a whole number of rows and
      always more than `n`, so an item count that already fills whole rows
      (zero included) still gets a full row of padding; every cell, item or
      padding, is in row-major column `k % ncols`; items come first and in
      order, padding (`None`) after, and the padding runs up to column
      `ncols - 1`. */
  lemma SlotsLayout<T>(items: seq<T>, ncols: nat)
    requires ncols >= 1
    ensures SlotCount(|items|, ncols) % ncols == 0
    ensures SlotCount(|items|, ncols) > |items|
    ensures SlotCount(|items|, ncols) - |items| == ncols <==> |items| % ncols == 0
    ensures forall k :: 0 <= k < SlotCount(|items|, ncols) ==> SlotAt(items, ncols, k).icol == k % ncols
    ensures forall k :: 0 <= k < |items| ==> SlotAt(items, ncols, k).cell == Some(items[k])
    ensures forall k :: |items| <= k < SlotCount(|items|, ncols) ==> SlotAt(items, ncols, k).cell == None
    ensures SlotAt(items, ncols, SlotCount(|items|, ncols) - 1).icol == ncols - 1
  {
    var n := |items|;
    forall k | n <= k < SlotCount(n, ncols)
      ensures SlotAt(items, ncols, k).icol == k % ncols
    {
      PaddingColumn(n, ncols, k - n);
    }
    DivModUnique(SlotCount(n, ncols), ncols, n / ncols + 1, 0);
  }

  /** The text of the first `k` cells, each formatted by `fmt` with the
      arguments `SlotAt` gives it. */
  function CellsText<T>(fmt: (Option<T>, nat) -> string, items: seq<T>, ncols: nat, k: nat): string
    requires ncols >= 1 && k <= SlotCount(|items|, ncols)
  {
    if k == 0 then ""
    else
      var slot := SlotAt(items, ncols, k - 1);
      CellsText(fmt, items, ncols, k - 1) + fmt(slot.cell, slot.icol)
  }

  /** The body `_generate_body` returns: table head, all cells, a line break,
      table foot. */
  function Body<T>(items: seq<T>, ncols: nat, grid: bool, fmt: (Option<T>, nat) -> string): string
    requires ncols >= 1
  {
    BeginTable(ncols, grid) + CellsText(fmt, items, ncols, SlotCount(|items|, ncols)) + "\n" + EndTable()
  }

  // ---------------------------------------------------------------------
  // The document object
  // ---------------------------------------------------------------------

  /** `LatexTableDocument`, with the abstract hooks of its subclasses supplied
      as values: `contents` is what `_get_contents` returns and `formatCell`
      is `_format_cell`. The settings are public fields a caller may reassign
      between calls of `Generate`. */
  class LatexTableDocument<T> {
    var paperFormat: string
    var pageMargin: string
    var ncols: nat
    var grid: bool
    var contents: seq<T>
    const formatCell: (Option<T>, nat) -> string

    /** `LatexDocument.__init__` followed by `LatexTableDocument.__init__`. */
    constructor (contents: seq<T>, formatCell: (Option<T>, nat) -> string)
      ensures paperFormat == DefaultPaperFormat && pageMargin == DefaultPageMargin
      ensures ncols == DefaultColumns && grid == DefaultGrid
      ensures this.contents == contents && this.formatCell == formatCell
    {
      paperFormat := DefaultPaperFormat;
      pageMargin := DefaultPageMargin;
      ncols := DefaultColumns;
      grid := DefaultGrid;
      this.contents := contents;
      this.formatCell := formatCell;
    }

    /** `_generate_body`: one loop over the items, one over the padding columns. */
    method GenerateBody() returns (out: string)
      requires ncols >= 1
      ensures out == Body(contents, ncols, grid, formatCell)
    {
      var items, nc, fmt := contents, ncols, formatCell;
      var n := |items|;
      ghost var head := BeginTable(nc, grid);
      out := BeginTable(nc, grid);
      for i := 0 to n
        invariant out == head + CellsText(fmt, items, nc, i)
      {
        var icol := i % nc;
        AppendAssoc(head, CellsText(fmt, items, nc, i), fmt(Some(items[i]), icol));
        out := out + fmt(Some(items[i]), icol);
      }
      for icol := n % nc to nc
        invariant out == head + CellsText(fmt, items, nc, n + (icol - n % nc))
      {
        AppendAssoc(head, CellsText(fmt, items, nc, n + (icol - n % nc)), fmt(None, icol));
        out := out + fmt(None, icol);
      }
      out := out + "\n";
      out := out + EndTable();
    }

    /** `generate`: preamble, body and postamble. Writing the text to `path`
        is not modelled; the text returned does not depend on `path`. */
    method Generate(path: Option<string>) returns (out: string)
      requires ncols >= 1
      ensures out == BeginDocument(paperFormat, pageMargin) + Body(contents, ncols, grid, formatCell) + EndDocument()
    {
      out := BeginDocument(paperFormat, pageMargin);
      var body := GenerateBody();
      out := out + body;
      out := out + EndDocument();
    }
  }
}
