/** Model of `rtktools/poster.py`: a stand-alone `longtable` of kanji cards,
    one cell per row of a kanji collection, laid out row-major over `ncols`
    columns with grid lines. Each cell carries its own separator: `&` inside
    a row and a row end after the last column; there is no padding. */
module Poster {
  import opened Text
  import opened Arith
  import Latex
  import KanjiCollection

  const DefaultColumns: nat := 8
  const DefaultRows: nat := 10
  const DefaultCellWidth: string := "2.5cm"
  const DefaultVadd: string := "0.3cm"

  /** What closes the last cell of a row: `\\ \hline`. */
  const RowEnd: string := "\\\\ \\hline"

  /** `_begin_table`: always the gridded table head of the generic document. */
  function BeginTable(ncols: nat): (r: string)
    ensures r == Latex.BeginTable(ncols, true)
  {
    assert "c" + "|" == "c|";
    "\\begin{longtable}{" + "|" + Repeat("c|", ncols) + "}\n" + "\\hline\n"
  }

  /** `_end_table`: the same table foot as the generic document's. */
  function EndTable(): (r: string)
    ensures r == Latex.EndTable()
  {
    "\\end{longtable}" + "\n"
  }

  /** The text that ends the glyph line of a card. */
  function GlyphLine(kanji: string): string {
    "{\\Huge " + kanji + " }\n"
  }

  /** The text of the label line of a card: the id and the code point label. */
  function LabelLine(item: KanjiCollection.Item): string {
    IntToDecimal(item.id) + " " + item.utf + "\n"
  }

  /** The opening of a card: a `minipage` of the cell width, centred, with
      `vadd` of space above the glyph. */
  function CardHead(cellWidth: string, vadd: string): string {
    "\\begin{minipage}{" + cellWidth + "}\n\\centering\n\\vspace{" + vadd + "}\n"
  }

  /** The line break of `0.3ex` between the glyph and the label line. */
  const GlyphGap: string := "\\\\[0.3ex]\n"

  /** The closing of a card: `vadd` of space below the label line. */
  function CardFoot(vadd: string): string {
    "\\vspace{" + vadd + "}\n\\end{minipage}\n"
  }

  /** `_format_cell_content`: a `minipage` of width `cellWidth` holding the
      glyph in huge type and, under it, the id and the code point label, with
      `vadd` of vertical space above and below. */
  function FormatCellContent(content: KanjiCollection.Row, cellWidth: string, vadd: string): string {
    CardHead(cellWidth, vadd) + GlyphLine(content.item.kanji) + GlyphGap + LabelLine(content.item) + CardFoot(vadd)
  }

  /** A card is one `minipage` of the cell width, opened with centring and
      the vertical space, closed with the same space. Right after the head
      comes the glyph line, then the `0.3ex` gap, then the line with the id
      and the code point label, directly before the foot. */
  lemma CardShape(content: KanjiCollection.Row, cellWidth: string, vadd: string)
    ensures var r := FormatCellContent(content, cellWidth, vadd);
      && StartsWith(r, "\\begin{minipage}{" + cellWidth + "}\n\\centering\n\\vspace{" + vadd + "}\n")
      && EndsWith(r, "\\vspace{" + vadd + "}\n\\end{minipage}\n")
      && Contains(r, GlyphLine(content.item.kanji))
      && Contains(r, LabelLine(content.item))
    ensures var r := FormatCellContent(content, cellWidth, vadd);
      var head, glyph, foot := CardHead(cellWidth, vadd), GlyphLine(content.item.kanji), CardFoot(vadd);
      && |r| == |head| + |glyph| + |GlyphGap| + |LabelLine(content.item)| + |foot|
      && r[|head|..|head| + |glyph|] == glyph
      && r[|head| + |glyph|..|head| + |glyph| + |GlyphGap|] == GlyphGap
      && r[|r| - |foot| - |LabelLine(content.item)|..|r| - |foot|] == LabelLine(content.item)
  {
    FiveParts(CardHead(cellWidth, vadd), GlyphLine(content.item.kanji), GlyphGap, LabelLine(content.item), CardFoot(vadd));
  }

  /** The separator `_cell` puts after a cell in column `icol`. */
  function Separator(icol: nat, ncols: nat): string {
    if icol < ncols - 1 then "&" else RowEnd
  }

  /** `_cell`: the card followed by its separator. */
  function Cell(content: KanjiCollection.Row, icol: nat, ncols: nat, cellWidth: string, vadd: string): string {
    FormatCellContent(content, cellWidth, vadd) + Separator(icol, ncols)
  }

  /** A cell is exactly its card followed directly by `&` in every column
      but the last, and by a row end (`\\ \hline`) in the last. */
  lemma CellEnds(content: KanjiCollection.Row, icol: nat, ncols: nat, cellWidth: string, vadd: string)
    ensures var r := Cell(content, icol, ncols, cellWidth, vadd);
      && StartsWith(r, FormatCellContent(content, cellWidth, vadd))
      && (EndsWith(r, "&") <==> icol < ncols - 1)
      && (EndsWith(r, RowEnd) <==> icol >= ncols - 1)
      && |r| == |FormatCellContent(content, cellWidth, vadd)| + (if icol < ncols - 1 then 1 else |RowEnd|)
  {
    var c := FormatCellContent(content, cellWidth, vadd);
    var r := Cell(content, icol, ncols, cellWidth, vadd);
    assert r[..|c|] == c;
    if icol < ncols - 1 {
      assert r[|r| - 1..] == "&";
      assert r[|r| - 1] != RowEnd[|RowEnd| - 1];
    } else {
      assert r[|r| - |RowEnd|..] == RowEnd;
      assert r[|r| - 1] != '&';
    }
  }

  /** The cells `generate` emits for `rows`: cell `i` is row `i` in column `i % ncols`. */
  function CellTexts(rows: seq<KanjiCollection.Row>, ncols: nat, cellWidth: string, vadd: string): (r: seq<string>)
    requires ncols >= 1 || rows == []
    ensures |r| == |rows|
  {
    seq(|rows|, i requires 0 <= i < |rows| => Cell(rows[i], i % ncols, ncols, cellWidth, vadd))
  }

  /** One cell per row, in row order: cell `i` holds row `i`'s card and ends
      with `&` exactly when its column `i % ncols` is not the last, and with
      a row end exactly when it is. */
  lemma CellTextsShape(rows: seq<KanjiCollection.Row>, ncols: nat, cellWidth: string, vadd: string)
    requires ncols >= 1
    ensures var r := CellTexts(rows, ncols, cellWidth, vadd);
      && (forall i :: 0 <= i < |r| ==> StartsWith(r[i], FormatCellContent(rows[i], cellWidth, vadd)))
      && (forall i :: 0 <= i < |r| ==> (EndsWith(r[i], "&") <==> i % ncols < ncols - 1))
      && (forall i :: 0 <= i < |r| ==> (EndsWith(r[i], RowEnd) <==> i % ncols == ncols - 1))
      && (forall i :: 0 <= i < |r| ==>
            |r[i]| == |FormatCellContent(rows[i], cellWidth, vadd)| + (if i % ncols < ncols - 1 then 1 else |RowEnd|))
  {
    var r := CellTexts(rows, ncols, cellWidth, vadd);
    forall i | 0 <= i < |r|
      ensures StartsWith(r[i], FormatCellContent(rows[i], cellWidth, vadd))
      ensures EndsWith(r[i], "&") <==> i % ncols < ncols - 1
      ensures EndsWith(r[i], RowEnd) <==> i % ncols == ncols - 1
      ensures |r[i]| == |FormatCellContent(rows[i], cellWidth, vadd)| + (if i % ncols < ncols - 1 then 1 else |RowEnd|)
    {
      CellEnds(rows[i], i % ncols, ncols, cellWidth, vadd);
    }
  }

  /** Which of `cells` end a row. */
  function RowEndMarks(cells: seq<string>): seq<bool> {
    seq(|cells|, i requires 0 <= i < |cells| => EndsWith(cells[i], RowEnd))
  }

  /** How many of `marks` are set. */
  function CountSet(marks: seq<bool>): nat {
    if marks == [] then 0
    else CountSet(marks[..|marks| - 1]) + (if marks[|marks| - 1] then 1 else 0)
  }

  /** When exactly the positions in the last column are marked, the first
      `m` positions hold `floor(m / ncols)` marks. */
  lemma {:induction false} LastColumnCount(marks: seq<bool>, ncols: nat, m: nat)
    requires ncols >= 1 && m <= |marks|
    requires forall i :: 0 <= i < |marks| ==> (marks[i] <==> i % ncols == ncols - 1)
    ensures CountSet(marks[..m]) == m / ncols
  {
    if m > 0 {
      LastColumnCount(marks, ncols, m - 1);
      assert marks[..m][..m - 1] == marks[..m - 1];
      assert CountSet(marks[..m]) == m / ncols by {
        StepDivMod(m - 1, ncols);
      }
    }
  }

  /** The layout of a poster of `n` kanji: `floor(n / ncols)` row ends, one
      per full row; a trailing partial row is left open, its last cell ending
      with `&`. */
  lemma PosterLayout(rows: seq<KanjiCollection.Row>, ncols: nat, cellWidth: string, vadd: string)
    requires ncols >= 1
    ensures CountSet(RowEndMarks(CellTexts(rows, ncols, cellWidth, vadd))) == |rows| / ncols
    ensures |rows| % ncols != 0 ==> EndsWith(CellTexts(rows, ncols, cellWidth, vadd)[|rows| - 1], "&")
  {
    var cells := CellTexts(rows, ncols, cellWidth, vadd);
    var marks := RowEndMarks(cells);
    CellTextsShape(rows, ncols, cellWidth, vadd);
    LastColumnCount(marks, ncols, |marks|);
    assert marks[..|marks|] == marks;
    if |rows| % ncols != 0 {
      StepDivMod(|rows| - 1, ncols);
    }
  }

  /** `KanjiPoster`: its settings are public fields a caller may reassign
      before calling `Generate`; `nrows` is stored but never read. */
  class KanjiPoster {
    var ncols: nat
    var nrows: nat
    var k: KanjiCollection.KanjiCollection
    var cellWidth: string
    var vadd: string

    constructor (k: KanjiCollection.KanjiCollection)
      ensures ncols == DefaultColumns && nrows == DefaultRows && this.k == k
      ensures cellWidth == DefaultCellWidth && vadd == DefaultVadd
    {
      ncols := DefaultColumns;
      nrows := DefaultRows;
      this.k := k;
      cellWidth := DefaultCellWidth;
      vadd := DefaultVadd;
    }

    /** `generate`: the table head, one cell per row of the collection in
        iteration order, a line break and the table foot. With no rows the
        column count is never divided by, so zero columns are accepted. */
    method Generate() returns (out: string)
      requires ncols >= 1 || |KanjiCollection.Iter(k)| == 0
      ensures out == BeginTable(ncols) + Concat(CellTexts(KanjiCollection.Iter(k), ncols, cellWidth, vadd)) + "\n" + EndTable()
    {
      var rows, nc, width, space := KanjiCollection.Iter(k), ncols, cellWidth, vadd;
      ghost var cells := CellTexts(rows, nc, width, space);
      ghost var head := BeginTable(nc);
      out := BeginTable(nc);
      for i := 0 to |rows|
        invariant out == head + Concat(cells[..i])
      {
        var icol := i % nc;
        var cell := Cell(rows[i], icol, nc, width, space);
        ConcatSnoc(cells, i);
        AppendAssoc(head, Concat(cells[..i]), cell);
        out := out + cell;
      }
      assert cells[..|rows|] == cells;
      out := out + "\n";
      out := out + EndTable();
    }
  }
}
