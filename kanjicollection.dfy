/** Model of `rtktools/kanjicollection.py`: reading the kanji table and
    normalising each row (the edition's id column, defaults for missing
    cells, readings split on `;`, the `u<hex>` code point label). The table
    is given as already parsed rows; reading the file is not modelled. */
module KanjiCollection {
  import opened Wrappers
  import opened Text

  const DefaultEdition: int := 6

  // The columns `_read` uses besides the edition's id column.
  const Id5thColumn: string := "id_5th_ed"
  const Id6thColumn: string := "id_6th_ed"
  const ComponentsColumn: string := "components"
  const OnReadingColumn: string := "on_reading"
  const KunReadingColumn: string := "kun_reading"
  const KanjiColumn: string := "kanji"

  /** The id columns `_read` drops once the edition's ids are copied. */
  const DroppedColumns: seq<string> := [Id5thColumn, Id6thColumn]

  /** One row of the input table as parsed, before normalisation; a cell that
      is empty in the file is `None`. `ids` holds the edition id columns
      (`id_5th_ed`, `id_6th_ed`, ...); a row without an entry for one of them
      has that cell empty. */
  datatype RawRow = RawRow(
    kanji: Option<string>,
    ids: map<string, Option<int>>,
    components: Option<string>,
    onReading: Option<string>,
    kunReading: Option<string>)

  /** The parsed table: the column names of its header and its rows in file
      order (comment lines already removed). */
  datatype RawTable = RawTable(columns: set<string>, rows: seq<RawRow>)

  /** A normalised row. */
  datatype Item = Item(
    kanji: string,
    id: int,
    components: string,
    onReading: seq<string>,
    kunReading: seq<string>,
    utf: string)

  /** One tuple of `itertuples()`: the row label, then the row's fields. */
  datatype Row = Row(index: nat, item: Item)

  /** A `KanjiCollection` after construction: the edition it was read for and
      the normalised table. */
  datatype KanjiCollection = KanjiCollection(edition: int, df: seq<Item>)

  /** The exceptions reading can raise: pandas' `KeyError` naming the missing
      column labels, and the `TypeError` of `ord` on a kanji cell that is not
      exactly one character (an empty cell included). */
  datatype ReadError = KeyError(labels: seq<string>) | TypeError

  /** The name of the id column for an edition: `"id_{}th_ed".format(edition)`. */
  function IdColumn(edition: int): string {
    "id_" + IntToDecimal(edition) + "th_ed"
  }

  /** Different editions name different columns. */
  lemma IdColumnInjective(e1: int, e2: int)
    requires IdColumn(e1) == IdColumn(e2)
    ensures e1 == e2
  {
    CancelFrame("id_", IntToDecimal(e1), IntToDecimal(e2), "th_ed");
    DecimalRoundTrip(e1);
    DecimalRoundTrip(e2);
  }

  /** `astype(np.int16)`: the value taken modulo 2^16 into the signed range. */
  function Int16(x: int): (r: int)
    ensures -32768 <= r < 32768
    ensures (r - x) % 65536 == 0
    ensures -32768 <= x < 32768 ==> r == x
  {
    (x + 32768) % 65536 - 32768
  }

  /** The row's cell in column `idCol`, with an empty cell read as 0 (`fillna(0)`). */
  function IdCell(row: RawRow, idCol: string): int {
    if idCol in row.ids then row.ids[idCol].GetOr(0) else 0
  }

  /** `"u" + hex(ord(c))[2:]`. */
  function UtfLabel(c: char): (r: string)
    ensures |r| >= 2 && r[0] == 'u'
    ensures forall i :: 1 <= i < |r| ==> IsHexDigit(r[i])
    ensures HexToNat(r[1..]) == c as int
    ensures r[1] == '0' ==> r == "u0"
  {
    var r := "u" + NatToHex(c as int);
    assert r[1..] == NatToHex(c as int);
    HexRoundTrip(c as int);
    r
  }

  /** `ord` accepts the kanji cell: it holds exactly one character. */
  predicate IsGlyph(kanji: Option<string>) {
    kanji.Some? && |kanji.value| == 1
  }

  /** The steps of `_read` applied to one row whose kanji cell is a glyph. */
  function NormaliseRow(row: RawRow, idCol: string): Item
    requires IsGlyph(row.kanji)
  {
    Item(
      kanji := row.kanji.value,
      id := Int16(IdCell(row, idCol)),
      components := row.components.GetOr(""),
      onReading := Split(row.onReading.GetOr(""), ';'),
      kunReading := Split(row.kunReading.GetOr(""), ';'),
      utf := UtfLabel(row.kanji.value[0]))
  }

  /** What the per-row steps promise: the id is the edition's cell (0 when
      empty) cast to 16 bits; missing text becomes `""`; each reading list
      joins back with `;` to the cell (`""` when empty), an empty cell giving
      `[""]`; the label reads back as the kanji's code point. */
  lemma NormaliseRowSpec(row: RawRow, idCol: string)
    requires IsGlyph(row.kanji)
    ensures var item := NormaliseRow(row, idCol);
      && item.kanji == row.kanji.value
      && (IdCell(row, idCol) == 0 ==> item.id == 0)
      && (-32768 <= IdCell(row, idCol) < 32768 ==> item.id == IdCell(row, idCol))
      && (row.components.None? ==> item.components == "")
      && Join(item.onReading, ';') == row.onReading.GetOr("")
      && Join(item.kunReading, ';') == row.kunReading.GetOr("")
      && (row.onReading.GetOr("") == "" ==> item.onReading == [""])
      && (row.kunReading.GetOr("") == "" ==> item.kunReading == [""])
      && HexToNat(item.utf[1..]) == row.kanji.value[0] as int
  {
    JoinSplit(row.onReading.GetOr(""), ';');
    JoinSplit(row.kunReading.GetOr(""), ';');
  }

  /** The labels of `wanted` that are not columns of the table, in order. */
  function Missing(wanted: seq<string>, columns: set<string>): (r: seq<string>)
    ensures forall l {:trigger l in r} :: l in r <==> l in wanted && l !in columns
  {
    if wanted == [] then []
    else (if wanted[0] in columns then [] else [wanted[0]]) + Missing(wanted[1..], columns)
  }

  /** A single label is reported exactly when it is absent. */
  lemma MissingOne(l: string, columns: set<string>)
    ensures Missing([l], columns) == if l in columns then [] else [l]
  {
    assert [l][1..] == [];
  }

  /** The missing labels keep the order of `wanted`: the report for two
      lists one after the other is the report for the first, then the report
      for the second. */
  lemma {:induction false} MissingKeepsOrder(a: seq<string>, b: seq<string>, columns: set<string>)
    ensures Missing(a + b, columns) == Missing(a, columns) + Missing(b, columns)
  {
    if a == [] {
      assert a + b == b;
    } else {
      var head: seq<string> := if a[0] in columns then [] else [a[0]];
      var tail, rest := Missing(a[1..], columns), Missing(b, columns);
      MissingKeepsOrder(a[1..], b, columns);
      TailOfConcat(a, b);
      assert Missing(a + b, columns) == head + (tail + rest);
      assert head + (tail + rest) == (head + tail) + rest;
    }
  }

  /** `_read`: select the edition's id column, drop both id columns, fill the
      text columns, split the readings and label the code points, failing at
      the first step that reads an absent column or a kanji cell `ord`
      rejects. */
  function Read(t: RawTable, edition: int): (r: Result<seq<Item>, ReadError>)
    ensures IdColumn(edition) !in t.columns ==> r == Failure(KeyError([IdColumn(edition)]))
    ensures r.Success? <==>
      && IdColumn(edition) in t.columns
      && {Id5thColumn, Id6thColumn, ComponentsColumn, OnReadingColumn, KunReadingColumn, KanjiColumn} <= t.columns
      && (forall i :: 0 <= i < |t.rows| ==> IsGlyph(t.rows[i].kanji))
    ensures r == Failure(TypeError) <==>
      && IdColumn(edition) in t.columns
      && {Id5thColumn, Id6thColumn, ComponentsColumn, OnReadingColumn, KunReadingColumn, KanjiColumn} <= t.columns
      && (exists i :: 0 <= i < |t.rows| && !IsGlyph(t.rows[i].kanji))
    ensures r.Success? ==> |r.value| == |t.rows|
    ensures r.Success? ==> forall i :: 0 <= i < |t.rows| ==> r.value[i] == NormaliseRow(t.rows[i], IdColumn(edition))
  {
    var idCol := IdColumn(edition);
    var dropped := Missing(DroppedColumns, t.columns);
    if idCol !in t.columns then Failure(KeyError([idCol]))
    else if dropped != [] then
      assert dropped[0] in dropped;
      Failure(KeyError(dropped))
    else if ComponentsColumn !in t.columns then Failure(KeyError([ComponentsColumn]))
    else if OnReadingColumn !in t.columns then Failure(KeyError([OnReadingColumn]))
    else if KunReadingColumn !in t.columns then Failure(KeyError([KunReadingColumn]))
    else if KanjiColumn !in t.columns then Failure(KeyError([KanjiColumn]))
    else
      assert Id5thColumn in t.columns && Id6thColumn in t.columns by {
        assert Id5thColumn in DroppedColumns && Id6thColumn in DroppedColumns;
        assert Id5thColumn !in dropped && Id6thColumn !in dropped;
      }
      if !(forall i :: 0 <= i < |t.rows| ==> IsGlyph(t.rows[i].kanji)) then Failure(TypeError)
      else Success(seq(|t.rows|, i requires 0 <= i < |t.rows| => NormaliseRow(t.rows[i], idCol)))
  }

  /** Lines 21-23 of `_read`: copy the edition's id column, fill its empty
      cells with 0 and cast it to 16 bits. */
  method IdValues(rows: seq<RawRow>, idCol: string) returns (id: seq<int>)
    ensures |id| == |rows|
    ensures forall i :: 0 <= i < |rows| ==> id[i] == Int16(IdCell(rows[i], idCol))
  {
    var n := |rows|;
    var cells: seq<Option<int>> := seq(n, i requires 0 <= i < n =>
      if idCol in rows[i].ids then rows[i].ids[idCol] else None);
    id := seq(n, i requires 0 <= i < n => cells[i].GetOr(0));
    id := seq(n, i requires 0 <= i < n => Int16(id[i]));
  }

  /** `fillna("")` on a text column. */
  method FillText(cells: seq<Option<string>>) returns (filled: seq<string>)
    ensures |filled| == |cells|
    ensures forall i :: 0 <= i < |cells| ==> filled[i] == cells[i].GetOr("")
  {
    filled := seq(|cells|, i requires 0 <= i < |cells| => cells[i].GetOr(""));
  }

  /** `str.split(";")` on a filled text column. */
  method SplitColumn(cells: seq<string>) returns (parts: seq<seq<string>>)
    ensures |parts| == |cells|
    ensures forall i :: 0 <= i < |cells| ==> parts[i] == Split(cells[i], ';')
  {
    parts := seq(|cells|, i requires 0 <= i < |cells| => Split(cells[i], ';'));
  }

  /** `_read` as the sequence of column operations it performs on the frame:
      each step replaces one column by a transformed copy, and a step that
      names an absent column (or an `ord` that rejects a kanji cell) ends the
      read with its exception. */
  method ReadSteps(t: RawTable, edition: int) returns (r: Result<seq<Item>, ReadError>)
    ensures r == Read(t, edition)
  {
    var rows := t.rows;
    var n := |rows|;
    var idCol := IdColumn(edition);
    if idCol !in t.columns {
      return Failure(KeyError([idCol]));
    }
    var id := IdValues(rows, idCol);
    var dropped := Missing(DroppedColumns, t.columns);
    if dropped != [] {
      return Failure(KeyError(dropped));
    }
    if ComponentsColumn !in t.columns {
      return Failure(KeyError([ComponentsColumn]));
    }
    var components := FillText(seq(n, i requires 0 <= i < n => rows[i].components));
    if OnReadingColumn !in t.columns {
      return Failure(KeyError([OnReadingColumn]));
    }
    var onCells := FillText(seq(n, i requires 0 <= i < n => rows[i].onReading));
    if KunReadingColumn !in t.columns {
      return Failure(KeyError([KunReadingColumn]));
    }
    var kunCells := FillText(seq(n, i requires 0 <= i < n => rows[i].kunReading));
    var onReading := SplitColumn(onCells);
    var kunReading := SplitColumn(kunCells);
    if KanjiColumn !in t.columns {
      return Failure(KeyError([KanjiColumn]));
    }
    if !(forall i :: 0 <= i < n ==> IsGlyph(rows[i].kanji)) {
      return Failure(TypeError);
    }
    var utf := seq(n, i requires 0 <= i < n => UtfLabel(rows[i].kanji.value[0]));
    var df := seq(n, i requires 0 <= i < n =>
      Item(rows[i].kanji.value, id[i], components[i], onReading[i], kunReading[i], utf[i]));
    assert Id5thColumn in t.columns && Id6thColumn in t.columns by {
      assert Id5thColumn in DroppedColumns && Id6thColumn in DroppedColumns;
      assert Id5thColumn !in Missing(DroppedColumns, t.columns) && Id6thColumn !in Missing(DroppedColumns, t.columns);
    }
    assert forall i :: 0 <= i < n ==> df[i] == NormaliseRow(rows[i], idCol);
    assert Read(t, edition).Success?;
    assert Read(t, edition).value == df;
    return Success(df);
  }

  /** `KanjiCollection(path, edition=6)`: the table read for `edition`. */
  function Create(t: RawTable, edition: int := DefaultEdition): (r: Result<KanjiCollection, ReadError>)
    ensures r.Success? <==> Read(t, edition).Success?
    ensures r.Success? ==> r.value.edition == edition && r.value.df == Read(t, edition).value
    ensures r.Failure? ==> r.error == Read(t, edition).error
  {
    match Read(t, edition)
    case Success(df) => Success(KanjiCollection(edition, df))
    case Failure(e) => Failure(e)
  }

  /** `__iter__`: one tuple per row, in table order, labelled `0, 1, ...`. */
  function Iter(c: KanjiCollection): (r: seq<Row>)
    ensures |r| == |c.df|
    ensures forall i :: 0 <= i < |r| ==> r[i].index == i && r[i].item == c.df[i]
  {
    seq(|c.df|, i requires 0 <= i < |c.df| => Row(i, c.df[i]))
  }

  /** `kanjis`: the kanji column as a list, in table order. */
  function Kanjis(c: KanjiCollection): (r: seq<string>)
    ensures |r| == |c.df|
    ensures forall i :: 0 <= i < |r| ==> r[i] == c.df[i].kanji
  {
    seq(|c.df|, i requires 0 <= i < |c.df| => c.df[i].kanji)
  }

  /** A collection keeps the file's rows: `kanjis` lists one glyph per row of
      the file, in file order, and iteration visits the rows in that order. */
  lemma KanjisFollowFileOrder(t: RawTable, edition: int)
    requires Create(t, edition).Success?
    ensures var c := Create(t, edition).value;
      && |Kanjis(c)| == |t.rows| && |Iter(c)| == |t.rows|
      && (forall i :: 0 <= i < |t.rows| ==> Kanjis(c)[i] == t.rows[i].kanji.value)
      && (forall i :: 0 <= i < |t.rows| ==> Iter(c)[i].item.kanji == t.rows[i].kanji.value)
  {
  }
}
