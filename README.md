# rtk-table-tools: the LaTeX table generators, modelled in Dafny

rtk-table-tools turns a table of kanji (one row per character, with its
Heisig ids per edition, components and readings) into LaTeX documents:
posters of kanji cards and solution sheets laid out in `longtable` grids.
This project models the text generators and the reading of the kanji
table, and proves what they produce.

- `Latex` (`rtktools/latex.py`): the document preamble and postamble, the
  generic table document whose body gives every item a cell in row-major
  column `i % ncols` and then pads the last row with empty cells, and
  `generate`, which joins preamble, body and postamble.
  `LatexTableDocument` is a class with the settings as fields. The two
  abstract hooks of the Python class are supplied as values: the contents
  and a cell formatter. `GenerateBody` is a method with the source's two
  loops, proved equal to the specification function `Body`, whose layout is
  described by the lemma `SlotsLayout`. `Generate` is a method proved equal
  to the preamble, then `Body`, then the postamble.
- `Poster` (`rtktools/poster.py`): the stand-alone poster table. Every card
  is followed by `&`, or by a row end in the last column. There is no
  padding. `KanjiPoster.Generate` is the source's loop.
- `Solutions` (`rtktools/solutions.py`): the solution cell text, the option
  warnings, the registry of styles with its case-insensitive lookup, and the
  sorted list of style names.
- `KanjiCollection` (`rtktools/kanjicollection.py`): reading the table for
  an edition. This covers the id column, the defaults for empty cells,
  readings split on `;`, the `u<hex>` code point label and the exceptions
  raised for absent columns. It also covers iteration and the `kanjis` list.
  The table is given as parsed rows.
- `Text`, `Arith`, `Wrappers`: the Python built-ins the code relies on.
  `str.split` has `Join` as its partner, with both round trips proved;
  `Join` is there only for that, since none of the four modelled Python files calls `str.join`.
  `hex` and `str(int)` have parsers that read them back. `sorted` is proved
  ordered and a permutation of its input. `str.lower` and string repetition
  have no inverse: they are described by their contracts and, for
  repetition, by the character count `CountRepeat`. Also Euclidean division
  facts, and `Option`/`Result`.

Points where the code's behaviour is easy to misread:
- `_generate_body` emits `ncols - n % ncols` padding cells. When `n` is
  already a multiple of `ncols`, zero included, that is a whole extra row of
  padding.
- `components` stays a string; it is not split into a list.
- There is no paged or column-major layout: `KanjiPoster.nrows` is stored
  and never read.
- `DefaultSolutions` never defines the abstract `_format_cell`, so
  `solution_by_name("default", ...)` raises `TypeError` instead of returning
  a solution sheet.

## Model

| member | source | states |
|---|---|---|
| Latex.BeginDocument | rtktools/latex.py:15-28 | the preamble opens with the `article` class line, puts `margin=<margin>,<paper>` into the `geometry` options, and ends with `\begin{document}` |
| Latex.PreambleDeterminedByGeometry | rtktools/latex.py:18-28 | two preambles are equal exactly when their geometry options are equal: paper and margin appear nowhere else |
| Latex.EndDocument | rtktools/latex.py:30-33 | the postamble is `\end{document}` framed by blank space, 32 characters in all |
| Latex.ColumnSpecShape | rtktools/latex.py:78-86 | the column spec holds exactly `ncols` `c` columns; with grid lines it alternates vertical bars and `c`, starting and ending with a bar (length `2*ncols+1`), without them it is `ncols` copies of `c` |
| Latex.GridColumnSpec | rtktools/latex.py:81-84 | with grid lines the column spec has `ncols` `c` columns, length `2*ncols+1`, bars at even positions and `c` at odd ones |
| Latex.PlainColumnSpec | rtktools/latex.py:79-84 | without grid lines the column spec is exactly `ncols` copies of `c` |
| Latex.BeginTable | rtktools/latex.py:78-86 | the table head is exactly the line opening a `longtable` with that column spec, then the row line (`\hline` with grid, empty without) and a line break, so without grid lines it ends in two line breaks |
| Latex.EndTable | rtktools/latex.py:88-89 | the table foot is the line `\end{longtable}` followed by a line break |
| Latex.PaddingColumn | rtktools/latex.py:72-73 | padding cell `j` sits in column `n % ncols + j`, the row-major column of its position `n + j` |
| Latex.SlotsLayout | rtktools/latex.py:67-73 | the body has `n + (ncols - n % ncols)` cells, a multiple of `ncols` that is always more than `n`, with a full padding row exactly when `n % ncols == 0`; cell `k` receives column `k % ncols`; items come first and in order, padding cells receive `None`, and the last cell is in column `ncols - 1` |
| Latex.LatexTableDocument.constructor | rtktools/latex.py:54-57 | paper `a3paper`, margin `1cm`, 9 columns, grid lines on |
| Latex.LatexTableDocument.GenerateBody | rtktools/latex.py:67-76 | the body is the table head, then the formatted cells in the layout of `SlotsLayout`, then a line break and `\end{longtable}` |
| Latex.LatexTableDocument.Generate | rtktools/latex.py:39-49 | the document is preamble, body and postamble, built from the settings current at the call; the text does not depend on the output path |
| KanjiCollection.IdColumnInjective | rtktools/kanjicollection.py:21 | different editions select different id columns `id_<edition>th_ed` |
| KanjiCollection.Int16 | rtktools/kanjicollection.py:23 | the id is wrapped into the signed 16-bit range, congruent modulo 65536, and unchanged when it already fits |
| KanjiCollection.UtfLabel | rtktools/kanjicollection.py:30 | the label is `u` followed by lower-case hex digits without leading zeros, which read back as the code point of the kanji |
| KanjiCollection.NormaliseRowSpec | rtktools/kanjicollection.py:21-30 | per row: the id is the edition's cell (0 when empty) cast to 16 bits; empty text cells become `""`; each reading list joins back with `;` to its cell, and an empty cell gives `[""]`; the label reads back as the kanji's code point |
| KanjiCollection.Missing | rtktools/kanjicollection.py:24 | exactly the id columns that the table lacks, which `drop` reports |
| KanjiCollection.MissingOne | rtktools/kanjicollection.py:24 | a single label is reported exactly when the table lacks it |
| KanjiCollection.MissingKeepsOrder | rtktools/kanjicollection.py:24 | the missing labels are reported in the order of the list passed to `drop`: the report for two lists in turn is the two reports in turn |
| KanjiCollection.Read | rtktools/kanjicollection.py:18-31 | reading succeeds exactly when the edition's id column and all six named columns exist and every kanji cell is one character; an absent edition column fails with `KeyError` for it, and the `TypeError` case is characterised in both directions; on success, one normalised row per input row, in order |
| KanjiCollection.IdValues | rtktools/kanjicollection.py:21-23 | the id column after copying, filling with 0 and casting |
| KanjiCollection.FillText | rtktools/kanjicollection.py:25-27 | a text column with its empty cells set to `""` |
| KanjiCollection.SplitColumn | rtktools/kanjicollection.py:28-29 | a readings column with each cell split on `;` |
| KanjiCollection.ReadSteps | rtktools/kanjicollection.py:18-31 | applying the column operations in the source's order gives the same result, value or exception, as `Read` |
| KanjiCollection.Create | rtktools/kanjicollection.py:13-16 | the edition defaults to 6; the collection keeps its edition and the table read for it, and fails exactly when the read fails, with the same error |
| KanjiCollection.Iter | rtktools/kanjicollection.py:33-34 | one tuple per row, in table order, labelled `0, 1, ...` |
| KanjiCollection.Kanjis | rtktools/kanjicollection.py:36-38 | the kanji column, one entry per row, in table order |
| KanjiCollection.KanjisFollowFileOrder | rtktools/kanjicollection.py:33-38 | after a successful read, `kanjis` and iteration follow the rows of the file: same count, same order, same glyphs |
| Poster.BeginTable | rtktools/poster.py:12-15 | the poster's table head is the generic gridded one: a vertical bar, then `ncols` copies of `c` each followed by a bar, then `\hline` |
| Poster.EndTable | rtktools/poster.py:17-18 | the poster's table foot equals the generic one |
| Poster.CardShape | rtktools/poster.py:20-34 | a card is a `minipage` of the cell width that opens with centring and `vadd` of space and closes with the same space; right after the head comes the glyph line, then the `0.3ex` line break, and the line with the id and the code point label sits directly before the foot |
| Poster.CellEnds | rtktools/poster.py:36-40 | a cell is exactly its card followed by its separator: `&` exactly when its column is not the last, and `\\ \hline` exactly when it is |
| Poster.CellTexts | rtktools/poster.py:44-46 | one cell per kanji, no padding |
| Poster.CellTextsShape | rtktools/poster.py:36-46 | cell `i` is exactly the card of row `i` followed by its separator: `&` exactly when `i % ncols < ncols - 1`, and a row end exactly when `i % ncols == ncols - 1` |
| Poster.LastColumnCount | rtktools/poster.py:44-46 | when exactly the last-column positions are marked, the first `m` positions hold `floor(m / ncols)` marks |
| Poster.PosterLayout | rtktools/poster.py:36-46 | a poster of `n` kanji has `floor(n / ncols)` row ends, and when `n % ncols != 0` the trailing partial row is left open, its last cell ending with `&` |
| Poster.KanjiPoster.constructor | rtktools/poster.py:5-10 | 8 columns, 10 rows, the given collection, width `2.5cm`, space `0.3cm` |
| Poster.KanjiPoster.Generate | rtktools/poster.py:42-49 | the poster is the table head, the cells of the collection's rows in iteration order, a line break and the table foot, using the settings current at the call |
| Solutions.Init | rtktools/solutions.py:27-31 | the constructor chain keeps the collection, takes the document defaults, and overrides the column count with 6 and the cell width with `4cm` |
| Solutions.ContentsAreCollection | rtktools/solutions.py:27-34 | the contents of a new object are exactly the collection it was built with |
| Solutions.FormatCellContent | rtktools/solutions.py:43-53 | the cell text is empty exactly for a padding cell; otherwise it is a `minipage` of the cell width whose text between head and foot is exactly the label `<id> (<kanji>): <keyword>` |
| Solutions.CellShowsLabel | rtktools/solutions.py:46-53 | for one width, two kanji get the same cell exactly when their `<id> (<kanji>): <keyword>` labels agree |
| Solutions.LabelShowsId | rtktools/solutions.py:46-49 | the label starts with the Heisig id, which reads back from it |
| Solutions.UnknownOption | rtktools/solutions.py:41 | the warning is `Unknown option '...'` |
| Solutions.WarningNamesOption | rtktools/solutions.py:41 | the option reads back from its warning |
| Solutions.SetOption | rtktools/solutions.py:40-41 | one warning for the option; nothing else changes |
| Solutions.SetOptions | rtktools/solutions.py:36-38 | one warning per option, in order; nothing else changes |
| Solutions.Names | rtktools/solutions.py:56-58 | the registry's names, in insertion order |
| Solutions.Lookup | rtktools/solutions.py:62 | a name is found exactly when it is registered, and then with its registered style |
| Solutions.ResolveStyle | rtktools/solutions.py:62 | the lower-cased name is looked up: success exactly when it is registered, otherwise `KeyError` carrying the lower-cased name |
| Solutions.AnyCasingOfDefault | rtktools/solutions.py:56-62 | a name reaches the default style exactly when it lower-cases to `default` |
| Solutions.SolutionByName | rtktools/solutions.py:61-62 | every call fails: `KeyError` exactly for an unregistered name, otherwise the `TypeError` for the abstract `_format_cell` |
| Solutions.AvailableStyles | rtktools/solutions.py:65-66 | the style names, strictly ascending and without duplicates, are a permutation of the registry's names; a name is listed exactly when it resolves and is already lower case |
| Text.Repeat | rtktools/latex.py:84 | `s * n` has length `n * len(s)` |
| Text.CountRepeat | rtktools/latex.py:84 | a character occurs `n` times as often in `s * n` as in `s` |
| Text.Split | rtktools/kanjicollection.py:28-29 | `split(";")` gives one more piece than there are separators, and no piece contains one |
| Text.JoinSplit | rtktools/kanjicollection.py:28-29 | joining the pieces of a split with the separator gives back the string |
| Text.SplitJoin | rtktools/kanjicollection.py:28-29 | splitting a join of separator-free pieces gives back the pieces |
| Text.NatToHex | rtktools/kanjicollection.py:30 | `hex(n)[2:]` is non-empty lower-case hex, with a leading `0` only for zero |
| Text.HexRoundTrip | rtktools/kanjicollection.py:30 | the hex text of `n` reads back as `n` |
| Text.IntToDecimal | rtktools/kanjicollection.py:21 | `str(i)` is non-empty, with a leading `-` exactly for a negative `i` |
| Text.DecimalRoundTrip | rtktools/kanjicollection.py:21 | the decimal text of `i` reads back as `i` |
| Text.ToLower | rtktools/solutions.py:62 | `lower()` keeps the length and lowers each character on its own |
| Text.Sort | rtktools/solutions.py:66 | `sorted` of distinct names is strictly ascending and a permutation of its input |

## Left out

- File I/O: `generate` writing to a path, creating its directory, and `read_csv` parsing the file, including comment lines. The table reaches the model as parsed rows and the path is ignored.
- `inspect.cleandoc`: the preamble is the dedented template written out. Paper and margin are assumed to contain no line break and no tab; a line break would change the dedenting and a tab would be expanded to spaces.
- `log.warning`: the warnings are returned as a list instead of being logged.
- pandas mechanics: in-place `fillna` and `drop` on a frame, float ids (read as integers here), and the columns that `itertuples` yields besides the normalised ones, including any extra columns of the file.
- pandas copy semantics: the chained in-place fills `df["id"].fillna(0, inplace=True)` and `df[col].fillna("", inplace=True)` are taken to write through to the frame, as they do without Copy-on-Write. Under Copy-on-Write (the default from pandas 3.0) they fill only a temporary copy: an empty id cell would then make the `int16` cast raise, and an empty readings cell would split to NaN instead of `[""]`.
- Text.ToLower: lowers ASCII letters only. For the registry's one key, `default`, this gives the same lookups as Python's full Unicode lowering, because no other character lowers to one of its letters. For a name with non-ASCII capitals, the key carried by `ResolveStyle`'s `KeyError` keeps those capitals, where Python's `name.lower()` would lower them; the lookup fails either way.
- Latex.LatexTableDocument.GenerateBody: requires `ncols >= 1`. With 0 columns Python raises `ZeroDivisionError`. Negative column counts are not representable, because `ncols` is a `nat`.
- Poster.KanjiPoster.Generate: requires `ncols >= 1` when the collection has rows. With 0 columns Python raises `ZeroDivisionError`. Negative column counts, which Python's poster accepts (`i % ncols` is then negative or zero, so every cell ends a row), are not representable, because `ncols` is a `nat`.
- Latex.LatexTableDocument: `_get_contents` is taken to return the same sequence each time it is called. It is called twice in `_generate_body`.
- Solutions.Init: models the state the constructor would set. Python never runs it, because the class is abstract.
- Not part of this model: `rtktools/scraper/tangorin/scraper.py` (network and rate limiting), `rtktools/scraper/tangorin/parser.py` (HTML and JSON parsing, file writing) and `generate.py` (command-line glue).
