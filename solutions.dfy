/** Model of `rtktools/solutions.py`: the solution sheet styles, their
    registry, and lookup of a style by name.

    `DefaultSolutions` inherits the abstract `_format_cell` hook of the table
    document and never defines it (it defines `_format_cell_content`, which
    nothing calls), so Python refuses to create an instance of it: looking up
    the style "default" succeeds, and calling it raises `TypeError`. The
    state its constructor would set and its cell text are modelled all the
    same, as written. */
module Solutions {
  import opened Wrappers
  import opened Text
  import Latex

  const DefaultCellWidth: string := "4cm"
  const DefaultColumns: nat := 6

  /** One kanji of the solution sheet, with the fields the cell text reads. */
  datatype Entry = Entry(heisigId: int, kanji: string, keyword: string)

  /** The attributes of a `DefaultSolutions` object: `k` from
      `AbstractSolutions`, paper and margin from `LatexDocument`, columns and
      grid from `LatexTableDocument`, and its own cell width. */
  datatype DefaultSolutions = DefaultSolutions(
    k: seq<Entry>,
    paperFormat: string,
    pageMargin: string,
    ncols: nat,
    grid: bool,
    cellWidth: string)

  /** `DefaultSolutions.__init__`: the base initialisers in turn, then the
      cell width and the column count overridden. */
  function Init(k: seq<Entry>): (d: DefaultSolutions)
    ensures d.k == k
    ensures d.paperFormat == Latex.DefaultPaperFormat && d.pageMargin == Latex.DefaultPageMargin
    ensures d.grid == Latex.DefaultGrid
    ensures d.ncols == DefaultColumns && d.ncols != Latex.DefaultColumns
    ensures d.cellWidth == DefaultCellWidth
  {
    var base := DefaultSolutions(k, Latex.DefaultPaperFormat, Latex.DefaultPageMargin, Latex.DefaultColumns, Latex.DefaultGrid, "");
    base.(cellWidth := DefaultCellWidth, ncols := DefaultColumns)
  }

  /** `_get_contents`: the kanji the object was built with. */
  function GetContents(d: DefaultSolutions): seq<Entry> {
    d.k
  }

  /** The contents are exactly the collection the object was built with. */
  lemma ContentsAreCollection(k: seq<Entry>)
    ensures GetContents(Init(k)) == k
  {
  }

  /** The line of a solution cell: `<id> (<kanji>): <keyword>`. */
  function Label(e: Entry): string {
    IntToDecimal(e.heisigId) + " (" + e.kanji + "): " + e.keyword
  }

  /** The indentation the triple-quoted template leaves before its second and
      third lines. */
  const TemplateIndent: string := "            "

  /** The text of a solution cell before its label. */
  function CardHead(cellWidth: string): string {
    "\\begin{minipage}{" + cellWidth + "}\n\n" + TemplateIndent
  }

  /** The text of a solution cell after its label. */
  const CardFoot: string := "\n\n" + TemplateIndent + "\\end{minipage}"

  /** `_format_cell_content`: nothing for a padding cell, otherwise a
      `minipage` of the cell width holding the kanji's label. */
  function FormatCellContent(cellWidth: string, kanji: Option<Entry>): (r: string)
    ensures r == "" <==> kanji.None?
    ensures kanji.Some? ==> StartsWith(r, CardHead(cellWidth)) && EndsWith(r, CardFoot)
    ensures kanji.Some? ==>
      && |r| == |CardHead(cellWidth)| + |Label(kanji.value)| + |CardFoot|
      && r[|CardHead(cellWidth)|..|r| - |CardFoot|] == Label(kanji.value)
  {
    match kanji
    case None => ""
    case Some(e) =>
      var r := CardHead(cellWidth) + Label(e) + CardFoot;
      assert r[..|CardHead(cellWidth)|] == CardHead(cellWidth);
      assert r[|r| - |CardFoot|..] == CardFoot;
      assert r[|CardHead(cellWidth)|..|r| - |CardFoot|] == Label(e);
      r
  }

  /** Within one width, the cell text determines the label: two kanji get the
      same cell exactly when their labels agree. */
  lemma CellShowsLabel(cellWidth: string, e1: Entry, e2: Entry)
    ensures FormatCellContent(cellWidth, Some(e1)) == FormatCellContent(cellWidth, Some(e2))
        <==> Label(e1) == Label(e2)
  {
    if FormatCellContent(cellWidth, Some(e1)) == FormatCellContent(cellWidth, Some(e2)) {
      CancelFrame(CardHead(cellWidth), Label(e1), Label(e2), CardFoot);
    }
  }

  /** The label starts with the Heisig id, which reads back from it. */
  lemma LabelShowsId(e: Entry)
    ensures StartsWith(Label(e), IntToDecimal(e.heisigId) + " (")
    ensures DecimalToInt(Label(e)[..|IntToDecimal(e.heisigId)|]) == e.heisigId
  {
    var l := Label(e);
    var id := IntToDecimal(e.heisigId);
    assert l[..|id + " ("|] == id + " (";
    assert l[..|id|] == id;
    DecimalRoundTrip(e.heisigId);
  }

  /** The warning `set_option` logs for an option it does not know. */
  function UnknownOption(option: string): (w: string)
    ensures StartsWith(w, "Unknown option '") && EndsWith(w, "'")
  {
    var w := "Unknown option '" + option + "'";
    assert w[..16] == "Unknown option '";
    w
  }

  /** The option named in a warning. */
  function WarnedOption(w: string): string
    requires |w| >= 17
  {
    w[16..|w| - 1]
  }

  /** A warning names its option: reading the option back from the warning
      gives the option. */
  lemma WarningNamesOption(option: string)
    ensures |UnknownOption(option)| == |option| + 17
    ensures WarnedOption(UnknownOption(option)) == option
  {
  }

  /** `set_options`: every option is unknown, so each one, in order, gives
      its warning and nothing else happens. The log is returned as the list
      of warnings. The object is neither read nor changed, so it is not a
      parameter. */
  method SetOptions(options: seq<string>) returns (warnings: seq<string>)
    ensures |warnings| == |options|
    ensures forall i :: 0 <= i < |options| ==> warnings[i] == UnknownOption(options[i])
  {
    warnings := [];
    for i := 0 to |options|
      invariant |warnings| == i
      invariant forall j :: 0 <= j < i ==> warnings[j] == UnknownOption(options[j])
    {
      var w := SetOption(options[i]);
      warnings := warnings + [w];
    }
  }

  /** `set_option`: the warning for `option`; the object is neither read nor
      changed. */
  method SetOption(option: string) returns (warning: string)
    ensures warning == UnknownOption(option)
  {
    warning := UnknownOption(option);
  }

  // ---------------------------------------------------------------------
  // The registry of styles
  // ---------------------------------------------------------------------

  /** The classes `_name2class` maps to. */
  datatype SolutionStyle = DefaultSolutionsStyle

  /** `_name2class`, in insertion order. */
  const Registry: seq<(string, SolutionStyle)> := [("default", DefaultSolutionsStyle)]

  /** The names in the registry, in insertion order. */
  function Names(registry: seq<(string, SolutionStyle)>): (r: seq<string>)
    ensures |r| == |registry|
    ensures forall i :: 0 <= i < |r| ==> r[i] == registry[i].0
  {
    seq(|registry|, i requires 0 <= i < |registry| => registry[i].0)
  }

  /** The style registered under `name`, if any. */
  function Lookup(registry: seq<(string, SolutionStyle)>, name: string): (r: Option<SolutionStyle>)
    ensures r.Some? <==> name in Names(registry)
    ensures r.Some? ==> (name, r.value) in registry
  {
    if registry == [] then None
    else if registry[0].0 == name then Some(registry[0].1)
    else
      var r := Lookup(registry[1..], name);
      assert Names(registry) == [registry[0].0] + Names(registry[1..]);
      r
  }

  /** The errors of `solution_by_name`: the `KeyError` of an unknown name,
      carrying the lower-cased name, and the `TypeError` Python raises when
      asked to create an instance of a class with an abstract method left. */
  datatype SolutionError = KeyError(key: string) | AbstractInstantiation(style: SolutionStyle, hook: string)

  /** `_name2class[name.lower()]`: names are matched without regard to case. */
  function ResolveStyle(name: string): (r: Result<SolutionStyle, SolutionError>)
    ensures r.Success? <==> ToLower(name) in Names(Registry)
    ensures r.Success? ==> (ToLower(name), r.value) in Registry
    ensures r.Failure? ==> r.error == KeyError(ToLower(name))
  {
    match Lookup(Registry, ToLower(name))
    case Some(style) => Success(style)
    case None => Failure(KeyError(ToLower(name)))
  }

  /** The abstract method a style's class leaves undefined, if any. */
  function AbstractMethodOf(style: SolutionStyle): Option<string> {
    match style
    case DefaultSolutionsStyle => Some("_format_cell")
  }

  /** `solution_by_name`: look the style up, then create it with the kanji
      (extra keyword arguments do not change the outcome). The one registered
      class is abstract, so every call fails: with `KeyError` for an unknown
      name and with `TypeError` for a known one. */
  function SolutionByName(name: string, k: seq<Entry>): (r: Result<DefaultSolutions, SolutionError>)
    ensures r.Failure?
    ensures r.error.KeyError? <==> ToLower(name) !in Names(Registry)
    ensures r.error.KeyError? ==> r.error.key == ToLower(name)
    ensures r.error.AbstractInstantiation? ==> r.error.hook == "_format_cell"
  {
    match ResolveStyle(name)
    case Failure(e) => Failure(e)
    case Success(style) =>
      match AbstractMethodOf(style)
      case Some(m) => Failure(AbstractInstantiation(style, m))
      case None => Success(Init(k))
  }

  /** Every spelling of "default", in any mix of upper and lower case,
      reaches the default style; no other name does. */
  lemma AnyCasingOfDefault(name: string)
    ensures ResolveStyle(name) == Success(DefaultSolutionsStyle) <==> ToLower(name) == "default"
  {
  }

  /** `get_available_solution_styles`: the registered names, sorted. */
  function AvailableStyles(): (r: seq<string>)
    ensures StrictlySorted(r)
    ensures multiset(r) == multiset(Names(Registry))
    ensures forall name :: name in r <==> ResolveStyle(name).Success? && ToLower(name) == name
  {
    var names := Names(Registry);
    assert names == ["default"];
    var r := Sort(names);
    assert forall name :: name in r <==> name in multiset(names);
    r
  }
}
