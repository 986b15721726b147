/**
 * The document structure: worksheets, their parameters and column
 * configurations, rows, row groups and cells, together with the argument
 * checks their constructors perform, the frozen-pane position, cell
 * references and the anchors of cell mergers.
 */
module Structure {
  import opened Wrappers
  import opened Exceptions
  import opened BoundedInts
  import Styling

  // ---- Worksheet names ----

  /** `char.IsWhiteSpace`: the Unicode separators plus the control characters U+0009..U+000D and U+0085. */
  predicate IsWhiteSpace(ch: char)
  {
    var c := ch as int;
    (0x09 <= c <= 0x0D) || c == 0x20 || c == 0x85 || c == 0xA0 || c == 0x1680 ||
    (0x2000 <= c <= 0x200A) || c == 0x2028 || c == 0x2029 || c == 0x202F || c == 0x205F || c == 0x3000
  }

  /** `string.IsNullOrWhiteSpace`: null, empty, or white space only. */
  predicate IsNullOrWhiteSpace(s: Option<string>)
  {
    s.None? || forall k :: 0 <= k < |s.value| ==> IsWhiteSpace(s.value[k])
  }

  /** The longest worksheet name accepted, in UTF-16 code units. */
  const MaxNameLength: int := 31

  /** `string.Length`: one UTF-16 code unit per character of the Basic Multilingual Plane, two (a surrogate pair) otherwise. */
  function Utf16Length(s: string): (n: nat)
    ensures |s| <= n <= 2 * |s|
  {
    if s == [] then 0 else Utf16Length(s[..|s| - 1]) + (if s[|s| - 1] as int < 0x1_0000 then 1 else 2)
  }

  predicate InBasicPlane(s: string)
  {
    forall k :: 0 <= k < |s| ==> s[k] as int < 0x1_0000
  }

  /** A name of Basic Multilingual Plane characters is as long in code units as in characters. */
  lemma {:induction false} BasicPlaneLength(s: string)
    requires InBasicPlane(s)
    ensures Utf16Length(s) == |s|
  {
    if s != [] {
      BasicPlaneLength(s[..|s| - 1]);
    }
  }

  /** A name made only of characters beyond the Basic Multilingual Plane takes two code units per character. */
  lemma {:induction false} SupplementaryLength(s: string)
    requires forall k :: 0 <= k < |s| ==> s[k] as int >= 0x1_0000
    ensures Utf16Length(s) == 2 * |s|
  {
    if s != [] {
      SupplementaryLength(s[..|s| - 1]);
    }
  }

  /**
   * The checks shared by the worksheet constructors: a null or blank name
   * raises ArgumentNullException, one longer than 31 UTF-16 code units
   * ArgumentOutOfRangeException; otherwise the name is returned.
   */
  function CheckName(name: Option<string>): (r: Result<string, Exception>)
    ensures r == Err(ArgumentNull("name")) <==> IsNullOrWhiteSpace(name)
    ensures r == Err(ArgumentOutOfRange("name")) <==> !IsNullOrWhiteSpace(name) && Utf16Length(name.value) > MaxNameLength
    ensures r.Ok? <==> !IsNullOrWhiteSpace(name) && Utf16Length(name.value) <= MaxNameLength
    ensures r.Ok? ==> Some(r.value) == name && 1 <= |r.value| <= Utf16Length(r.value) <= MaxNameLength
  {
    if IsNullOrWhiteSpace(name) then Err(ArgumentNull("name"))
    else if Utf16Length(name.value) > MaxNameLength then Err(ArgumentOutOfRange("name"))
    else Ok(name.value)
  }

  // ---- Worksheet parameters and columns ----

  /** `WorksheetParametersElement`: generic in the column type of its generation. */
  datatype WorksheetParameters<C> = WorksheetParameters(belo: bool, right: bool, columns: Option<seq<C>>)

  /** The default constructor leaves Belo and Right false and the columns null. */
  function DefaultParameters<C>(): (p: WorksheetParameters<C>)
    ensures !p.belo && !p.right && p.columns.None?
  {
    WorksheetParameters(false, false, None)
  }

  /** The other constructors store their arguments as given. */
  function NewParameters<C>(belo: bool, right: bool, columns: Option<seq<C>>): (p: WorksheetParameters<C>)
    ensures p.belo == belo && p.right == right && p.columns == columns
  {
    WorksheetParameters(belo, right, columns)
  }

  /** `ColumnConfiguration`; `ColumnElement`, its older twin, has outline level 0. */
  datatype ColumnConfiguration = ColumnConfiguration(min: int32, max: int32, width: real, outlineLevel: int32)

  /**
   * The `ColumnConfiguration` constructor: the checks run in the order min,
   * max, width, outline level, and the first failing one names its
   * parameter. A width of 0 is accepted.
   */
  function NewColumnConfiguration(min: int32, max: int32, width: real, outlineLevel: int32)
    : (r: Result<ColumnConfiguration, Exception>)
    ensures r.Ok? <==> 0 <= min <= max && width >= 0.0 && 0 <= outlineLevel <= 255
    ensures r == Err(ArgumentOutOfRange("min")) <==> min < 0
    ensures r == Err(ArgumentOutOfRange("max")) <==> 0 <= min && max < min
    ensures r == Err(ArgumentOutOfRange("width")) <==> 0 <= min <= max && width < 0.0
    ensures r == Err(ArgumentOutOfRange("outlineLevel"))
        <==> 0 <= min <= max && width >= 0.0 && (outlineLevel < 0 || outlineLevel > 255)
    ensures r.Ok? ==> r.value == ColumnConfiguration(min, max, width, outlineLevel)
  {
    if min < 0 then Err(ArgumentOutOfRange("min"))
    else if max < min then Err(ArgumentOutOfRange("max"))
    else if width < 0.0 then Err(ArgumentOutOfRange("width"))
    else if outlineLevel < 0 || outlineLevel > 255 then Err(ArgumentOutOfRange("outlineLevel"))
    else Ok(ColumnConfiguration(min, max, width, outlineLevel))
  }

  /** The `ColumnConfiguration` constructor with the outline level omitted: it defaults to 0. */
  function NewColumnConfigurationDefault(min: int32, max: int32, width: real)
    : (r: Result<ColumnConfiguration, Exception>)
    ensures r.Ok? <==> 0 <= min <= max && width >= 0.0
    ensures r.Ok? ==> r.value.outlineLevel == 0
  {
    NewColumnConfiguration(min, max, width, 0)
  }

  /** The `ColumnElement` constructor: the same three checks, in the same order. */
  function NewColumnElement(min: int32, max: int32, width: real): (r: Result<ColumnConfiguration, Exception>)
    ensures r.Ok? <==> 0 <= min <= max && width >= 0.0
    ensures r == Err(ArgumentOutOfRange("min")) <==> min < 0
    ensures r == Err(ArgumentOutOfRange("max")) <==> 0 <= min && max < min
    ensures r == Err(ArgumentOutOfRange("width")) <==> 0 <= min <= max && width < 0.0
    ensures r.Ok? ==> r.value == ColumnConfiguration(min, max, width, 0)
  {
    if min < 0 then Err(ArgumentOutOfRange("min"))
    else if max < min then Err(ArgumentOutOfRange("max"))
    else if width < 0.0 then Err(ArgumentOutOfRange("width"))
    else Ok(ColumnConfiguration(min, max, width, 0))
  }

  // ---- Cells, rows and worksheets ----

  /** A point in time; `ToOADate` on it is library floating point and is not modelled. */
  datatype DateTime = DateTime(ticks: int)

  /**
   * The cell elements the visitor writes. A null value is `None`; the style
   * wrapper's tuple is `None` when the wrapper is the default struct.
   */
  datatype Cell =
    | EmptyCell
    | IntegerCell(integer: Option<int>, style: Option<Styling.CellStyle>)
    | DecimalCell(decimal: Option<real>, style: Option<Styling.CellStyle>)
    | DateTimeCell(dateTime: Option<DateTime>, style: Option<Styling.CellStyle>)
    | BooleanCell(boolean: Option<bool>, style: Option<Styling.CellStyle>)
    | InlineStringCell(text: Option<string>, style: Option<Styling.CellStyle>)
    | SharedStringCell(text: Option<string>, style: Option<Styling.CellStyle>)

  /** `RowLevelElement`: a row of cells, or a group of rows and groups. */
  datatype RowLevel = Row(cells: seq<Cell>) | RowGroup(children: seq<RowLevel>)

  /** The worksheet element the visitor walks: name, optional parameters and rows. */
  datatype Worksheet = Worksheet(
    name: Option<string>,
    parameters: Option<WorksheetParameters<ColumnConfiguration>>,
    rows: seq<RowLevel>)

  /** The checking `Worksheet` constructor: name checks, then the arguments are stored unchanged. */
  function NewWorksheet(name: Option<string>, parameters: Option<WorksheetParameters<ColumnConfiguration>>,
                        rows: seq<RowLevel>): (r: Result<Worksheet, Exception>)
    ensures r.Err? <==> CheckName(name).Err?
    ensures r.Err? ==> r.error == CheckName(name).error
    ensures r.Ok? ==> r.value == Worksheet(name, parameters, rows) && 1 <= |name.value| <= Utf16Length(name.value) <= MaxNameLength
  {
    match CheckName(name)
    case Err(e) => Err(e)
    case Ok(_) => Ok(Worksheet(name, parameters, rows))
  }

  /** The `params` overload performs no check at all: any name, null included, is stored. */
  function NewWorksheetUnchecked(name: Option<string>, parameters: Option<WorksheetParameters<ColumnConfiguration>>,
                                 rows: seq<RowLevel>): (w: Worksheet)
    ensures w.name == name && w.parameters == parameters && w.rows == rows
  {
    Worksheet(name, parameters, rows)
  }

  /** `ProgressingWorksheet<TProgress>`, with the row generator kept abstract. */
  datatype ProgressingWorksheet<G> = ProgressingWorksheet(
    name: string,
    parameters: Option<WorksheetParameters<ColumnConfiguration>>,
    rowGenerator: G)

  /** Its constructor checks the generator for null before it checks the name. */
  function NewProgressingWorksheet<G>(name: Option<string>, parameters: Option<WorksheetParameters<ColumnConfiguration>>,
                                      rowGenerator: Option<G>): (r: Result<ProgressingWorksheet<G>, Exception>)
    ensures r == Err(ArgumentNull("rowGenerator")) <==> rowGenerator.None?
    ensures rowGenerator.Some? ==> (r.Err? <==> CheckName(name).Err?)
    ensures rowGenerator.Some? && r.Err? ==> r.error == CheckName(name).error
    ensures r.Ok? ==> rowGenerator.Some? && Some(r.value.name) == name && 1 <= |r.value.name| <= Utf16Length(r.value.name) <= MaxNameLength
    ensures r.Ok? ==> r.value.parameters == parameters && r.value.rowGenerator == rowGenerator.value
  {
    if rowGenerator.None? then Err(ArgumentNull("rowGenerator"))
    else match CheckName(name)
      case Err(e) => Err(e)
      case Ok(n) => Ok(ProgressingWorksheet(n, parameters, rowGenerator.value))
  }

  /**
   * Concrete cases: 31 ASCII characters pass, 32 fail, blank names fail as
   * null ones do, and 16 emoji (32 code units) fail while 15 pass.
   */
  lemma NameBoundaries()
    ensures CheckName(Some("1234567890123456789012345678901")).Ok?
    ensures CheckName(Some("12345678901234567890123456789012")) == Err(ArgumentOutOfRange("name"))
    ensures CheckName(Some("")) == Err(ArgumentNull("name"))
    ensures CheckName(Some(" \t")) == Err(ArgumentNull("name"))
    ensures CheckName(None) == Err(ArgumentNull("name"))
    ensures CheckName(Some(seq(15, _ => '\U{1F600}'))).Ok?
    ensures CheckName(Some(seq(16, _ => '\U{1F600}'))) == Err(ArgumentOutOfRange("name"))
  {
    assert IsWhiteSpace(" \t"[0]) && IsWhiteSpace(" \t"[1]);
    AsciiNameBoundaries();
    EmojiNameBoundaries();
  }

  lemma AsciiNameBoundaries()
    ensures CheckName(Some("1234567890123456789012345678901")).Ok?
    ensures CheckName(Some("12345678901234567890123456789012")) == Err(ArgumentOutOfRange("name"))
  {
    var short, long := "1234567890123456789012345678901", "12345678901234567890123456789012";
    assert !IsWhiteSpace(short[0]) && !IsWhiteSpace(long[0]);
    BasicPlaneLength(short);
    BasicPlaneLength(long);
  }

  lemma EmojiNameBoundaries()
    ensures CheckName(Some(seq(15, _ => '\U{1F600}'))).Ok?
    ensures CheckName(Some(seq(16, _ => '\U{1F600}'))) == Err(ArgumentOutOfRange("name"))
  {
    var few, many := seq(15, _ => '\U{1F600}'), seq(16, _ => '\U{1F600}');
    assert !IsWhiteSpace(few[0]) && !IsWhiteSpace(many[0]);
    SupplementaryLength(few);
    SupplementaryLength(many);
  }

  // ---- Frozen panes ----

  datatype PaneFreezer = PaneFreezer(rowIndex: int32, columnIndex: int32)

  /** The constructor rejects a negative row index first, then a negative column index. */
  function NewPaneFreezer(rowIndex: int32, columnIndex: int32): (r: Result<PaneFreezer, Exception>)
    ensures r.Ok? <==> rowIndex >= 0 && columnIndex >= 0
    ensures r == Err(ArgumentOutOfRange("rowIndex")) <==> rowIndex < 0
    ensures r == Err(ArgumentOutOfRange("columnIndex")) <==> rowIndex >= 0 && columnIndex < 0
    ensures r.Ok? ==> r.value.rowIndex == rowIndex && r.value.columnIndex == columnIndex
  {
    if rowIndex < 0 then Err(ArgumentOutOfRange("rowIndex"))
    else if columnIndex < 0 then Err(ArgumentOutOfRange("columnIndex"))
    else Ok(PaneFreezer(rowIndex, columnIndex))
  }

  // ---- Cell references ----

  datatype CellRef = CellRef(row: int32, column: int32)

  /** `CellRef.Equals(CellRef)`: false against null, otherwise rows and columns agree. */
  predicate CellRefEquals(self: CellRef, other: Option<CellRef>)
  {
    other.Some? && self.row == other.value.row && self.column == other.value.column
  }

  /** `==` through the static `object.Equals`: two nulls are equal. */
  predicate CellRefOperatorEquals(left: Option<CellRef>, right: Option<CellRef>)
  {
    if left.None? then right.None? else CellRefEquals(left.value, right)
  }

  /** `GetHashCode`: `(Row * 397) ^ Column` in unchecked 32-bit arithmetic. */
  function CellRefHash(c: CellRef): bv32
  {
    (ToUInt32(c.row) as bv32 * 397) ^ ToUInt32(c.column) as bv32
  }

  lemma CellRefEqualityIsValueEquality(a: CellRef, b: CellRef, left: Option<CellRef>, right: Option<CellRef>)
    ensures CellRefEquals(a, Some(b)) <==> a == b
    ensures !CellRefEquals(a, None)
    ensures CellRefOperatorEquals(left, right) <==> left == right
    ensures !CellRefOperatorEquals(left, right) <==> left != right
    ensures CellRefEquals(a, Some(b)) ==> CellRefHash(a) == CellRefHash(b)
  {
  }

  // ---- Cell mergers ----

  /**
   * A cell that spans a range ending at the current position. The anchor of
   * an absolute merger is fixed; that of a relative merger is the current
   * position less the offsets.
   */
  datatype CellMerger<E> =
    | AbsoluteCellMerger(inner: Option<E>, anchorRow: int32, anchorColumn: int32)
    | RelativeCellMerger(inner: Option<E>, rowOffset: int32, columnOffset: int32)
  {
    function GetAnchorRow(currentRow: int32): int32
    {
      if AbsoluteCellMerger? then anchorRow else Wrap32(currentRow - rowOffset)
    }

    function GetAnchorColumn(currentColumn: int32): int32
    {
      if AbsoluteCellMerger? then anchorColumn else Wrap32(currentColumn - columnOffset)
    }
  }

  /** The absolute merger's constructor rejects a null inner element and nothing else. */
  function NewAbsoluteCellMerger<E>(inner: Option<E>, anchorRow: int32, anchorColumn: int32)
    : (r: Result<CellMerger<E>, Exception>)
    ensures r.Err? <==> inner.None?
    ensures r.Err? ==> r.error == ArgumentNull("innerElement")
    ensures r.Ok? ==> r.value == AbsoluteCellMerger(inner, anchorRow, anchorColumn)
  {
    if inner.None? then Err(ArgumentNull("innerElement"))
    else Ok(AbsoluteCellMerger(inner, anchorRow, anchorColumn))
  }

  /** An absolute merger that passed its check anchors at the stored cell, wherever the current cell is. */
  lemma AbsoluteAnchorIsFixed<E>(inner: Option<E>, anchorRow: int32, anchorColumn: int32, row: int32, column: int32)
    requires NewAbsoluteCellMerger(inner, anchorRow, anchorColumn).Ok?
    ensures var m := NewAbsoluteCellMerger(inner, anchorRow, anchorColumn).value;
      m.GetAnchorRow(row) == anchorRow && m.GetAnchorColumn(column) == anchorColumn && m.inner == inner
  {
  }

  /** The relative merger's constructor rejects negative offsets, and does not check the inner element. */
  function NewRelativeCellMerger<E>(inner: Option<E>, rowOffset: int32, columnOffset: int32)
    : (r: Result<CellMerger<E>, Exception>)
    ensures r.Ok? <==> rowOffset >= 0 && columnOffset >= 0
    ensures r == Err(ArgumentOutOfRange("rowOffset")) <==> rowOffset < 0
    ensures r == Err(ArgumentOutOfRange("columnOffset")) <==> rowOffset >= 0 && columnOffset < 0
    ensures r.Ok? ==> r.value == RelativeCellMerger(inner, rowOffset, columnOffset)
  {
    if rowOffset < 0 then Err(ArgumentOutOfRange("rowOffset"))
    else if columnOffset < 0 then Err(ArgumentOutOfRange("columnOffset"))
    else Ok(RelativeCellMerger(inner, rowOffset, columnOffset))
  }

  /**
   * For a relative merger that passed its checks, at a non-negative position
   * the anchor is the position less the offsets: never below or to the right
   * of the current cell, the cell itself for zero offsets, and negative
   * exactly when an offset exceeds the position.
   */
  lemma RelativeAnchorIsAboveLeft<E>(inner: Option<E>, rowOffset: int32, columnOffset: int32, row: int32, column: int32)
    requires NewRelativeCellMerger(inner, rowOffset, columnOffset).Ok?
    requires row >= 0 && column >= 0
    ensures var m := NewRelativeCellMerger(inner, rowOffset, columnOffset).value;
      m.GetAnchorRow(row) == row - rowOffset && m.GetAnchorColumn(column) == column - columnOffset &&
      m.GetAnchorRow(row) <= row && m.GetAnchorColumn(column) <= column &&
      (rowOffset == 0 && columnOffset == 0 ==> m.GetAnchorRow(row) == row && m.GetAnchorColumn(column) == column) &&
      (m.GetAnchorRow(row) < 0 <==> rowOffset > row) && (m.GetAnchorColumn(column) < 0 <==> columnOffset > column)
  {
  }
}
