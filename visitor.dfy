/**
 * `OpenXmlElementVisitor`: walks one worksheet and writes its part as a
 * trace of events, choosing a sample cell per cell kind and style, writing
 * payload text, and tracking the outline level of nested row groups.
 *
 * The specification functions below are the visitor as a state-passing
 * function over the workbook-wide state it touches (the style registry and
 * the shared strings); the class is proved to follow them, and the lemmas
 * state what they guarantee.
 */
module ElementVisitor {
  import opened Wrappers
  import opened BoundedInts
  import opened Text
  import opened SharedElements
  import opened StyleRegistry
  import opened XmlTrace
  import Formatting
  import Styling
  import Structure

  /** The deepest row-group nesting: entering a group at this level throws. */
  const MaxOutlineLevel: int := 255

  /** The style-less sample cells: empty, number and boolean. */
  const EmptyCellTemplate: CellTemplate := CellTemplate(None, None)
  const NumberCellTemplate: CellTemplate := CellTemplate(None, Some(NumberValue))
  const BooleanCellTemplate: CellTemplate := CellTemplate(None, Some(BooleanValue))

  /** Registered for unstyled inline- and shared-string cells: "@" with no font, border or fill. */
  const DefaultStringStyle: Styling.CellStyle := Styling.StringStyleDefinition(None, Styling.NONE, None)

  /** Registered for unstyled date cells: "mm-dd-yy" with no font, border or fill. */
  const DefaultDateStyle: Styling.CellStyle :=
    Styling.DateStyleDefinition(Some(Formatting.DateMmDdYy), None, Styling.NONE, None)

  /** Sample row k: no outline level for k = 0, otherwise OutlineLevel k. */
  function RowTemplate(level: nat): Tag
  {
    RowTag(if level == 0 then None else Some(level))
  }

  /**
   * Why a visit stops: the row-group nesting overflowed
   * (InvalidOperationException), or a styled boolean cell met the missing
   * `AllocateBooleanCell`.
   */
  datatype Failure = OutlineOverflow | MissingBooleanAllocator

  /** The library text conversions the visitor calls, kept uninterpreted. */
  datatype Formatters = Formatters(decimalText: real -> string, oaDateText: Structure.DateTime -> string)

  /** The workbook-wide state a visit changes: the style registry and the shared strings, in index order. */
  datatype VisitState = VisitState(styles: StyleState, strings: seq<string>)

  /** What a visit writes, whether it failed, and the state it leaves. */
  datatype Out = Out(events: seq<Event>, failure: Option<Failure>, state: VisitState)

  function AllocSpec(st: VisitState, correlation: int, kind: CellKind, style: Styling.CellStyle,
                     valueType: CellValueType): (r: (CellTemplate, VisitState))
    ensures r.1.strings == st.strings
  {
    var (t, styles) := AllocateCellSpec(st.styles, correlation, kind, style, valueType);
    (t, st.(styles := styles))
  }

  /** `GetOrAllocateElement` of the shared strings, on their queue. */
  function StringIndexSpec(strings: seq<string>, s: string): (r: (nat, seq<string>))
    ensures r.1 == if s in strings then strings else strings + [s]
    ensures r.0 < |r.1| && r.1[r.0] == s
  {
    if s in strings then (IndexOf(strings, s), strings) else (|strings|, strings + [s])
  }

  /** A cell with a value wrapper: the cell, the value, an optional text. */
  function ValueCellEvents(t: CellTemplate, text: Option<string>): seq<Event>
  {
    [Start(CellTag(t)), Start(CellValueTag)] + (if text.Some? then [Text(text.value)] else []) + [End, End]
  }

  /** An inline-string cell: the cell, the inline string, the text element, and the text unless it is null. */
  function InlineCellEvents(t: CellTemplate, text: Option<string>): seq<Event>
  {
    [Start(CellTag(t)), Start(InlineStringTag), Start(TextTag)] + (if text.Some? then [Text(text.value)] else []) + [End, End, End]
  }

  /** The sample cell for a styled cell, or the given default for an unstyled one. */
  function TemplateSpec(st: VisitState, correlation: int, kind: CellKind, style: Option<Styling.CellStyle>,
                        default: Styling.CellStyle, valueType: CellValueType): (CellTemplate, VisitState)
  {
    AllocSpec(st, correlation, kind, style.GetOr(default), valueType)
  }

  /** One cell, as the visit method of its element type writes it. */
  function CellSpec(cell: Structure.Cell, st: VisitState, correlation: int, fmt: Formatters): Out
  {
    match cell
    case EmptyCell => Out([Start(CellTag(EmptyCellTemplate)), End], None, st)
    case IntegerCell(v, style) =>
      var (t, st1) := if style.None? then (NumberCellTemplate, st) else AllocSpec(st, correlation, NumberKind, style.value, NumberValue);
      Out(ValueCellEvents(t, if v.Some? then Some(IntText(v.value)) else None), None, st1)
    case DecimalCell(v, style) =>
      var (t, st1) := if style.None? then (NumberCellTemplate, st) else AllocSpec(st, correlation, NumberKind, style.value, NumberValue);
      Out(ValueCellEvents(t, if v.Some? then Some(fmt.decimalText(v.value)) else None), None, st1)
    case DateTimeCell(v, style) =>
      var (t, st1) := TemplateSpec(st, correlation, DateKind, style, DefaultDateStyle, NumberValue);
      Out(ValueCellEvents(t, if v.Some? then Some(fmt.oaDateText(v.value)) else None), None, st1)
    case InlineStringCell(v, style) =>
      var (t, st1) := TemplateSpec(st, correlation, StringKind, style, DefaultStringStyle, InlineStringValue);
      Out(InlineCellEvents(t, v), None, st1)
    case SharedStringCell(v, style) =>
      var (t, st1) := TemplateSpec(st, correlation, SharedStringKind, style, DefaultStringStyle, SharedStringValue);
      if v.None? then Out(ValueCellEvents(t, None), None, st1)
      else
        var (index, strings) := StringIndexSpec(st1.strings, v.value);
        Out(ValueCellEvents(t, Some(IntText(index))), None, st1.(strings := strings))
    case BooleanCell(v, style) =>
      if style.Some? then Out([], Some(MissingBooleanAllocator), st)
      else Out(ValueCellEvents(BooleanCellTemplate, if v.Some? then Some(if v.value then "1" else "0") else None), None, st)
  }

  /** The cells of a row in order, stopping at the first failure. */
  function CellsSpec(cells: seq<Structure.Cell>, st: VisitState, correlation: int, fmt: Formatters): (o: Out)
  {
    if cells == [] then Out([], None, st)
    else
      var o := CellsSpec(cells[..|cells| - 1], st, correlation, fmt);
      if o.failure.Some? then o
      else
        var c := CellSpec(cells[|cells| - 1], o.state, correlation, fmt);
        Out(o.events + c.events, c.failure, c.state)
  }

  /** A row at `level` writes sample row `level` around its cells; a group writes its children one level deeper. */
  function RowLevelSpec(x: Structure.RowLevel, level: nat, st: VisitState, correlation: int, fmt: Formatters): Out
    decreases x
  {
    match x
    case Row(cells) =>
      var o := CellsSpec(cells, st, correlation, fmt);
      Out([Start(RowTemplate(level))] + o.events + [End], o.failure, o.state)
    case RowGroup(children) =>
      if level >= MaxOutlineLevel then Out([], Some(OutlineOverflow), st)
      else RowsSpec(children, level + 1, st, correlation, fmt)
  }

  /** Row-level elements in order, stopping at the first failure. */
  function RowsSpec(rows: seq<Structure.RowLevel>, level: nat, st: VisitState, correlation: int, fmt: Formatters): Out
    decreases rows
  {
    if rows == [] then Out([], None, st)
    else
      var o := RowsSpec(rows[..|rows| - 1], level, st, correlation, fmt);
      if o.failure.Some? then o
      else
        var r := RowLevelSpec(rows[|rows| - 1], level, o.state, correlation, fmt);
        Out(o.events + r.events, r.failure, r.state)
  }

  /** A column configuration written 1-based, in the part's unsigned 32-bit fields. */
  function ColumnOf(c: Structure.ColumnConfiguration): Column
  {
    Column(ToUInt32(Wrap32(c.min + 1)), ToUInt32(Wrap32(c.max + 1)), c.width, true)
  }

  /** The `Columns` element: one column per configuration, in order. */
  function ColumnsOf(cs: seq<Structure.ColumnConfiguration>): (r: seq<Column>)
    ensures |r| == |cs| && forall i :: 0 <= i < |cs| ==> r[i] == ColumnOf(cs[i])
  {
    seq(|cs|, i requires 0 <= i < |cs| => ColumnOf(cs[i]))
  }

  /** `WriteWorksheetParameters`: the sheet properties, then the columns when there are any. */
  function ParametersEvents(p: Structure.WorksheetParameters<Structure.ColumnConfiguration>): (s: seq<Event>)
  {
    [Whole(SheetProperties(p.belo, p.right))] +
    if p.columns.None? then [] else [Whole(Columns(ColumnsOf(p.columns.value)))]
  }

  /** `Visit(WorksheetElement)`: the worksheet, its parameters, and the sheet data around the rows. */
  function WorksheetSpec(ws: Structure.Worksheet, level: nat, st: VisitState, correlation: int, fmt: Formatters): Out
  {
    var o := RowsSpec(ws.rows, level, st, correlation, fmt);
    var params := if ws.parameters.Some? then ParametersEvents(ws.parameters.value) else [];
    Out([Start(WorksheetTag)] + params + [Start(SheetDataTag)] + o.events + [End, End], o.failure, o.state)
  }

  // ---- What the specification guarantees ----

  /** No event of `s` opens a row. */
  ghost predicate NoRowStarts(s: seq<Event>)
  {
    forall i :: 0 <= i < |s| ==> !(s[i].Start? && s[i].tag.RowTag?)
  }

  lemma ValueCellBalanced(t: CellTemplate, text: Option<string>)
    ensures Balanced(ValueCellEvents(t, text)) && NoRowStarts(ValueCellEvents(t, text))
  {
    var inner := if text.Some? then [Text(text.value)] else [];
    FlatIsBalanced(inner);
    BalancedWrap(CellValueTag, inner);
    BalancedWrap(CellTag(t), [Start(CellValueTag)] + inner + [End]);
    assert ValueCellEvents(t, text) == [Start(CellTag(t))] + ([Start(CellValueTag)] + inner + [End]) + [End];
  }

  lemma InlineCellBalanced(t: CellTemplate, text: Option<string>)
    ensures Balanced(InlineCellEvents(t, text)) && NoRowStarts(InlineCellEvents(t, text))
  {
    var inner := if text.Some? then [Text(text.value)] else [];
    FlatIsBalanced(inner);
    BalancedWrap(TextTag, inner);
    BalancedWrap(InlineStringTag, [Start(TextTag)] + inner + [End]);
    BalancedWrap(CellTag(t), [Start(InlineStringTag)] + ([Start(TextTag)] + inner + [End]) + [End]);
    assert InlineCellEvents(t, text) ==
      [Start(CellTag(t))] + ([Start(InlineStringTag)] + ([Start(TextTag)] + inner + [End]) + [End]) + [End];
  }

  /** Every cell writes a balanced trace that opens no row, failure included. */
  lemma CellBalanced(cell: Structure.Cell, st: VisitState, correlation: int, fmt: Formatters)
    ensures Balanced(CellSpec(cell, st, correlation, fmt).events)
    ensures NoRowStarts(CellSpec(cell, st, correlation, fmt).events)
  {
    match cell
    case EmptyCell =>
      FlatIsBalanced([]);
      BalancedWrap(CellTag(EmptyCellTemplate), []);
      assert [Start(CellTag(EmptyCellTemplate))] + [] + [End] == [Start(CellTag(EmptyCellTemplate)), End];
    case InlineStringCell(v, style) =>
      InlineCellBalanced(TemplateSpec(st, correlation, StringKind, style, DefaultStringStyle, InlineStringValue).0, v);
    case BooleanCell(v, style) =>
      if style.Some? {
        FlatIsBalanced([]);
      } else {
        ValueCellBalanced(BooleanCellTemplate, if v.Some? then Some(if v.value then "1" else "0") else None);
      }
    case IntegerCell(_, _) =>
      NumberCellBalanced(cell, st, correlation, fmt);
    case DecimalCell(_, _) =>
      NumberCellBalanced(cell, st, correlation, fmt);
    case DateTimeCell(v, style) =>
      ValueCellBalanced(TemplateSpec(st, correlation, DateKind, style, DefaultDateStyle, NumberValue).0,
                        if v.Some? then Some(fmt.oaDateText(v.value)) else None);
    case SharedStringCell(_, _) =>
      SharedStringCellBalanced(cell, st, correlation, fmt);
  }

  lemma NumberCellBalanced(cell: Structure.Cell, st: VisitState, correlation: int, fmt: Formatters)
    requires cell.IntegerCell? || cell.DecimalCell?
    ensures Balanced(CellSpec(cell, st, correlation, fmt).events)
    ensures NoRowStarts(CellSpec(cell, st, correlation, fmt).events)
  {
    var style := cell.style;
    var t := (if style.None? then (NumberCellTemplate, st) else AllocSpec(st, correlation, NumberKind, style.value, NumberValue)).0;
    match cell
    case IntegerCell(v, _) =>
      ValueCellBalanced(t, if v.Some? then Some(IntText(v.value)) else None);
    case DecimalCell(v, _) =>
      ValueCellBalanced(t, if v.Some? then Some(fmt.decimalText(v.value)) else None);
  }

  lemma SharedStringCellBalanced(cell: Structure.Cell, st: VisitState, correlation: int, fmt: Formatters)
    requires cell.SharedStringCell?
    ensures Balanced(CellSpec(cell, st, correlation, fmt).events)
    ensures NoRowStarts(CellSpec(cell, st, correlation, fmt).events)
  {
    var (t, st1) := TemplateSpec(st, correlation, SharedStringKind, cell.style, DefaultStringStyle, SharedStringValue);
    if cell.text.None? {
      ValueCellBalanced(t, None);
    } else {
      ValueCellBalanced(t, Some(IntText(StringIndexSpec(st1.strings, cell.text.value).0)));
    }
  }

  lemma {:induction false} CellsBalanced(cells: seq<Structure.Cell>, st: VisitState, correlation: int, fmt: Formatters)
    ensures Balanced(CellsSpec(cells, st, correlation, fmt).events)
  {
    if cells == [] {
      FlatIsBalanced([]);
    } else {
      var o := CellsSpec(cells[..|cells| - 1], st, correlation, fmt);
      CellsBalanced(cells[..|cells| - 1], st, correlation, fmt);
      if o.failure.None? {
        CellBalanced(cells[|cells| - 1], o.state, correlation, fmt);
        BalancedConcat(o.events, CellSpec(cells[|cells| - 1], o.state, correlation, fmt).events);
      }
    }
  }

  /**
   * Every start element the visitor writes has a matching end element,
   * properly nested, and this holds also when the visit fails: the scopes
   * open at the failure are closed as it unwinds.
   */
  lemma {:induction false} RowLevelBalanced(x: Structure.RowLevel, level: nat, st: VisitState, correlation: int, fmt: Formatters)
    ensures Balanced(RowLevelSpec(x, level, st, correlation, fmt).events)
    decreases x
  {
    match x
    case Row(cells) =>
      CellsBalanced(cells, st, correlation, fmt);
      BalancedWrap(RowTemplate(level), CellsSpec(cells, st, correlation, fmt).events);
    case RowGroup(children) =>
      if level >= MaxOutlineLevel {
        FlatIsBalanced([]);
      } else {
        RowsBalanced(children, level + 1, st, correlation, fmt);
      }
  }

  lemma {:induction false} RowsBalanced(rows: seq<Structure.RowLevel>, level: nat, st: VisitState, correlation: int, fmt: Formatters)
    ensures Balanced(RowsSpec(rows, level, st, correlation, fmt).events)
    decreases rows
  {
    if rows == [] {
      FlatIsBalanced([]);
    } else {
      var o := RowsSpec(rows[..|rows| - 1], level, st, correlation, fmt);
      RowsBalanced(rows[..|rows| - 1], level, st, correlation, fmt);
      if o.failure.None? {
        RowLevelBalanced(rows[|rows| - 1], level, o.state, correlation, fmt);
        BalancedConcat(o.events, RowLevelSpec(rows[|rows| - 1], level, o.state, correlation, fmt).events);
      }
    }
  }

  lemma ParametersBalanced(ws: Structure.Worksheet)
    ensures Balanced(if ws.parameters.Some? then ParametersEvents(ws.parameters.value) else [])
  {
    var params := if ws.parameters.Some? then ParametersEvents(ws.parameters.value) else [];
    assert forall k :: 0 <= k < |params| ==> params[k].Whole?;
    FlatIsBalanced(params);
  }

  lemma WorksheetBalanced(ws: Structure.Worksheet, level: nat, st: VisitState, correlation: int, fmt: Formatters)
    ensures Balanced(WorksheetSpec(ws, level, st, correlation, fmt).events)
  {
    RowsBalanced(ws.rows, level, st, correlation, fmt);
    ParametersBalanced(ws);
    SheetBalanced(if ws.parameters.Some? then ParametersEvents(ws.parameters.value) else [],
      RowsSpec(ws.rows, level, st, correlation, fmt).events);
  }

  lemma SheetBalanced(params: seq<Event>, rows: seq<Event>)
    requires Balanced(params) && Balanced(rows)
    ensures Balanced([Start(WorksheetTag)] + params + [Start(SheetDataTag)] + rows + [End, End])
  {
    BalancedWrap(SheetDataTag, rows);
    BalancedConcat(params, [Start(SheetDataTag)] + rows + [End]);
    BalancedWrap(WorksheetTag, params + ([Start(SheetDataTag)] + rows + [End]));
    assert [Start(WorksheetTag)] + params + [Start(SheetDataTag)] + rows + [End, End] ==
      [Start(WorksheetTag)] + (params + ([Start(SheetDataTag)] + rows + [End])) + [End];
  }

  /** Visiting one more cell: nothing after a failure, otherwise the cell's events and state follow. */
  lemma CellsSpecStep(cells: seq<Structure.Cell>, i: nat, st: VisitState, correlation: int, fmt: Formatters)
    requires i < |cells|
    ensures var o := CellsSpec(cells[..i], st, correlation, fmt);
      var c := CellSpec(cells[i], o.state, correlation, fmt);
      CellsSpec(cells[..i + 1], st, correlation, fmt) ==
        if o.failure.Some? then o else Out(o.events + c.events, c.failure, c.state)
  {
    assert cells[..i + 1][..i] == cells[..i];
  }

  /** Visiting one more row-level element, likewise. */
  lemma RowsSpecStep(rows: seq<Structure.RowLevel>, i: nat, level: nat, st: VisitState, correlation: int, fmt: Formatters)
    requires i < |rows|
    ensures var o := RowsSpec(rows[..i], level, st, correlation, fmt);
      var r := RowLevelSpec(rows[i], level, o.state, correlation, fmt);
      RowsSpec(rows[..i + 1], level, st, correlation, fmt) ==
        if o.failure.Some? then o else Out(o.events + r.events, r.failure, r.state)
  {
    assert rows[..i + 1][..i] == rows[..i];
  }

  /** A row is done once all its cells are visited or one of them fails: later cells are not visited. */
  lemma {:induction false} CellsSpecStops(cells: seq<Structure.Cell>, k: nat, st: VisitState, correlation: int, fmt: Formatters)
    requires k <= |cells| && (k == |cells| || CellsSpec(cells[..k], st, correlation, fmt).failure.Some?)
    ensures CellsSpec(cells, st, correlation, fmt) == CellsSpec(cells[..k], st, correlation, fmt)
    decreases |cells|
  {
    if k == |cells| {
      assert cells[..k] == cells;
    } else {
      var init := cells[..|cells| - 1];
      assert init[..k] == cells[..k];
      CellsSpecStops(init, k, st, correlation, fmt);
    }
  }

  /** Rows are done once all are visited or one of them fails: later rows are not visited. */
  lemma {:induction false} RowsSpecStops(rows: seq<Structure.RowLevel>, k: nat, level: nat, st: VisitState, correlation: int, fmt: Formatters)
    requires k <= |rows| && (k == |rows| || RowsSpec(rows[..k], level, st, correlation, fmt).failure.Some?)
    ensures RowsSpec(rows, level, st, correlation, fmt) == RowsSpec(rows[..k], level, st, correlation, fmt)
    decreases |rows|
  {
    if k == |rows| {
      assert rows[..k] == rows;
    } else {
      var init := rows[..|rows| - 1];
      assert init[..k] == rows[..k];
      RowsSpecStops(init, k, level, st, correlation, fmt);
    }
  }

  // ---- Outline levels ----

  /**
   * A row tag written at nesting `level`: no outline level at the top, and
   * otherwise a level from `level` to 255, which the part's one-byte field holds.
   */
  predicate RowTagWithin(t: Tag, level: nat)
  {
    t.RowTag? ==>
      if t.outlineLevel.None? then level == 0
      else 1 <= t.outlineLevel.value <= MaxOutlineLevel && level <= t.outlineLevel.value
  }

  ghost predicate RowsWithin(s: seq<Event>, level: nat)
  {
    forall i :: 0 <= i < |s| && s[i].Start? ==> RowTagWithin(s[i].tag, level)
  }

  lemma RowsWithinConcat(a: seq<Event>, b: seq<Event>, level: nat)
    requires RowsWithin(a, level) && RowsWithin(b, level)
    ensures RowsWithin(a + b, level)
  {
    forall i | 0 <= i < |a + b| && (a + b)[i].Start? ensures RowTagWithin((a + b)[i].tag, level) {
      if i >= |a| {
        assert (a + b)[i] == b[i - |a|];
      }
    }
  }

  lemma {:induction false} CellsWriteNoRows(cells: seq<Structure.Cell>, st: VisitState, correlation: int, fmt: Formatters, level: nat)
    ensures RowsWithin(CellsSpec(cells, st, correlation, fmt).events, level)
  {
    if cells != [] {
      var o := CellsSpec(cells[..|cells| - 1], st, correlation, fmt);
      CellsWriteNoRows(cells[..|cells| - 1], st, correlation, fmt, level);
      if o.failure.None? {
        CellBalanced(cells[|cells| - 1], o.state, correlation, fmt);
        RowsWithinConcat(o.events, CellSpec(cells[|cells| - 1], o.state, correlation, fmt).events, level);
      }
    }
  }

  /**
   * Every row written while visiting at nesting `level` carries an outline
   * level between `level` and 255 (none at the top): groups deeper than 255
   * fail before writing anything.
   */
  lemma {:induction false} RowLevelOutlineWithin(x: Structure.RowLevel, level: nat, st: VisitState, correlation: int, fmt: Formatters)
    requires level <= MaxOutlineLevel
    ensures RowsWithin(RowLevelSpec(x, level, st, correlation, fmt).events, level)
    decreases x
  {
    match x
    case Row(cells) =>
      var inner := CellsSpec(cells, st, correlation, fmt).events;
      CellsWriteNoRows(cells, st, correlation, fmt, level);
      RowsWithinConcat([Start(RowTemplate(level))], inner, level);
      RowsWithinConcat([Start(RowTemplate(level))] + inner, [End], level);
    case RowGroup(children) =>
      if level < MaxOutlineLevel {
        RowsOutlineWithin(children, level + 1, st, correlation, fmt);
        var s := RowsSpec(children, level + 1, st, correlation, fmt).events;
        assert forall i :: 0 <= i < |s| && s[i].Start? ==> RowTagWithin(s[i].tag, level + 1);
      }
  }

  lemma {:induction false} RowsOutlineWithin(rows: seq<Structure.RowLevel>, level: nat, st: VisitState, correlation: int, fmt: Formatters)
    requires level <= MaxOutlineLevel
    ensures RowsWithin(RowsSpec(rows, level, st, correlation, fmt).events, level)
    decreases rows
  {
    if rows != [] {
      var o := RowsSpec(rows[..|rows| - 1], level, st, correlation, fmt);
      RowsOutlineWithin(rows[..|rows| - 1], level, st, correlation, fmt);
      if o.failure.None? {
        RowLevelOutlineWithin(rows[|rows| - 1], level, o.state, correlation, fmt);
        RowsWithinConcat(o.events, RowLevelSpec(rows[|rows| - 1], level, o.state, correlation, fmt).events, level);
      }
    }
  }

  /** The deepest nesting of row groups in a sequence of rows: 0 when it holds rows only. */
  function GroupDepth(rows: seq<Structure.RowLevel>): nat
    decreases rows
  {
    if rows == [] then 0
    else
      var a, b := GroupDepth(rows[..|rows| - 1]), LevelDepth(rows[|rows| - 1]);
      if a >= b then a else b
  }

  function LevelDepth(x: Structure.RowLevel): nat
    decreases x
  {
    match x
    case Row(_) => 0
    case RowGroup(children) => 1 + GroupDepth(children)
  }

  /** Cells never fail with an outline overflow. */
  lemma {:induction false} CellsNeverOverflow(cells: seq<Structure.Cell>, st: VisitState, correlation: int, fmt: Formatters)
    ensures CellsSpec(cells, st, correlation, fmt).failure != Some(OutlineOverflow)
  {
    if cells != [] {
      CellsNeverOverflow(cells[..|cells| - 1], st, correlation, fmt);
    }
  }

  /**
   * Rows whose groups nest no deeper than the outline limit allows from the
   * current level never fail with an outline overflow.
   */
  lemma {:induction false} NoOverflowWithinDepth(rows: seq<Structure.RowLevel>, level: nat, st: VisitState,
                                                 correlation: int, fmt: Formatters)
    requires level + GroupDepth(rows) <= MaxOutlineLevel
    ensures RowsSpec(rows, level, st, correlation, fmt).failure != Some(OutlineOverflow)
    decreases rows
  {
    if rows != [] {
      var o := RowsSpec(rows[..|rows| - 1], level, st, correlation, fmt);
      NoOverflowWithinDepth(rows[..|rows| - 1], level, st, correlation, fmt);
      if o.failure.None? {
        LevelNoOverflow(rows[|rows| - 1], level, o.state, correlation, fmt);
      }
    }
  }

  lemma {:induction false} LevelNoOverflow(x: Structure.RowLevel, level: nat, st: VisitState, correlation: int, fmt: Formatters)
    requires level + LevelDepth(x) <= MaxOutlineLevel
    ensures RowLevelSpec(x, level, st, correlation, fmt).failure != Some(OutlineOverflow)
    decreases x
  {
    match x
    case Row(cells) => CellsNeverOverflow(cells, st, correlation, fmt);
    case RowGroup(children) => NoOverflowWithinDepth(children, level + 1, st, correlation, fmt);
  }

  /**
   * Rows whose groups nest deeper than the limit allows from the current
   * level always fail: with the overflow, or earlier with another failure.
   */
  lemma {:induction false} DeepGroupsFail(rows: seq<Structure.RowLevel>, level: nat, st: VisitState,
                                          correlation: int, fmt: Formatters)
    requires level <= MaxOutlineLevel < level + GroupDepth(rows)
    ensures RowsSpec(rows, level, st, correlation, fmt).failure.Some?
    decreases rows
  {
    var init, last := rows[..|rows| - 1], rows[|rows| - 1];
    var o := RowsSpec(init, level, st, correlation, fmt);
    if o.failure.None? {
      if level + GroupDepth(init) > MaxOutlineLevel {
        DeepGroupsFail(init, level, st, correlation, fmt);
      } else {
        DeepLevelFails(last, level, o.state, correlation, fmt);
      }
    }
  }

  lemma {:induction false} DeepLevelFails(x: Structure.RowLevel, level: nat, st: VisitState, correlation: int, fmt: Formatters)
    requires level <= MaxOutlineLevel < level + LevelDepth(x)
    ensures RowLevelSpec(x, level, st, correlation, fmt).failure.Some?
    decreases x
  {
    if level < MaxOutlineLevel {
      DeepGroupsFail(x.children, level + 1, st, correlation, fmt);
    }
  }

  /** A group nested 256 deep fails with the overflow, and nothing of it is written. */
  lemma OverflowAtDepth256(x: Structure.RowLevel, st: VisitState, correlation: int, fmt: Formatters)
    requires x.RowGroup?
    ensures RowLevelSpec(x, MaxOutlineLevel, st, correlation, fmt) == Out([], Some(OutlineOverflow), st)
  {
  }

  // ---- Styles and strings ----

  /** The data type each allocating method passes for its kind. */
  function ValueTypeOf(kind: CellKind): CellValueType
  {
    match kind
    case NumberKind => NumberValue
    case DateKind => NumberValue
    case StringKind => InlineStringValue
    case SharedStringKind => SharedStringValue
  }

  /** Every cached sample cell carries the data type of its kind. */
  ghost predicate KindTyped(st: StyleState)
  {
    forall i, k :: 0 <= i < |st.options| && st.options[i].Get(k).Some? ==>
      st.options[i].Get(k).value.dataType == Some(ValueTypeOf(k))
  }

  /** The state a visit keeps: the registry in sync and typed by kind, the shared strings distinct. */
  ghost predicate Sound(st: VisitState, correlation: int)
  {
    InSync(st.styles, correlation) && KindTyped(st.styles) && Distinct(st.strings)
  }

  /** A visit only appends styles and strings, so every index handed out stays valid. */
  ghost predicate Grows(a: VisitState, b: VisitState)
  {
    a.styles.styles <= b.styles.styles && a.strings <= b.strings
  }

  lemma AllocationKeepsKindTyped(st: StyleState, correlation: int, kind: CellKind, style: Styling.CellStyle)
    requires InSync(st, correlation) && KindTyped(st)
    ensures var (cell, st') := AllocateCellSpec(st, correlation, kind, style, ValueTypeOf(kind));
      KindTyped(st') && cell.dataType == Some(ValueTypeOf(kind))
  {
    var (pos, st1) := AllocateOptionSpec(st, correlation, style);
    assert KindTyped(st1);
  }

  lemma AllocSound(st: VisitState, correlation: int, kind: CellKind, style: Styling.CellStyle)
    requires Sound(st, correlation)
    ensures var (cell, st') := AllocSpec(st, correlation, kind, style, ValueTypeOf(kind));
      Sound(st', correlation) && Grows(st, st') && style in st'.styles.styles &&
      cell == CellTemplate(Some(correlation + IndexOf(st'.styles.styles, style)), Some(ValueTypeOf(kind))) &&
      Cached(st'.styles, kind, style) == Some(cell)
  {
    AllocationIndexIsStylePosition(st.styles, correlation, kind, style, ValueTypeOf(kind));
    AllocationKeepsKindTyped(st.styles, correlation, kind, style);
  }

  /** The style a cell's sample is allocated for: its own, or the default of its kind; none for empty and boolean cells. */
  function EffectiveStyle(cell: Structure.Cell): Option<Styling.CellStyle>
  {
    match cell
    case EmptyCell => None
    case IntegerCell(_, style) => style
    case DecimalCell(_, style) => style
    case DateTimeCell(_, style) => Some(style.GetOr(DefaultDateStyle))
    case InlineStringCell(_, style) => Some(style.GetOr(DefaultStringStyle))
    case SharedStringCell(_, style) => Some(style.GetOr(DefaultStringStyle))
    case BooleanCell(_, _) => None
  }

  /** The data type written with a cell of each element type. */
  function DataTypeOf(cell: Structure.Cell): Option<CellValueType>
  {
    match cell
    case EmptyCell => None
    case IntegerCell(_, _) => Some(NumberValue)
    case DecimalCell(_, _) => Some(NumberValue)
    case DateTimeCell(_, _) => Some(NumberValue)
    case InlineStringCell(_, _) => Some(InlineStringValue)
    case SharedStringCell(_, _) => Some(SharedStringValue)
    case BooleanCell(_, _) => Some(BooleanValue)
  }

  /** One cell keeps the state sound and only grows it; it fails exactly when it is a styled boolean. */
  lemma CellSound(cell: Structure.Cell, st: VisitState, correlation: int, fmt: Formatters)
    requires Sound(st, correlation)
    ensures var o := CellSpec(cell, st, correlation, fmt);
      Sound(o.state, correlation) && Grows(st, o.state) &&
      (o.failure.Some? <==> cell.BooleanCell? && cell.style.Some?) &&
      (o.failure.None? && EffectiveStyle(cell).Some? ==> EffectiveStyle(cell).value in o.state.styles.styles)
  {
    match cell
    case EmptyCell =>
    case BooleanCell(_, _) =>
    case IntegerCell(_, style) =>
      if style.Some? { AllocSound(st, correlation, NumberKind, style.value); }
    case DecimalCell(_, style) =>
      if style.Some? { AllocSound(st, correlation, NumberKind, style.value); }
    case DateTimeCell(_, style) =>
      AllocSound(st, correlation, DateKind, style.GetOr(DefaultDateStyle));
    case InlineStringCell(_, style) =>
      AllocSound(st, correlation, StringKind, style.GetOr(DefaultStringStyle));
    case SharedStringCell(v, style) =>
      AllocSound(st, correlation, SharedStringKind, style.GetOr(DefaultStringStyle));
      var st1 := TemplateSpec(st, correlation, SharedStringKind, style, DefaultStringStyle, SharedStringValue).1;
      if v.Some? && v.value !in st1.strings {
        assert Distinct(st1.strings + [v.value]);
      }
  }

  /**
   * A cell that does not fail opens with a sample cell whose StyleIndex is
   * the correlation plus the position of its effective style in the style
   * table (none when it has none), and whose DataType is that of its
   * element type.
   */
  ghost predicate OpensWithStyleAndType(cell: Structure.Cell, st: VisitState, correlation: int, fmt: Formatters)
  {
    var o := CellSpec(cell, st, correlation, fmt);
    o.failure.None? ==>
      (EffectiveStyle(cell).Some? ==> EffectiveStyle(cell).value in o.state.styles.styles) &&
      |o.events| >= 2 && o.events[0] == Start(CellTag(CellTemplate(
        if EffectiveStyle(cell).Some? then Some(correlation + IndexOf(o.state.styles.styles, EffectiveStyle(cell).value)) else None,
        DataTypeOf(cell))))
  }

  lemma CellTemplateIsStyleAndType(cell: Structure.Cell, st: VisitState, correlation: int, fmt: Formatters)
    requires Sound(st, correlation)
    ensures OpensWithStyleAndType(cell, st, correlation, fmt)
  {
    match cell
    case EmptyCell =>
    case BooleanCell(_, style) =>
    case IntegerCell(_, style) =>
      if style.Some? { StyledNumberTemplate(cell, st, correlation, fmt); }
    case DecimalCell(_, style) =>
      if style.Some? { StyledNumberTemplate(cell, st, correlation, fmt); }
    case DateTimeCell(v, style) =>
      DateTemplate(v, style, st, correlation, fmt);
    case InlineStringCell(v, style) =>
      InlineStringTemplate(v, style, st, correlation, fmt);
    case SharedStringCell(v, style) =>
      SharedStringTemplate(v, style, st, correlation, fmt);
  }

  lemma StyledNumberTemplate(cell: Structure.Cell, st: VisitState, correlation: int, fmt: Formatters)
    requires Sound(st, correlation)
    requires (cell.IntegerCell? || cell.DecimalCell?) && cell.style.Some?
    ensures OpensWithStyleAndType(cell, st, correlation, fmt)
  {
    var o := CellSpec(cell, st, correlation, fmt);
    AllocSound(st, correlation, NumberKind, cell.style.value);
    var (t, st1) := AllocSpec(st, correlation, NumberKind, cell.style.value, NumberValue);
    assert o.state == st1 && o.events[0] == Start(CellTag(t));
  }

  lemma DateTemplate(v: Option<Structure.DateTime>, style: Option<Styling.CellStyle>, st: VisitState,
                     correlation: int, fmt: Formatters)
    requires Sound(st, correlation)
    ensures OpensWithStyleAndType(Structure.DateTimeCell(v, style), st, correlation, fmt)
  {
    AllocSound(st, correlation, DateKind, style.GetOr(DefaultDateStyle));
    var (t, st1) := AllocSpec(st, correlation, DateKind, style.GetOr(DefaultDateStyle), NumberValue);
    assert CellSpec(Structure.DateTimeCell(v, style), st, correlation, fmt)
        == Out(ValueCellEvents(t, if v.Some? then Some(fmt.oaDateText(v.value)) else None), None, st1);
  }

  lemma InlineStringTemplate(v: Option<string>, style: Option<Styling.CellStyle>, st: VisitState,
                             correlation: int, fmt: Formatters)
    requires Sound(st, correlation)
    ensures OpensWithStyleAndType(Structure.InlineStringCell(v, style), st, correlation, fmt)
  {
    AllocSound(st, correlation, StringKind, style.GetOr(DefaultStringStyle));
    var (t, st1) := AllocSpec(st, correlation, StringKind, style.GetOr(DefaultStringStyle), InlineStringValue);
    assert CellSpec(Structure.InlineStringCell(v, style), st, correlation, fmt)
        == Out(InlineCellEvents(t, v), None, st1);
  }

  lemma SharedStringTemplate(v: Option<string>, style: Option<Styling.CellStyle>, st: VisitState,
                             correlation: int, fmt: Formatters)
    requires Sound(st, correlation)
    ensures OpensWithStyleAndType(Structure.SharedStringCell(v, style), st, correlation, fmt)
  {
    AllocSound(st, correlation, SharedStringKind, style.GetOr(DefaultStringStyle));
    var (t, st1) := AllocSpec(st, correlation, SharedStringKind, style.GetOr(DefaultStringStyle), SharedStringValue);
    var o := CellSpec(Structure.SharedStringCell(v, style), st, correlation, fmt);
    assert o.state.styles == st1.styles && o.events[0] == Start(CellTag(t));
  }

  /** A shared-string cell with a value writes the value's index in the shared-string table as its text. */
  lemma SharedStringTextIsIndex(text: string, style: Option<Styling.CellStyle>, st: VisitState, correlation: int, fmt: Formatters)
    requires Distinct(st.strings)
    ensures var o := CellSpec(Structure.SharedStringCell(Some(text), style), st, correlation, fmt);
      text in o.state.strings && |o.events| == 5 && o.events[2] == Text(IntText(IndexOf(o.state.strings, text)))
  {
    var (index, strings) := StringIndexSpec(st.strings, text);
    if text !in st.strings {
      assert Distinct(strings);
      IndexOfDistinct(strings, |st.strings|);
    }
    assert index == IndexOf(strings, text);
    SharedStringCellUnfolds(text, style, st, correlation, fmt);
  }

  lemma SharedStringCellUnfolds(text: string, style: Option<Styling.CellStyle>, st: VisitState, correlation: int, fmt: Formatters)
    ensures var (index, strings) := StringIndexSpec(st.strings, text);
      var o := CellSpec(Structure.SharedStringCell(Some(text), style), st, correlation, fmt);
      o.state.strings == strings && |o.events| == 5 && o.events[2] == Text(IntText(index))
  {
    var (t, st1) := TemplateSpec(st, correlation, SharedStringKind, style, DefaultStringStyle, SharedStringValue);
    assert st1.strings == st.strings;
    var (index, strings) := StringIndexSpec(st1.strings, text);
    assert CellSpec(Structure.SharedStringCell(Some(text), style), st, correlation, fmt)
        == Out(ValueCellEvents(t, Some(IntText(index))), None, st1.(strings := strings));
  }

  lemma {:induction false} CellsSound(cells: seq<Structure.Cell>, st: VisitState, correlation: int, fmt: Formatters)
    requires Sound(st, correlation)
    ensures Sound(CellsSpec(cells, st, correlation, fmt).state, correlation)
    ensures Grows(st, CellsSpec(cells, st, correlation, fmt).state)
  {
    if cells != [] {
      var o := CellsSpec(cells[..|cells| - 1], st, correlation, fmt);
      CellsSound(cells[..|cells| - 1], st, correlation, fmt);
      if o.failure.None? {
        CellSound(cells[|cells| - 1], o.state, correlation, fmt);
      }
    }
  }

  /** Visiting rows keeps the state sound and only appends to the style and shared-string tables. */
  lemma {:induction false} RowLevelSound(x: Structure.RowLevel, level: nat, st: VisitState, correlation: int, fmt: Formatters)
    requires Sound(st, correlation)
    ensures Sound(RowLevelSpec(x, level, st, correlation, fmt).state, correlation)
    ensures Grows(st, RowLevelSpec(x, level, st, correlation, fmt).state)
    decreases x
  {
    match x
    case Row(cells) =>
      CellsSound(cells, st, correlation, fmt);
    case RowGroup(children) =>
      if level < MaxOutlineLevel {
        RowsSound(children, level + 1, st, correlation, fmt);
      }
  }

  lemma {:induction false} RowsSound(rows: seq<Structure.RowLevel>, level: nat, st: VisitState, correlation: int, fmt: Formatters)
    requires Sound(st, correlation)
    ensures Sound(RowsSpec(rows, level, st, correlation, fmt).state, correlation)
    ensures Grows(st, RowsSpec(rows, level, st, correlation, fmt).state)
    decreases rows
  {
    if rows != [] {
      var o := RowsSpec(rows[..|rows| - 1], level, st, correlation, fmt);
      RowsSound(rows[..|rows| - 1], level, st, correlation, fmt);
      if o.failure.None? {
        RowLevelSound(rows[|rows| - 1], level, o.state, correlation, fmt);
      }
    }
  }

  /**
   * An index written for a style or a shared string stays that value's
   * index in every later state of the visit, so it is still right when the
   * style sheet and the shared-string part are generated.
   */
  lemma IndicesSurviveGrowth(a: VisitState, b: VisitState, style: Styling.CellStyle, text: string)
    requires Grows(a, b)
    ensures style in a.styles.styles ==>
      (style in b.styles.styles && IndexOf(b.styles.styles, style) == IndexOf(a.styles.styles, style))
    ensures text in a.strings ==>
      (text in b.strings && IndexOf(b.strings, text) == IndexOf(a.strings, text))
  {
    if style in a.styles.styles {
      assert b.styles.styles == a.styles.styles + b.styles.styles[|a.styles.styles|..];
      IndexOfPrefix(a.styles.styles, b.styles.styles[|a.styles.styles|..], style);
    }
    if text in a.strings {
      assert b.strings == a.strings + b.strings[|a.strings|..];
      IndexOfPrefix(a.strings, b.strings[|a.strings|..], text);
    }
  }

  /**
   * The default date template is allocated once: a second unstyled date
   * cell reuses the first one's sample cell and changes nothing.
   */
  lemma DefaultDateTemplateIsReused(v1: Option<Structure.DateTime>, v2: Option<Structure.DateTime>,
                                    st: VisitState, correlation: int, fmt: Formatters)
    requires Sound(st, correlation)
    ensures var o1 := CellSpec(Structure.DateTimeCell(v1, None), st, correlation, fmt);
      var o2 := CellSpec(Structure.DateTimeCell(v2, None), o1.state, correlation, fmt);
      o2.state == o1.state && o2.events[0] == o1.events[0]
  {
    AllocSound(st, correlation, DateKind, DefaultDateStyle);
    var st1 := AllocSpec(st, correlation, DateKind, DefaultDateStyle, NumberValue).1;
    CachedCellIsReturned(st1.styles, correlation, DateKind, DefaultDateStyle, NumberValue);
  }

  /** Columns are written 1-based: a configuration's bounds are shifted by one, with no wrap-around for any valid bound. */
  lemma ColumnBoundsAreOneBased(c: Structure.ColumnConfiguration)
    requires 0 <= c.min <= c.max
    ensures ColumnOf(c).min == c.min + 1 && ColumnOf(c).max == c.max + 1
    ensures 1 <= ColumnOf(c).min <= ColumnOf(c).max && ColumnOf(c).customWidth
  {
    if c.max == MaxInt32 {
      assert Wrap32(c.max + 1) == MinInt32;
    }
    if c.min == MaxInt32 {
      assert Wrap32(c.min + 1) == MinInt32;
    }
  }

  /** Entering a group below level 255 visits its children one level deeper. */
  lemma GroupSpec(children: seq<Structure.RowLevel>, level: nat, st: VisitState, correlation: int, fmt: Formatters)
    requires level < MaxOutlineLevel
    ensures RowLevelSpec(Structure.RowGroup(children), level, st, correlation, fmt) == RowsSpec(children, level + 1, st, correlation, fmt)
  {
  }

  // ---- The visitor ----

  /**
   * The visitor of one worksheet. The OpenXML writer it writes to is not
   * modelled as an object: each visit method returns the events it writes,
   * in order.
   */
  class OpenXmlElementVisitor {
    const sharedStringCollection: SharedElementCollection<string>
    const cellStyleDefinitions: SharedCellStyleCollection
    const formatters: Formatters
    /** Sample row k carries outline level k; the list grows as groups nest deeper. */
    var sampleRowOutlineLevels: seq<Tag>
    var outlineLevel: int
    /** The lazily allocated templates of unstyled date, shared-string and inline-string cells. */
    var sharedSampleDateTimeCell: Option<CellTemplate>
    var sharedSampleSharedStringCell: Option<CellTemplate>
    var sharedSampleInlineStringCell: Option<CellTemplate>

    function Correlation(): int
    {
      cellStyleDefinitions.cellFormatIndexCorrelation
    }

    function State(): VisitState
      reads cellStyleDefinitions, cellStyleDefinitions.cellStyleDefinitions, sharedStringCollection
    {
      VisitState(cellStyleDefinitions.State(), sharedStringCollection.items)
    }

    /** A lazy template, once set, is the one the registry holds for its kind and default style. */
    ghost predicate LazyCached()
      reads this, cellStyleDefinitions, cellStyleDefinitions.cellStyleDefinitions
    {
      var st := cellStyleDefinitions.State();
      (sharedSampleDateTimeCell.Some? ==> Cached(st, DateKind, DefaultDateStyle) == sharedSampleDateTimeCell) &&
      (sharedSampleSharedStringCell.Some? ==> Cached(st, SharedStringKind, DefaultStringStyle) == sharedSampleSharedStringCell) &&
      (sharedSampleInlineStringCell.Some? ==> Cached(st, StringKind, DefaultStringStyle) == sharedSampleInlineStringCell)
    }

    /** Everything but the bound of the current level by the sample rows. */
    ghost predicate Core()
      reads this, sharedStringCollection, cellStyleDefinitions, cellStyleDefinitions.cellStyleDefinitions
    {
      sharedStringCollection.Valid() && !sharedStringCollection.done &&
      cellStyleDefinitions.Valid() && Sound(State(), Correlation()) && LazyCached() &&
      0 <= outlineLevel <= MaxOutlineLevel &&
      1 <= |sampleRowOutlineLevels| &&
      forall k :: 0 <= k < |sampleRowOutlineLevels| ==> sampleRowOutlineLevels[k] == RowTemplate(k)
    }

    ghost predicate Valid()
      reads this, sharedStringCollection, cellStyleDefinitions, cellStyleDefinitions.cellStyleDefinitions
    {
      Core() && outlineLevel < |sampleRowOutlineLevels|
    }

    /** A visitor starts at the top level with the one sample row without an outline level. */
    constructor(sharedStringCollection: SharedElementCollection<string>,
                cellStyleDefinitions: SharedCellStyleCollection, formatters: Formatters)
      requires sharedStringCollection.Valid() && !sharedStringCollection.done && cellStyleDefinitions.Valid()
      requires Sound(VisitState(cellStyleDefinitions.State(), sharedStringCollection.items), cellStyleDefinitions.cellFormatIndexCorrelation)
      ensures Valid() && outlineLevel == 0 && sampleRowOutlineLevels == [RowTag(None)]
      ensures this.sharedStringCollection == sharedStringCollection
      ensures this.cellStyleDefinitions == cellStyleDefinitions && this.formatters == formatters
      ensures sharedSampleDateTimeCell.None? && sharedSampleSharedStringCell.None? && sharedSampleInlineStringCell.None?
    {
      this.sharedStringCollection := sharedStringCollection;
      this.cellStyleDefinitions := cellStyleDefinitions;
      this.formatters := formatters;
      sampleRowOutlineLevels := [RowTag(None)];
      outlineLevel := 0;
      sharedSampleDateTimeCell := None;
      sharedSampleSharedStringCell := None;
      sharedSampleInlineStringCell := None;
    }

    /** One allocation in the registry, keeping the visitor's invariant. */
    method Allocate(kind: CellKind, style: Styling.CellStyle, valueType: CellValueType) returns (t: CellTemplate)
      requires Valid() && valueType == ValueTypeOf(kind)
      modifies cellStyleDefinitions, cellStyleDefinitions.cellStyleDefinitions
      ensures Valid()
      ensures (t, State()) == AllocSpec(old(State()), Correlation(), kind, style, valueType)
      ensures Cached(cellStyleDefinitions.State(), kind, style) == Some(t)
    {
      ghost var st := cellStyleDefinitions.State();
      AllocSound(State(), Correlation(), kind, style);
      if sharedSampleDateTimeCell.Some? {
        CacheIsStable(st, Correlation(), kind, style, valueType, DateKind, DefaultDateStyle);
      }
      if sharedSampleSharedStringCell.Some? {
        CacheIsStable(st, Correlation(), kind, style, valueType, SharedStringKind, DefaultStringStyle);
      }
      if sharedSampleInlineStringCell.Some? {
        CacheIsStable(st, Correlation(), kind, style, valueType, StringKind, DefaultStringStyle);
      }
      t := cellStyleDefinitions.AllocateCell(kind, style, valueType);
    }

    /** The `SharedSampleDateTimeCell` property: allocated on first use, then reused. */
    method SharedSampleDateTimeCell() returns (t: CellTemplate)
      requires Valid()
      modifies this, cellStyleDefinitions, cellStyleDefinitions.cellStyleDefinitions
      ensures Valid() && outlineLevel == old(outlineLevel) && sampleRowOutlineLevels == old(sampleRowOutlineLevels)
      ensures (t, State()) == AllocSpec(old(State()), Correlation(), DateKind, DefaultDateStyle, NumberValue)
    {
      if sharedSampleDateTimeCell.Some? {
        CachedCellIsReturned(cellStyleDefinitions.State(), Correlation(), DateKind, DefaultDateStyle, NumberValue);
        return sharedSampleDateTimeCell.value;
      }
      t := Allocate(DateKind, DefaultDateStyle, NumberValue);
      CacheDateSample(t);
    }

    /** Keeps the date sample once the registry holds it for the default date style. */
    method CacheDateSample(t: CellTemplate)
      requires Valid() && Cached(cellStyleDefinitions.State(), DateKind, DefaultDateStyle) == Some(t)
      modifies `sharedSampleDateTimeCell
      ensures Valid() && sharedSampleDateTimeCell == Some(t)
    {
      sharedSampleDateTimeCell := Some(t);
      assert LazyCached();
    }

    /** The `SharedSampleSharedStringCell` property. */
    method SharedSampleSharedStringCell() returns (t: CellTemplate)
      requires Valid()
      modifies this, cellStyleDefinitions, cellStyleDefinitions.cellStyleDefinitions
      ensures Valid() && outlineLevel == old(outlineLevel) && sampleRowOutlineLevels == old(sampleRowOutlineLevels)
      ensures (t, State()) == AllocSpec(old(State()), Correlation(), SharedStringKind, DefaultStringStyle, SharedStringValue)
    {
      if sharedSampleSharedStringCell.Some? {
        CachedCellIsReturned(cellStyleDefinitions.State(), Correlation(), SharedStringKind, DefaultStringStyle, SharedStringValue);
        return sharedSampleSharedStringCell.value;
      }
      t := Allocate(SharedStringKind, DefaultStringStyle, SharedStringValue);
      CacheSharedStringSample(t);
    }

    method CacheSharedStringSample(t: CellTemplate)
      requires Valid() && Cached(cellStyleDefinitions.State(), SharedStringKind, DefaultStringStyle) == Some(t)
      modifies `sharedSampleSharedStringCell
      ensures Valid() && sharedSampleSharedStringCell == Some(t)
    {
      sharedSampleSharedStringCell := Some(t);
      assert LazyCached();
    }

    /** The `SharedSampleInlineStringCell` property. */
    method SharedSampleInlineStringCell() returns (t: CellTemplate)
      requires Valid()
      modifies this, cellStyleDefinitions, cellStyleDefinitions.cellStyleDefinitions
      ensures Valid() && outlineLevel == old(outlineLevel) && sampleRowOutlineLevels == old(sampleRowOutlineLevels)
      ensures (t, State()) == AllocSpec(old(State()), Correlation(), StringKind, DefaultStringStyle, InlineStringValue)
    {
      if sharedSampleInlineStringCell.Some? {
        CachedCellIsReturned(cellStyleDefinitions.State(), Correlation(), StringKind, DefaultStringStyle, InlineStringValue);
        return sharedSampleInlineStringCell.value;
      }
      t := Allocate(StringKind, DefaultStringStyle, InlineStringValue);
      CacheInlineStringSample(t);
    }

    method CacheInlineStringSample(t: CellTemplate)
      requires Valid() && Cached(cellStyleDefinitions.State(), StringKind, DefaultStringStyle) == Some(t)
      modifies `sharedSampleInlineStringCell
      ensures Valid() && sharedSampleInlineStringCell == Some(t)
    {
      sharedSampleInlineStringCell := Some(t);
      assert LazyCached();
    }

    /** `GetOrAllocateElement` on the shared strings, keeping the visitor's invariant. */
    method AllocateString(s: string) returns (index: nat)
      requires Valid()
      modifies sharedStringCollection
      ensures Valid()
      ensures (index, State().strings) == StringIndexSpec(old(State().strings), s)
      ensures State().styles == old(State().styles)
    {
      if s in sharedStringCollection.items {
        ghost var k := IndexOf(sharedStringCollection.items, s);
        assert sharedStringCollection.indexByItem[sharedStringCollection.items[k]] == k;
      }
      var i := sharedStringCollection.GetOrAllocateElement(s);
      index := i;
    }

    /** `Accept` on a cell element: the visit method of its type. */
    method VisitCell(cell: Structure.Cell) returns (events: seq<Event>, failure: Option<Failure>)
      requires Valid()
      modifies this, sharedStringCollection, cellStyleDefinitions, cellStyleDefinitions.cellStyleDefinitions
      ensures Valid() && outlineLevel == old(outlineLevel) && sampleRowOutlineLevels == old(sampleRowOutlineLevels)
      ensures Out(events, failure, State()) == CellSpec(cell, old(State()), Correlation(), formatters)
    {
      match cell
      case EmptyCell =>
        events, failure := [Start(CellTag(EmptyCellTemplate)), End], None;
      case IntegerCell(_, _) =>
        events, failure := VisitNumberCell(cell);
      case DecimalCell(_, _) =>
        events, failure := VisitNumberCell(cell);
      case DateTimeCell(_, _) =>
        events, failure := VisitDateTimeCell(cell);
      case InlineStringCell(_, _) =>
        events, failure := VisitInlineStringCell(cell);
      case SharedStringCell(_, _) =>
        events, failure := VisitSharedStringCell(cell);
      case BooleanCell(_, _) =>
        events, failure := VisitBooleanCell(cell);
    }

    /**
     * `Visit(IntegerCellElement)` and `Visit(DecimalCellElement)`: the
     * number sample cell when unstyled, otherwise the registry's number cell
     * for the style; the value's text when there is one.
     */
    method VisitNumberCell(cell: Structure.Cell) returns (events: seq<Event>, failure: Option<Failure>)
      requires Valid() && (cell.IntegerCell? || cell.DecimalCell?)
      modifies cellStyleDefinitions, cellStyleDefinitions.cellStyleDefinitions
      ensures Valid()
      ensures Out(events, failure, State()) == CellSpec(cell, old(State()), Correlation(), formatters)
    {
      var t := NumberCellTemplate;
      if cell.style.Some? {
        t := Allocate(NumberKind, cell.style.value, NumberValue);
      }
      var text := if cell.IntegerCell? then (if cell.integer.Some? then Some(IntText(cell.integer.value)) else None)
        else if cell.decimal.Some? then Some(formatters.decimalText(cell.decimal.value)) else None;
      events, failure := ValueCellEvents(t, text), None;
    }

    /** `Visit(DateTimeCellElement)`: the lazy default date cell when unstyled; the OLE date's text. */
    method VisitDateTimeCell(cell: Structure.Cell) returns (events: seq<Event>, failure: Option<Failure>)
      requires Valid() && cell.DateTimeCell?
      modifies this, cellStyleDefinitions, cellStyleDefinitions.cellStyleDefinitions
      ensures Valid() && outlineLevel == old(outlineLevel) && sampleRowOutlineLevels == old(sampleRowOutlineLevels)
      ensures Out(events, failure, State()) == CellSpec(cell, old(State()), Correlation(), formatters)
    {
      var t;
      if cell.style.None? {
        t := SharedSampleDateTimeCell();
      } else {
        t := Allocate(DateKind, cell.style.value, NumberValue);
      }
      assert (t, State()) == TemplateSpec(old(State()), Correlation(), DateKind, cell.style, DefaultDateStyle, NumberValue);
      events := ValueCellEvents(t, if cell.dateTime.Some? then Some(formatters.oaDateText(cell.dateTime.value)) else None);
      failure := None;
    }

    /** `Visit(InlineStringElement)`: the text always written, empty for a null value. */
    method VisitInlineStringCell(cell: Structure.Cell) returns (events: seq<Event>, failure: Option<Failure>)
      requires Valid() && cell.InlineStringCell?
      modifies this, cellStyleDefinitions, cellStyleDefinitions.cellStyleDefinitions
      ensures Valid() && outlineLevel == old(outlineLevel) && sampleRowOutlineLevels == old(sampleRowOutlineLevels)
      ensures Out(events, failure, State()) == CellSpec(cell, old(State()), Correlation(), formatters)
    {
      var t;
      if cell.style.None? {
        t := SharedSampleInlineStringCell();
      } else {
        t := Allocate(StringKind, cell.style.value, InlineStringValue);
      }
      assert (t, State()) == TemplateSpec(old(State()), Correlation(), StringKind, cell.style, DefaultStringStyle, InlineStringValue);
      events := InlineCellEvents(t, cell.text);
      failure := None;
    }

    /** `Visit(SharedStringElement)`: the value's index in the shared-string table as the text. */
    method VisitSharedStringCell(cell: Structure.Cell) returns (events: seq<Event>, failure: Option<Failure>)
      requires Valid() && cell.SharedStringCell?
      modifies this, sharedStringCollection, cellStyleDefinitions, cellStyleDefinitions.cellStyleDefinitions
      ensures Valid() && outlineLevel == old(outlineLevel) && sampleRowOutlineLevels == old(sampleRowOutlineLevels)
      ensures Out(events, failure, State()) == CellSpec(cell, old(State()), Correlation(), formatters)
    {
      var t;
      if cell.style.None? {
        t := SharedSampleSharedStringCell();
      } else {
        t := Allocate(SharedStringKind, cell.style.value, SharedStringValue);
      }
      ghost var st1 := State();
      assert (t, st1) == TemplateSpec(old(State()), Correlation(), SharedStringKind, cell.style, DefaultStringStyle, SharedStringValue);
      var text := None;
      if cell.text.Some? {
        var index := AllocateString(cell.text.value);
        assert (index, State()) == (StringIndexSpec(st1.strings, cell.text.value).0, st1.(strings := StringIndexSpec(st1.strings, cell.text.value).1));
        text := Some(IntText(index));
      }
      events := ValueCellEvents(t, text);
      failure := None;
    }

    /** `Visit(BooleanCellElement)`: a styled one needs the missing `AllocateBooleanCell` and fails before writing. */
    method VisitBooleanCell(cell: Structure.Cell) returns (events: seq<Event>, failure: Option<Failure>)
      requires Valid() && cell.BooleanCell?
      ensures Out(events, failure, State()) == CellSpec(cell, State(), Correlation(), formatters)
    {
      if cell.style.Some? {
        return [], Some(MissingBooleanAllocator);
      }
      events := ValueCellEvents(BooleanCellTemplate, if cell.boolean.Some? then Some(if cell.boolean.value then "1" else "0") else None);
      failure := None;
    }

    /** `Visit(RowElement)`: the sample row of the current level around the cells. */
    method VisitRow(cells: seq<Structure.Cell>) returns (events: seq<Event>, failure: Option<Failure>)
      requires Valid()
      modifies this, sharedStringCollection, cellStyleDefinitions, cellStyleDefinitions.cellStyleDefinitions
      ensures Valid() && outlineLevel == old(outlineLevel) && sampleRowOutlineLevels == old(sampleRowOutlineLevels)
      ensures Out(events, failure, State()) == RowLevelSpec(Structure.Row(cells), old(outlineLevel), old(State()), Correlation(), formatters)
    {
      var row := sampleRowOutlineLevels[outlineLevel];
      ghost var st0 := State();
      var inner: seq<Event> := [];
      failure := None;
      var i := 0;
      while i < |cells| && failure.None?
        invariant 0 <= i <= |cells|
        invariant Valid() && outlineLevel == old(outlineLevel) && sampleRowOutlineLevels == old(sampleRowOutlineLevels)
        invariant Out(inner, failure, State()) == CellsSpec(cells[..i], st0, Correlation(), formatters)
      {
        ghost var o := CellsSpec(cells[..i], st0, Correlation(), formatters);
        ghost var c := CellSpec(cells[i], o.state, Correlation(), formatters);
        CellsSpecStep(cells, i, st0, Correlation(), formatters);
        var cellEvents;
        cellEvents, failure := VisitCell(cells[i]);
        assert Out(cellEvents, failure, State()) == c;
        inner := inner + cellEvents;
        i := i + 1;
      }
      CellsSpecStops(cells, i, st0, Correlation(), formatters);
      events := [Start(row)] + inner + [End];
    }

    /** `Accept` on a row-level element: a row or a row group. */
    method VisitRowLevel(x: Structure.RowLevel) returns (events: seq<Event>, failure: Option<Failure>)
      requires Valid()
      modifies this, sharedStringCollection, cellStyleDefinitions, cellStyleDefinitions.cellStyleDefinitions
      ensures Valid() && old(outlineLevel) <= outlineLevel && (failure.None? ==> outlineLevel == old(outlineLevel))
      ensures Out(events, failure, State()) == RowLevelSpec(x, old(outlineLevel), old(State()), Correlation(), formatters)
      decreases x, 2
    {
      match x
      case Row(cells) =>
        events, failure := VisitRow(cells);
      case RowGroup(children) =>
        if outlineLevel < MaxOutlineLevel {
          GroupSpec(children, outlineLevel, State(), Correlation(), formatters);
        }
        events, failure := VisitRowGroup(children);
    }

    /**
     * `Visit(RowGroupElement)`: past level 255 it fails before writing;
     * otherwise it visits the children one level deeper, adding the sample
     * row of that level before a child when it is missing, and steps back
     * out unless a child failed.
     */
    method VisitRowGroup(children: seq<Structure.RowLevel>) returns (events: seq<Event>, failure: Option<Failure>)
      requires Valid()
      modifies this, sharedStringCollection, cellStyleDefinitions, cellStyleDefinitions.cellStyleDefinitions
      ensures Valid() && old(outlineLevel) <= outlineLevel && (failure.None? ==> outlineLevel == old(outlineLevel))
      ensures old(outlineLevel) >= MaxOutlineLevel ==>
        events == [] && failure == Some(OutlineOverflow) && State() == old(State())
      ensures old(outlineLevel) < MaxOutlineLevel ==>
        Out(events, failure, State()) == RowsSpec(children, old(outlineLevel) + 1, old(State()), Correlation(), formatters)
      decreases children, 1
    {
      if outlineLevel >= MaxOutlineLevel {
        return [], Some(OutlineOverflow);
      }
      outlineLevel := outlineLevel + 1;
      events, failure := VisitChildren(children);
      if failure.None? {
        outlineLevel := outlineLevel - 1;
      }
    }

    /** The children of a group, at the group's level, each after its sample row is in place. */
    method VisitChildren(children: seq<Structure.RowLevel>) returns (events: seq<Event>, failure: Option<Failure>)
      requires Core() && 1 <= outlineLevel <= |sampleRowOutlineLevels|
      modifies this, sharedStringCollection, cellStyleDefinitions, cellStyleDefinitions.cellStyleDefinitions
      ensures Core() && old(outlineLevel) <= outlineLevel <= |sampleRowOutlineLevels|
      ensures failure.None? ==> outlineLevel == old(outlineLevel)
      ensures failure.Some? ==> Valid()
      ensures Out(events, failure, State()) == RowsSpec(children, old(outlineLevel), old(State()), Correlation(), formatters)
      decreases children, 0
    {
      ghost var level: nat := outlineLevel;
      ghost var st0 := State();
      events := [];
      failure := None;
      var i := 0;
      while i < |children| && failure.None?
        invariant 0 <= i <= |children|
        invariant Core() && outlineLevel <= |sampleRowOutlineLevels| && level <= outlineLevel
        invariant failure.None? ==> outlineLevel == level
        invariant failure.Some? ==> Valid()
        invariant Out(events, failure, State()) == RowsSpec(children[..i], level, st0, Correlation(), formatters)
      {
        AddSampleRow();
        ghost var o := RowsSpec(children[..i], level, st0, Correlation(), formatters);
        ghost var r := RowLevelSpec(children[i], level, o.state, Correlation(), formatters);
        RowsSpecStep(children, i, level, st0, Correlation(), formatters);
        var childEvents;
        childEvents, failure := VisitRowLevel(children[i]);
        assert Out(childEvents, failure, State()) == r;
        events := events + childEvents;
        i := i + 1;
      }
      RowsSpecStops(children, i, level, st0, Correlation(), formatters);
    }

    /** The sample row of the current level, added when the list does not reach it yet. */
    method AddSampleRow()
      requires Core() && 1 <= outlineLevel <= |sampleRowOutlineLevels|
      modifies this
      ensures Valid() && outlineLevel == old(outlineLevel)
      ensures sampleRowOutlineLevels ==
        if old(|sampleRowOutlineLevels|) == outlineLevel then old(sampleRowOutlineLevels) + [RowTag(Some(outlineLevel))]
        else old(sampleRowOutlineLevels)
      ensures sharedSampleDateTimeCell == old(sharedSampleDateTimeCell)
      ensures sharedSampleSharedStringCell == old(sharedSampleSharedStringCell)
      ensures sharedSampleInlineStringCell == old(sharedSampleInlineStringCell)
    {
      if |sampleRowOutlineLevels| < outlineLevel + 1 {
        sampleRowOutlineLevels := sampleRowOutlineLevels + [RowTag(Some(outlineLevel))];
      }
    }

    /** `WriteWorksheetParameters`: the outline properties, then the columns, 1-based, when given. */
    method WriteWorksheetParameters(p: Structure.WorksheetParameters<Structure.ColumnConfiguration>) returns (events: seq<Event>)
      ensures events == ParametersEvents(p)
    {
      events := [Whole(SheetProperties(p.belo, p.right))];
      if p.columns.Some? {
        events := events + [Whole(Columns(ColumnsOf(p.columns.value)))];
      }
    }

    /**
     * `Visit(WorksheetElement)`: the worksheet scope, the parameters when
     * given, and the sheet-data scope around the rows; both scopes close
     * even when a row fails.
     */
    method VisitWorksheet(ws: Structure.Worksheet) returns (events: seq<Event>, failure: Option<Failure>)
      requires Valid()
      modifies this, sharedStringCollection, cellStyleDefinitions, cellStyleDefinitions.cellStyleDefinitions
      ensures Valid() && old(outlineLevel) <= outlineLevel && (failure.None? ==> outlineLevel == old(outlineLevel))
      ensures Out(events, failure, State()) == WorksheetSpec(ws, old(outlineLevel), old(State()), Correlation(), formatters)
    {
      ghost var level: nat := outlineLevel;
      ghost var st0 := State();
      var rows := ws.rows;
      var inner: seq<Event> := [];
      failure := None;
      var i := 0;
      while i < |rows| && failure.None?
        invariant 0 <= i <= |rows|
        invariant Valid() && level <= outlineLevel && (failure.None? ==> outlineLevel == level)
        invariant Out(inner, failure, State()) == RowsSpec(rows[..i], level, st0, Correlation(), formatters)
      {
        ghost var o := RowsSpec(rows[..i], level, st0, Correlation(), formatters);
        ghost var r := RowLevelSpec(rows[i], level, o.state, Correlation(), formatters);
        RowsSpecStep(rows, i, level, st0, Correlation(), formatters);
        var rowEvents;
        rowEvents, failure := VisitRowLevel(rows[i]);
        assert Out(rowEvents, failure, State()) == r;
        inner := inner + rowEvents;
        i := i + 1;
      }
      RowsSpecStops(rows, i, level, st0, Correlation(), formatters);
      var params: seq<Event> := [];
      if ws.parameters.Some? {
        params := WriteWorksheetParameters(ws.parameters.value);
      }
      events := [Start(WorksheetTag)] + params + [Start(SheetDataTag)] + inner + [End, End];
    }
  }
}
