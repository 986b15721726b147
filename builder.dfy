/**
 * `OpenXmlBuilder.Write`: one shared-string collection, one style
 * collection and one style registry per document; a fresh visitor writes
 * each worksheet's part in input order; then the workbook's sheet list,
 * the shared-string table and the style sheet follow, each only when there
 * is something to list.
 */
module OpenXmlBuilder {
  import opened Wrappers
  import opened Exceptions
  import opened SharedElements
  import opened StyleRegistry
  import opened XmlTrace
  import opened ElementVisitor
  import opened Stylesheets
  import Styling
  import Structure

  /** A `Sheet` of the workbook: its name, its 1-based SheetId, and the worksheet part it refers to. */
  datatype SheetRef = SheetRef(name: Option<string>, sheetId: int, part: nat)

  /**
   * The package as written: every worksheet part's trace, the workbook's
   * sheet list, the shared-string table and the style sheet, each of the
   * last three absent when it is not written.
   */
  datatype Document = Document(
    worksheetParts: seq<seq<Event>>,
    sheets: Option<seq<SheetRef>>,
    sharedStrings: Option<seq<string>>,
    stylesheet: Option<Stylesheet>)

  /** Cell formats allocated for styles come after the default ones, so style i has format i + 1. */
  const Correlation: int := |DefaultCellFormats|

  /** The state of a new document: no style, no option, no shared string. */
  const InitialState: VisitState := VisitState(StyleState([], []), [])

  /**
   * `AddWorksheetReferences`: no sheet list without worksheets; otherwise
   * worksheet k, in input order, is the sheet with its own name and
   * SheetId k + 1, referring to part k.
   */
  function AddWorksheetReferences(names: seq<Option<string>>): (sheets: Option<seq<SheetRef>>)
    ensures sheets.None? <==> names == []
    ensures sheets.Some? ==> |sheets.value| == |names| &&
                             forall k :: 0 <= k < |names| ==> sheets.value[k] == SheetRef(names[k], k + 1, k)
  {
    if |names| > 0 then Some(seq(|names|, k requires 0 <= k < |names| => SheetRef(names[k], k + 1, k)))
    else None
  }

  /** Every sheet has its own positive SheetId and its own part. */
  lemma SheetIdsDistinct(names: seq<Option<string>>)
    requires names != []
    ensures var sheets := AddWorksheetReferences(names).value;
      forall j, k :: 0 <= j < k < |sheets| ==>
        sheets[j].sheetId != sheets[k].sheetId && sheets[j].part != sheets[k].part && sheets[j].sheetId >= 1
  {
  }

  function NamesOf(worksheets: seq<Structure.Worksheet>): (names: seq<Option<string>>)
    ensures |names| == |worksheets| && forall k :: 0 <= k < |worksheets| ==> names[k] == worksheets[k].name
  {
    seq(|worksheets|, k requires 0 <= k < |worksheets| => worksheets[k].name)
  }

  /** What the worksheet loop has written: the parts, the failure that stopped it, and the state it leaves. */
  datatype Pass = Pass(parts: seq<seq<Event>>, failure: Option<Failure>, state: VisitState)

  /** The worksheet loop on values: each worksheet visited from the top level, until one fails. */
  function SheetsSpec(worksheets: seq<Structure.Worksheet>, fmt: Formatters): Pass
  {
    if worksheets == [] then Pass([], None, InitialState)
    else
      var p := SheetsSpec(worksheets[..|worksheets| - 1], fmt);
      if p.failure.Some? then p
      else
        var o := WorksheetSpec(worksheets[|worksheets| - 1], 0, p.state, Correlation, fmt);
        Pass(p.parts + [o.events], o.failure, o.state)
  }

  lemma SheetsSpecStep(worksheets: seq<Structure.Worksheet>, i: nat, fmt: Formatters)
    requires i < |worksheets|
    ensures var p := SheetsSpec(worksheets[..i], fmt);
      var o := WorksheetSpec(worksheets[i], 0, p.state, Correlation, fmt);
      SheetsSpec(worksheets[..i + 1], fmt) ==
        if p.failure.Some? then p else Pass(p.parts + [o.events], o.failure, o.state)
  {
    assert worksheets[..i + 1][..i] == worksheets[..i];
  }

  /** The loop is done once all worksheets are written or one fails: later worksheets are not visited. */
  lemma {:induction false} SheetsSpecStops(worksheets: seq<Structure.Worksheet>, k: nat, fmt: Formatters)
    requires k <= |worksheets| && (k == |worksheets| || SheetsSpec(worksheets[..k], fmt).failure.Some?)
    ensures SheetsSpec(worksheets, fmt) == SheetsSpec(worksheets[..k], fmt)
    decreases |worksheets|
  {
    if k == |worksheets| {
      assert worksheets[..k] == worksheets;
    } else {
      var init := worksheets[..|worksheets| - 1];
      assert init[..k] == worksheets[..k];
      SheetsSpecStops(init, k, fmt);
    }
  }

  /**
   * Every worksheet keeps the document's state sound, starting from the
   * empty one, and without a failure there is one part per worksheet, each
   * a balanced trace.
   */
  lemma {:induction false} SheetsSound(worksheets: seq<Structure.Worksheet>, fmt: Formatters)
    ensures var p := SheetsSpec(worksheets, fmt);
      Sound(p.state, Correlation) &&
      (p.failure.None? ==> |p.parts| == |worksheets| && forall k :: 0 <= k < |p.parts| ==> Balanced(p.parts[k]))
  {
    if worksheets == [] {
      assert InSync(InitialState.styles, Correlation);
    } else {
      var init := worksheets[..|worksheets| - 1];
      var p := SheetsSpec(init, fmt);
      SheetsSound(init, fmt);
      if p.failure.None? {
        var ws := worksheets[|worksheets| - 1];
        RowsSound(ws.rows, 0, p.state, Correlation, fmt);
        WorksheetBalanced(ws, 0, p.state, Correlation, fmt);
      }
    }
  }

  /** The style sheet of a non-empty style list, which is always built. */
  function StylesheetValue(styles: seq<Styling.CellStyle>): (sheet: Stylesheet)
    ensures Ok(sheet) == StylesheetOf(styles)
  {
    StylesheetDescribesStyles(styles);
    StylesheetOf(styles).value
  }

  /**
   * `Write` on values: a failing worksheet fails the whole write; otherwise
   * the parts, the sheet list, and the shared strings and styles collected
   * over all worksheets, each written only when non-empty.
   */
  function WriteSpec(worksheets: seq<Structure.Worksheet>, fmt: Formatters): Result<Document, Failure>
  {
    var p := SheetsSpec(worksheets, fmt);
    if p.failure.Some? then Err(p.failure.value)
    else
      var styles := p.state.styles.styles;
      Ok(Document(
        p.parts,
        AddWorksheetReferences(NamesOf(worksheets)),
        if p.state.strings == [] then None else Some(p.state.strings),
        if styles == [] then None else Some(StylesheetValue(styles))))
  }

  /**
   * `AddSharedStrings`: nothing without a shared string; otherwise the
   * drained strings in index order, one table item each.
   */
  method AddSharedStrings(sharedStrings: SharedElementCollection<string>) returns (r: Result<Option<seq<string>>, Exception>)
    requires sharedStrings.Valid()
    modifies sharedStrings
    ensures sharedStrings.Valid()
    ensures old(|sharedStrings.items|) == 0 ==> r == Ok(None) && sharedStrings.items == old(sharedStrings.items)
    ensures old(|sharedStrings.items|) > 0 && !old(sharedStrings.done) ==>
      r == Ok(Some(old(sharedStrings.items))) && sharedStrings.items == []
    ensures old(|sharedStrings.items|) > 0 && old(sharedStrings.done) ==> r == Err(InvalidOperation)
  {
    if sharedStrings.Count() <= 0 {
      return Ok(None);
    }
    var drained := sharedStrings.DequeueAll();
    if drained.Err? {
      return Err(drained.error);
    }
    var table: seq<string> := [];
    for k := 0 to |drained.value|
      invariant table == drained.value[..k]
    {
      table := table + [drained.value[k]];
    }
    assert table == drained.value;
    r := Ok(Some(table));
  }

  /** The state the worksheets leave in the document's shared collections. */
  function DocState(sharedStrings: SharedElementCollection<string>, sharedStyles: SharedCellStyleCollection): VisitState
    reads sharedStrings, sharedStyles, sharedStyles.cellStyleDefinitions
  {
    VisitState(sharedStyles.State(), sharedStrings.items)
  }

  /** The shared collections are open for more worksheets and agree with each other. */
  ghost predicate Ready(sharedStrings: SharedElementCollection<string>, sharedStyles: SharedCellStyleCollection)
    reads sharedStrings, sharedStyles, sharedStyles.cellStyleDefinitions
  {
    sharedStrings.Valid() && !sharedStrings.done && sharedStyles.Valid() &&
    sharedStyles.cellFormatIndexCorrelation == Correlation &&
    Sound(DocState(sharedStrings, sharedStyles), Correlation)
  }

  /** One pass of the worksheet loop: a new visitor over the shared collections writes the worksheet's part. */
  method WriteWorksheet(worksheet: Structure.Worksheet, formatters: Formatters,
                        sharedStrings: SharedElementCollection<string>, sharedStyles: SharedCellStyleCollection)
    returns (events: seq<Event>, failure: Option<Failure>)
    requires Ready(sharedStrings, sharedStyles)
    modifies sharedStrings, sharedStyles, sharedStyles.cellStyleDefinitions
    ensures Ready(sharedStrings, sharedStyles)
    ensures Out(events, failure, DocState(sharedStrings, sharedStyles)) ==
      WorksheetSpec(worksheet, 0, old(DocState(sharedStrings, sharedStyles)), Correlation, formatters)
  {
    var elementVisitor := new OpenXmlElementVisitor(sharedStrings, sharedStyles, formatters);
    events, failure := elementVisitor.VisitWorksheet(worksheet);
  }

  /**
   * The worksheet loop of `Write`: each worksheet's name is recorded with
   * its part, then the worksheet is written, until all are written or one
   * fails.
   */
  method WriteWorksheets(worksheets: seq<Structure.Worksheet>, formatters: Formatters,
                         sharedStrings: SharedElementCollection<string>, sharedStyles: SharedCellStyleCollection)
    returns (parts: seq<seq<Event>>, names: seq<Option<string>>, failure: Option<Failure>)
    requires Ready(sharedStrings, sharedStyles) && DocState(sharedStrings, sharedStyles) == InitialState
    modifies sharedStrings, sharedStyles, sharedStyles.cellStyleDefinitions
    ensures Ready(sharedStrings, sharedStyles)
    ensures SheetsSpec(worksheets, formatters) == Pass(parts, failure, DocState(sharedStrings, sharedStyles))
    ensures failure.None? ==> names == NamesOf(worksheets)
  {
    parts, names, failure := [], [], None;
    var i := 0;
    while i < |worksheets|
      invariant 0 <= i <= |worksheets|
      invariant Ready(sharedStrings, sharedStyles)
      invariant SheetsSpec(worksheets[..i], formatters) == Pass(parts, None, DocState(sharedStrings, sharedStyles))
      invariant names == NamesOf(worksheets[..i]) && failure.None?
    {
      names := names + [worksheets[i].name];
      SheetsSpecStep(worksheets, i, formatters);
      var events;
      events, failure := WriteWorksheet(worksheets[i], formatters, sharedStrings, sharedStyles);
      parts := parts + [events];
      if failure.Some? {
        SheetsSpecStops(worksheets, i + 1, formatters);
        return;
      }
      i := i + 1;
    }
    assert worksheets[..i] == worksheets;
  }

  /**
   * `Write`: the collections and the registry live for this one call, so
   * the document depends on the worksheets alone; a visit that throws ends
   * the write; then the sheet list, the shared strings and the styles.
   */
  method Write(worksheets: seq<Structure.Worksheet>, formatters: Formatters) returns (r: Result<Document, Failure>)
    ensures r == WriteSpec(worksheets, formatters)
  {
    var sharedStrings := new SharedElementCollection<string>();
    var sharedStylesCollection := new SharedElementCollection<Styling.CellStyle>();
    var sharedStyles := new SharedCellStyleCollection(sharedStylesCollection, |DefaultCellFormats|);
    assert InSync(InitialState.styles, Correlation);
    var parts, names, failure := WriteWorksheets(worksheets, formatters, sharedStrings, sharedStyles);
    if failure.Some? {
      return Err(failure.value);
    }
    var sheets := AddWorksheetReferences(names);
    var strings := AddSharedStrings(sharedStrings);
    var styles := AddSharedStyles(sharedStylesCollection);
    r := Ok(Document(parts, sheets, strings.value, styles.value));
  }

  // ---- What a written document guarantees ----

  /** Worksheet k is written as part k and listed as sheet k with its name and SheetId k + 1; no list without worksheets. */
  lemma WriteReferencesSheets(worksheets: seq<Structure.Worksheet>, fmt: Formatters)
    ensures var r := WriteSpec(worksheets, fmt);
      r.Ok? ==>
        |r.value.worksheetParts| == |worksheets| &&
        (r.value.sheets.None? <==> worksheets == []) &&
        (r.value.sheets.Some? ==>
          |r.value.sheets.value| == |worksheets| &&
          forall k :: 0 <= k < |worksheets| ==> r.value.sheets.value[k] == SheetRef(worksheets[k].name, k + 1, k))
  {
    SheetsSound(worksheets, fmt);
  }

  /**
   * The shared-string table is written exactly when some string was
   * shared; it lists every shared string once, so each string's position
   * is the index its cells carry.
   */
  lemma WriteSharedStrings(worksheets: seq<Structure.Worksheet>, fmt: Formatters)
    ensures var r := WriteSpec(worksheets, fmt);
      var p := SheetsSpec(worksheets, fmt);
      r.Ok? ==>
        (r.value.sharedStrings.None? <==> p.state.strings == []) &&
        (r.value.sharedStrings.Some? ==>
          r.value.sharedStrings.value == p.state.strings &&
          forall k :: 0 <= k < |p.state.strings| ==> IndexOf(r.value.sharedStrings.value, p.state.strings[k]) == k)
  {
    SheetsSound(worksheets, fmt);
    var strings := SheetsSpec(worksheets, fmt).state.strings;
    forall k | 0 <= k < |strings| ensures IndexOf(strings, strings[k]) == k {
      IndexOfDistinct(strings, k);
    }
  }

  /**
   * The style sheet is written exactly when some style was allocated; then
   * every sample cell of the registry carries a StyleIndex x that selects a
   * cell format, and that format describes the style registered at x - 1.
   */
  lemma WriteStylesDescribeCells(worksheets: seq<Structure.Worksheet>, fmt: Formatters)
    ensures var r := WriteSpec(worksheets, fmt);
      var st := SheetsSpec(worksheets, fmt).state.styles;
      r.Ok? ==>
        (r.value.stylesheet.None? <==> st.styles == []) &&
        (r.value.stylesheet.Some? ==>
          var sheet := r.value.stylesheet.value;
          forall i, k :: 0 <= i < |st.options| && st.options[i].Get(k).Some? ==>
            var x := st.options[i].Get(k).value.styleIndex;
            x.Some? && 1 <= x.value < |sheet.cellFormats| && Describes(sheet, sheet.cellFormats[x.value], st.styles[x.value - 1]))
  {
    SheetsSound(worksheets, fmt);
    var p := SheetsSpec(worksheets, fmt);
    var st := p.state.styles;
    if p.failure.None? && st.styles != [] {
      StylesheetDescribesStyles(st.styles);
    }
  }
}
