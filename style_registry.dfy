/**
 * `SharedCellStyleCollection`: puts every style tuple into the index space of
 * the workbook's cell formats, shifted by the number of default formats, and
 * caches one sample cell per (style, kind).
 */
module StyleRegistry {
  import opened Wrappers
  import opened SharedElements
  import Styling

  /** The `CellValues` the visitor stamps on sample cells. */
  datatype CellValueType = NumberValue | BooleanValue | SharedStringValue | InlineStringValue

  /** A sample `Cell`: its StyleIndex and DataType attributes, each possibly absent. */
  datatype CellTemplate = CellTemplate(styleIndex: Option<int>, dataType: Option<CellValueType>)

  /** The four cached sample cells of a `CellStyleOption`, one per allocating method. */
  datatype CellKind = NumberKind | DateKind | StringKind | SharedStringKind

  /** `CellStyleOption`: the allocated index and the per-kind cached cells, initially null. */
  datatype CellStyleOption = CellStyleOption(
    index: int,
    numberCell: Option<CellTemplate>,
    dateCell: Option<CellTemplate>,
    stringCell: Option<CellTemplate>,
    sharedStringCell: Option<CellTemplate>)
  {
    function Get(kind: CellKind): Option<CellTemplate>
    {
      match kind
      case NumberKind => numberCell
      case DateKind => dateCell
      case StringKind => stringCell
      case SharedStringKind => sharedStringCell
    }

    /** Fills one slot; the index and the other three slots stay as they were. */
    function With(kind: CellKind, cell: CellTemplate): (o: CellStyleOption)
      ensures o.index == index && o.Get(kind) == Some(cell)
      ensures forall k :: k != kind ==> o.Get(k) == Get(k)
    {
      match kind
      case NumberKind => this.(numberCell := Some(cell))
      case DateKind => this.(dateCell := Some(cell))
      case StringKind => this.(stringCell := Some(cell))
      case SharedStringKind => this.(sharedStringCell := Some(cell))
    }
  }

  function NewOption(index: int): (o: CellStyleOption)
    ensures o.index == index && forall k :: o.Get(k).None?
  {
    CellStyleOption(index, None, None, None, None)
  }

  /** `CreateCell`: StyleIndex is the option's index; the DataType is always set. */
  function CreateCell(valueType: CellValueType, index: int): (c: CellTemplate)
    ensures c.styleIndex == Some(index) && c.dataType == Some(valueType)
  {
    CellTemplate(Some(index), Some(valueType))
  }

  /** The registry's state as a value: the collection's queue of styles and the options list. */
  datatype StyleState = StyleState(styles: seq<Styling.CellStyle>, options: seq<CellStyleOption>)

  /**
   * The state every allocation keeps once it starts in sync: one option per
   * style, option i with index i + correlation, and every cached cell
   * carrying that index.
   */
  ghost predicate InSync(st: StyleState, correlation: int)
  {
    Distinct(st.styles) && |st.options| == |st.styles| &&
    (forall i :: 0 <= i < |st.options| ==> st.options[i].index == i + correlation) &&
    (forall i, k :: 0 <= i < |st.options| && st.options[i].Get(k).Some? ==>
       st.options[i].Get(k).value.styleIndex == Some(i + correlation))
  }

  /** The sample cell of `kind` cached for `style`, if any. */
  function Cached(st: StyleState, kind: CellKind, style: Styling.CellStyle): Option<CellTemplate>
  {
    if style in st.styles && IndexOf(st.styles, style) < |st.options|
    then st.options[IndexOf(st.styles, style)].Get(kind)
    else None
  }

  /**
   * `AllocateCellOption` on the state: the collection's index of the style
   * (its position, or the count when new); the option at that index when
   * the list reaches it, otherwise a new option appended with index
   * `count + correlation`. Yields the option's place in the list.
   */
  function AllocateOptionSpec(st: StyleState, correlation: int, style: Styling.CellStyle): (r: (nat, StyleState))
    ensures r.0 < |r.1.options|
    ensures r.1.styles == if style in st.styles then st.styles else st.styles + [style]
  {
    var index := if style in st.styles then IndexOf(st.styles, style) else |st.styles|;
    var styles := if style in st.styles then st.styles else st.styles + [style];
    if index < |st.options| then (index, StyleState(styles, st.options))
    else (|st.options|, StyleState(styles, st.options + [NewOption(|st.options| + correlation)]))
  }

  /**
   * `AllocateDate/Number/String/SharedStringCell` on the state, the kind
   * choosing the cached slot: the cached cell when there is one, otherwise a
   * new cell stored in the slot.
   */
  function AllocateCellSpec(st: StyleState, correlation: int, kind: CellKind, style: Styling.CellStyle,
                            valueType: CellValueType): (r: (CellTemplate, StyleState))
    ensures r.1.styles == if style in st.styles then st.styles else st.styles + [style]
  {
    var (pos, st1) := AllocateOptionSpec(st, correlation, style);
    var option := st1.options[pos];
    match option.Get(kind)
    case Some(cell) => (cell, st1)
    case None =>
      var cell := CreateCell(valueType, option.index);
      (cell, StyleState(st1.styles, st1.options[pos := option.With(kind, cell)]))
  }

  /**
   * In sync, a style's sample cell carries StyleIndex = correlation + the
   * style's position in first-use order, sync is kept, the cell is cached
   * for (style, kind), and the style list grows only by a new style.
   */
  lemma AllocationIndexIsStylePosition(st: StyleState, correlation: int, kind: CellKind,
                                       style: Styling.CellStyle, valueType: CellValueType)
    requires InSync(st, correlation)
    ensures var (cell, st') := AllocateCellSpec(st, correlation, kind, style, valueType);
      InSync(st', correlation) && style in st'.styles &&
      cell.styleIndex == Some(correlation + IndexOf(st'.styles, style)) &&
      Cached(st', kind, style) == Some(cell)
  {
    var (pos, st1) := AllocateOptionSpec(st, correlation, style);
    var (cell, st') := AllocateCellSpec(st, correlation, kind, style, valueType);
    if style in st.styles {
      assert st1.styles[pos] == style;
    } else {
      assert st1.styles[|st.styles|] == style;
      assert Distinct(st1.styles);
    }
    IndexOfDistinct(st1.styles, pos);
    assert st'.styles == st1.styles;
  }

  /**
   * A later request of the same kind for an equal style returns the cached
   * cell and changes nothing; so a cached cell keeps the DataType of its
   * first request whatever type later calls pass.
   */
  lemma CachedCellIsReturned(st: StyleState, correlation: int, kind: CellKind,
                             style: Styling.CellStyle, valueType: CellValueType)
    requires InSync(st, correlation) && Cached(st, kind, style).Some?
    ensures AllocateCellSpec(st, correlation, kind, style, valueType) == (Cached(st, kind, style).value, st)
  {
  }

  /** The first request of a kind for a style creates a cell of the requested DataType. */
  lemma FirstRequestSetsDataType(st: StyleState, correlation: int, kind: CellKind,
                                 style: Styling.CellStyle, valueType: CellValueType)
    requires InSync(st, correlation) && Cached(st, kind, style).None?
    ensures AllocateCellSpec(st, correlation, kind, style, valueType).0 == CellTemplate(
      Some(correlation + if style in st.styles then IndexOf(st.styles, style) else |st.styles|), Some(valueType))
  {
  }

  /**
   * Two requests for one style share one index whatever their kinds, and
   * the second adds no style; a repeated request of the same kind returns
   * the same cell and changes nothing.
   */
  lemma KindsShareIndexSpace(st: StyleState, correlation: int, kind1: CellKind, kind2: CellKind,
                             style: Styling.CellStyle, valueType1: CellValueType, valueType2: CellValueType)
    requires InSync(st, correlation)
    ensures var (cell1, st1) := AllocateCellSpec(st, correlation, kind1, style, valueType1);
      var (cell2, st2) := AllocateCellSpec(st1, correlation, kind2, style, valueType2);
      cell1.styleIndex == cell2.styleIndex && st2.styles == st1.styles &&
      (kind1 == kind2 ==> cell2 == cell1 && st2 == st1)
  {
    var (cell1, st1) := AllocateCellSpec(st, correlation, kind1, style, valueType1);
    AllocationIndexIsStylePosition(st, correlation, kind1, style, valueType1);
    AllocationIndexIsStylePosition(st1, correlation, kind2, style, valueType2);
  }

  /** A cached cell never changes: later allocations of any kind and style leave it in place. */
  lemma CacheIsStable(st: StyleState, correlation: int, kind: CellKind, style: Styling.CellStyle,
                      valueType: CellValueType, k: CellKind, s: Styling.CellStyle)
    requires InSync(st, correlation) && Cached(st, k, s).Some?
    ensures Cached(AllocateCellSpec(st, correlation, kind, style, valueType).1, k, s) == Cached(st, k, s)
  {
    var (pos, st1) := AllocateOptionSpec(st, correlation, style);
    var st' := AllocateCellSpec(st, correlation, kind, style, valueType).1;
    var i := IndexOf(st.styles, s);
    assert st'.styles[i] == s;
    IndexOfDistinct(st'.styles, i);
    if style in st.styles {
      assert st1.styles[pos] == style;
      IndexOfDistinct(st.styles, pos);
    }
  }

  class SharedCellStyleCollection {
    /** The workbook-wide style collection this registry allocates into. */
    const cellStyleDefinitions: SharedElementCollection<Styling.CellStyle>
    /** The number of default cell formats preceding the allocated ones. */
    const cellFormatIndexCorrelation: int
    var allocatedSampleCells: seq<CellStyleOption>

    ghost predicate Valid()
      reads this, cellStyleDefinitions
    {
      cellStyleDefinitions.Valid() && !cellStyleDefinitions.done
    }

    function State(): StyleState
      reads this, cellStyleDefinitions
    {
      StyleState(cellStyleDefinitions.items, allocatedSampleCells)
    }

    /** The constructor keeps the collection; a fresh, empty one starts the registry in sync. */
    constructor(sharedElementCollection: SharedElementCollection<Styling.CellStyle>, cellFormatIndexCorrelation: int)
      requires sharedElementCollection.Valid() && !sharedElementCollection.done
      ensures Valid() && allocatedSampleCells == []
      ensures this.cellStyleDefinitions == sharedElementCollection
      ensures this.cellFormatIndexCorrelation == cellFormatIndexCorrelation
      ensures sharedElementCollection.items == [] ==> InSync(State(), cellFormatIndexCorrelation)
    {
      cellStyleDefinitions := sharedElementCollection;
      this.cellFormatIndexCorrelation := cellFormatIndexCorrelation;
      allocatedSampleCells := [];
    }

    /** `AllocateCellOption`: the option's place in the list. */
    method AllocateCellOption(style: Styling.CellStyle) returns (pos: nat)
      requires Valid()
      modifies this, cellStyleDefinitions
      ensures Valid()
      ensures (pos, State()) == AllocateOptionSpec(old(State()), cellFormatIndexCorrelation, style)
      ensures cellStyleDefinitions.requests == old(cellStyleDefinitions.requests) + [style]
    {
      var index := cellStyleDefinitions.GetOrAllocateElement(style);
      if style in old(cellStyleDefinitions.items) {
        IndexOfDistinct(cellStyleDefinitions.items, index);
      }
      if index < |allocatedSampleCells| {
        return index;
      }
      var cellStyleOption := NewOption(|allocatedSampleCells| + cellFormatIndexCorrelation);
      pos := |allocatedSampleCells|;
      allocatedSampleCells := allocatedSampleCells + [cellStyleOption];
    }

    /**
     * `AllocateDateCell`, `AllocateNumberCell`, `AllocateStringCell` and
     * `AllocateSharedStringCell`, which differ only in the slot `kind` names.
     */
    method AllocateCell(kind: CellKind, style: Styling.CellStyle, valueType: CellValueType) returns (cell: CellTemplate)
      requires Valid()
      modifies this, cellStyleDefinitions
      ensures Valid()
      ensures (cell, State()) == AllocateCellSpec(old(State()), cellFormatIndexCorrelation, kind, style, valueType)
      ensures cellStyleDefinitions.requests == old(cellStyleDefinitions.requests) + [style]
    {
      var pos := AllocateCellOption(style);
      var option := allocatedSampleCells[pos];
      if option.Get(kind).Some? {
        return option.Get(kind).value;
      }
      cell := CreateCell(valueType, option.index);
      allocatedSampleCells := allocatedSampleCells[pos := option.With(kind, cell)];
    }
  }
}
