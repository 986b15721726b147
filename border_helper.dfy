/**
 * `BorderHelper`: the border flags that outline a rectangular range of
 * cells, and a memo that computes a per-cell value once for each of the
 * ten position classes of such a range.
 */
module BorderHelpers {
  import opened Wrappers
  import opened BoundedInts
  import opened Styling
  import SharedElements

  /** `Option`: the border when the condition holds, otherwise NONE. */
  function Option(border: Border, isOn: bool): (b: Border)
    ensures b == if isOn then border else NONE
  {
    if isOn then border else NONE
  }

  predicate InRange(r: int, c: int, rowSpan: int, columnSpan: int)
  {
    0 <= c < columnSpan && 0 <= r < rowSpan
  }

  /**
   * `BorderForRange`: NONE outside the range; inside it, LEFT exactly in the
   * first column, RIGHT exactly in the last, TOP exactly in the first row
   * and BOTTOM exactly in the last, and nothing else.
   */
  function BorderForRange(r: int32, c: int32, rowSpan: int32, columnSpan: int32): (b: Border)
    ensures !InRange(r, c, rowSpan, columnSpan) ==> b == NONE
    ensures InRange(r, c, rowSpan, columnSpan) ==>
      (b.left <==> c == 0) && (b.right <==> c == columnSpan - 1) &&
      (b.top <==> r == 0) && (b.bottom <==> r == rowSpan - 1)
  {
    if c < 0 || c >= columnSpan || r < 0 || r >= rowSpan then NONE
    else Union(Union(Union(Option(LEFT, c == 0), Option(RIGHT, c == columnSpan - 1)),
                     Option(TOP, r == 0)), Option(BOTTOM, r == rowSpan - 1))
  }

  /** The number of sides a border value draws. */
  function SideCount(b: Border): (n: nat)
    ensures n <= 4 && (n == 0 <==> b == NONE) && (n == 4 <==> b == ALL)
  {
    (if b.left then 1 else 0) + (if b.right then 1 else 0) + (if b.top then 1 else 0) + (if b.bottom then 1 else 0)
  }

  /** A single cell is outlined on all four sides. */
  lemma SingleCellIsAll()
    ensures BorderForRange(0, 0, 1, 1) == ALL
  {
  }

  /** In a range at least two cells high and wide, each corner gets exactly its two outer sides. */
  lemma CornersHaveTwoSides(r: int32, c: int32, rowSpan: int32, columnSpan: int32)
    requires rowSpan >= 2 && columnSpan >= 2
    requires (r == 0 || r == rowSpan - 1) && (c == 0 || c == columnSpan - 1)
    ensures var b := BorderForRange(r, c, rowSpan, columnSpan);
      SideCount(b) == 2 && (b.top <==> r == 0) && (b.left <==> c == 0)
  {
  }

  /**
   * The position class of `AlternateForRange`: 9 outside the range, and
   * inside it 3 × (first, middle or last row) + (first, middle or last
   * column), where "first" wins when the range is one cell high or wide.
   */
  function CaseIndex(r: int, c: int, rowSpan: int, columnSpan: int): (i: nat)
    ensures i < 10 && (i == 9 <==> !InRange(r, c, rowSpan, columnSpan))
    ensures InRange(r, c, rowSpan, columnSpan) ==>
      (i / 3 == 0 <==> r == 0) && (i / 3 == 2 <==> r != 0 && r == rowSpan - 1) &&
      (i % 3 == 0 <==> c == 0) && (i % 3 == 2 <==> c != 0 && c == columnSpan - 1)
  {
    if c < 0 || c >= columnSpan || r < 0 || r >= rowSpan then 9
    else (if r == 0 then 0 else if r < rowSpan - 1 then 3 else 6) + (if c == 0 then 0 else if c < columnSpan - 1 then 1 else 2)
  }

  /** A range function whose value depends on the position only through its class. */
  ghost predicate ClassConstant<T>(f: (int32, int32, int32, int32) -> T, rowSpan: int32, columnSpan: int32)
  {
    forall r1: int32, c1: int32, r2: int32, c2: int32 ::
      CaseIndex(r1, c1, rowSpan, columnSpan) == CaseIndex(r2, c2, rowSpan, columnSpan) ==>
      f(r1, c1, rowSpan, columnSpan) == f(r2, c2, rowSpan, columnSpan)
  }

  /** The border of a position is fixed by its class. */
  function ClassBorder(i: nat, rowSpan: int, columnSpan: int): Border
  {
    if i == 9 then NONE
    else Border(i % 3 == 0, i % 3 == 2 || (i % 3 == 0 && columnSpan == 1),
                i / 3 == 0, i / 3 == 2 || (i / 3 == 0 && rowSpan == 1))
  }

  lemma BorderOfClass(r: int32, c: int32, rowSpan: int32, columnSpan: int32)
    ensures BorderForRange(r, c, rowSpan, columnSpan) == ClassBorder(CaseIndex(r, c, rowSpan, columnSpan), rowSpan, columnSpan)
  {
  }

  /** `BorderForRange` is constant on every class, so memoising it per class loses nothing. */
  lemma BorderForRangeIsClassConstant(rowSpan: int32, columnSpan: int32)
    ensures ClassConstant((r, c, rs, cs) => BorderForRange(r, c, rs, cs), rowSpan, columnSpan)
  {
    forall r1: int32, c1: int32, r2: int32, c2: int32 |
      CaseIndex(r1, c1, rowSpan, columnSpan) == CaseIndex(r2, c2, rowSpan, columnSpan)
      ensures BorderForRange(r1, c1, rowSpan, columnSpan) == BorderForRange(r2, c2, rowSpan, columnSpan)
    {
      BorderOfClass(r1, c1, rowSpan, columnSpan);
      BorderOfClass(r2, c2, rowSpan, columnSpan);
    }
  }

  /**
   * The closure `AlternateForRange` returns: the captured spans and range
   * function, and the captured ten-entry array of computed values, filled
   * on first use of each class.
   */
  class TenCaseMemo<T> {
    const rowSpan: int32
    const columnSpan: int32
    const rangeFunction: (int32, int32, int32, int32) -> T
    const tenCases: array<Option<T>>
    /** The class of every call to the range function, in call order. */
    ghost var evaluations: seq<nat>
    /** For each computed class, the position its value was computed at. */
    ghost var computedAt: map<nat, (int32, int32)>

    /**
     * The range function has run at most once per class, exactly for the
     * filled entries, and each filled entry holds its value at a position
     * of that class.
     */
    ghost predicate Valid()
      reads this, tenCases
    {
      tenCases.Length == 10 && SharedElements.Distinct(evaluations) &&
      (forall i :: 0 <= i < 10 ==> (tenCases[i].Some? <==> i in computedAt)) &&
      (forall i :: i in evaluations <==> i in computedAt) &&
      forall i :: i in computedAt ==>
        0 <= i < 10 && CaseIndex(computedAt[i].0, computedAt[i].1, rowSpan, columnSpan) == i &&
        tenCases[i] == Some(rangeFunction(computedAt[i].0, computedAt[i].1, rowSpan, columnSpan))
    }

    /** `AlternateForRange`: captures the spans and the function, with no class computed yet. */
    constructor(rowSpan: int32, columnSpan: int32, rangeFunction: (int32, int32, int32, int32) -> T)
      ensures Valid() && fresh(tenCases)
      ensures this.rowSpan == rowSpan && this.columnSpan == columnSpan && this.rangeFunction == rangeFunction
      ensures evaluations == [] && forall i :: 0 <= i < 10 ==> tenCases[i].None?
    {
      this.rowSpan := rowSpan;
      this.columnSpan := columnSpan;
      this.rangeFunction := rangeFunction;
      tenCases := new Option<T>[10](_ => None);
      evaluations := [];
      computedAt := map[];
    }

    /**
     * A call of the closure: the cached value of the position's class, or
     * the range function's value at the position, stored for the class.
     * For a class-constant function the result is always the function's
     * value at the position.
     */
    method Apply(r: int32, c: int32) returns (v: T)
      requires Valid()
      modifies this, tenCases
      ensures Valid()
      ensures var i := CaseIndex(r, c, rowSpan, columnSpan);
        if old(tenCases[i]).Some? then
          v == old(tenCases[i]).value && evaluations == old(evaluations) && tenCases[..] == old(tenCases[..])
        else
          v == rangeFunction(r, c, rowSpan, columnSpan) && evaluations == old(evaluations) + [i] &&
          tenCases[..] == old(tenCases[..])[i := Some(v)]
      ensures ClassConstant(rangeFunction, rowSpan, columnSpan) ==> v == rangeFunction(r, c, rowSpan, columnSpan)
    {
      var i := CaseIndex(r, c, rowSpan, columnSpan);
      if tenCases[i].Some? {
        v := tenCases[i].value;
        return;
      }
      v := rangeFunction(r, c, rowSpan, columnSpan);
      tenCases[i] := Some(v);
      evaluations := evaluations + [i];
      computedAt := computedAt[i := (r, c)];
    }
  }

  /**
   * The demo's use: the memo over `BorderForRange` answers like the direct
   * call, and a second position of a class computes nothing new.
   */
  method MemoisedBorderScenario()
  {
    var memo := new TenCaseMemo(3, 4, (r, c, rs, cs) => BorderForRange(r, c, rs, cs));
    var middle := memo.Apply(1, 1);
    assert CaseIndex(1, 1, 3, 4) == 4;
    assert middle == BorderForRange(1, 1, 3, 4) && memo.evaluations == [4];
    var nextMiddle := memo.Apply(1, 2);
    assert CaseIndex(1, 2, 3, 4) == 4;
    assert nextMiddle == middle && memo.evaluations == [4];
  }
}
