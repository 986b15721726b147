/**
 * What the OpenXML part writer receives, as a trace of events: a start tag,
 * an end tag, a text node, or a whole element written in one call. A
 * `WriterScope` is a start tag now and an end tag at its disposal.
 */
module XmlTrace {
  import opened Wrappers
  import StyleRegistry

  /** The elements the visitor opens with a start tag and closes later. */
  datatype Tag =
    | WorksheetTag
    | SheetDataTag
    | RowTag(outlineLevel: Option<int>)
    | CellTag(template: StyleRegistry.CellTemplate)
    | CellValueTag
    | InlineStringTag
    | TextTag

  /** One `Column` of a `Columns` element: 1-based bounds and a custom width. */
  datatype Column = Column(min: nat, max: nat, width: real, customWidth: bool)

  /** The elements the visitor writes whole. */
  datatype Element =
    | SheetProperties(summaryBelow: bool, summaryRight: bool)
    | Columns(columns: seq<Column>)

  datatype Event = Start(tag: Tag) | End | Text(text: string) | Whole(element: Element)

  /** The change of nesting depth an event makes. */
  function Weight(e: Event): int
  {
    match e
    case Start(_) => 1
    case End => -1
    case _ => 0
  }

  /** The nesting depth after a trace, counted from zero. */
  function Depth(s: seq<Event>): int
  {
    if s == [] then 0 else Depth(s[..|s| - 1]) + Weight(s[|s| - 1])
  }

  /** Every end tag closes an open element, and every start tag is closed. */
  ghost predicate Balanced(s: seq<Event>)
  {
    Depth(s) == 0 && forall k :: 0 <= k <= |s| ==> Depth(s[..k]) >= 0
  }

  lemma {:induction false} DepthAppend(a: seq<Event>, b: seq<Event>)
    ensures Depth(a + b) == Depth(a) + Depth(b)
  {
    if b != [] {
      assert (a + b)[..|a + b| - 1] == a + b[..|b| - 1];
      DepthAppend(a, b[..|b| - 1]);
    } else {
      assert a + b == a;
    }
  }

  /** Two balanced traces in a row are balanced. */
  lemma BalancedConcat(a: seq<Event>, b: seq<Event>)
    requires Balanced(a) && Balanced(b)
    ensures Balanced(a + b)
  {
    DepthAppend(a, b);
    forall k | 0 <= k <= |a + b| ensures Depth((a + b)[..k]) >= 0 {
      if k <= |a| {
        assert (a + b)[..k] == a[..k];
      } else {
        assert (a + b)[..k] == a + b[..k - |a|];
        DepthAppend(a, b[..k - |a|]);
      }
    }
  }

  /** A balanced trace between a start tag and an end tag is balanced. */
  lemma BalancedWrap(t: Tag, body: seq<Event>)
    requires Balanced(body)
    ensures Balanced([Start(t)] + body + [End])
  {
    var s := [Start(t)] + body + [End];
    DepthAppend([Start(t)], body);
    DepthAppend([Start(t)] + body, [End]);
    assert Depth([Start(t)]) == 1 by {
      assert [Start(t)][..0] == [];
    }
    forall k | 0 <= k <= |s| ensures Depth(s[..k]) >= 0 {
      if k == 0 {
      } else if k <= |body| + 1 {
        assert s[..k] == [Start(t)] + body[..k - 1];
        DepthAppend([Start(t)], body[..k - 1]);
      } else {
        assert s[..k] == s;
      }
    }
  }

  /** A trace without start or end tags is balanced. */
  lemma {:induction false} FlatIsBalanced(s: seq<Event>)
    requires forall k :: 0 <= k < |s| ==> Weight(s[k]) == 0
    ensures Balanced(s)
    ensures forall k :: 0 <= k <= |s| ==> Depth(s[..k]) == 0
  {
    if s != [] {
      var init := s[..|s| - 1];
      FlatIsBalanced(init);
      forall k | 0 <= k <= |s| ensures Depth(s[..k]) == 0 {
        if k < |s| {
          assert s[..k] == init[..k];
        } else {
          assert s[..k] == s;
        }
      }
    }
  }
}
