/**
 * `SimpleFlowLayout`: a view group that places its children left to right
 * and wraps to a new row of fixed height `itemHeight` when a child does not
 * fit in what is left of the row. Child sizes are the ones the host has
 * already measured; `onMeasure` counts the row breaks to get the height,
 * `onLayout` assigns each child its rectangle, and both take the same
 * break decisions through `checkChangeLine`.
 */
module FlowLayout {
  import opened Wrappers
  import opened KotlinInt

  datatype Padding = Padding(left: int, top: int, right: int, bottom: int)

  /** A child's `measuredWidth` and `measuredHeight`. */
  datatype ChildSize = ChildSize(width: nat, height: nat)

  /** The arguments of `child.layout(left, top, right, bottom)`. */
  datatype ChildFrame = ChildFrame(left: int, top: int, right: int, bottom: int)

  /** The styled attributes the constructor reads. */
  datatype FlowAttributes = FlowAttributes(horizontalMargin: int, verticalMargin: int, itemHeight: int)

  datatype FlowError = IllegalArgument(message: string)

  /** The message of the constructor's exception; it names the item height. */
  const ItemHeightMessage: string := "mItemHeight can not be 0"

  /**
   * The constructor's check: it rejects a vertical margin that is not
   * positive, whatever the item height is.
   */
  function ValidateAttributes(horizontalMargin: int, verticalMargin: int, itemHeight: int)
    : (r: Result<FlowAttributes, FlowError>)
    ensures r.Failure? <==> verticalMargin <= 0
    ensures r.Failure? ==> r.error == IllegalArgument(ItemHeightMessage)
    ensures r.Success? ==> r.value == FlowAttributes(horizontalMargin, verticalMargin, itemHeight)
  {
    if verticalMargin <= 0 then Failure(IllegalArgument(ItemHeightMessage))
    else Success(FlowAttributes(horizontalMargin, verticalMargin, itemHeight))
  }

  /** `checkChangeLine`: the child does not fit in what is left of the row. */
  predicate ChangeLine(parentWidth: int, usedWidth: int, childWidth: int)
    ensures ChangeLine(parentWidth, usedWidth, childWidth) <==> usedWidth + childWidth > parentWidth
  {
    parentWidth - usedWidth < childWidth
  }

  /** What the line rule depends on: the attributes and the padding. */
  datatype Geometry = Geometry(attrs: FlowAttributes, padding: Padding)

  function PaddingWidth(g: Geometry): int {
    g.padding.left + g.padding.right
  }

  /** Height of one row plus the gap below it. */
  function RowStep(g: Geometry): int {
    g.attrs.itemHeight + g.attrs.verticalMargin
  }

  /**
   * Width of the current row, padding included, once the first k children
   * are placed in a parent of width `parentWidth`.
   */
  function UsedWidth(g: Geometry, parentWidth: int, children: seq<ChildSize>, k: nat): int
    requires k <= |children|
  {
    if k == 0 then PaddingWidth(g)
    else
      var used := UsedWidth(g, parentWidth, children, k - 1);
      var w := children[k - 1].width;
      if ChangeLine(parentWidth, used, w) then PaddingWidth(g) + w + g.attrs.horizontalMargin
      else used + w + g.attrs.horizontalMargin
  }

  /** Child i starts a new row. */
  predicate BreaksBefore(g: Geometry, parentWidth: int, children: seq<ChildSize>, i: nat)
    requires i < |children|
  {
    ChangeLine(parentWidth, UsedWidth(g, parentWidth, children, i), children[i].width)
  }

  /** Number of row breaks among the first k children. */
  function LineBreaks(g: Geometry, parentWidth: int, children: seq<ChildSize>, k: nat): nat
    requires k <= |children|
  {
    if k == 0 then 0
    else LineBreaks(g, parentWidth, children, k - 1)
         + (if BreaksBefore(g, parentWidth, children, k - 1) then 1 else 0)
  }

  /**
   * How far below the top padding the current row starts once the first k
   * children are placed: one row step for every wrap.
   */
  function RowOffset(g: Geometry, parentWidth: int, children: seq<ChildSize>, k: nat): int
    requires k <= |children|
  {
    if k == 0 then 0
    else RowOffset(g, parentWidth, children, k - 1)
         + (if BreaksBefore(g, parentWidth, children, k - 1) then RowStep(g) else 0)
  }

  /** Top of the row that holds child i. */
  function RowTop(g: Geometry, parentWidth: int, children: seq<ChildSize>, i: nat): int
    requires i < |children|
  {
    g.padding.top + RowOffset(g, parentWidth, children, i + 1)
  }

  /** The height `onMeasure` reports: one row and the padding, below the last row's offset. */
  function MeasuredHeightFor(g: Geometry, parentWidth: int, children: seq<ChildSize>): int {
    g.attrs.itemHeight + g.padding.top + g.padding.bottom + RowOffset(g, parentWidth, children, |children|)
  }

  class SimpleFlowLayout {
    const horizontalMargin: int
    const verticalMargin: int
    const itemHeight: int
    var padding: Padding
    var measuredWidth: int
    var measuredHeight: int

    function CurrentGeometry(): Geometry
      reads this`padding
    {
      Geometry(FlowAttributes(horizontalMargin, verticalMargin, itemHeight), padding)
    }

    /** The part of the constructor after the attributes were checked. */
    constructor (attrs: FlowAttributes, padding: Padding)
      requires attrs.verticalMargin > 0
      ensures horizontalMargin == attrs.horizontalMargin && verticalMargin == attrs.verticalMargin
      ensures itemHeight == attrs.itemHeight && this.padding == padding
      ensures measuredWidth == 0 && measuredHeight == 0
    {
      horizontalMargin := attrs.horizontalMargin;
      verticalMargin := attrs.verticalMargin;
      itemHeight := attrs.itemHeight;
      this.padding := padding;
      measuredWidth, measuredHeight := 0, 0;
    }

    /**
     * `onMeasure`: the width is the one the parent offers; the height is one
     * row plus padding plus one row step for every child that wraps.
     */
    method OnMeasure(parentSpecWidth: int, children: seq<ChildSize>)
      modifies this`measuredWidth, this`measuredHeight
      ensures measuredWidth == parentSpecWidth
      ensures measuredHeight == MeasuredHeightFor(CurrentGeometry(), parentSpecWidth, children)
    {
      ghost var g := CurrentGeometry();
      var paddingWidth := padding.left + padding.right;
      var paddingHeight := padding.top + padding.bottom;
      var totalHeight := itemHeight + paddingHeight;
      var usedWidth := paddingWidth;
      for i := 0 to |children|
        invariant usedWidth == UsedWidth(g, parentSpecWidth, children, i)
        invariant totalHeight == itemHeight + paddingHeight + RowOffset(g, parentSpecWidth, children, i)
      {
        var w := children[i].width;
        if ChangeLine(parentSpecWidth, usedWidth, w) {
          usedWidth := paddingWidth + w + horizontalMargin;
          totalHeight := totalHeight + (itemHeight + verticalMargin);
        } else {
          usedWidth := usedWidth + (w + horizontalMargin);
        }
      }
      measuredWidth, measuredHeight := parentSpecWidth, totalHeight;
    }

    /**
     * `onLayout`: every child is placed as `PlacedAt` describes, at the
     * width this layout measured.
     */
    method OnLayout(children: seq<ChildSize>) returns (frames: seq<ChildFrame>)
      ensures |frames| == |children|
      ensures forall i :: 0 <= i < |children| ==> PlacedAt(CurrentGeometry(), measuredWidth, children, frames, i)
    {
      var g := CurrentGeometry();
      var paddingWidth := padding.left + padding.right;
      var left := padding.left;
      var top := padding.top;
      var usedWidth := paddingWidth;
      frames := [];
      for i := 0 to |children|
        invariant |frames| == i
        invariant usedWidth == UsedWidth(g, measuredWidth, children, i)
        invariant left == usedWidth - padding.right
        invariant top == padding.top + RowOffset(g, measuredWidth, children, i)
        invariant i > 0 ==> left == frames[i - 1].right + horizontalMargin
        invariant forall j :: 0 <= j < i ==> PlacedAt(g, measuredWidth, children, frames, j)
      {
        var w := children[i].width;
        var h := children[i].height;
        if ChangeLine(measuredWidth, usedWidth, w) {
          left := padding.left;
          top := top + (itemHeight + verticalMargin);
          usedWidth := paddingWidth;
        }
        assert top == RowTop(g, measuredWidth, children, i);
        var childVerticalCenter := Div(itemHeight, 2) - h / 2;
        ghost var previous := frames;
        frames := frames + [ChildFrame(left, top + childVerticalCenter, left + w, top + childVerticalCenter + h)];
        assert PlacedAt(g, measuredWidth, children, frames, i);
        forall j | 0 <= j < i
          ensures PlacedAt(g, measuredWidth, children, frames, j)
        {
          assert PlacedAt(g, measuredWidth, children, previous, j);
          assert frames[j] == previous[j];
          assert j > 0 ==> frames[j - 1] == previous[j - 1];
        }
        left := left + (w + horizontalMargin);
        usedWidth := usedWidth + (w + horizontalMargin);
      }
    }
  }

  /**
   * Where `onLayout` puts child i at parent width `parentWidth`: at its
   * measured size; vertically centred in its row (`itemHeight / 2 -
   * height / 2`, Kotlin division); at the left padding when it is the first
   * child or wraps, otherwise one horizontal margin after the previous
   * child; and, when it did not wrap, ending inside the right padding.
   */
  ghost predicate PlacedAt(g: Geometry, parentWidth: int, children: seq<ChildSize>, frames: seq<ChildFrame>, i: nat)
    requires i < |children| && i < |frames|
  {
    var f := frames[i];
    var wraps := BreaksBefore(g, parentWidth, children, i);
    && f.right == f.left + children[i].width
    && f.bottom == f.top + children[i].height
    && f.top == RowTop(g, parentWidth, children, i) + Div(g.attrs.itemHeight, 2) - children[i].height / 2
    && (i == 0 || wraps ==> f.left == g.padding.left)
    && (i > 0 && !wraps ==> f.left == frames[i - 1].right + g.attrs.horizontalMargin)
    && (!wraps ==> f.right <= parentWidth - g.padding.right)
  }

  /**
   * The constructor: `IllegalArgumentException` exactly when the vertical
   * margin is not positive; otherwise a layout holding the attributes.
   */
  method NewSimpleFlowLayout(horizontalMargin: int, verticalMargin: int, itemHeight: int, padding: Padding)
    returns (r: Result<SimpleFlowLayout, FlowError>)
    ensures r.Failure? <==> verticalMargin <= 0
    ensures r.Failure? ==> r.error == IllegalArgument(ItemHeightMessage)
    ensures r.Success? ==> fresh(r.value)
    ensures r.Success? ==>
              r.value.CurrentGeometry() == Geometry(FlowAttributes(horizontalMargin, verticalMargin, itemHeight), padding)
  {
    var checked := ValidateAttributes(horizontalMargin, verticalMargin, itemHeight);
    match checked
    case Failure(e) =>
      r := Failure(e);
    case Success(attrs) =>
      var layout := new SimpleFlowLayout(attrs, padding);
      r := Success(layout);
  }

  // ---------------------------------------------------------------------------
  // Properties of the line rule
  // ---------------------------------------------------------------------------

  /** There is no special case for an empty row: a child wider than the room wraps even first. */
  lemma FirstTooWideChildWraps(g: Geometry, parentWidth: int, children: seq<ChildSize>)
    requires |children| > 0 && children[0].width > parentWidth - PaddingWidth(g)
    ensures BreaksBefore(g, parentWidth, children, 0)
    ensures LineBreaks(g, parentWidth, children, 1) == 1
    ensures MeasuredHeightFor(g, parentWidth, children[..1])
            == g.attrs.itemHeight + g.padding.top + g.padding.bottom + RowStep(g)
  {
    var first := children[..1];
    assert first[0] == children[0];
    assert BreaksBefore(g, parentWidth, first, 0);
    assert RowOffset(g, parentWidth, first, |first|) == RowStep(g);
  }

  /** Every child can wrap at most once, so there are at most k breaks among k children. */
  lemma {:induction false} LineBreaksAtMost(g: Geometry, parentWidth: int, children: seq<ChildSize>, k: nat)
    requires k <= |children|
    ensures LineBreaks(g, parentWidth, children, k) <= k
  {
    if k > 0 {
      LineBreaksAtMost(g, parentWidth, children, k - 1);
    }
  }

  /** Breaks only accumulate: a prefix never has more of them than a longer prefix. */
  lemma {:induction false} LineBreaksMonotone(g: Geometry, parentWidth: int, children: seq<ChildSize>, j: nat, k: nat)
    requires j <= k <= |children|
    ensures LineBreaks(g, parentWidth, children, j) <= LineBreaks(g, parentWidth, children, k)
  {
    if j < k {
      LineBreaksMonotone(g, parentWidth, children, j, k - 1);
    }
  }

  /** The row offset is the number of wraps times the row step. */
  lemma {:induction false} RowOffsetCountsBreaks(g: Geometry, parentWidth: int, children: seq<ChildSize>, k: nat)
    requires k <= |children|
    ensures RowOffset(g, parentWidth, children, k) == LineBreaks(g, parentWidth, children, k) * RowStep(g)
  {
    if k > 0 {
      RowOffsetCountsBreaks(g, parentWidth, children, k - 1);
      var b := LineBreaks(g, parentWidth, children, k - 1);
      assert (b + 1) * RowStep(g) == b * RowStep(g) + RowStep(g);
    }
  }

  /**
   * The measured height is one row, the padding, and one row step per wrap,
   * at most one per child.
   */
  lemma MeasuredHeightCountsBreaks(g: Geometry, parentWidth: int, children: seq<ChildSize>)
    ensures MeasuredHeightFor(g, parentWidth, children)
            == g.attrs.itemHeight + g.padding.top + g.padding.bottom
               + LineBreaks(g, parentWidth, children, |children|) * RowStep(g)
    ensures LineBreaks(g, parentWidth, children, |children|) <= |children|
  {
    RowOffsetCountsBreaks(g, parentWidth, children, |children|);
    LineBreaksAtMost(g, parentWidth, children, |children|);
  }

  lemma MulMonotone(a: int, b: int, x: int)
    requires a <= b && x >= 0
    ensures a * x <= b * x
  {
    assert b * x - a * x == (b - a) * x;
  }

  /**
   * `onMeasure` and `onLayout` agree: when the layout is laid out at the
   * width it measured, every row `onLayout` uses lies within the measured
   * height, and the last child's row ends exactly at the bottom padding.
   */
  lemma RowsFitMeasuredHeight(g: Geometry, parentWidth: int, children: seq<ChildSize>, i: nat)
    requires i < |children|
    requires RowStep(g) >= 0
    ensures RowTop(g, parentWidth, children, i) + g.attrs.itemHeight + g.padding.bottom
            <= MeasuredHeightFor(g, parentWidth, children)
    ensures i == |children| - 1 ==>
              RowTop(g, parentWidth, children, i) + g.attrs.itemHeight + g.padding.bottom
              == MeasuredHeightFor(g, parentWidth, children)
  {
    LineBreaksMonotone(g, parentWidth, children, i + 1, |children|);
    MulMonotone(LineBreaks(g, parentWidth, children, i + 1),
                LineBreaks(g, parentWidth, children, |children|), RowStep(g));
    RowOffsetCountsBreaks(g, parentWidth, children, i + 1);
    RowOffsetCountsBreaks(g, parentWidth, children, |children|);
  }
}
