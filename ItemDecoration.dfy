/**
 * The offset rules of `LinearItemDecoration` and `GridItemDecoration`:
 * how many pixels of spacing `getItemOffsets` writes into the caller's
 * `outRect` around each list item. The rules are pure functions of the
 * layout manager, the border width, the adapter position and the item
 * count; the rectangle they write is returned as a value.
 */
module ItemDecoration {
  import opened Wrappers
  import opened KotlinInt

  datatype Orientation = Horizontal | Vertical

  /**
   * What `getItemOffsets` finds in `parent.layoutManager`. A
   * `GridLayoutManager` is also a `LinearLayoutManager`, so the linear
   * decoration treats it as one.
   */
  datatype LayoutManager =
    | Linear(orientation: Orientation)
    | Grid(orientation: Orientation, spanCount: int)
    | Other

  /** `android.graphics.Rect` as `outRect.set(left, top, right, bottom)` fills it. */
  datatype Rect = Rect(left: int, top: int, right: int, bottom: int)

  /** `outRect.setEmpty()`, and also what `ItemDecoration.getItemOffsets` leaves. */
  const EmptyRect := Rect(0, 0, 0, 0)

  /** The same rectangle with the two axes exchanged. */
  function Transposed(r: Rect): Rect {
    Rect(r.top, r.left, r.bottom, r.right)
  }

  // ---------------------------------------------------------------------------
  // LinearItemDecoration
  // ---------------------------------------------------------------------------

  /** Spacing before and after an item along the scrolling axis. */
  datatype Edges = Edges(leading: int, trailing: int)

  /**
   * The `when` of `setHorizontalOutRect` and `setVerticalOutRect`: the first
   * position gets the whole border in front, the last one the whole border
   * behind, every side facing a neighbour gets half of it (`/` truncates).
   */
  function MainAxisEdges(borderWidth: int, position: int, itemCount: int): (e: Edges)
    ensures borderWidth >= 0 ==> 0 <= e.leading <= borderWidth && 0 <= e.trailing <= borderWidth
    ensures e.leading == borderWidth || e.leading == Div(borderWidth, 2)
    ensures e.trailing == borderWidth || e.trailing == Div(borderWidth, 2)
  {
    var half := Div(borderWidth, 2);
    if position == 0 then Edges(borderWidth, half)
    else if position < itemCount - 1 then Edges(half, half)
    else Edges(half, borderWidth)
  }

  /** The orientation of the manager when it is a `LinearLayoutManager` (`as?`). */
  function LinearOrientation(lm: LayoutManager): Option<Orientation> {
    match lm
    case Linear(o) => Some(o)
    case Grid(o, _) => Some(o)
    case Other => None
  }

  /** `LinearItemDecoration.getItemOffsets`. */
  function LinearItemOffsets(lm: LayoutManager, borderWidth: int, isSurroundItem: bool,
                             position: int, itemCount: int): (r: Rect)
    ensures LinearOrientation(lm).None? ==> r == EmptyRect
    ensures LinearOrientation(lm) == Some(Horizontal) ==>
              r.top == r.bottom == (if isSurroundItem then borderWidth else 0)
    ensures LinearOrientation(lm) == Some(Vertical) ==>
              r.left == r.right == (if isSurroundItem then borderWidth else 0)
    ensures LinearOrientation(lm) == Some(Horizontal) ==>
              var e := MainAxisEdges(borderWidth, position, itemCount);
              r.left == e.leading && r.right == e.trailing
    ensures LinearOrientation(lm) == Some(Vertical) ==>
              var e := MainAxisEdges(borderWidth, position, itemCount);
              r.top == e.leading && r.bottom == e.trailing
  {
    var e := MainAxisEdges(borderWidth, position, itemCount);
    var s := if isSurroundItem then borderWidth else 0;
    match LinearOrientation(lm)
    case Some(Horizontal) => Rect(e.leading, s, e.trailing, s)
    case Some(Vertical) => Rect(s, e.leading, s, e.trailing)
    case None => EmptyRect
  }

  /** The three cases of the main-axis rule, position 0 winning even when it is also the last. */
  lemma LinearEdgesByPosition(borderWidth: int, position: int, itemCount: int)
    ensures var e := MainAxisEdges(borderWidth, position, itemCount);
            var half := Div(borderWidth, 2);
            && (position == 0 ==> e == Edges(borderWidth, half))
            && (position != 0 && position < itemCount - 1 ==> e == Edges(half, half))
            && (position != 0 && position >= itemCount - 1 ==> e == Edges(half, borderWidth))
  {
  }

  /** A list holding a single item gets only half a border behind it. */
  lemma SingleItemTrailingIsHalf(borderWidth: int)
    ensures MainAxisEdges(borderWidth, 0, 1) == Edges(borderWidth, Div(borderWidth, 2))
    ensures borderWidth != 0 ==> MainAxisEdges(borderWidth, 0, 1).trailing != borderWidth
  {
  }

  /** Two neighbours are always separated by twice the truncated half border. */
  lemma AdjacentGapIsUniform(borderWidth: int, i: int, itemCount: int)
    requires 0 <= i && i + 1 < itemCount
    ensures MainAxisEdges(borderWidth, i, itemCount).trailing
            + MainAxisEdges(borderWidth, i + 1, itemCount).leading == 2 * Div(borderWidth, 2)
  {
  }

  /** With at least two items, the edges of position p mirror those of position n-1-p. */
  lemma EdgesAreMirrored(borderWidth: int, position: int, itemCount: int)
    requires itemCount >= 2 && 0 <= position < itemCount
    ensures var e := MainAxisEdges(borderWidth, position, itemCount);
            var m := MainAxisEdges(borderWidth, itemCount - 1 - position, itemCount);
            e.leading == m.trailing && e.trailing == m.leading
  {
  }

  /** Sum of leading and trailing spacing over positions 0 .. k-1. */
  function MainAxisTotal(borderWidth: int, itemCount: int, k: nat): int {
    if k == 0 then 0
    else
      var e := MainAxisEdges(borderWidth, k - 1, itemCount);
      MainAxisTotal(borderWidth, itemCount, k - 1) + e.leading + e.trailing
  }

  /**
   * The whole list of n >= 2 items is padded by one border at each end and
   * by twice the truncated half border between each pair of neighbours.
   */
  lemma {:induction false} MainAxisTotalOfList(borderWidth: int, itemCount: int)
    requires itemCount >= 2
    ensures MainAxisTotal(borderWidth, itemCount, itemCount)
            == 2 * borderWidth + (itemCount - 1) * (2 * Div(borderWidth, 2))
  {
    var half := Div(borderWidth, 2);
    PrefixTotal(borderWidth, itemCount, itemCount - 1);
    assert MainAxisEdges(borderWidth, itemCount - 1, itemCount) == Edges(half, borderWidth);
  }

  lemma {:induction false} PrefixTotal(borderWidth: int, itemCount: int, k: nat)
    requires 1 <= k < itemCount
    ensures MainAxisTotal(borderWidth, itemCount, k)
            == borderWidth + Div(borderWidth, 2) + (k - 1) * (2 * Div(borderWidth, 2))
  {
    if k > 1 {
      PrefixTotal(borderWidth, itemCount, k - 1);
    }
  }

  /** The vertical rectangle is the horizontal one with the axes exchanged. */
  lemma VerticalIsTransposedHorizontal(borderWidth: int, isSurroundItem: bool, position: int, itemCount: int)
    ensures LinearItemOffsets(Linear(Vertical), borderWidth, isSurroundItem, position, itemCount)
            == Transposed(LinearItemOffsets(Linear(Horizontal), borderWidth, isSurroundItem, position, itemCount))
  {
  }

  /** A grid manager is decorated exactly like a linear manager of its orientation. */
  lemma GridManagerDecoratedAsLinear(o: Orientation, spanCount: int, borderWidth: int,
                                     isSurroundItem: bool, position: int, itemCount: int)
    ensures LinearItemOffsets(Grid(o, spanCount), borderWidth, isSurroundItem, position, itemCount)
            == LinearItemOffsets(Linear(o), borderWidth, isSurroundItem, position, itemCount)
  {
  }

  // ---------------------------------------------------------------------------
  // GridItemDecoration
  // ---------------------------------------------------------------------------

  /** The `Gravity` that `checkPosition` assigns to a column. */
  datatype ColumnGravity = Start | Center | End

  /** `checkPosition`: classify by `(position + 1) % spanCount`. */
  function CheckPosition(spanCount: int, position: int): (g: ColumnGravity)
    requires spanCount > 0
    ensures spanCount == 1 ==> g == End
    ensures g == Start ==> spanCount >= 2
  {
    var k := Rem(position + 1, spanCount);
    if k == 1 then Start else if k == 0 then End else Center
  }

  /**
   * For a real adapter position and at least two columns, START is the first
   * column, END the last, CENTER everything between.
   */
  lemma CheckPositionIsColumn(spanCount: int, position: int)
    requires spanCount >= 2 && position >= 0
    ensures CheckPosition(spanCount, position) == Start <==> position % spanCount == 0
    ensures CheckPosition(spanCount, position) == End <==> position % spanCount == spanCount - 1
    ensures CheckPosition(spanCount, position) == Center <==>
              0 < position % spanCount < spanCount - 1
  {
    NonNegativeAgrees(position + 1, spanCount);
    var q, c := position / spanCount, position % spanCount;
    if c < spanCount - 1 {
      DivModUnique(position + 1, spanCount, q, c + 1);
    } else {
      DivModUnique(position + 1, spanCount, q + 1, 0);
    }
  }

  /** With a single column every position is END, the `1` branch never being reached. */
  lemma SingleColumnIsEnd(position: int)
    ensures CheckPosition(1, position) == End
  {
  }

  /** `compensate[(adapterPosition) % spanCount]` fails for a negative index. */
  datatype GridError = IndexOutOfBounds(index: int)

  /**
   * The 3- and 4-column branches of `GridItemDecoration.setVerticalOutRect`.
   * Kotlin's `%` makes the list index negative for some negative positions,
   * which throws before anything is written.
   */
  function GridVerticalOffsets(spanCount: int, borderWidth: int, position: int): (r: Result<Rect, GridError>)
    requires spanCount == 3 || spanCount == 4
    ensures r.Failure? <==> Rem(position, spanCount) < 0
    ensures r.Success? ==> r.value.top == borderWidth
    ensures r.Success? ==> r.value.bottom == (spanCount - 2) * borderWidth
    ensures r.Success? ==> r.value.left + r.value.right == (spanCount - 1) * borderWidth
  {
    var column := Rem(position, spanCount);
    if column < 0 then Failure(IndexOutOfBounds(column))
    else
      var top := borderWidth;
      var bottom := if spanCount == 3 then borderWidth else 2 * borderWidth;
      var sides: (int, int) :=
        match CheckPosition(spanCount, position)
        case Start => if spanCount == 3 then (0, 2 * borderWidth) else (0, 3 * borderWidth)
        case End => if spanCount == 3 then (2 * borderWidth, 0) else (3 * borderWidth, 0)
        case Center =>
          if spanCount == 3 then (borderWidth, borderWidth)
          else (column * borderWidth, 3 * borderWidth - column * borderWidth);
      Success(Rect(sides.0, top, sides.1, bottom))
  }

  /**
   * For every real position the column's left offset is its index times the
   * border and the right offset takes what remains of `(spanCount - 1)` borders.
   */
  lemma GridColumnOffsets(spanCount: int, borderWidth: int, position: int)
    requires spanCount == 3 || spanCount == 4
    requires position >= 0
    ensures var r := GridVerticalOffsets(spanCount, borderWidth, position);
            && r.Success?
            && r.value.left == (position % spanCount) * borderWidth
            && r.value.right == (spanCount - 1) * borderWidth - r.value.left
  {
    NonNegativeAgrees(position, spanCount);
    CheckPositionIsColumn(spanCount, position);
  }

  /** Neighbouring columns of one row are separated by `spanCount` borders. */
  lemma GridGapIsUniform(spanCount: int, borderWidth: int, position: int)
    requires spanCount == 3 || spanCount == 4
    requires position >= 0 && position % spanCount != spanCount - 1
    ensures GridVerticalOffsets(spanCount, borderWidth, position).value.right
            + GridVerticalOffsets(spanCount, borderWidth, position + 1).value.left
            == spanCount * borderWidth
  {
    GridColumnOffsets(spanCount, borderWidth, position);
    GridColumnOffsets(spanCount, borderWidth, position + 1);
    DivModUnique(position + 1, spanCount, position / spanCount, position % spanCount + 1);
  }

  /**
   * `GridItemDecoration.getItemOffsets`: only a vertical grid is decorated;
   * otherwise the rectangle stays as `super.getItemOffsets` set it.
   */
  function GridItemOffsets(lm: LayoutManager, borderWidth: int, position: int): (r: Result<Rect, GridError>)
    requires lm.Grid? && lm.orientation == Vertical ==> lm.spanCount == 3 || lm.spanCount == 4
    ensures !(lm.Grid? && lm.orientation == Vertical) ==> r == Success(EmptyRect)
    ensures lm.Grid? && lm.orientation == Vertical ==> r == GridVerticalOffsets(lm.spanCount, borderWidth, position)
    ensures lm.Grid? && lm.orientation == Vertical && position >= 0 ==> r.Success?
  {
    if lm.Grid? && lm.orientation == Vertical then
      GridVerticalOffsets(lm.spanCount, borderWidth, position)
    else
      Success(EmptyRect)
  }
}
