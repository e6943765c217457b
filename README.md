# simple: RecyclerView and flow-layout helpers, modelled in Dafny

This project models the integer and state logic of four Android helpers
from the `simple` repository and proves properties of it:

- `SimpleItemSelectedAdapter` tracks selected list positions. It fires
  `onItemSelected` / `onItemUnSelected` right away when the position's view
  holder is live. Otherwise it parks the change in a pending map and
  delivers it when a holder for that position is attached.
  Module `SelectionAdapter`:
  - a class over the selected set, the pending map, the host and a log of
    the callbacks;
  - each method is proved against a pure function over a `Selection` value.
- `CenterAutoScrollListener` has three parts:
  - an IDLE toggle that makes centering run on every other IDLE event;
  - a pass-center detector with a ±20 window, which reports a crossing only
    on entry to the window;
  - an arg-min scan that finds the visible child nearest the center. With a
    lazily computed count c of leading positions, guards drop a target among
    positions 0 .. c-2 or among the last c-1 positions.

  Module `CenterAutoScroll`: a class over the listener's fields and a log
  of the events it causes.
- `SimpleFlowLayout` places children left to right and wraps to rows of a
  fixed height. Module `FlowLayout`:
  - a class with `OnMeasure` and `OnLayout` loops;
  - the loops are proved against recursive functions of the child sizes
    (`UsedWidth`, `RowOffset`, `LineBreaks`).
- `LinearItemDecoration` and the 3-/4-column part of `GridItemDecoration`
  compute item spacing. Module `ItemDecoration`: pure functions returning
  the offset rectangle.

Two helper modules:
- `Wrappers` holds `Option` and `Result`.
- `KotlinInt` holds Kotlin's truncating `Int` division and remainder. Dafny's
  own `/` and `%` are Euclidean.

How the Android host is abstracted:
- In the adapter, `findViewHolderForAdapterPosition` becomes the host's set
  of positions with a live holder (`RecyclerHost.liveHolders`).
- The iteration order of the `HashSet` of selected positions is a parameter
  `order`, required to list each selected position once.
- The scroll listener reads a `Viewport` at each event. It holds the
  doubled center `2 * x + width` of the list, of every position
  `findViewByPosition` finds a view for, and of the child
  `findChildViewUnder` returns. It also holds the visible range and the
  adapter's item count.
- Callbacks into subclasses and user lambdas are appended to an event log.

Behaviour of the code that a reader might not expect, which the model
follows as written:
- There is no "already selected" guard. Adding a position that is already
  selected fires `onItemSelected` again when its holder is live
  (`SelectionAdapter.AddTwiceFiresTwice`). Without a live holder it fires
  nothing and only rewrites the position's pending flag to selected.
- The leading guard of `scrollChildToCenter` is `target < count - 1`. So
  with a count of 2 it drops position 0 and keeps position 1
  (`CenterAutoScroll.AcceptedRange`).
- A pending entry can exist for a position whose holder is live.
  `setSelectedPosition` first flags keys `0 .. n-1` unselected, where `n` is
  the pending map's size. Keys that were never pending are flagged too
  (`SelectionAdapter.SetSelectedPending`).
- `cannotAutoScrollToCenterCount` is read once, when the counter is still 0,
  so it is `-1` forever. The model declares it as a `const` that the
  constructor sets to `-1`; `Valid()` keeps it there.
- The constructor of `SimpleFlowLayout` tests the vertical margin, although
  its message names the item height (`FlowLayout.ValidateAttributes`).

## Model

| member | source | states |
|---|---|---|
| SelectionAdapter.RemoveSelected | Simple/simplething/src/main/java/com/jeck/simplething/recyclerview/adpater.kt:21-36 | Without a host, or for an unselected position, nothing changes and nothing fires. Otherwise p leaves the selected set. Then either one `onItemUnSelected` fires and p's pending entry is cleared, or p is flagged unselected. Every other pending entry is untouched. |
| SelectionAdapter.AddSelected | Simple/simplething/src/main/java/com/jeck/simplething/recyclerview/adpater.kt:39-52 | Without a host nothing changes. With a host, p joins the selected set. Then either exactly one `onItemSelected` fires and p has no pending entry, or p is flagged selected and nothing fires. Every other pending entry is untouched. |
| SelectionAdapter.SetSelected | Simple/simplething/src/main/java/com/jeck/simplething/recyclerview/adpater.kt:55-84 | Without a host nothing changes. With a host the selected set is exactly {p}. |
| SelectionAdapter.ViewAttached | Simple/simplething/src/main/java/com/jeck/simplething/recyclerview/adpater.kt:97-109 | The selected set never changes. A pending p loses its entry and fires exactly the callback matching its flag. A p that is not pending fires nothing. |
| SelectionAdapter.Bind | Simple/simplething/src/main/java/com/jeck/simplething/recyclerview/adpater.kt:112-118 | The callback names p. It is `onItemSelected` exactly when p is selected. |
| SelectionAdapter.MarkUnselectedBelowKeys | Simple/simplething/src/main/java/com/jeck/simplething/recyclerview/adpater.kt:57-60 | The first loop adds or overwrites exactly keys 0 .. n-1 with the unselected flag. Every other entry keeps its value. |
| SelectionAdapter.ReleaseAllEffect | Simple/simplething/src/main/java/com/jeck/simplething/recyclerview/adpater.kt:61-71 | For every released position, either its entry is removed and it fires one `onItemUnSelected`, or it is flagged unselected when it has no live holder. The callbacks are exactly those and are distinct. Positions not released are untouched. |
| SelectionAdapter.SetSelectedCallbacks | Simple/simplething/src/main/java/com/jeck/simplething/recyclerview/adpater.kt:61-80 | `onItemUnSelected(q)` fires exactly for the previously selected q that have live holders. `onItemSelected` fires only for p, only when p is live, and last. No callback repeats. |
| SelectionAdapter.SetSelectedPending | Simple/simplething/src/main/java/com/jeck/simplething/recyclerview/adpater.kt:57-80 | The pending map key by key: p's entry is written last and wins. Released positions are cleared or flagged unselected. Keys 0 .. n-1 are flagged unselected even when they were never pending. All other entries are unchanged. |
| SelectionAdapter.SetSelectedReleasesEachOnce | Simple/simplething/src/main/java/com/jeck/simplething/recyclerview/adpater.kt:61-71 | Each previously selected q other than p gets exactly one of: an immediate `onItemUnSelected`, or a pending unselected flag. |
| SelectionAdapter.OperationsKeepInvariant | Simple/simplething/src/main/java/com/jeck/simplething/recyclerview/adpater.kt:21-52 | Add, remove and attach keep every pending "selected" flag on a selected position. |
| SelectionAdapter.SetSelectedKeepsInvariant | Simple/simplething/src/main/java/com/jeck/simplething/recyclerview/adpater.kt:55-84 | `setSelectedPosition` keeps that invariant. |
| SelectionAdapter.AttachAgreesWithSelection | Simple/simplething/src/main/java/com/jeck/simplething/recyclerview/adpater.kt:97-109 | Under the invariant, an attached holder is told "selected" only for a selected position. |
| SelectionAdapter.DeferredSelectionFiresOnAttach | Simple/simplething/src/main/java/com/jeck/simplething/recyclerview/adpater.kt:39-52 | Selecting a position with no live holder fires nothing. Attaching its holder later fires `onItemSelected` once and leaves nothing pending for it. |
| SelectionAdapter.AddTwiceFiresTwice | Simple/simplething/src/main/java/com/jeck/simplething/recyclerview/adpater.kt:39-52 | Adding a live position twice fires twice and leaves the same state as adding it once. |
| SelectionAdapter.RemoveUndoesAdd | Simple/simplething/src/main/java/com/jeck/simplething/recyclerview/adpater.kt:21-52 | Adding and then removing an unselected position restores the selected set. For a live holder it fires selected then unselected, and it restores the pending map when p was not pending. |
| SelectionAdapter.LastCallDecidesMembership | Simple/simplething/src/main/java/com/jeck/simplething/recyclerview/adpater.kt:21-52 | After any sequence of adds and removes, a position is selected exactly when the last call naming it was an add. If no call named it, its membership is unchanged. |
| SelectionAdapter.SimpleItemSelectedAdapter.constructor | Simple/simplething/src/main/java/com/jeck/simplething/recyclerview/adpater.kt:14-16 | Starts with nothing selected, nothing pending, no host and an empty log. |
| SelectionAdapter.SimpleItemSelectedAdapter.OnAttachedToRecyclerView | Simple/simplething/src/main/java/com/jeck/simplething/recyclerview/adpater.kt:86-89 | Stores the host. |
| SelectionAdapter.SimpleItemSelectedAdapter.OnDetachedFromRecyclerView | Simple/simplething/src/main/java/com/jeck/simplething/recyclerview/adpater.kt:91-94 | Drops the host. |
| SelectionAdapter.SimpleItemSelectedAdapter.RemoveSelectedPosition | Simple/simplething/src/main/java/com/jeck/simplething/recyclerview/adpater.kt:21-36 | The new state and the appended callbacks are those of `RemoveSelected`. The invariant is kept. |
| SelectionAdapter.SimpleItemSelectedAdapter.AddSelectedPosition | Simple/simplething/src/main/java/com/jeck/simplething/recyclerview/adpater.kt:39-52 | The new state and the appended callbacks are those of `AddSelected`. The invariant is kept. |
| SelectionAdapter.SimpleItemSelectedAdapter.SetSelectedPosition | Simple/simplething/src/main/java/com/jeck/simplething/recyclerview/adpater.kt:55-84 | Both loops, in the set's iteration order. The new state and the appended callbacks are those of `SetSelected`. The invariant is kept. |
| SelectionAdapter.SimpleItemSelectedAdapter.OnViewAttachedToWindow | Simple/simplething/src/main/java/com/jeck/simplething/recyclerview/adpater.kt:96-109 | The new state and the appended callbacks are those of `ViewAttached`. |
| SelectionAdapter.SimpleItemSelectedAdapter.OnBindViewHolder | Simple/simplething/src/main/java/com/jeck/simplething/recyclerview/adpater.kt:111-118 | Appends the `Bind` callback and changes nothing else. |
| CenterAutoScroll.OnStateChange | Simple/simplething/src/main/java/com/jeck/simplething/recyclerview/CenterAutoScrollListener.kt:49-61 | An IDLE event flips `canAutoScroll` and centers exactly when the flag was set. Any other state changes nothing. |
| CenterAutoScroll.CentersOnAlternateIdles | Simple/simplething/src/main/java/com/jeck/simplething/recyclerview/CenterAutoScrollListener.kt:49-61 | Over any sequence of states the flag flips once per IDLE event. Centering runs on (idles + (1 if the flag started set, else 0)) / 2 of them, that is, on alternate IDLE events. |
| CenterAutoScroll.PassCenter | Simple/simplething/src/main/java/com/jeck/simplething/recyclerview/CenterAutoScrollListener.kt:63-91 | A crossing is reported, with the child's position, exactly when there is a child under the center, it is within 20 (both ends included), and `hasPassed` was false. `hasPassed` becomes "in the window". With no child under the center nothing changes. |
| CenterAutoScroll.SweepAppend | Simple/simplething/src/main/java/com/jeck/simplething/recyclerview/CenterAutoScrollListener.kt:82-89 | A drag split in two is the second half run from the state the first half left. The reported positions concatenate. |
| CenterAutoScroll.StayingCenteredFiresAtMostOnce | Simple/simplething/src/main/java/com/jeck/simplething/recyclerview/CenterAutoScrollListener.kt:82-89 | While every child seen under the center stays in the window, at most one crossing is reported, and none if `hasPassed` was set. The detector ends set exactly when it was set before or has just reported. |
| CenterAutoScroll.LeavingRearms | Simple/simplething/src/main/java/com/jeck/simplething/recyclerview/CenterAutoScrollListener.kt:82-89 | After any drag, a child seen outside the window followed by one seen inside it reports the second child and leaves `hasPassed` set, whatever was reported before. |
| CenterAutoScroll.Distance | Simple/simplething/src/main/java/com/jeck/simplething/recyclerview/CenterAutoScrollListener.kt:101-109 | The truncated distance between the centers, saturating at `Int.MAX_VALUE`. |
| CenterAutoScroll.NearestUnique | Simple/simplething/src/main/java/com/jeck/simplething/recyclerview/CenterAutoScrollListener.kt:110-114 | The strict `<` makes the nearest position unique: ties go to the lowest position. |
| CenterAutoScroll.NearestToCenter | Simple/simplething/src/main/java/com/jeck/simplething/recyclerview/CenterAutoScrollListener.kt:94-116 | The running minimum returns a visible position with a view whose distance is minimal, and strictly below every earlier candidate's. It returns none exactly when no candidate's distance is below `Int.MAX_VALUE`. |
| CenterAutoScroll.AcceptedRange | Simple/simplething/src/main/java/com/jeck/simplething/recyclerview/CenterAutoScrollListener.kt:118-120 | The guards accept exactly count-1 .. total-count. This range is mirror-symmetric. With a count of 2, position 0 is dropped and position 1 kept. |
| CenterAutoScroll.CenteringDelta | Simple/simplething/src/main/java/com/jeck/simplething/recyclerview/RecyclerView.kt:17-39 | The scroll amount never overshoots and leaves the child's center within half a pixel of the list's. |
| CenterAutoScroll.LeadingRun | Simple/simplething/src/main/java/com/jeck/simplething/recyclerview/CenterAutoScrollListener.kt:133-150 | The walk stops at the first position that has no view or whose center is not before the list's center. Every position before it has a view with its center before the list's. |
| CenterAutoScroll.CounterIsMonotoneAndSticky | Simple/simplething/src/main/java/com/jeck/simplething/recyclerview/CenterAutoScrollListener.kt:131-151 | The counter never decreases. Once nonzero, later calls return it unchanged, whatever the viewport. |
| CenterAutoScroll.CenterAutoScrollListener.constructor | Simple/simplething/src/main/java/com/jeck/simplething/recyclerview/CenterAutoScrollListener.kt:22-31 | `canAutoScroll` is set, `hasPassed` is clear, the counter is 0, `cannotAutoScrollToCenterCount` is -1 and no drag listener is set. |
| CenterAutoScroll.CenterAutoScrollListener.SetDragChildPassToCenterListener | Simple/simplething/src/main/java/com/jeck/simplething/recyclerview/CenterAutoScrollListener.kt:31 | Sets or clears the drag listener. |
| CenterAutoScroll.CenterAutoScrollListener.ScrollChildToCenter | Simple/simplething/src/main/java/com/jeck/simplething/recyclerview/CenterAutoScrollListener.kt:93-129 | With no nearest position nothing happens. Otherwise, if the guards accept it, the provider hears the target and then one scroll along the list's axis is requested. |
| CenterAutoScroll.CenterAutoScrollListener.OnScrollStateChanged | Simple/simplething/src/main/java/com/jeck/simplething/recyclerview/CenterAutoScrollListener.kt:49-61 | The flag follows `OnStateChange`. Centering happens exactly when `OnStateChange` says it runs. |
| CenterAutoScroll.CenterAutoScrollListener.CheckChildPassCenter | Simple/simplething/src/main/java/com/jeck/simplething/recyclerview/CenterAutoScrollListener.kt:63-91 | `hasPassed` follows `PassCenter`. A reported crossing reaches the log only when a drag listener is set. |
| CenterAutoScroll.CenterAutoScrollListener.CalculateCannotScrollCounts | Simple/simplething/src/main/java/com/jeck/simplething/recyclerview/CenterAutoScrollListener.kt:131-151 | Returns a nonzero counter unchanged. A zero counter becomes the end of the walk from position 0. |
| CenterAutoScroll.CenterAutoScrollListener.OnScrolled | Simple/simplething/src/main/java/com/jeck/simplething/recyclerview/CenterAutoScrollListener.kt:41-47 | The counter is updated on every call. The crossing check runs only while dragging; otherwise `hasPassed` and the log are unchanged. |
| FlowLayout.ValidateAttributes | Simple/simplething/src/main/java/com/jeck/simplething/SimpleFlowLayout.kt:24-29 | `IllegalArgumentException("mItemHeight can not be 0")` exactly when the vertical margin is not positive. Otherwise the attributes are kept. |
| FlowLayout.NewSimpleFlowLayout | Simple/simplething/src/main/java/com/jeck/simplething/SimpleFlowLayout.kt:17-31 | The constructor fails exactly when the vertical margin is not positive. Otherwise it gives a fresh layout with the given attributes and padding. |
| FlowLayout.SimpleFlowLayout.constructor | Simple/simplething/src/main/java/com/jeck/simplething/SimpleFlowLayout.kt:24-28 | Stores the checked attributes and the padding. |
| FlowLayout.SimpleFlowLayout.OnMeasure | Simple/simplething/src/main/java/com/jeck/simplething/SimpleFlowLayout.kt:33-61 | The measured width is the offered width. The measured height is one row plus padding plus one row step per wrap, with wraps decided by `checkChangeLine`. |
| FlowLayout.SimpleFlowLayout.OnLayout | Simple/simplething/src/main/java/com/jeck/simplething/SimpleFlowLayout.kt:71-92 | Each child gets its measured size. Its top is its row's top plus `itemHeight / 2 - height / 2`. Its left is the left padding when it is first or wraps, otherwise the previous right plus the margin. A child that does not wrap ends inside the right padding. |
| FlowLayout.ChangeLine | Simple/simplething/src/main/java/com/jeck/simplething/SimpleFlowLayout.kt:63-69 | A break is taken exactly when the used width plus the child's width exceeds the parent's width. Both `OnMeasure` and `OnLayout` decide their breaks through it, via `UsedWidth` and `BreaksBefore`. |
| FlowLayout.FirstTooWideChildWraps | Simple/simplething/src/main/java/com/jeck/simplething/SimpleFlowLayout.kt:47-52 | No special case for an empty row: a first child wider than the room wraps and costs a whole row step. |
| FlowLayout.LineBreaksAtMost | Simple/simplething/src/main/java/com/jeck/simplething/SimpleFlowLayout.kt:47-59 | At most one wrap per child. |
| FlowLayout.LineBreaksMonotone | Simple/simplething/src/main/java/com/jeck/simplething/SimpleFlowLayout.kt:47-59 | Wraps only accumulate along the children. |
| FlowLayout.RowOffsetCountsBreaks | Simple/simplething/src/main/java/com/jeck/simplething/SimpleFlowLayout.kt:52 | A row's offset below the top padding is the number of wraps so far times `itemHeight + verticalMargin`. |
| FlowLayout.MeasuredHeightCountsBreaks | Simple/simplething/src/main/java/com/jeck/simplething/SimpleFlowLayout.kt:43-60 | The measured height is `itemHeight + paddingTop + paddingBottom + k * (itemHeight + verticalMargin)`, with k the number of wraps and k at most the child count. |
| FlowLayout.RowsFitMeasuredHeight | Simple/simplething/src/main/java/com/jeck/simplething/SimpleFlowLayout.kt:43-92 | Laid out at the width it measured, every row `onLayout` uses lies within the measured height. The last child's row ends exactly at the bottom padding. |
| ItemDecoration.MainAxisEdges | Simple/simplething/src/main/java/com/jeck/simplething/recyclerview/ItemDecroation.kt:63-76 | Each main-axis edge is either the whole border or its truncated half, and lies within 0 .. border for a non-negative border. |
| ItemDecoration.LinearItemOffsets | Simple/simplething/src/main/java/com/jeck/simplething/recyclerview/ItemDecroation.kt:33-105 | Not a linear manager: the rectangle is empty. Horizontal: left and right are the leading and trailing edges of `MainAxisEdges` for the position, and top and bottom are the border when `isSurroundItem` and 0 otherwise. Vertical: top and bottom are those edges and left and right the cross-axis value. So every property proved of `MainAxisEdges` holds of the rectangle. |
| ItemDecoration.LinearEdgesByPosition | Simple/simplething/src/main/java/com/jeck/simplething/recyclerview/ItemDecroation.kt:63-76 | The case table of the `when`, written out: position 0 gets (border, half), even when it is also the last; an interior position gets (half, half); the last position gets (half, border). Half is `borderWith / 2`. The list-level properties are in `AdjacentGapIsUniform`, `EdgesAreMirrored` and `MainAxisTotalOfList`. |
| ItemDecoration.SingleItemTrailingIsHalf | Simple/simplething/src/main/java/com/jeck/simplething/recyclerview/ItemDecroation.kt:64-67 | A list of one item gets only half a border behind it. |
| ItemDecoration.AdjacentGapIsUniform | Simple/simplething/src/main/java/com/jeck/simplething/recyclerview/ItemDecroation.kt:64-75 | Consecutive items are separated by `2 * (borderWith / 2)`. |
| ItemDecoration.EdgesAreMirrored | Simple/simplething/src/main/java/com/jeck/simplething/recyclerview/ItemDecroation.kt:63-76 | With at least two items, position p's edges are position n-1-p's, swapped. |
| ItemDecoration.MainAxisTotalOfList | Simple/simplething/src/main/java/com/jeck/simplething/recyclerview/ItemDecroation.kt:63-76 | The whole list of n ≥ 2 items takes one border at each end plus `2 * (borderWith / 2)` between each pair of neighbours. |
| ItemDecoration.VerticalIsTransposedHorizontal | Simple/simplething/src/main/java/com/jeck/simplething/recyclerview/ItemDecroation.kt:55-105 | The vertical rectangle is the horizontal one with the axes exchanged. |
| ItemDecoration.GridManagerDecoratedAsLinear | Simple/simplething/src/main/java/com/jeck/simplething/recyclerview/ItemDecroation.kt:39-52 | A grid manager is decorated exactly like a linear manager of its orientation. |
| ItemDecoration.CheckPosition | Simple/simplething/src/main/java/com/jeck/simplething/recyclerview/ItemDecroation.kt:227-236 | Classifies by Kotlin's `(position + 1) % spanCount`. With one column it is always END, and START needs at least two columns. Its meaning per column is given by `CheckPositionIsColumn` and `SingleColumnIsEnd`. |
| ItemDecoration.CheckPositionIsColumn | Simple/simplething/src/main/java/com/jeck/simplething/recyclerview/ItemDecroation.kt:227-236 | For two or more columns and p ≥ 0: START exactly for the first column, END exactly for the last, CENTER exactly for those between. |
| ItemDecoration.SingleColumnIsEnd | Simple/simplething/src/main/java/com/jeck/simplething/recyclerview/ItemDecroation.kt:231-235 | With one column every position is END. |
| ItemDecoration.GridVerticalOffsets | Simple/simplething/src/main/java/com/jeck/simplething/recyclerview/ItemDecroation.kt:145-225 | 3 and 4 columns: top is one border, bottom is (span-2) borders, left + right is (span-1) borders. It fails exactly when Kotlin's `position % span` is negative. |
| ItemDecoration.GridColumnOffsets | Simple/simplething/src/main/java/com/jeck/simplething/recyclerview/ItemDecroation.kt:183-222 | For p ≥ 0: left is `(p % span) * border` and right is `(span-1) * border - left`. |
| ItemDecoration.GridGapIsUniform | Simple/simplething/src/main/java/com/jeck/simplething/recyclerview/ItemDecroation.kt:183-222 | Neighbouring columns of one row are separated by `span` borders. |
| ItemDecoration.GridItemOffsets | Simple/simplething/src/main/java/com/jeck/simplething/recyclerview/ItemDecroation.kt:132-143 | A vertical grid gets exactly the rectangle of `GridVerticalOffsets` for its span and the position; any other manager leaves the empty rectangle. Real positions never fail. |
| KotlinInt.Div | Simple/simplething/src/main/java/com/jeck/simplething/recyclerview/ItemDecroation.kt:66 | Truncating division: quotient times divisor plus the truncating remainder gives back the dividend. |
| KotlinInt.Rem | Simple/simplething/src/main/java/com/jeck/simplething/recyclerview/ItemDecroation.kt:231 | Truncating remainder: it has the sign of the dividend and is smaller in size than the divisor. |

## Left out

- `RecyclerView.kt` is not part of this model except for the scroll amount
  of `smoothScrollTo*Center` (`CenterAutoScroll.CenteringDelta`). Its click
  listeners depend on touch events and a floating-point threshold. The
  smooth-scroll animation and interpolator are host behaviour; a scroll
  request is logged as `SmoothScrollBy(dx, dy, linear)`.
- Both `onDraw` overrides of the decorations are left out: they only draw
  on a canvas.
- The general-span grid path is left out, and so are the `compensate` list
  and the `layoutParams.topMargin` writes. That path uses `Float` arithmetic
  and grows a list on every call. `ItemDecoration.GridVerticalOffsets`
  requires 3 or 4 columns. `ItemDecoration.CheckPosition` is modelled for
  every span.
- Floating-point view coordinates are modelled as doubled integer centers.
  Float rounding, `toDouble().toInt()` beyond the saturation that
  `CenterAutoScroll.Distance` models, and the difference between `width`
  and `measuredWidth` are not modelled.
- `findChildViewUnder` is called at the list's center on one axis and at 0
  on the other. It is an oracle (`Viewport.underCenter`), as are
  `findViewByPosition`, the visible range and `getChildAdapterPosition`.
- The listener's constructor casts `recyclerView.layoutManager` to
  `LinearLayoutManager` and throws for any other manager. The model's
  constructor takes the orientation directly, so that failure is not
  modelled.
- Listener removal in `doOnDetach`, and every `Log.d` call, are I/O and are
  not modelled.
- `obtainStyledAttributes`, `MeasureSpec`, `measureChildren` and
  `generateLayoutParams` are host services. Child sizes are an input, and so
  is the width the parent offers.
- `lastLineMaxHeight` in `onMeasure` is computed but never read, so it is
  not modelled.
- View holders are left out: a callback is logged by its kind and position.
  The source's `parent.adapter!!` in the linear decoration is assumed
  non-null; the item count is a parameter.
- Kotlin `Int` is 32 bits; the model uses unbounded integers. Overflow of
  sums such as `position + 1`, `totalHeight` or `usedWith` is not modelled.
- `CenterAutoScroll.CenterAutoScrollListener.ScrollChildToCenter`: the
  scroll listener receives a fresh `Viewport` per call. Changes of the host
  between the arg-min scan and the scroll request are not modelled.
