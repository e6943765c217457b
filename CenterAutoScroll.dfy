/**
 * `CenterAutoScrollListener`: a scroll listener for a linear list that,
 * each time a fling or drag comes to rest, scrolls the child nearest to the
 * list's center onto the center and reports its position; while the user
 * drags, it reports each child that crosses the center.
 *
 * The host is read through a `Viewport`: one snapshot of what the layout
 * manager reports at an event. Centers are doubled (`2 * x + width`) so that
 * the source's halving is exact on integers.
 */
module CenterAutoScroll {
  import opened Wrappers
  import KotlinInt

  /** `middleFeelLength`: half-width of the window in which a child counts as centered. */
  const MiddleFeelLength := 20
  /** `Int.MAX_VALUE`, the running minimum's initial value. */
  const IntMaxValue := 0x7fff_ffff

  datatype ScrollState = Idle | Dragging | Settling
  datatype Orientation = Horizontal | Vertical

  /** The child `findChildViewUnder` returns: its adapter position and doubled center. */
  datatype ChildUnderCenter = ChildUnderCenter(position: int, center2: int)

  /**
   * What the host reports at one event: the list's doubled center, the
   * doubled center of each position `findViewByPosition` finds a view for,
   * the visible range, the adapter's item count (0 without an adapter) and
   * the child under the center, if any.
   */
  datatype Viewport = Viewport(
    parentCenter2: int,
    centers2: map<int, int>,
    firstVisible: int,
    lastVisible: int,
    itemCount: int,
    underCenter: Option<ChildUnderCenter>)

  /** What the listener makes happen, in order. */
  datatype Event =
    | PassedCenter(position: int)                      // dragChildPassToCenterListener
    | AutoScrolled(position: int)                      // autoScrolledPositionProvider
    | SmoothScrollBy(dx: int, dy: int, linear: bool)   // smoothScrollTo*Center

  function Abs(x: int): int {
    if x < 0 then -x else x
  }

  // ---------------------------------------------------------------------------
  // The IDLE toggle of onScrollStateChanged
  // ---------------------------------------------------------------------------

  /** The new `canAutoScroll` and whether centering runs. */
  datatype Toggle = Toggle(canAutoScroll: bool, centers: bool)

  /** `onScrollStateChanged`: an IDLE event flips the flag and centers when it found it set. */
  function OnStateChange(canAutoScroll: bool, newState: ScrollState): (r: Toggle)
    ensures newState != Idle ==> r == Toggle(canAutoScroll, false)
    ensures newState == Idle ==> r.canAutoScroll == !canAutoScroll && r.centers == canAutoScroll
  {
    if newState == Idle then
      if canAutoScroll then Toggle(false, true) else Toggle(true, false)
    else Toggle(canAutoScroll, false)
  }

  /** The flag after a sequence of state changes and how many of them centered. */
  datatype ToggleRun = ToggleRun(canAutoScroll: bool, runs: nat)

  function StateChanges(canAutoScroll: bool, states: seq<ScrollState>): ToggleRun {
    if states == [] then ToggleRun(canAutoScroll, 0)
    else
      var before := StateChanges(canAutoScroll, states[..|states| - 1]);
      var step := OnStateChange(before.canAutoScroll, states[|states| - 1]);
      ToggleRun(step.canAutoScroll, before.runs + if step.centers then 1 else 0)
  }

  function IdleCount(states: seq<ScrollState>): nat {
    if states == [] then 0
    else IdleCount(states[..|states| - 1]) + if states[|states| - 1] == Idle then 1 else 0
  }

  /**
   * Centering runs on every other IDLE event: after n IDLE events the flag
   * has flipped n times and centering ran on the first, third, ... of them
   * when the flag started set, on the second, fourth, ... otherwise.
   */
  lemma {:induction false} CentersOnAlternateIdles(canAutoScroll: bool, states: seq<ScrollState>)
    ensures var r := StateChanges(canAutoScroll, states);
            && r.canAutoScroll == (if IdleCount(states) % 2 == 0 then canAutoScroll else !canAutoScroll)
            && r.runs == (IdleCount(states) + if canAutoScroll then 1 else 0) / 2
  {
    if states != [] {
      CentersOnAlternateIdles(canAutoScroll, states[..|states| - 1]);
    }
  }

  // ---------------------------------------------------------------------------
  // The pass-center detector of checkChildPassCenter
  // ---------------------------------------------------------------------------

  /** The parent's center lies within `middleFeelLength` of the child's, both ends included. */
  predicate InWindow(parent2: int, child2: int) {
    parent2 >= child2 - 2 * MiddleFeelLength && parent2 <= child2 + 2 * MiddleFeelLength
  }

  /** The new `hasPassed` and the position reported, if any. */
  datatype Pass = Pass(hasPassed: bool, fired: Option<int>)

  /**
   * `checkChildPassCenter`: a child under the center that is in the window
   * is reported once, on entry; one outside the window re-arms the detector;
   * with no child under the center nothing changes.
   */
  function PassCenter(hasPassed: bool, under: Option<ChildUnderCenter>, parent2: int): (r: Pass)
    ensures under.None? ==> r == Pass(hasPassed, None)
    ensures under.Some? ==> r.hasPassed == InWindow(parent2, under.value.center2)
    ensures r.fired.Some? <==> under.Some? && InWindow(parent2, under.value.center2) && !hasPassed
    ensures r.fired.Some? ==> r.fired.value == under.value.position
  {
    match under
    case None => Pass(hasPassed, None)
    case Some(child) =>
      if InWindow(parent2, child.center2) then
        if hasPassed then Pass(true, None) else Pass(true, Some(child.position))
      else Pass(false, None)
  }

  /** `hasPassed` after a drag and every position reported during it. */
  datatype Crossings = Crossings(hasPassed: bool, fired: seq<int>)

  /** A drag: `checkChildPassCenter` on each of a sequence of observations. */
  function Sweep(hasPassed: bool, parent2: int, seen: seq<Option<ChildUnderCenter>>): Crossings {
    if seen == [] then Crossings(hasPassed, [])
    else
      var before := Sweep(hasPassed, parent2, seen[..|seen| - 1]);
      var step := PassCenter(before.hasPassed, seen[|seen| - 1], parent2);
      Crossings(step.hasPassed, before.fired + if step.fired.Some? then [step.fired.value] else [])
  }

  /** A drag split in two is the second half run from where the first half left off. */
  lemma {:induction false} SweepAppend(hasPassed: bool, parent2: int, a: seq<Option<ChildUnderCenter>>, b: seq<Option<ChildUnderCenter>>)
    ensures var first := Sweep(hasPassed, parent2, a);
            var second := Sweep(first.hasPassed, parent2, b);
            Sweep(hasPassed, parent2, a + b) == Crossings(second.hasPassed, first.fired + second.fired)
    decreases |b|
  {
    if b == [] {
      assert a + b == a;
    } else {
      assert (a + b)[..|a + b| - 1] == a + b[..|b| - 1];
      SweepAppend(hasPassed, parent2, a, b[..|b| - 1]);
    }
  }

  /**
   * While every child seen under the center stays in the window, at most one
   * crossing is reported, none if one was already reported, and the detector
   * ends armed-off exactly when it was off before or has just reported.
   */
  lemma {:induction false} StayingCenteredFiresAtMostOnce(hasPassed: bool, parent2: int, seen: seq<Option<ChildUnderCenter>>)
    requires forall i :: 0 <= i < |seen| ==> seen[i].None? || InWindow(parent2, seen[i].value.center2)
    ensures var r := Sweep(hasPassed, parent2, seen);
            && |r.fired| <= 1
            && (hasPassed ==> r.fired == [])
            && r.hasPassed == (hasPassed || |r.fired| == 1)
  {
    if seen != [] {
      StayingCenteredFiresAtMostOnce(hasPassed, parent2, seen[..|seen| - 1]);
    }
  }

  /**
   * Leaving re-arms the detector: after any drag, a child seen outside the
   * window followed by a child seen inside it reports the second child,
   * whatever was reported before.
   */
  lemma LeavingRearms(hasPassed: bool, parent2: int, before: seq<Option<ChildUnderCenter>>,
                      outside: ChildUnderCenter, inside: ChildUnderCenter)
    requires !InWindow(parent2, outside.center2) && InWindow(parent2, inside.center2)
    ensures var r := Sweep(hasPassed, parent2, before + [Some(outside), Some(inside)]);
            r == Crossings(true, Sweep(hasPassed, parent2, before).fired + [inside.position])
  {
    var first := Sweep(hasPassed, parent2, before);
    var tail := [Some(outside), Some(inside)];
    SweepAppend(hasPassed, parent2, before, tail);
    assert tail[..1][..0] == [] && tail[..1][0] == Some(outside);
    assert Sweep(first.hasPassed, parent2, []) == Crossings(first.hasPassed, []);
    assert Sweep(first.hasPassed, parent2, tail[..1]) == Crossings(false, []);
    assert tail[..|tail| - 1] == tail[..1];
  }

  // ---------------------------------------------------------------------------
  // The arg-min of scrollChildToCenter and its guards
  // ---------------------------------------------------------------------------

  /**
   * `abs((child - parent).toDouble()).toInt()`: the distance between the
   * centers, truncated, saturating at `Int.MAX_VALUE`.
   */
  function Distance(parent2: int, child2: int): (d: int)
    ensures 0 <= d <= IntMaxValue
    ensures d < IntMaxValue ==> 2 * d <= Abs(child2 - parent2) <= 2 * d + 1
    ensures d == IntMaxValue ==> Abs(child2 - parent2) >= 2 * IntMaxValue
  {
    var a := Abs(child2 - parent2) / 2;
    if a < IntMaxValue then a else IntMaxValue
  }

  /** The distance of position i's view from the center. */
  function DistanceAt(vp: Viewport, i: int): int
    requires i in vp.centers2
  {
    Distance(vp.parentCenter2, vp.centers2[i])
  }

  /** Position i is visible and has a view. */
  predicate Candidate(vp: Viewport, i: int) {
    vp.firstVisible <= i <= vp.lastVisible && i in vp.centers2
  }

  /**
   * t is the position the scan settles on: a candidate whose distance beat
   * `Int.MAX_VALUE`, no farther than any candidate and strictly nearer than
   * every candidate before it (a tie goes to the lowest position).
   */
  ghost predicate IsNearest(vp: Viewport, t: int) {
    && Candidate(vp, t)
    && DistanceAt(vp, t) < IntMaxValue
    && (forall i :: Candidate(vp, i) ==> DistanceAt(vp, t) <= DistanceAt(vp, i))
    && (forall i :: Candidate(vp, i) && i < t ==> DistanceAt(vp, t) < DistanceAt(vp, i))
  }

  /** At most one position is the nearest. */
  lemma NearestUnique(vp: Viewport, t: int, u: int)
    requires IsNearest(vp, t) && IsNearest(vp, u)
    ensures t == u
  {
  }

  /**
   * The loop of `scrollChildToCenter`: a running minimum over the visible
   * positions with a view, replaced only by a strictly smaller distance.
   * None when no candidate's distance is below `Int.MAX_VALUE`.
   */
  method NearestToCenter(vp: Viewport) returns (target: Option<int>)
    ensures target.Some? ==> IsNearest(vp, target.value)
    ensures target.None? <==> forall i :: Candidate(vp, i) ==> DistanceAt(vp, i) == IntMaxValue
  {
    var t := IntMaxValue;
    target := None;
    var i := vp.firstVisible;
    while i <= vp.lastVisible
      invariant vp.firstVisible <= i && (i <= vp.lastVisible + 1 || i == vp.firstVisible)
      invariant target.None? ==> t == IntMaxValue
      invariant target.None? ==> forall j :: Candidate(vp, j) && j < i ==> DistanceAt(vp, j) == IntMaxValue
      invariant target.Some? ==> Candidate(vp, target.value) && target.value < i && t == DistanceAt(vp, target.value) < IntMaxValue
      invariant target.Some? ==> forall j :: Candidate(vp, j) && j < i ==> t <= DistanceAt(vp, j)
      invariant target.Some? ==> forall j :: Candidate(vp, j) && j < target.value ==> t < DistanceAt(vp, j)
      decreases vp.lastVisible + 1 - i
    {
      if i in vp.centers2 {
        var distance := Distance(vp.parentCenter2, vp.centers2[i]);
        if distance < t {
          t := distance;
          target := Some(i);
        }
      }
      i := i + 1;
    }
  }

  /**
   * The two early returns of `scrollChildToCenter`: a target among the
   * first `count - 1` positions, or among the last `count - 1`, is dropped.
   */
  predicate Accepted(target: int, count: int, totalItems: int) {
    !(target < count - 1) && !(target > (totalItems - 1) - (count - 1))
  }

  /**
   * The accepted targets are the range count-1 .. totalItems-count, which
   * is mirror-symmetric; with a count of 2 position 0 is dropped and
   * position 1 is kept.
   */
  lemma AcceptedRange(target: int, count: int, totalItems: int)
    ensures Accepted(target, count, totalItems) <==> count - 1 <= target <= totalItems - count
    ensures Accepted(target, count, totalItems) <==> Accepted(totalItems - 1 - target, count, totalItems)
    ensures count == 2 && totalItems >= 3 ==> !Accepted(0, count, totalItems) && Accepted(1, count, totalItems)
  {
  }

  /**
   * The scroll amount of `smoothScrollTo*Center`: the difference of the
   * centers, truncated toward zero. It never overshoots and leaves the
   * child's center within half a pixel of the list's.
   */
  function CenteringDelta(parent2: int, child2: int): (d: int)
    ensures -1 <= child2 - parent2 - 2 * d <= 1
    ensures child2 >= parent2 ==> 0 <= 2 * d <= child2 - parent2
    ensures child2 < parent2 ==> child2 - parent2 <= 2 * d <= 0
  {
    KotlinInt.Div(child2 - parent2, 2)
  }

  /** The scroll request along the list's axis. */
  function ScrollRequest(orientation: Orientation, linear: bool, delta: int): Event {
    match orientation
    case Horizontal => SmoothScrollBy(delta, 0, linear)
    case Vertical => SmoothScrollBy(0, delta, linear)
  }

  /**
   * What centering on target t does: nothing when a guard drops it,
   * otherwise the provider hears t and then the scroll is requested.
   */
  function Centering(vp: Viewport, t: int, count: int, orientation: Orientation, linear: bool): seq<Event>
    requires t in vp.centers2
  {
    if Accepted(t, count, vp.itemCount) then
      [AutoScrolled(t), ScrollRequest(orientation, linear, CenteringDelta(vp.parentCenter2, vp.centers2[t]))]
    else []
  }

  // ---------------------------------------------------------------------------
  // The lazy counter of calculateCannotScrollCounts
  // ---------------------------------------------------------------------------

  /** Removing the lowest key counted leaves fewer keys from there on. */
  lemma KeysFromShrink(keys: set<int>, from: int)
    requires from in keys
    ensures |set k | k in keys && k >= from + 1| < |set k | k in keys && k >= from|
  {
    var later := set k | k in keys && k >= from + 1;
    assert (set k | k in keys && k >= from) == later + {from};
  }

  /**
   * The walk from position `from`: it stops at the first position that has
   * no view or whose center is not left of (above) the list's center.
   */
  function LeadingRun(centers2: map<int, int>, parent2: int, from: int): (stop: int)
    ensures stop >= from
    ensures forall k :: from <= k < stop ==> k in centers2 && centers2[k] < parent2
    ensures stop !in centers2 || centers2[stop] >= parent2
    decreases |set k | k in centers2 && k >= from|
  {
    if from in centers2 && centers2[from] < parent2 then
      KeysFromShrink(centers2.Keys, from);
      LeadingRun(centers2, parent2, from + 1)
    else from
  }

  /** The counter after one call: unchanged once nonzero, otherwise the walk from 0. */
  function NextCannotScrollCount(count: int, vp: Viewport): int {
    if count != 0 then count else LeadingRun(vp.centers2, vp.parentCenter2, 0)
  }

  /** The counter never decreases and, once nonzero, never changes again. */
  lemma CounterIsMonotoneAndSticky(count: int, vp: Viewport, later: Viewport)
    requires count >= 0
    ensures NextCannotScrollCount(count, vp) >= count
    ensures NextCannotScrollCount(count, vp) != 0 ==>
              NextCannotScrollCount(NextCannotScrollCount(count, vp), later) == NextCannotScrollCount(count, vp)
  {
  }

  // ---------------------------------------------------------------------------
  // The listener object
  // ---------------------------------------------------------------------------

  class CenterAutoScrollListener {
    const orientation: Orientation
    const isLinearSmooth: bool
    var canAutoScroll: bool
    var hasPassed: bool
    var cannotDragPassToCenterCount: int
    /** Bound once, from the counter's initial value. */
    const cannotAutoScrollToCenterCount: int
    /** Whether `dragChildPassToCenterListener` is set. */
    var hasDragListener: bool
    /** Every listener call and scroll request so far, in order. */
    var events: seq<Event>

    ghost predicate Valid()
      reads this
    {
      cannotDragPassToCenterCount >= 0 && cannotAutoScrollToCenterCount == -1
    }

    constructor (orientation: Orientation, isLinearSmooth: bool)
      ensures Valid()
      ensures this.orientation == orientation && this.isLinearSmooth == isLinearSmooth
      ensures canAutoScroll && !hasPassed && cannotDragPassToCenterCount == 0
      ensures cannotAutoScrollToCenterCount == -1
      ensures !hasDragListener && events == []
    {
      this.orientation := orientation;
      this.isLinearSmooth := isLinearSmooth;
      canAutoScroll, hasPassed := true, false;
      var initialCount := 0;
      cannotDragPassToCenterCount := initialCount;
      cannotAutoScrollToCenterCount := initialCount - 1;
      hasDragListener, events := false, [];
    }

    /** Setting or clearing `dragChildPassToCenterListener`. */
    method SetDragChildPassToCenterListener(present: bool)
      requires Valid()
      modifies this`hasDragListener
      ensures Valid() && hasDragListener == present
    {
      hasDragListener := present;
    }

    /** The events centering on the nearest child appends to `before`. */
    ghost predicate CenteringLogged(vp: Viewport, before: seq<Event>, after: seq<Event>)
      reads this
    {
      && ((forall t :: !IsNearest(vp, t)) ==> after == before)
      && (forall t :: IsNearest(vp, t) ==>
            after == before + Centering(vp, t, cannotDragPassToCenterCount, orientation, isLinearSmooth))
    }

    /** `scrollChildToCenter`. */
    method ScrollChildToCenter(vp: Viewport)
      requires Valid()
      modifies this`events
      ensures Valid()
      ensures CenteringLogged(vp, old(events), events)
    {
      var target := NearestToCenter(vp);
      match target
      case None =>
      case Some(t) =>
        forall u | IsNearest(vp, u)
          ensures u == t
        {
          NearestUnique(vp, t, u);
        }
        if t < cannotDragPassToCenterCount - 1 {
          return;
        }
        var totalItems := vp.itemCount;
        if t > (totalItems - 1) - (cannotDragPassToCenterCount - 1) {
          return;
        }
        var delta := CenteringDelta(vp.parentCenter2, vp.centers2[t]);
        events := events + [AutoScrolled(t), ScrollRequest(orientation, isLinearSmooth, delta)];
    }

    /** `onScrollStateChanged`. */
    method OnScrollStateChanged(vp: Viewport, newState: ScrollState)
      requires Valid()
      modifies this`canAutoScroll, this`events
      ensures Valid()
      ensures canAutoScroll == OnStateChange(old(canAutoScroll), newState).canAutoScroll
      ensures !OnStateChange(old(canAutoScroll), newState).centers ==> events == old(events)
      ensures OnStateChange(old(canAutoScroll), newState).centers ==> CenteringLogged(vp, old(events), events)
    {
      if newState == Idle {
        if canAutoScroll {
          canAutoScroll := false;
          ScrollChildToCenter(vp);
        } else {
          canAutoScroll := true;
        }
      }
    }

    /** `checkChildPassCenter`. */
    method CheckChildPassCenter(vp: Viewport)
      requires Valid()
      modifies this`hasPassed, this`events
      ensures Valid()
      ensures var r := PassCenter(old(hasPassed), vp.underCenter, vp.parentCenter2);
              && hasPassed == r.hasPassed
              && events == old(events) + if r.fired.Some? && hasDragListener then [PassedCenter(r.fired.value)] else []
    {
      match vp.underCenter
      case None =>
      case Some(child) =>
        if vp.parentCenter2 >= child.center2 - 2 * MiddleFeelLength && vp.parentCenter2 <= child.center2 + 2 * MiddleFeelLength {
          if !hasPassed {
            hasPassed := true;
            if hasDragListener {
              events := events + [PassedCenter(child.position)];
            }
          }
        } else {
          hasPassed := false;
        }
    }

    /** `calculateCannotScrollCounts`. */
    method CalculateCannotScrollCounts(vp: Viewport) returns (count: int)
      requires Valid()
      modifies this`cannotDragPassToCenterCount
      ensures Valid()
      ensures cannotDragPassToCenterCount == NextCannotScrollCount(old(cannotDragPassToCenterCount), vp)
      ensures count == cannotDragPassToCenterCount
    {
      if cannotDragPassToCenterCount != 0 {
        return cannotDragPassToCenterCount;
      }
      while true
        invariant cannotDragPassToCenterCount >= 0
        invariant LeadingRun(vp.centers2, vp.parentCenter2, cannotDragPassToCenterCount)
                  == LeadingRun(vp.centers2, vp.parentCenter2, 0)
        decreases |set k | k in vp.centers2 && k >= cannotDragPassToCenterCount|
      {
        if cannotDragPassToCenterCount in vp.centers2 {
          if vp.centers2[cannotDragPassToCenterCount] < vp.parentCenter2 {
            KeysFromShrink(vp.centers2.Keys, cannotDragPassToCenterCount);
            cannotDragPassToCenterCount := cannotDragPassToCenterCount + 1;
          } else {
            return cannotDragPassToCenterCount;
          }
        } else {
          return cannotDragPassToCenterCount;
        }
      }
    }

    /** `onScrolled`: the counter on every call, the crossing check only while dragging. */
    method OnScrolled(vp: Viewport, state: ScrollState)
      requires Valid()
      modifies this`cannotDragPassToCenterCount, this`hasPassed, this`events
      ensures Valid()
      ensures cannotDragPassToCenterCount == NextCannotScrollCount(old(cannotDragPassToCenterCount), vp)
      ensures state != Dragging ==> hasPassed == old(hasPassed) && events == old(events)
      ensures state == Dragging ==>
                var r := PassCenter(old(hasPassed), vp.underCenter, vp.parentCenter2);
                && hasPassed == r.hasPassed
                && events == old(events) + if r.fired.Some? && hasDragListener then [PassedCenter(r.fired.value)] else []
    {
      var _ := CalculateCannotScrollCounts(vp);
      if state == Dragging {
        CheckChildPassCenter(vp);
      }
    }
  }
}
