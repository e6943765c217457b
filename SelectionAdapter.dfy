/**
 * `SimpleItemSelectedAdapter`: an adapter that remembers which list
 * positions are selected and tells the subclass through `onItemSelected` and
 * `onItemUnSelected`, without a data-set refresh. A change for a position
 * whose view holder is not live is parked in a pending map and delivered
 * when a holder for that position is attached to the window.
 *
 * The host list is reduced to the set of positions for which
 * `findViewHolderForAdapterPosition` finds a holder; view holders themselves
 * are left out, so a callback is recorded by its kind and position.
 */
module SelectionAdapter {
  import opened Wrappers

  /** The values stored in the pending map: `mSelectedFlag` and `mUnSelectedFlag`. */
  datatype Flag = SelectedFlag | UnSelectedFlag

  /** One call of `onItemSelected` or `onItemUnSelected`. */
  datatype Callback = ItemSelected(position: int) | ItemUnSelected(position: int)

  /** `mSelectedPositions` and `mIsNeedCheckPositions`. */
  datatype Selection = Selection(selected: set<int>, pending: map<int, Flag>)

  /** The state after an operation and the callbacks it fired, in order. */
  datatype Step = Step(after: Selection, fired: seq<Callback>)

  /** A pending "selected" flag is only ever kept for a selected position. */
  ghost predicate PendingSelectionIsSelected(s: Selection) {
    forall k :: k in s.pending && s.pending[k] == SelectedFlag ==> k in s.selected
  }

  /** The pending map agrees with `m` at every position other than p. */
  ghost predicate SameElsewhere(pending: map<int, Flag>, m: map<int, Flag>, p: int) {
    && (forall k :: k != p ==> (k in pending <==> k in m))
    && (forall k :: k != p && k in pending && k in m ==> pending[k] == m[k])
  }

  // ---------------------------------------------------------------------------
  // The operations, on values. `holders` is None when no host is attached
  // (`mRecyclerView == null`), otherwise the positions with a live holder.
  // ---------------------------------------------------------------------------

  /**
   * `removeSelectedPosition`: with a host, p stops being selected; its
   * holder, if live, hears `onItemUnSelected` now, otherwise the change is
   * parked. Nothing happens for an unselected p or without a host.
   */
  function RemoveSelected(s: Selection, holders: Option<set<int>>, p: int): (r: Step)
    ensures holders.None? || p !in s.selected ==> r == Step(s, [])
    ensures holders.Some? ==> r.after.selected == s.selected - {p}
    ensures SameElsewhere(r.after.pending, s.pending, p)
    ensures holders.Some? && p in s.selected ==>
              if p in holders.value then r.fired == [ItemUnSelected(p)] && p !in r.after.pending
              else r.fired == [] && p in r.after.pending && r.after.pending[p] == UnSelectedFlag
  {
    match holders
    case None => Step(s, [])
    case Some(live) =>
      if p !in s.selected then Step(s, [])
      else if p in live then Step(Selection(s.selected - {p}, s.pending - {p}), [ItemUnSelected(p)])
      else Step(Selection(s.selected - {p}, s.pending[p := UnSelectedFlag]), [])
  }

  /**
   * `addSelectedPosition`: with a host, p becomes selected; its holder, if
   * live, hears `onItemSelected` now (even when p was already selected),
   * otherwise the change is parked. Without a host nothing happens.
   */
  function AddSelected(s: Selection, holders: Option<set<int>>, p: int): (r: Step)
    ensures holders.None? ==> r == Step(s, [])
    ensures holders.Some? ==> r.after.selected == s.selected + {p}
    ensures SameElsewhere(r.after.pending, s.pending, p)
    ensures holders.Some? ==>
              if p in holders.value then r.fired == [ItemSelected(p)] && p !in r.after.pending
              else r.fired == [] && p in r.after.pending && r.after.pending[p] == SelectedFlag
  {
    match holders
    case None => Step(s, [])
    case Some(live) =>
      if p in live then Step(Selection(s.selected + {p}, s.pending - {p}), [ItemSelected(p)])
      else Step(Selection(s.selected + {p}, s.pending[p := SelectedFlag]), [])
  }

  /** The first loop of `setSelectedPosition`: keys 0 .. n-1 get the unselected flag. */
  function MarkUnselectedBelow(pending: map<int, Flag>, n: nat): map<int, Flag> {
    if n == 0 then pending else MarkUnselectedBelow(pending, n - 1)[n - 1 := UnSelectedFlag]
  }

  /** The pending map and the callbacks while the previous selection is released. */
  datatype Release = Release(pending: map<int, Flag>, fired: seq<Callback>)

  /**
   * The second loop of `setSelectedPosition`: every previously selected
   * position, in the set's iteration order, hears `onItemUnSelected` now or
   * gets a pending unselected flag.
   */
  function ReleaseAll(pending: map<int, Flag>, live: set<int>, order: seq<int>): Release {
    if order == [] then Release(pending, [])
    else
      var r := ReleaseAll(pending, live, order[..|order| - 1]);
      var q := order[|order| - 1];
      if q in live then Release(r.pending - {q}, r.fired + [ItemUnSelected(q)])
      else Release(r.pending[q := UnSelectedFlag], r.fired)
  }

  /** `order` lists every element of `s` once: the iteration order of the hash set. */
  ghost predicate IsIterationOrder(order: seq<int>, s: set<int>) {
    && (forall i, j :: 0 <= i < j < |order| ==> order[i] != order[j])
    && (forall q :: q in order <==> q in s)
  }

  /** `setSelectedPosition`: exclusive selection of p. */
  function SetSelected(s: Selection, holders: Option<set<int>>, p: int, order: seq<int>): (r: Step)
    requires IsIterationOrder(order, s.selected)
    ensures holders.None? ==> r == Step(s, [])
    ensures holders.Some? ==> r.after.selected == {p}
  {
    match holders
    case None => Step(s, [])
    case Some(live) =>
      var released := ReleaseAll(MarkUnselectedBelow(s.pending, |s.pending|), live, order);
      if p in live then Step(Selection({p}, released.pending - {p}), released.fired + [ItemSelected(p)])
      else Step(Selection({p}, released.pending[p := SelectedFlag]), released.fired)
  }

  /**
   * `onViewAttachedToWindow` for a holder at position p: a pending entry is
   * consumed and its flag delivered; the selected set is never touched.
   */
  function ViewAttached(s: Selection, p: int): (r: Step)
    ensures r.after.selected == s.selected
    ensures p !in s.pending ==> r == Step(s, [])
    ensures p in s.pending ==>
              && r.after.pending == s.pending - {p}
              && r.fired == [if s.pending[p] == SelectedFlag then ItemSelected(p) else ItemUnSelected(p)]
  {
    if p in s.pending then
      var flag := s.pending[p];
      Step(Selection(s.selected, s.pending - {p}),
           [if flag == SelectedFlag then ItemSelected(p) else ItemUnSelected(p)])
    else Step(s, [])
  }

  /** `onBindViewHolder`: the callback that re-asserts p's membership; no state changes. */
  function Bind(s: Selection, p: int): (c: Callback)
    ensures c.position == p
    ensures c.ItemSelected? <==> p in s.selected
  {
    if p in s.selected then ItemSelected(p) else ItemUnSelected(p)
  }

  // ---------------------------------------------------------------------------
  // What the loops of setSelectedPosition leave behind
  // ---------------------------------------------------------------------------

  /** The first loop adds or overwrites exactly the keys 0 .. n-1. */
  lemma {:induction false} MarkUnselectedBelowKeys(pending: map<int, Flag>, n: nat)
    ensures forall k :: k in MarkUnselectedBelow(pending, n) <==> k in pending || 0 <= k < n
    ensures forall k :: 0 <= k < n ==> MarkUnselectedBelow(pending, n)[k] == UnSelectedFlag
    ensures forall k :: !(0 <= k < n) && k in pending ==> MarkUnselectedBelow(pending, n)[k] == pending[k]
  {
    if n > 0 {
      MarkUnselectedBelowKeys(pending, n - 1);
    }
  }

  /**
   * The second loop: a released position with a live holder leaves the
   * pending map and fires exactly one `onItemUnSelected`; one without a
   * holder is flagged unselected; every other entry is untouched.
   */
  lemma {:induction false} ReleaseAllEffect(pending: map<int, Flag>, live: set<int>, order: seq<int>)
    requires forall i, j :: 0 <= i < j < |order| ==> order[i] != order[j]
    ensures var r := ReleaseAll(pending, live, order);
            && (forall k :: k in order && k in live ==> k !in r.pending)
            && (forall k :: k in order && k !in live ==> k in r.pending && r.pending[k] == UnSelectedFlag)
            && (forall k :: k !in order ==> (k in r.pending <==> k in pending))
            && (forall k :: k !in order && k in pending ==> r.pending[k] == pending[k])
            && (forall c :: c in r.fired <==> c.ItemUnSelected? && c.position in order && c.position in live)
            && (forall i, j :: 0 <= i < j < |r.fired| ==> r.fired[i] != r.fired[j])
  {
    if order != [] {
      var init := order[..|order| - 1];
      var q := order[|order| - 1];
      assert forall k :: k in order <==> k in init || k == q;
      assert q !in init;
      ReleaseAllEffect(pending, live, init);
    }
  }

  /**
   * `setSelectedPosition(p)` with a host: every position selected before
   * hears `onItemUnSelected` exactly once if its holder is live, and p hears
   * `onItemSelected` last if its holder is live; the callbacks are distinct.
   */
  lemma SetSelectedCallbacks(s: Selection, live: set<int>, p: int, order: seq<int>)
    requires IsIterationOrder(order, s.selected)
    ensures var r := SetSelected(s, Some(live), p, order);
            && (forall q :: ItemUnSelected(q) in r.fired <==> q in s.selected && q in live)
            && (forall q :: ItemSelected(q) in r.fired <==> q == p && p in live)
            && (p in live ==> r.fired[|r.fired| - 1] == ItemSelected(p))
            && (forall i, j :: 0 <= i < j < |r.fired| ==> r.fired[i] != r.fired[j])
  {
    ReleaseAllEffect(MarkUnselectedBelow(s.pending, |s.pending|), live, order);
  }

  /**
   * `setSelectedPosition(p)` with a host, key by key: p's own entry is
   * written last and wins; a previously selected position loses its entry if
   * its holder is live and is flagged unselected otherwise; keys 0 .. n-1,
   * n being the pending map's size on entry, are flagged unselected even if
   * they were never pending; every other entry is untouched.
   */
  lemma SetSelectedPending(s: Selection, live: set<int>, p: int, order: seq<int>)
    requires IsIterationOrder(order, s.selected)
    ensures var m := SetSelected(s, Some(live), p, order).after.pending;
            && (p in live ==> p !in m)
            && (p !in live ==> p in m && m[p] == SelectedFlag)
            && (forall q :: q != p && q in s.selected && q in live ==> q !in m)
            && (forall q :: q != p && q in s.selected && q !in live ==> q in m && m[q] == UnSelectedFlag)
            && (forall q :: q != p && q !in s.selected && 0 <= q < |s.pending| ==> q in m && m[q] == UnSelectedFlag)
            && (forall q :: q != p && q !in s.selected && !(0 <= q < |s.pending|) ==> (q in m <==> q in s.pending))
            && (forall q :: q != p && q !in s.selected && !(0 <= q < |s.pending|) && q in s.pending ==> m[q] == s.pending[q])
  {
    MarkUnselectedBelowKeys(s.pending, |s.pending|);
    ReleaseAllEffect(MarkUnselectedBelow(s.pending, |s.pending|), live, order);
  }

  /**
   * Every position selected before `setSelectedPosition(p)`, other than p,
   * is released exactly one way: an immediate `onItemUnSelected` or a
   * pending unselected flag.
   */
  lemma SetSelectedReleasesEachOnce(s: Selection, live: set<int>, p: int, order: seq<int>, q: int)
    requires IsIterationOrder(order, s.selected)
    requires q in s.selected && q != p
    ensures var r := SetSelected(s, Some(live), p, order);
            (ItemUnSelected(q) in r.fired) != (q in r.after.pending && r.after.pending[q] == UnSelectedFlag)
  {
    SetSelectedCallbacks(s, live, p, order);
    SetSelectedPending(s, live, p, order);
  }

  // ---------------------------------------------------------------------------
  // The invariant and how operations combine
  // ---------------------------------------------------------------------------

  /** Every operation keeps pending "selected" flags on selected positions only. */
  lemma OperationsKeepInvariant(s: Selection, holders: Option<set<int>>, p: int)
    requires PendingSelectionIsSelected(s)
    ensures PendingSelectionIsSelected(AddSelected(s, holders, p).after)
    ensures PendingSelectionIsSelected(RemoveSelected(s, holders, p).after)
    ensures PendingSelectionIsSelected(ViewAttached(s, p).after)
  {
  }

  /** `setSelectedPosition` keeps the invariant: the only pending "selected" flag left is p's. */
  lemma SetSelectedKeepsInvariant(s: Selection, holders: Option<set<int>>, p: int, order: seq<int>)
    requires PendingSelectionIsSelected(s) && IsIterationOrder(order, s.selected)
    ensures PendingSelectionIsSelected(SetSelected(s, holders, p, order).after)
  {
    if holders.Some? {
      SetSelectedPending(s, holders.value, p, order);
    }
  }

  /** Under the invariant an attached holder is told "selected" only for a selected position. */
  lemma AttachAgreesWithSelection(s: Selection, p: int)
    requires PendingSelectionIsSelected(s)
    ensures ItemSelected(p) in ViewAttached(s, p).fired ==> p in s.selected
  {
  }

  /**
   * Selecting a position whose holder is not live fires nothing; attaching
   * a holder for it later fires `onItemSelected` exactly once and leaves
   * nothing pending for it.
   */
  lemma DeferredSelectionFiresOnAttach(s: Selection, live: set<int>, p: int)
    requires p !in live
    ensures var added := AddSelected(s, Some(live), p);
            var attached := ViewAttached(added.after, p);
            && added.fired == []
            && attached.fired == [ItemSelected(p)]
            && p !in attached.after.pending
            && p in attached.after.selected
  {
  }

  /** There is no "already selected" guard: adding a live position twice fires twice. */
  lemma AddTwiceFiresTwice(s: Selection, live: set<int>, p: int)
    requires p in live
    ensures var first := AddSelected(s, Some(live), p);
            var second := AddSelected(first.after, Some(live), p);
            && first.fired == [ItemSelected(p)] && second.fired == [ItemSelected(p)]
            && second.after == first.after
  {
  }

  /** Removing undoes adding for a position that was not selected. */
  lemma RemoveUndoesAdd(s: Selection, holders: set<int>, p: int)
    requires p !in s.selected
    ensures var added := AddSelected(s, Some(holders), p);
            var removed := RemoveSelected(added.after, Some(holders), p);
            && removed.after.selected == s.selected
            && (p in holders ==> added.fired + removed.fired == [ItemSelected(p), ItemUnSelected(p)])
            && (p in holders && p !in s.pending ==> removed.after.pending == s.pending)
  {
    var added := AddSelected(s, Some(holders), p);
    var removed := RemoveSelected(added.after, Some(holders), p);
    if p in holders && p !in s.pending {
      assert removed.after.pending == s.pending - {p};
    }
  }

  /** A call of `addSelectedPosition` or `removeSelectedPosition`. */
  datatype Call = Add(position: int) | Remove(position: int)

  /** A sequence of calls against a host whose live holders do not change. */
  function Run(s: Selection, live: set<int>, calls: seq<Call>): Selection {
    if calls == [] then s
    else
      var c := calls[|calls| - 1];
      var before := Run(s, live, calls[..|calls| - 1]);
      match c
      case Add(q) => AddSelected(before, Some(live), q).after
      case Remove(q) => RemoveSelected(before, Some(live), q).after
  }

  /** Whether the last call naming q in `calls` is an add; None when no call names q. */
  function LastCallOn(calls: seq<Call>, q: int): Option<bool> {
    if calls == [] then None
    else if calls[|calls| - 1].position == q then Some(calls[|calls| - 1].Add?)
    else LastCallOn(calls[..|calls| - 1], q)
  }

  /**
   * After any sequence of adds and removes, a position is selected exactly
   * when the last call naming it was an add (or, if none named it, when it
   * was selected before).
   */
  lemma {:induction false} LastCallDecidesMembership(s: Selection, live: set<int>, calls: seq<Call>, q: int)
    ensures q in Run(s, live, calls).selected <==>
              match LastCallOn(calls, q)
              case Some(added) => added
              case None => q in s.selected
  {
    if calls != [] {
      LastCallDecidesMembership(s, live, calls[..|calls| - 1], q);
    }
  }

  // ---------------------------------------------------------------------------
  // The adapter object
  // ---------------------------------------------------------------------------

  /** The attached `RecyclerView`, reduced to the positions that have a live holder. */
  class RecyclerHost {
    var liveHolders: set<int>

    constructor (liveHolders: set<int>)
      ensures this.liveHolders == liveHolders
    {
      this.liveHolders := liveHolders;
    }
  }

  class SimpleItemSelectedAdapter {
    var pending: map<int, Flag>
    var selected: set<int>
    var recyclerView: RecyclerHost?
    /** Every `onItemSelected` / `onItemUnSelected` call so far, in order. */
    var callbacks: seq<Callback>

    function Snapshot(): Selection
      reads this
    {
      Selection(selected, pending)
    }

    /** What `findViewHolderForAdapterPosition` can find, or None without a host. */
    function Holders(): Option<set<int>>
      reads this, recyclerView
    {
      if recyclerView == null then None else Some(recyclerView.liveHolders)
    }

    ghost predicate Valid()
      reads this
    {
      PendingSelectionIsSelected(Snapshot())
    }

    constructor ()
      ensures Valid()
      ensures selected == {} && pending == map[] && recyclerView == null && callbacks == []
    {
      pending, selected, recyclerView, callbacks := map[], {}, null, [];
    }

    /** `onAttachedToRecyclerView`. */
    method OnAttachedToRecyclerView(host: RecyclerHost)
      requires Valid()
      modifies this`recyclerView
      ensures Valid() && recyclerView == host
    {
      recyclerView := host;
    }

    /** `onDetachedFromRecyclerView`. */
    method OnDetachedFromRecyclerView()
      requires Valid()
      modifies this`recyclerView
      ensures Valid() && recyclerView == null
    {
      recyclerView := null;
    }

    method RemoveSelectedPosition(position: int)
      requires Valid()
      modifies this`pending, this`selected, this`callbacks
      ensures Valid()
      ensures var r := RemoveSelected(old(Snapshot()), Holders(), position);
              Snapshot() == r.after && callbacks == old(callbacks) + r.fired
    {
      OperationsKeepInvariant(Snapshot(), Holders(), position);
      if recyclerView != null {
        if position in selected {
          if position in recyclerView.liveHolders {
            pending := pending - {position};
            callbacks := callbacks + [ItemUnSelected(position)];
          } else {
            pending := pending[position := UnSelectedFlag];
          }
          selected := selected - {position};
        }
      }
    }

    method AddSelectedPosition(position: int)
      requires Valid()
      modifies this`pending, this`selected, this`callbacks
      ensures Valid()
      ensures var r := AddSelected(old(Snapshot()), Holders(), position);
              Snapshot() == r.after && callbacks == old(callbacks) + r.fired
    {
      OperationsKeepInvariant(Snapshot(), Holders(), position);
      if recyclerView != null {
        if position in recyclerView.liveHolders {
          pending := pending - {position};
          callbacks := callbacks + [ItemSelected(position)];
        } else {
          pending := pending[position := SelectedFlag];
        }
        selected := selected + {position};
      }
    }

    /** `setSelectedPosition`; `order` is the iteration order of `mSelectedPositions`. */
    method SetSelectedPosition(position: int, order: seq<int>)
      requires Valid() && IsIterationOrder(order, selected)
      modifies this`pending, this`selected, this`callbacks
      ensures Valid()
      ensures var r := SetSelected(old(Snapshot()), Holders(), position, order);
              Snapshot() == r.after && callbacks == old(callbacks) + r.fired
    {
      ghost var before, holders := Snapshot(), Holders();
      if recyclerView != null {
        var live := recyclerView.liveHolders;
        var m, fired := pending, [];
        for k := 0 to |pending|
          invariant m == MarkUnselectedBelow(pending, k)
        {
          m := m[k := UnSelectedFlag];
        }
        ghost var marked := m;
        assert order[..0] == [];
        for j := 0 to |order|
          invariant m == ReleaseAll(marked, live, order[..j]).pending
          invariant fired == ReleaseAll(marked, live, order[..j]).fired
        {
          assert order[..j + 1][..j] == order[..j];
          var q := order[j];
          if q in live {
            m := m - {q};
            fired := fired + [ItemUnSelected(q)];
          } else {
            m := m[q := UnSelectedFlag];
          }
        }
        assert order[..|order|] == order;
        if position in live {
          m := m - {position};
          fired := fired + [ItemSelected(position)];
        } else {
          m := m[position := SelectedFlag];
        }
        pending, selected, callbacks := m, {position}, callbacks + fired;
      }
      assert Snapshot() == SetSelected(before, holders, position, order).after;
      SetSelectedKeepsInvariant(before, holders, position, order);
    }

    /** `onViewAttachedToWindow` for a holder whose adapter position is `position`. */
    method OnViewAttachedToWindow(position: int)
      requires Valid()
      modifies this`pending, this`callbacks
      ensures Valid()
      ensures var r := ViewAttached(old(Snapshot()), position);
              Snapshot() == r.after && callbacks == old(callbacks) + r.fired
    {
      OperationsKeepInvariant(Snapshot(), Holders(), position);
      if position in pending {
        var flag := pending[position];
        pending := pending - {position};
        if flag == SelectedFlag {
          callbacks := callbacks + [ItemSelected(position)];
        } else {
          callbacks := callbacks + [ItemUnSelected(position)];
        }
      }
    }

    /** `onBindViewHolder`: fires the membership callback and changes nothing else. */
    method OnBindViewHolder(position: int)
      requires Valid()
      modifies this`callbacks
      ensures Valid()
      ensures callbacks == old(callbacks) + [Bind(Snapshot(), position)]
    {
      if position in selected {
        callbacks := callbacks + [ItemSelected(position)];
      } else {
        callbacks := callbacks + [ItemUnSelected(position)];
      }
    }
  }
}
