/** The engine behind the `Readapt` component and its virtual items, stripped of React: one object
    whose methods are the steps a render cycle runs in order. A render pass is `RefreshCallback`,
    `ResetPass` and `PreparePlaceholders`, then, for each item in render order, `ResolveItemSize`
    and `PlaceItem`; after the pass come the items' layout effects
    (`ItemLayoutEffects`), the container's layout effect (`ContainerLayoutEffect`) and, one display
    frame later, the measurement batch (`MeasureDynamicSizes`). Scrolling, `invalidateSize` and the
    unmounting of an item may happen between passes; `DeliverUpdate` stands for React applying the
    scheduled render-bit change. */
module Engine {
  import opened Common
  import opened Sizes
  import opened Resolver
  import opened Passes
  import opened Measurement
  import opened Placeholders
  import opened Updates

  /** The scroll container's geometry as read from the DOM. */
  datatype ScrollBox = ScrollBox(scrollTop: int, clientHeight: int)

  /** How many placements were mounted off-screen for measurement. */
  function MountedForMeasurement(ps: seq<Placement>): nat
    decreases |ps|
  {
    if ps == [] then 0
    else
      var last := ps[|ps| - 1];
      MountedForMeasurement(ps[..|ps| - 1]) + (if last.y == STAGING_Y && !last.isDataOnlyRender then 1 else 0)
  }

  /** The component-lifetime store: the size of every item id and the value of every category. */
  datatype Store = Store(sizes: SizeMap, values: CategoryMap)

  /** What a render pass carries from one item to the next: the store, the quota of items mounted
      for measurement, the invalidated set, the measurement queue, and the sizes and placements of
      the items rendered so far. */
  datatype PassState = PassState(store: Store, quota: nat, invalidatedIDs: set<string>, queue: seq<string>,
                                 order: seq<string>, sizes: seq<Option<SizeEntry>>, placements: seq<Placement>)

  /** One item's render on values: the item resolves its size in the store, then takes the
      resolver's decision at the cursor, the sum of the positive sizes placed before it. */
  function RenderStep(st: PassState, item: Item, passDataOnly: bool, scrollTop: int, viewHeight: int): (r: PassState)
    requires st.quota <= MAX_DYNAMIC_CALCULATION_PER_BATCH
    ensures r.quota <= MAX_DYNAMIC_CALCULATION_PER_BATCH
    ensures |r.order| == |st.order| + 1 && |r.sizes| == |st.sizes| + 1 && |r.placements| == |st.placements| + 1
  {
    var resolved := ResolveSize(st.store.sizes, st.store.values, item);
    var c := Classify(PassCursor(st.sizes), passDataOnly, st.quota, resolved.size, item, scrollTop, viewHeight);
    var p := Placement(c.y, c.isDataOnlyRender, |st.placements|);
    PassState(
      Store(resolved.sizes, resolved.values),
      c.quota,
      (st.invalidatedIDs - {item.id}) + (if Requeued(p, item) then {item.id} else {}),
      if Queued(p, item) then SetAdd(st.queue, item.id) else st.queue,
      st.order + [item.id],
      st.sizes + [resolved.size],
      st.placements + [p])
  }

  /** The pass state after the given items rendered in order, starting from `st`. */
  function RenderAll(st: PassState, items: seq<Item>, passDataOnly: bool, scrollTop: int, viewHeight: int): (r: PassState)
    requires st.quota <= MAX_DYNAMIC_CALCULATION_PER_BATCH
    ensures r.quota <= MAX_DYNAMIC_CALCULATION_PER_BATCH
    ensures |r.order| == |st.order| + |items|
    ensures |r.sizes| == |st.sizes| + |items| && |r.placements| == |st.placements| + |items|
    decreases |items|
  {
    if items == [] then st
    else
      var k := |items| - 1;
      RenderStep(RenderAll(st, items[..k], passDataOnly, scrollTop, viewHeight), items[k], passDataOnly, scrollTop, viewHeight)
  }

  class Readapt {
    // The component-lifetime store (the `state` ref).
    var sizes: SizeMap
    var categoryValues: CategoryMap
    var viewHeight: int
    var scrollTop: int

    // The render bit (a counter stands for the random number) and the update guard: `flipped`
    // belongs to the callback instance made for render bit `callbackBit`.
    var renderBit: nat
    var callbackBit: nat
    var flipped: bool
    var pending: Schedule
    ghost var updatesScheduled: nat

    // The render-pass state (the `renderPassState` ref).
    var y: int
    var order: seq<string>
    var invalidatedIDs: set<string>
    var dynamicSizeIDs: seq<string>
    var quota: nat
    var isDataOnlyRender: bool
    var invalidated: bool
    var prevOrder: seq<string>
    /** The sizes the items of this pass were placed with, in order. */
    ghost var passSizes: seq<Option<SizeEntry>>

    // What the pass computed for the container.
    var placeholderSize: Option<int>
    var containerHeight: Option<int>

    /** The store only holds what the engine writes: claim sentinels or measured heights as
        category values, and references to categories that have a value. */
    ghost predicate StoreValid()
      reads this`sizes, this`categoryValues
    {
      StoreWellFormed(sizes, categoryValues)
    }

    /** A pending update belongs to the current callback instance, which has fired; a render bit
        that moved past the callback's means that callback has fired. */
    ghost predicate GuardValid()
      reads this`flipped, this`pending, this`renderBit, this`callbackBit
    {
      (pending != Idle ==> flipped && renderBit == callbackBit) &&
      (renderBit != callbackBit ==> flipped)
    }

    /** The quota bound, and the measurement queue is a set. */
    ghost predicate QueueValid()
      reads this`quota, this`dynamicSizeIDs
    {
      quota <= MAX_DYNAMIC_CALCULATION_PER_BATCH && NoDuplicates(dynamicSizeIDs)
    }

    /** The cursor is the sum of the positive sizes of the items placed so far. */
    ghost predicate CursorValid()
      reads this`order, this`passSizes, this`y
    {
      |passSizes| == |order| && y == PassCursor(passSizes)
    }

    ghost predicate PassValid()
      reads this`quota, this`dynamicSizeIDs, this`order, this`passSizes, this`y
    {
      QueueValid() && CursorValid()
    }

    ghost predicate Valid()
      reads this
    {
      StoreValid() && GuardValid() && PassValid()
    }

    /** The update guard's state as seen by the current callback instance. */
    ghost function FlipView(): FlipState
      reads this
    {
      FlipState(flipped, pending, updatesScheduled)
    }

    /** Mounting: empty store, zero viewport, nothing scheduled. */
    constructor ()
      ensures Valid()
      ensures sizes == map[] && categoryValues == map[] && viewHeight == 0 && scrollTop == 0
      ensures !flipped && pending == Idle && updatesScheduled == 0 && renderBit == callbackBit
      ensures y == 0 && order == [] && invalidatedIDs == {} && dynamicSizeIDs == [] && quota == 0
      ensures !isDataOnlyRender && !invalidated && prevOrder == [] && passSizes == []
      ensures placeholderSize == None && containerHeight == None
    {
      sizes, categoryValues, viewHeight, scrollTop := map[], map[], 0, 0;
      renderBit, callbackBit, flipped, pending, updatesScheduled := 0, 0, false, Idle, 0;
      y, order, invalidatedIDs, dynamicSizeIDs, quota := 0, [], {}, [], 0;
      isDataOnlyRender, invalidated, prevOrder, passSizes := false, false, [], [];
      placeholderSize, containerHeight := None, None;
    }

    /** `flipRenderBit(fast)`: the first call of a callback instance schedules one update, at once
        when `fast`, at the next frame otherwise; later calls of the same instance do nothing. */
    method RequestUpdate(fast: bool)
      requires Valid()
      modifies this`flipped, this`pending, this`updatesScheduled
      ensures Valid()
      ensures FlipView() == Flip(old(FlipView()), fast)
    {
      if flipped {
        return;
      }
      flipped := true;
      pending := if fast then Immediate else NextFrame;
      updatesScheduled := updatesScheduled + 1;
    }

    /** React applies the scheduled `setRenderBit`: the render bit changes and a pass follows. */
    method DeliverUpdate()
      requires Valid()
      modifies this`renderBit, this`pending
      ensures Valid()
      ensures old(pending) != Idle ==> renderBit == old(renderBit) + 1 && pending == Idle
      ensures old(pending) == Idle ==> renderBit == old(renderBit) && pending == Idle
    {
      if pending != Idle {
        renderBit := renderBit + 1;
        pending := Idle;
      }
    }

    /** `state.current.flipRenderBit = flipRenderBit` at the top of a render: the memoised callback
        is replaced, with a fresh guard, only when the render bit changed since it was made. */
    method RefreshCallback()
      requires GuardValid()
      modifies this`callbackBit, this`flipped
      ensures GuardValid()
      ensures callbackBit == renderBit
      ensures old(renderBit) != old(callbackBit) ==> !flipped
      ensures old(renderBit) == old(callbackBit) ==> flipped == old(flipped)
    {
      if renderBit != callbackBit {
        callbackBit := renderBit;
        flipped := false;
      }
    }

    /** The pass reset: snapshot the previous order, carry the invalidated ids over, reset the
        cursor, order, quota, queue and flags, and mark the pass structural when the children changed. */
    method ResetPass(childrenChanged: bool, invalidationBitChanged: bool)
      requires PassValid()
      modifies this`prevOrder, this`invalidatedIDs, this`y, this`order, this`quota, this`dynamicSizeIDs,
        this`invalidated, this`isDataOnlyRender, this`passSizes
      ensures PassValid()
      ensures prevOrder == old(order)
      ensures invalidatedIDs == CarriedOver(old(invalidatedIDs), old(order), invalidationBitChanged)
      ensures y == 0 && order == [] && quota == 0 && dynamicSizeIDs == [] && passSizes == []
      ensures isDataOnlyRender == childrenChanged && invalidated == childrenChanged
    {
      prevOrder := order;
      invalidatedIDs := CarryOver(invalidatedIDs, order, invalidationBitChanged);
      y, order, quota, dynamicSizeIDs := 0, [], 0, [];
      invalidated, isDataOnlyRender := false, false;
      passSizes := [];
      if childrenChanged {
        isDataOnlyRender, invalidated := true, true;
      }
    }

    /** The placeholder size of the pass and its fillers (returned as their indices). */
    method PreparePlaceholders(placeholders: Option<PlaceholderOptions>) returns (fillers: seq<nat>)
      modifies this`placeholderSize
      ensures placeholderSize == PlaceholderSize(placeholders, categoryValues)
      ensures |fillers| == FillerCount(placeholderSize, viewHeight)
      ensures forall i :: 0 <= i < |fillers| ==> fillers[i] == i
    {
      placeholderSize := PlaceholderSize(placeholders, categoryValues);
      fillers := BuildPlaceholders(placeholderSize, viewHeight);
    }

    /** Size resolution of one item: a category is recorded for the id and claimed when it has no
        value yet (otherwise its value is reused and the id leaves the invalidated set); an explicit
        size is stored; otherwise the stored entry is read back. Existing category values other than
        0 are never changed. */
    method ResolveItemSize(item: Item) returns (size: Option<SizeEntry>)
      requires StoreValid()
      modifies this`sizes, this`categoryValues, this`invalidatedIDs
      ensures StoreValid()
      ensures var r := ResolveSize(old(sizes), old(categoryValues), item);
        sizes == r.sizes && categoryValues == r.values && size == r.size &&
        invalidatedIDs == (if r.reused then old(invalidatedIDs) - {item.id} else old(invalidatedIDs))
      ensures forall c :: c in old(categoryValues) && old(categoryValues)[c] != 0 ==>
        c in categoryValues && categoryValues[c] == old(categoryValues)[c]
    {
      if NameTruthy(item.category) {
        var category := item.category.value;
        sizes := sizes[item.id := Ref(category)];
        var sharedSize := Lookup(categoryValues, category);
        if !NumTruthy(sharedSize) && sharedSize != Some(SIZE_CATEGORY_BEING_CALCULATED) {
          categoryValues := categoryValues[category := SIZE_CATEGORY_BEING_CALCULATED];
          size := AsEntry(item.size);
        } else {
          invalidatedIDs := invalidatedIDs - {item.id};
          size := Some(Px(sharedSize.value));
        }
      } else if NumTruthy(item.size) {
        sizes := sizes[item.id := Px(item.size.value)];
        size := Some(Px(item.size.value));
      } else {
        size := Lookup(sizes, item.id);
      }
    }

    /** The placement decision of one item of resolved size, taken at the current cursor: the
        item leaves the invalidated set; it is data-only when the pass is or when its known band
        misses the viewport; an item of unknown size is staged off-screen and mounted while the
        quota lasts, otherwise left data-only (and put back into the invalidated set unless it has
        a category); a mounted item without an explicit size, or with a category, is queued for
        measurement. */
    method ClassifyItem(item: Item, size: Option<SizeEntry>) returns (itemY: int, dataOnly: bool)
      requires QueueValid()
      modifies this`invalidatedIDs, this`quota, this`dynamicSizeIDs
      ensures QueueValid()
      ensures var c := Classify(y, isDataOnlyRender, old(quota), size, item, scrollTop, viewHeight);
        itemY == c.y && dataOnly == c.isDataOnlyRender && quota == c.quota &&
        invalidatedIDs == (old(invalidatedIDs) - {item.id}) + (if c.requeue then {item.id} else {}) &&
        dynamicSizeIDs == (if c.candidate then SetAdd(old(dynamicSizeIDs), item.id) else old(dynamicSizeIDs))
      ensures itemY == (if Staged(size, item.category) then STAGING_Y else y)
      ensures quota == old(quota) + (if Staged(size, item.category) && !dataOnly then 1 else 0)
    {
      ghost var c := Classify(y, isDataOnlyRender, quota, size, item, scrollTop, viewHeight);
      var cursor := y;
      dataOnly := isDataOnlyRender;
      invalidatedIDs := invalidatedIDs - {item.id};
      if !isDataOnlyRender && IsPositive(size) && OutsideViewport(cursor, size.value.px, scrollTop, viewHeight) {
        dataOnly := true;
      }
      itemY := cursor;
      if Staged(size, item.category) {
        itemY := STAGING_Y;
        if quota < MAX_DYNAMIC_CALCULATION_PER_BATCH {
          quota := quota + 1;
          dataOnly := false;
        } else {
          dataOnly := true;
          if !NameTruthy(item.category) {
            invalidatedIDs := invalidatedIDs + {item.id};
          }
        }
      }
      assert itemY == c.y && dataOnly == c.isDataOnlyRender && quota == c.quota;
      if !dataOnly && (IsDynamicSize(item) || NameTruthy(item.category)) {
        dynamicSizeIDs := SetAdd(dynamicSizeIDs, item.id);
      }
    }

    /** Placing one item of resolved size: append it to the order, take the placement decision at
        the cursor, then advance the cursor by the item's positive size. A known-size item sits at
        the cursor, that is at the sum of the positive sizes placed before it. */
    method PlaceItem(item: Item, size: Option<SizeEntry>) returns (p: Placement)
      requires PassValid()
      modifies this`order, this`invalidatedIDs, this`quota, this`dynamicSizeIDs, this`y, this`passSizes
      ensures PassValid()
      ensures var c := Classify(old(y), isDataOnlyRender, old(quota), size, item, scrollTop, viewHeight);
        p == Placement(c.y, c.isDataOnlyRender, |old(order)|) && quota == c.quota
      ensures invalidatedIDs == (old(invalidatedIDs) - {item.id}) + (if Requeued(p, item) then {item.id} else {})
      ensures dynamicSizeIDs == (if Queued(p, item) then SetAdd(old(dynamicSizeIDs), item.id) else old(dynamicSizeIDs))
      ensures order == old(order) + [item.id] && passSizes == old(passSizes) + [size]
      ensures y == old(y) + Advance(size)
      ensures p.y == (if Staged(size, item.category) then STAGING_Y else PassCursor(old(passSizes)))
      ensures quota == old(quota) + (if p.y == STAGING_Y && !p.isDataOnlyRender then 1 else 0)
    {
      var orderIndex := |order|;
      DecisionFlags(y, isDataOnlyRender, quota, size, item, scrollTop, viewHeight, orderIndex);
      order := order + [item.id];
      var itemY, dataOnly := ClassifyItem(item, size);
      if IsPositive(size) {
        y := y + size.value.px;
      }
      CursorAdvances(passSizes, size);
      passSizes := passSizes + [size];
      p := Placement(itemY, dataOnly, orderIndex);
    }

    /** The layout effect of every item of the pass, in render order: outside a structural pass, an
        item whose index differs from its index in the previous order requests an update. */
    method ItemLayoutEffects()
      requires Valid()
      modifies this`flipped, this`pending, this`updatesScheduled
      ensures Valid()
      ensures !invalidated && AnyMisplaced(prevOrder, order) ==> FlipView() == Flip(old(FlipView()), false)
      ensures !(!invalidated && AnyMisplaced(prevOrder, order)) ==> FlipView() == old(FlipView())
    {
      for i := 0 to |order|
        invariant Valid()
        invariant !invalidated && (exists j :: 0 <= j < i && IndexOf(prevOrder, order[j]) != j) ==>
          FlipView() == Flip(old(FlipView()), false)
        invariant !(!invalidated && (exists j :: 0 <= j < i && IndexOf(prevOrder, order[j]) != j)) ==>
          FlipView() == old(FlipView())
      {
        if !invalidated && IndexOf(prevOrder, order[i]) != i {
          RequestUpdate(false);
        }
      }
    }

    /** The container's layout effect: read the viewport height and move the fillers, size the
        container to the cursor when it is above 0, tell whether the measurement batch is scheduled,
        and request a corrective update when the pass was structural or left ids invalidated. */
    method ContainerLayoutEffect(scroll: Option<ScrollBox>, containerMounted: bool, placeholderRefs: seq<bool>)
      returns (writes: seq<Option<StyleWrite>>, scheduleMeasurement: bool)
      requires Valid()
      modifies this`viewHeight, this`containerHeight, this`flipped, this`pending, this`updatesScheduled
      ensures Valid()
      ensures scroll.Some? ==> viewHeight == scroll.value.clientHeight
      ensures scroll.None? ==> viewHeight == old(viewHeight) && writes == []
      ensures scroll.Some? && !NumTruthy(placeholderSize) ==> writes == []
      ensures scroll.Some? && NumTruthy(placeholderSize) ==>
        writes == Writes(placeholderRefs, PlaceholderStart(scroll.value.scrollTop, placeholderSize.value), placeholderSize.value, y)
      ensures containerMounted && y > 0 ==> containerHeight == Some(y)
      ensures !(containerMounted && y > 0) ==> containerHeight == old(containerHeight)
      ensures scheduleMeasurement <==> dynamicSizeIDs != []
      ensures invalidated || invalidatedIDs != {} ==> FlipView() == Flip(old(FlipView()), false)
      ensures !(invalidated || invalidatedIDs != {}) ==> FlipView() == old(FlipView())
    {
      writes := [];
      if scroll.Some? {
        viewHeight := scroll.value.clientHeight;
        writes := UpdatePlaceholders(placeholderRefs, scroll.value.scrollTop, placeholderSize, y);
      }
      if containerMounted && y > 0 {
        containerHeight := Some(y);
      }
      scheduleMeasurement := |dynamicSizeIDs| > 0;
      if invalidated || |invalidatedIDs| > 0 {
        RequestUpdate(false);
      }
    }

    /** The measurement batch of the last pass, one frame after its layout: `measure` gives the
        height of every queued element found in the container. Any change of the store requests an
        update (the repeated requests of the source collapse into the first one). */
    method MeasureDynamicSizes(containerMounted: bool, measure: map<string, nat>)
      requires Valid()
      modifies this`sizes, this`categoryValues, this`invalidatedIDs, this`flipped, this`pending, this`updatesScheduled
      ensures Valid()
      ensures !containerMounted ==>
        sizes == old(sizes) && categoryValues == old(categoryValues) && invalidatedIDs == old(invalidatedIDs) &&
        FlipView() == old(FlipView())
      ensures containerMounted ==>
        var b := Batch(BatchState(old(sizes), old(categoryValues), old(invalidatedIDs), {}, false), dynamicSizeIDs, measure);
        sizes == b.sizes && categoryValues == b.values && invalidatedIDs == b.invalidatedIDs &&
        FlipView() == (if b.requested then Flip(old(FlipView()), false) else old(FlipView()))
    {
      if !containerMounted {
        return;
      }
      var b := MeasureBatch(sizes, categoryValues, invalidatedIDs, dynamicSizeIDs, measure);
      BatchKeepsStoreWellFormed(BatchState(sizes, categoryValues, invalidatedIDs, {}, false), dynamicSizeIDs, measure);
      sizes, categoryValues, invalidatedIDs := b.sizes, b.values, b.invalidatedIDs;
      if b.requested {
        RequestUpdate(false);
      }
    }

    /** An item unmounts: it leaves the measurement queue and the invalidated set. */
    method RemoveItem(id: string)
      requires Valid()
      modifies this`dynamicSizeIDs, this`invalidatedIDs
      ensures Valid()
      ensures dynamicSizeIDs == SetRemove(old(dynamicSizeIDs), id) && id !in dynamicSizeIDs
      ensures invalidatedIDs == old(invalidatedIDs) - {id}
    {
      dynamicSizeIDs := SetRemove(dynamicSizeIDs, id);
      invalidatedIDs := invalidatedIDs - {id};
    }

    /** `invalidateSize` of a rendered item: with the outside-viewport deoptimisation on, an item
        without an explicit size is invalidated and queued for measurement; a fast update is always
        requested. */
    method InvalidateSize(item: Item, itemsOutsideViewportCanChangeSize: bool)
      requires Valid()
      modifies this`dynamicSizeIDs, this`invalidatedIDs, this`flipped, this`pending, this`updatesScheduled
      ensures Valid()
      ensures itemsOutsideViewportCanChangeSize && IsDynamicSize(item) ==>
        invalidatedIDs == old(invalidatedIDs) + {item.id} && dynamicSizeIDs == SetAdd(old(dynamicSizeIDs), item.id)
      ensures !(itemsOutsideViewportCanChangeSize && IsDynamicSize(item)) ==>
        invalidatedIDs == old(invalidatedIDs) && dynamicSizeIDs == old(dynamicSizeIDs)
      ensures FlipView() == Flip(old(FlipView()), true)
    {
      if itemsOutsideViewportCanChangeSize && IsDynamicSize(item) {
        invalidatedIDs := invalidatedIDs + {item.id};
        dynamicSizeIDs := SetAdd(dynamicSizeIDs, item.id);
      }
      RequestUpdate(true);
    }

    /** The scroll handler: record the scroll offset and request a fast update. */
    method HandleScroll(scroll: Option<ScrollBox>)
      requires Valid()
      modifies this`scrollTop, this`flipped, this`pending, this`updatesScheduled
      ensures Valid()
      ensures scroll.None? ==> scrollTop == old(scrollTop) && FlipView() == old(FlipView())
      ensures scroll.Some? ==> scrollTop == scroll.value.scrollTop && FlipView() == Flip(old(FlipView()), true)
    {
      if scroll.None? {
        return;
      }
      scrollTop := scroll.value.scrollTop;
      RequestUpdate(true);
    }

    /** One virtual item's render: size resolution, then placement. Seen from the pass, the item
        is appended to the order, sits at the staging offset exactly when its size is unknown and
        at the cursor otherwise, and uses a unit of quota exactly when it is mounted off-screen. */
    method RenderItem(item: Item, ghost placed: seq<Placement>) returns (size: Option<SizeEntry>, p: Placement)
      requires Valid() && |placed| == |order|
      modifies this`sizes, this`categoryValues, this`invalidatedIDs, this`order, this`quota,
        this`dynamicSizeIDs, this`y, this`passSizes
      ensures Valid()
      ensures passSizes == old(passSizes) + [size]
      ensures PassState(Store(sizes, categoryValues), quota, invalidatedIDs, dynamicSizeIDs, order, passSizes, placed + [p]) ==
        RenderStep(PassState(Store(old(sizes), old(categoryValues)), old(quota), old(invalidatedIDs), old(dynamicSizeIDs),
                             old(order), old(passSizes), placed), item, isDataOnlyRender, scrollTop, viewHeight)
    {
      ghost var order0, passSizes0, quota0, y0 := order, passSizes, quota, y;
      ghost var invalidated0, queue0 := invalidatedIDs, dynamicSizeIDs;
      size := ResolveItemSize(item);
      assert order == order0 && passSizes == passSizes0 && quota == quota0 && y == y0;
      assert dynamicSizeIDs == queue0;
      assert invalidatedIDs - {item.id} == invalidated0 - {item.id};
      assert PassValid() && GuardValid();
      ghost var sizes1, values1 := sizes, categoryValues;
      assert StoreWellFormed(sizes1, values1);
      p := PlaceItem(item, size);
      assert order == order0 + [item.id] && passSizes == passSizes0 + [size];
      assert sizes == sizes1 && categoryValues == values1;
      assert StoreValid() && GuardValid();
    }

    /** The items of a pass, rendered in order right after the reset: the order lists them, and
        the store, the quota, the invalidated set, the measurement queue, the sizes and the
        placements are those of `RenderAll` from the state before. */
    method RenderItems(items: seq<Item>) returns (placements: seq<Placement>, ghost start: PassState)
      requires Valid() && order == []
      modifies this`sizes, this`categoryValues, this`invalidatedIDs, this`order, this`quota,
        this`dynamicSizeIDs, this`y, this`passSizes
      ensures Valid()
      ensures start == PassState(Store(old(sizes), old(categoryValues)), old(quota), old(invalidatedIDs), old(dynamicSizeIDs),
                                 [], [], [])
      ensures PassState(Store(sizes, categoryValues), quota, invalidatedIDs, dynamicSizeIDs, order, passSizes, placements) ==
        RenderAll(start, items, isDataOnlyRender, scrollTop, viewHeight)
    {
      start := PassState(Store(sizes, categoryValues), quota, invalidatedIDs, dynamicSizeIDs, order, passSizes, []);
      placements := [];
      for k := 0 to |items|
        invariant Valid()
        invariant PassState(Store(sizes, categoryValues), quota, invalidatedIDs, dynamicSizeIDs, order, passSizes, placements) ==
          RenderAll(start, items[..k], isDataOnlyRender, scrollTop, viewHeight)
      {
        placements := RenderNextItem(items, k, start, placements);
      }
      assert items[..|items|] == items;
    }

    /** The k-th item of a pass rendered after the items before it: the pass state moves from
        that of the first k items to that of the first k + 1. */
    method RenderNextItem(items: seq<Item>, k: nat, ghost start: PassState, placed: seq<Placement>)
      returns (placements: seq<Placement>)
      requires Valid() && k < |items|
      requires start.quota <= MAX_DYNAMIC_CALCULATION_PER_BATCH && |start.order| == |start.placements|
      requires PassState(Store(sizes, categoryValues), quota, invalidatedIDs, dynamicSizeIDs, order, passSizes, placed) ==
        RenderAll(start, items[..k], isDataOnlyRender, scrollTop, viewHeight)
      modifies this`sizes, this`categoryValues, this`invalidatedIDs, this`order, this`quota,
        this`dynamicSizeIDs, this`y, this`passSizes
      ensures Valid()
      ensures PassState(Store(sizes, categoryValues), quota, invalidatedIDs, dynamicSizeIDs, order, passSizes, placements) ==
        RenderAll(start, items[..k + 1], isDataOnlyRender, scrollTop, viewHeight)
    {
      var size, p := RenderItem(items[k], placed);
      placements := placed + [p];
      RenderAllExtends(start, items, k, isDataOnlyRender, scrollTop, viewHeight);
    }

    /** The component body up to its children: the update guard is renewed for the pass's render
        bit, the pass state is reset, and the fillers are built for the pass's placeholder size. */
    method BeginPass(childrenChanged: bool, invalidationBitChanged: bool, placeholders: Option<PlaceholderOptions>)
      returns (fillers: seq<nat>)
      requires Valid()
      modifies this`callbackBit, this`flipped, this`prevOrder, this`invalidatedIDs, this`y, this`order,
        this`quota, this`dynamicSizeIDs, this`invalidated, this`isDataOnlyRender, this`passSizes,
        this`placeholderSize
      ensures Valid()
      ensures callbackBit == renderBit
      ensures old(renderBit) != old(callbackBit) ==> !flipped
      ensures old(renderBit) == old(callbackBit) ==> flipped == old(flipped)
      ensures prevOrder == old(order) && isDataOnlyRender == childrenChanged && invalidated == childrenChanged
      ensures order == [] && PassState(Store(sizes, categoryValues), quota, invalidatedIDs, dynamicSizeIDs, order, passSizes, []) ==
        PassState(Store(old(sizes), old(categoryValues)), 0, CarriedOver(old(invalidatedIDs), old(order), invalidationBitChanged),
                  [], [], [], [])
      ensures placeholderSize == PlaceholderSize(placeholders, categoryValues)
      ensures |fillers| == FillerCount(placeholderSize, viewHeight) && forall i :: 0 <= i < |fillers| ==> fillers[i] == i
    {
      RefreshCallback();
      ResetPass(childrenChanged, invalidationBitChanged);
      fillers := PreparePlaceholders(placeholders);
    }

    /** A whole render pass: the component body up to its children, then the items, which render
        from the store as it was, the invalidated ids carried over, an empty queue and a zero quota. */
    method RenderPass(childrenChanged: bool, invalidationBitChanged: bool, placeholders: Option<PlaceholderOptions>,
                      items: seq<Item>)
      returns (fillers: seq<nat>, placements: seq<Placement>, ghost start: PassState)
      requires Valid()
      modifies this`callbackBit, this`flipped, this`prevOrder, this`invalidatedIDs, this`y, this`order,
        this`quota, this`dynamicSizeIDs, this`invalidated, this`isDataOnlyRender, this`passSizes,
        this`placeholderSize, this`sizes, this`categoryValues
      ensures Valid()
      ensures callbackBit == renderBit
      ensures old(renderBit) != old(callbackBit) ==> !flipped
      ensures old(renderBit) == old(callbackBit) ==> flipped == old(flipped)
      ensures prevOrder == old(order) && isDataOnlyRender == childrenChanged && invalidated == childrenChanged
      ensures placeholderSize == PlaceholderSize(placeholders, old(categoryValues))
      ensures |fillers| == FillerCount(placeholderSize, viewHeight) && forall i :: 0 <= i < |fillers| ==> fillers[i] == i
      ensures start == PassState(Store(old(sizes), old(categoryValues)), 0,
                                 CarriedOver(old(invalidatedIDs), old(order), invalidationBitChanged), [], [], [], [])
      ensures PassState(Store(sizes, categoryValues), quota, invalidatedIDs, dynamicSizeIDs, order, passSizes, placements) ==
        RenderAll(start, items, childrenChanged, scrollTop, viewHeight)
    {
      fillers := BeginPass(childrenChanged, invalidationBitChanged, placeholders);
      placements, start := RenderItems(items);
    }
  }

  /** Rendering one more item extends the pass state by one step. */
  lemma RenderAllExtends(st: PassState, items: seq<Item>, k: nat, passDataOnly: bool, scrollTop: int, viewHeight: int)
    requires st.quota <= MAX_DYNAMIC_CALCULATION_PER_BATCH && k < |items|
    ensures RenderAll(st, items[..k + 1], passDataOnly, scrollTop, viewHeight) ==
      RenderStep(RenderAll(st, items[..k], passDataOnly, scrollTop, viewHeight), items[k], passDataOnly, scrollTop, viewHeight)
  {
    assert items[..k + 1][..k] == items[..k];
  }

  /** One step of a pass appends the item's id, the size it resolves to and its placement, which
      records its index and sits at the staging offset exactly when that size is unknown and at
      the cursor otherwise. */
  lemma RenderStepAppends(st: PassState, item: Item, passDataOnly: bool, scrollTop: int, viewHeight: int)
    requires st.quota <= MAX_DYNAMIC_CALCULATION_PER_BATCH
    ensures var r := RenderStep(st, item, passDataOnly, scrollTop, viewHeight);
      var size := ResolveSize(st.store.sizes, st.store.values, item).size;
      var p := r.placements[|st.placements|];
      r.order == st.order + [item.id] && r.sizes == st.sizes + [size] && r.placements == st.placements + [p] &&
      p.orderIndex == |st.placements| &&
      p.y == (if Staged(size, item.category) then STAGING_Y else PassCursor(st.sizes))
  {
  }

  /** One step of a pass decides the data-only flag and the quota: a staged item is data-only
      exactly when the quota is used up, any other item exactly when the pass is data-only or the
      item lies outside the viewport; the quota grows exactly when a staged item mounts. */
  lemma RenderStepPlaces(st: PassState, item: Item, passDataOnly: bool, scrollTop: int, viewHeight: int)
    requires st.quota <= MAX_DYNAMIC_CALCULATION_PER_BATCH
    ensures var r := RenderStep(st, item, passDataOnly, scrollTop, viewHeight);
      var size := ResolveSize(st.store.sizes, st.store.values, item).size;
      var p := r.placements[|st.placements|];
      var cursor := PassCursor(st.sizes);
      (Staged(size, item.category) ==> (p.isDataOnlyRender <==> st.quota == MAX_DYNAMIC_CALCULATION_PER_BATCH)) &&
      (!Staged(size, item.category) ==>
        (p.isDataOnlyRender <==> passDataOnly || (IsPositive(size) && OutsideViewport(cursor, size.value.px, scrollTop, viewHeight)))) &&
      r.quota == st.quota + (if p.y == STAGING_Y && !p.isDataOnlyRender then 1 else 0)
  {
  }

  /** One step of a pass keeps every other id's membership of the invalidated set and the queue;
      the item's id is invalidated exactly when it is requeued and queued when it is a measurement
      candidate, and the queue stays a set. */
  lemma RenderStepBookkeeping(st: PassState, item: Item, passDataOnly: bool, scrollTop: int, viewHeight: int)
    requires st.quota <= MAX_DYNAMIC_CALCULATION_PER_BATCH
    ensures var r := RenderStep(st, item, passDataOnly, scrollTop, viewHeight);
      var p := r.placements[|st.placements|];
      (forall x :: x != item.id ==> (x in r.invalidatedIDs <==> x in st.invalidatedIDs)) &&
      (item.id in r.invalidatedIDs <==> Requeued(p, item)) &&
      (forall x :: x != item.id ==> (x in r.queue <==> x in st.queue)) &&
      (Queued(p, item) ==> item.id in r.queue) &&
      (!Queued(p, item) ==> r.queue == st.queue) &&
      (NoDuplicates(st.queue) ==> NoDuplicates(r.queue))
  {
  }

  /** The order lists the items, and each placement records its index. */
  ghost predicate PlacedInOrder(items: seq<Item>, order: seq<string>, ps: seq<Placement>) {
    |order| == |items| && |ps| == |items| &&
    forall i :: 0 <= i < |items| ==> order[i] == items[i].id && ps[i].orderIndex == i
  }

  /** Each item sits at the staging offset exactly when its size is unknown, and otherwise at the
      sum of the positive sizes placed before it. */
  ghost predicate PlacedAtOffsets(items: seq<Item>, sizes: seq<Option<SizeEntry>>, ps: seq<Placement>) {
    |sizes| == |items| && |ps| == |items| &&
    forall i :: 0 <= i < |items| ==>
      ps[i].y == (if Staged(sizes[i], items[i].category) then STAGING_Y else PassCursor(sizes[..i]))
  }

  lemma PlacedInOrderGrows(items: seq<Item>, order: seq<string>, ps: seq<Placement>, item: Item, p: Placement)
    requires PlacedInOrder(items, order, ps) && p.orderIndex == |ps|
    ensures PlacedInOrder(items + [item], order + [item.id], ps + [p])
  {
    forall i | 0 <= i < |items|
      ensures (order + [item.id])[i] == (items + [item])[i].id && (ps + [p])[i].orderIndex == i
    {
      assert (items + [item])[i] == items[i];
    }
  }

  lemma PlacedAtOffsetsGrows(items: seq<Item>, sizes: seq<Option<SizeEntry>>, ps: seq<Placement>,
                             item: Item, size: Option<SizeEntry>, p: Placement)
    requires PlacedAtOffsets(items, sizes, ps)
    requires p.y == (if Staged(size, item.category) then STAGING_Y else PassCursor(sizes))
    ensures PlacedAtOffsets(items + [item], sizes + [size], ps + [p])
  {
    var items', sizes', ps' := items + [item], sizes + [size], ps + [p];
    forall i | 0 <= i < |items'|
      ensures ps'[i].y == (if Staged(sizes'[i], items'[i].category) then STAGING_Y else PassCursor(sizes'[..i]))
    {
      if i < |items| {
        assert items'[i] == items[i] && sizes'[i] == sizes[i] && ps'[i] == ps[i];
        assert sizes'[..i] == sizes[..i];
      } else {
        assert sizes'[..i] == sizes;
      }
    }
  }

  /** Over a whole pass from an empty start, the order lists the items and each placement records
      its index. */
  lemma {:induction false} RenderAllOrders(st: PassState, items: seq<Item>, passDataOnly: bool, scrollTop: int, viewHeight: int)
    requires st.quota <= MAX_DYNAMIC_CALCULATION_PER_BATCH && st.order == [] && st.placements == []
    ensures var r := RenderAll(st, items, passDataOnly, scrollTop, viewHeight);
      PlacedInOrder(items, r.order, r.placements)
    decreases |items|
  {
    if items != [] {
      var k := |items| - 1;
      var before := RenderAll(st, items[..k], passDataOnly, scrollTop, viewHeight);
      RenderAllOrders(st, items[..k], passDataOnly, scrollTop, viewHeight);
      RenderStepAppends(before, items[k], passDataOnly, scrollTop, viewHeight);
      var r := RenderStep(before, items[k], passDataOnly, scrollTop, viewHeight);
      PlacedInOrderGrows(items[..k], before.order, before.placements, items[k], r.placements[k]);
      assert items[..k] + [items[k]] == items;
    }
  }

  /** Over a whole pass from an empty start, each item sits at the staging offset exactly when its
      size is unknown and otherwise at the sum of the positive sizes placed before it. */
  lemma {:induction false} RenderAllOffsets(st: PassState, items: seq<Item>, passDataOnly: bool, scrollTop: int, viewHeight: int)
    requires st.quota <= MAX_DYNAMIC_CALCULATION_PER_BATCH && st.sizes == [] && st.placements == []
    ensures var r := RenderAll(st, items, passDataOnly, scrollTop, viewHeight);
      PlacedAtOffsets(items, r.sizes, r.placements)
    decreases |items|
  {
    if items != [] {
      var k := |items| - 1;
      var before := RenderAll(st, items[..k], passDataOnly, scrollTop, viewHeight);
      RenderAllOffsets(st, items[..k], passDataOnly, scrollTop, viewHeight);
      RenderStepAppends(before, items[k], passDataOnly, scrollTop, viewHeight);
      var r := RenderStep(before, items[k], passDataOnly, scrollTop, viewHeight);
      PlacedAtOffsetsGrows(items[..k], before.sizes, before.placements, items[k], r.sizes[k], r.placements[k]);
      assert items[..k] + [items[k]] == items;
    }
  }

  /** Rendering more items never changes the placements already made. */
  lemma {:induction false} RenderAllKeepsPrefix(st: PassState, items: seq<Item>, j: nat, passDataOnly: bool,
                                                scrollTop: int, viewHeight: int)
    requires st.quota <= MAX_DYNAMIC_CALCULATION_PER_BATCH && j <= |items|
    ensures RenderAll(st, items[..j], passDataOnly, scrollTop, viewHeight).placements ==
      RenderAll(st, items, passDataOnly, scrollTop, viewHeight).placements[..|st.placements| + j]
    decreases |items|
  {
    if j == |items| {
      assert items[..j] == items;
    } else {
      var k := |items| - 1;
      RenderAllKeepsPrefix(st, items[..k], j, passDataOnly, scrollTop, viewHeight);
      PrefixOfPrefix(items, k, j);
      var before := RenderAll(st, items[..k], passDataOnly, scrollTop, viewHeight);
      var r := RenderAll(st, items, passDataOnly, scrollTop, viewHeight);
      assert r == RenderStep(before, items[k], passDataOnly, scrollTop, viewHeight);
      RenderStepAppends(before, items[k], passDataOnly, scrollTop, viewHeight);
      PrefixOfExtension(before.placements, r.placements[|before.placements|], |st.placements| + j);
    }
  }

  lemma PrefixSplits<T>(s: seq<T>, i: nat, j: nat)
    requires i <= j <= |s|
    ensures s[..i] + s[i..j] == s[..j] && s[..|s|] == s && s[i..|s|] == s[i..]
  {
  }

  lemma PrefixOfPrefix<T>(s: seq<T>, k: nat, j: nat)
    requires j <= k <= |s|
    ensures s[..k][..j] == s[..j]
  {
  }

  lemma PrefixOfExtension<T>(s: seq<T>, x: T, n: nat)
    requires n <= |s|
    ensures (s + [x])[..n] == s[..n]
  {
  }

  /** Each placement of a pass, its offset and its data-only flag included, is the one its item's
      own step decides from the pass state the items before it left. */
  lemma RenderAllPlacementDecided(st: PassState, items: seq<Item>, i: nat, passDataOnly: bool,
                                  scrollTop: int, viewHeight: int)
    requires st.quota <= MAX_DYNAMIC_CALCULATION_PER_BATCH && i < |items|
    ensures var before := RenderAll(st, items[..i], passDataOnly, scrollTop, viewHeight);
      RenderAll(st, items, passDataOnly, scrollTop, viewHeight).placements[|st.placements| + i] ==
      RenderStep(before, items[i], passDataOnly, scrollTop, viewHeight).placements[|st.placements| + i]
  {
    RenderAllKeepsPrefix(st, items, i + 1, passDataOnly, scrollTop, viewHeight);
    RenderAllExtends(st, items, i, passDataOnly, scrollTop, viewHeight);
  }

  /** Over a whole pass, the quota grows by the number of items mounted off-screen for measurement,
      so at most the quota of items is mounted. */
  lemma {:induction false} RenderAllCountsMounted(st: PassState, items: seq<Item>, passDataOnly: bool,
                                                  scrollTop: int, viewHeight: int)
    requires st.quota <= MAX_DYNAMIC_CALCULATION_PER_BATCH && st.placements == []
    ensures var r := RenderAll(st, items, passDataOnly, scrollTop, viewHeight);
      r.quota == st.quota + MountedForMeasurement(r.placements) &&
      MountedForMeasurement(r.placements) <= MAX_DYNAMIC_CALCULATION_PER_BATCH - st.quota
    decreases |items|
  {
    if items != [] {
      var k := |items| - 1;
      var before := RenderAll(st, items[..k], passDataOnly, scrollTop, viewHeight);
      RenderAllCountsMounted(st, items[..k], passDataOnly, scrollTop, viewHeight);
      RenderStepPlaces(before, items[k], passDataOnly, scrollTop, viewHeight);
      var r := RenderAll(st, items, passDataOnly, scrollTop, viewHeight);
      assert r == RenderStep(before, items[k], passDataOnly, scrollTop, viewHeight);
      assert r.placements[..|r.placements| - 1] == before.placements;
    }
  }

  /** A category with a non-zero value keeps that value through one item's render: only a claim
      writes a category value, and a claim needs the value to be absent or 0. */
  lemma RenderStepKeepsCategoryValue(st: PassState, item: Item, passDataOnly: bool, scrollTop: int, viewHeight: int,
                                     category: string)
    requires st.quota <= MAX_DYNAMIC_CALCULATION_PER_BATCH
    requires category in st.store.values && st.store.values[category] != 0
    ensures var r := RenderStep(st, item, passDataOnly, scrollTop, viewHeight);
      category in r.store.values && r.store.values[category] == st.store.values[category]
  {
    if NameTruthy(item.category) {
      ClaimOnlyWhenUnclaimed(st.store.sizes, st.store.values, item);
    }
  }

  /** Rendering two runs of items one after the other is rendering them together. */
  lemma {:induction false} RenderAllConcat(st: PassState, a: seq<Item>, b: seq<Item>, passDataOnly: bool,
                                           scrollTop: int, viewHeight: int)
    requires st.quota <= MAX_DYNAMIC_CALCULATION_PER_BATCH
    ensures RenderAll(st, a + b, passDataOnly, scrollTop, viewHeight) ==
      RenderAll(RenderAll(st, a, passDataOnly, scrollTop, viewHeight), b, passDataOnly, scrollTop, viewHeight)
    decreases |b|
  {
    if b == [] {
      assert a + b == a;
    } else {
      var k := |b| - 1;
      RenderAllConcat(st, a, b[..k], passDataOnly, scrollTop, viewHeight);
      assert (a + b)[..|a + b| - 1] == a + b[..k];
    }
  }

  /** A category with a non-zero value keeps that value through any run of items. */
  lemma {:induction false} RenderAllKeepsCategoryValue(st: PassState, items: seq<Item>, passDataOnly: bool,
                                                       scrollTop: int, viewHeight: int, category: string)
    requires st.quota <= MAX_DYNAMIC_CALCULATION_PER_BATCH
    requires category in st.store.values && st.store.values[category] != 0
    ensures var w := RenderAll(st, items, passDataOnly, scrollTop, viewHeight).store.values;
      category in w && w[category] == st.store.values[category]
    decreases |items|
  {
    if items != [] {
      var k := |items| - 1;
      RenderAllKeepsCategoryValue(st, items[..k], passDataOnly, scrollTop, viewHeight, category);
      var before := RenderAll(st, items[..k], passDataOnly, scrollTop, viewHeight);
      RenderStepKeepsCategoryValue(before, items[k], passDataOnly, scrollTop, viewHeight, category);
    }
  }

  /** One claim per category: of two items of the same category in a pass, at most one claims it
      (sets it to the being-calculated sentinel); the other finds the sentinel or a measured value. */
  lemma RenderAllClaimsOnce(st: PassState, items: seq<Item>, i: nat, j: nat, passDataOnly: bool,
                            scrollTop: int, viewHeight: int)
    requires st.quota <= MAX_DYNAMIC_CALCULATION_PER_BATCH && i < j < |items|
    requires NameTruthy(items[i].category) && items[j].category == items[i].category
    ensures var a := RenderAll(st, items[..i], passDataOnly, scrollTop, viewHeight).store;
      var b := RenderAll(st, items[..j], passDataOnly, scrollTop, viewHeight).store;
      !(ResolveSize(a.sizes, a.values, items[i]).claimed && ResolveSize(b.sizes, b.values, items[j]).claimed)
  {
    var a := RenderAll(st, items[..i], passDataOnly, scrollTop, viewHeight).store;
    if ResolveSize(a.sizes, a.values, items[i]).claimed {
      var category := items[i].category.value;
      var claimed := RenderAll(st, items[..i + 1], passDataOnly, scrollTop, viewHeight);
      assert category in claimed.store.values && claimed.store.values[category] == SIZE_CATEGORY_BEING_CALCULATED by {
        RenderAllExtends(st, items, i, passDataOnly, scrollTop, viewHeight);
      }
      RenderAllKeepsCategoryValue(claimed, items[i + 1..j], passDataOnly, scrollTop, viewHeight, category);
      assert RenderAll(st, items[..j], passDataOnly, scrollTop, viewHeight) ==
        RenderAll(claimed, items[i + 1..j], passDataOnly, scrollTop, viewHeight) by {
        PrefixSplits(items, i + 1, j);
        RenderAllConcat(st, items[..i + 1], items[i + 1..j], passDataOnly, scrollTop, viewHeight);
      }
      var b := RenderAll(st, items[..j], passDataOnly, scrollTop, viewHeight).store;
      ClaimOnlyWhenUnclaimed(b.sizes, b.values, items[j]);
    }
  }

  /** An id in the measurement queue stays there through any run of items. */
  lemma {:induction false} RenderAllKeepsQueued(st: PassState, items: seq<Item>, passDataOnly: bool,
                                                scrollTop: int, viewHeight: int, id: string)
    requires st.quota <= MAX_DYNAMIC_CALCULATION_PER_BATCH && id in st.queue
    ensures id in RenderAll(st, items, passDataOnly, scrollTop, viewHeight).queue
    decreases |items|
  {
    if items != [] {
      var k := |items| - 1;
      RenderAllKeepsQueued(st, items[..k], passDataOnly, scrollTop, viewHeight, id);
      var before := RenderAll(st, items[..k], passDataOnly, scrollTop, viewHeight);
      RenderStepBookkeeping(before, items[k], passDataOnly, scrollTop, viewHeight);
    }
  }

  /** Every item a pass places as a measurement candidate ends the pass in the queue, however many
      there are: unlike the off-screen mounts, candidates are not capped by the quota. */
  lemma RenderAllQueuesCandidates(st: PassState, items: seq<Item>, i: nat, passDataOnly: bool,
                                  scrollTop: int, viewHeight: int)
    requires st.quota <= MAX_DYNAMIC_CALCULATION_PER_BATCH && i < |items|
    ensures var r := RenderAll(st, items, passDataOnly, scrollTop, viewHeight);
      Queued(r.placements[|st.placements| + i], items[i]) ==> items[i].id in r.queue
  {
    var r := RenderAll(st, items, passDataOnly, scrollTop, viewHeight);
    var before := RenderAll(st, items[..i], passDataOnly, scrollTop, viewHeight);
    var after := RenderAll(st, items[..i + 1], passDataOnly, scrollTop, viewHeight);
    var p := r.placements[|st.placements| + i];
    assert Queued(p, items[i]) ==> items[i].id in after.queue by {
      RenderAllPlacementDecided(st, items, i, passDataOnly, scrollTop, viewHeight);
      RenderAllExtends(st, items, i, passDataOnly, scrollTop, viewHeight);
      RenderStepBookkeeping(before, items[i], passDataOnly, scrollTop, viewHeight);
    }
    if Queued(p, items[i]) {
      RenderAllKeepsQueued(after, items[i + 1..], passDataOnly, scrollTop, viewHeight, items[i].id);
      assert r == RenderAll(after, items[i + 1..], passDataOnly, scrollTop, viewHeight) by {
        PrefixSplits(items, i + 1, |items|);
        RenderAllConcat(st, items[..i + 1], items[i + 1..], passDataOnly, scrollTop, viewHeight);
      }
    }
  }
}
