/** The decisions the per-item resolver takes, as functions of what it reads. The state machine in
    module Engine performs them step by step; these functions are its specification. */
module Resolver {
  import opened Common
  import opened Sizes

  /** The static data an item reports: its id, and optionally an explicit size and a size category. */
  datatype Item = Item(id: string, size: Option<int>, category: Option<string>)

  /** What the resolver hands to the item it renders. */
  datatype Placement = Placement(y: int, isDataOnlyRender: bool, orderIndex: nat)

  /** The outcome of the size-resolution step: the new store, the size the item is placed with,
      whether it claimed its category, and whether it reused an existing category value. */
  datatype SizeResolution = SizeResolution(
    sizes: SizeMap, values: CategoryMap, size: Option<SizeEntry>, claimed: bool, reused: bool)

  /** The placement decision for one item: its offset, whether it is data-only, the quota after it,
      whether it is put back into the invalidated set and whether it is queued for measurement. */
  datatype Classification = Classification(
    y: int, isDataOnlyRender: bool, quota: nat, requeue: bool, candidate: bool)

  function AsEntry(size: Option<int>): Option<SizeEntry> {
    if size.Some? then Some(Px(size.value)) else None
  }

  /** `!size` on the item's own static size: the item has no explicit size. */
  predicate IsDynamicSize(item: Item) {
    !NumTruthy(item.size)
  }

  /** Size resolution: a category wins over an explicit size and is claimed when it has no usable
      value; an explicit size is stored; otherwise the stored entry is read back. */
  function ResolveSize(sizes: SizeMap, values: CategoryMap, item: Item): (r: SizeResolution)
    ensures NameTruthy(item.category) ==> r.sizes == sizes[item.id := Ref(item.category.value)]
    ensures r.claimed ==> NameTruthy(item.category) && r.values == values[item.category.value := SIZE_CATEGORY_BEING_CALCULATED]
    ensures !r.claimed ==> r.values == values
    ensures !(r.claimed && r.reused)
    ensures r.claimed ==> r.size == AsEntry(item.size)
  {
    if NameTruthy(item.category) then
      var c := item.category.value;
      var sharedSize := Lookup(values, c);
      if !NumTruthy(sharedSize) && sharedSize != Some(SIZE_CATEGORY_BEING_CALCULATED) then
        SizeResolution(sizes[item.id := Ref(c)], values[c := SIZE_CATEGORY_BEING_CALCULATED], AsEntry(item.size), true, false)
      else
        SizeResolution(sizes[item.id := Ref(c)], values, Some(Px(sharedSize.value)), false, true)
    else if NumTruthy(item.size) then
      SizeResolution(sizes[item.id := Px(item.size.value)], values, Some(Px(item.size.value)), false, false)
    else
      SizeResolution(sizes, values, Lookup(sizes, item.id), false, false)
  }

  /** The band `[y, y + size]` lies entirely outside the viewport. */
  predicate OutsideViewport(y: int, size: int, scrollTop: int, viewHeight: int) {
    y + size < scrollTop || y > viewHeight + scrollTop
  }

  /** The item has no usable size yet: nothing known, or a category still being calculated. */
  predicate Staged(size: Option<SizeEntry>, category: Option<string>) {
    !EntryTruthy(size) || (NameTruthy(category) && size == Some(Px(SIZE_CATEGORY_BEING_CALCULATED)))
  }

  /** How far the pass cursor moves past an item. */
  function Advance(size: Option<SizeEntry>): (d: nat)
    ensures d > 0 <==> IsPositive(size)
  {
    if IsPositive(size) then size.value.px else 0
  }

  /** The pass cursor after items placed with the given sizes: the sum of their positive sizes. */
  function PassCursor(sizes: seq<Option<SizeEntry>>): nat
    decreases |sizes|
  {
    if sizes == [] then 0 else PassCursor(sizes[..|sizes| - 1]) + Advance(sizes[|sizes| - 1])
  }

  /** Placing one more item moves the cursor by exactly that item's advance. */
  lemma CursorAdvances(sizes: seq<Option<SizeEntry>>, size: Option<SizeEntry>)
    ensures PassCursor(sizes + [size]) == PassCursor(sizes) + Advance(size)
  {
    assert (sizes + [size])[..|sizes|] == sizes;
  }

  /** Visibility, staging and measurement queueing for one item placed at cursor `cursor`. */
  function Classify(cursor: int, passDataOnly: bool, quota: nat, size: Option<SizeEntry>, item: Item,
                    scrollTop: int, viewHeight: int): (c: Classification)
    requires quota <= MAX_DYNAMIC_CALCULATION_PER_BATCH
    ensures c.quota <= MAX_DYNAMIC_CALCULATION_PER_BATCH
    ensures c.quota == quota || c.quota == quota + 1
    ensures c.y == cursor || c.y == STAGING_Y
    ensures c.candidate ==> !c.isDataOnlyRender
    ensures c.requeue ==> c.isDataOnlyRender && c.quota == MAX_DYNAMIC_CALCULATION_PER_BATCH
  {
    var hidden := passDataOnly ||
      (IsPositive(size) && OutsideViewport(cursor, size.value.px, scrollTop, viewHeight));
    var staged := Staged(size, item.category);
    var mount := staged && quota < MAX_DYNAMIC_CALCULATION_PER_BATCH;
    var dataOnly := if staged then !mount else hidden;
    Classification(
      if staged then STAGING_Y else cursor,
      dataOnly,
      if mount then quota + 1 else quota,
      staged && !mount && !NameTruthy(item.category),
      !dataOnly && (IsDynamicSize(item) || NameTruthy(item.category)))
  }

  // ---- properties of the resolver's decisions ----

  /** A category is claimed exactly when it has no value or the value 0; an item referencing a
      category that is being calculated reuses the sentinel and never re-claims it. */
  lemma ClaimOnlyWhenUnclaimed(sizes: SizeMap, values: CategoryMap, item: Item)
    requires NameTruthy(item.category)
    ensures var r := ResolveSize(sizes, values, item);
      r.claimed <==> (item.category.value !in values || values[item.category.value] == 0)
    ensures var r := ResolveSize(sizes, values, item);
      !r.claimed ==> r.reused && r.size == Some(Px(values[item.category.value]))
    ensures var r := ResolveSize(sizes, values, item);
      item.category.value in values && values[item.category.value] == SIZE_CATEGORY_BEING_CALCULATED ==>
        !r.claimed && Staged(r.size, item.category)
  {
  }

  /** The size an item is placed with is what the store reports for it afterwards, except for an
      item that claims its category while also giving an explicit size (the source warns about it). */
  lemma PlacedSizeAgreesWithStore(sizes: SizeMap, values: CategoryMap, item: Item)
    ensures var r := ResolveSize(sizes, values, item);
      IsPositive(r.size) && !r.claimed ==> GetSize(r.sizes, r.values, item.id) == Some(r.size.value.px)
    ensures var r := ResolveSize(sizes, values, item);
      r.claimed ==> GetSize(r.sizes, r.values, item.id) == None
  {
  }

  /** An explicit size without a category overwrites the stored size; with neither, the stored
      entry is reused unchanged. */
  lemma ExplicitSizeOverwrites(sizes: SizeMap, values: CategoryMap, item: Item)
    requires !NameTruthy(item.category)
    ensures var r := ResolveSize(sizes, values, item);
      NumTruthy(item.size) ==> r.sizes[item.id] == Px(item.size.value) && r.size == Some(Px(item.size.value))
    ensures var r := ResolveSize(sizes, values, item);
      !NumTruthy(item.size) ==> r.sizes == sizes && r.size == Lookup(sizes, item.id)
  {
  }

  /** Outside a pass-wide data-only render, an item with a known positive size sits at the cursor
      and is data-only exactly when its band misses the viewport. */
  lemma VisibilityOfKnownSize(cursor: int, quota: nat, size: Option<SizeEntry>, item: Item,
                              scrollTop: int, viewHeight: int)
    requires quota <= MAX_DYNAMIC_CALCULATION_PER_BATCH
    requires IsPositive(size)
    ensures var c := Classify(cursor, false, quota, size, item, scrollTop, viewHeight);
      c.y == cursor && c.quota == quota && !c.requeue &&
      (c.isDataOnlyRender <==> OutsideViewport(cursor, size.value.px, scrollTop, viewHeight))
  {
  }

  /** In a pass-wide data-only render every item with a usable size is data-only. */
  lemma StructuralPassHidesKnownItems(cursor: int, quota: nat, size: Option<SizeEntry>, item: Item,
                                      scrollTop: int, viewHeight: int)
    requires quota <= MAX_DYNAMIC_CALCULATION_PER_BATCH
    requires !Staged(size, item.category)
    ensures var c := Classify(cursor, true, quota, size, item, scrollTop, viewHeight);
      c.isDataOnlyRender && !c.candidate && c.y == cursor
  {
  }

  /** An item without a usable size is staged off-screen; it is mounted (and uses one unit of quota)
      while the quota lasts, otherwise it is data-only and, unless a category stands behind it,
      put back into the invalidated set. */
  lemma StagingUnderQuota(cursor: int, passDataOnly: bool, quota: nat, size: Option<SizeEntry>, item: Item,
                          scrollTop: int, viewHeight: int)
    requires quota <= MAX_DYNAMIC_CALCULATION_PER_BATCH
    requires Staged(size, item.category)
    ensures var c := Classify(cursor, passDataOnly, quota, size, item, scrollTop, viewHeight);
      c.y == STAGING_Y &&
      (quota < MAX_DYNAMIC_CALCULATION_PER_BATCH ==> !c.isDataOnlyRender && c.quota == quota + 1 && !c.requeue) &&
      (quota == MAX_DYNAMIC_CALCULATION_PER_BATCH ==>
        c.isDataOnlyRender && c.quota == quota && (c.requeue <==> !NameTruthy(item.category)))
  {
  }

  /** An item with an explicit size and no category is never queued for measurement; any mounted
      item without an explicit size, or with a category, is. */
  lemma MeasurementCandidates(cursor: int, passDataOnly: bool, quota: nat, size: Option<SizeEntry>, item: Item,
                              scrollTop: int, viewHeight: int)
    requires quota <= MAX_DYNAMIC_CALCULATION_PER_BATCH
    ensures var c := Classify(cursor, passDataOnly, quota, size, item, scrollTop, viewHeight);
      c.candidate <==> !c.isDataOnlyRender && (IsDynamicSize(item) || NameTruthy(item.category))
    ensures var c := Classify(cursor, passDataOnly, quota, size, item, scrollTop, viewHeight);
      NumTruthy(item.size) && !NameTruthy(item.category) ==> !c.candidate
  {
  }

  /** The measurement queue has no quota: for an item with a usable size, whether it is queued does
      not depend on how much of the off-screen quota the pass has used. */
  lemma CandidatesIgnoreQuota(cursor: int, passDataOnly: bool, quota: nat, quota': nat, size: Option<SizeEntry>,
                              item: Item, scrollTop: int, viewHeight: int)
    requires quota <= MAX_DYNAMIC_CALCULATION_PER_BATCH && quota' <= MAX_DYNAMIC_CALCULATION_PER_BATCH
    requires !Staged(size, item.category)
    ensures Classify(cursor, passDataOnly, quota, size, item, scrollTop, viewHeight).candidate ==
      Classify(cursor, passDataOnly, quota', size, item, scrollTop, viewHeight).candidate
  {
  }

  /** Whether a placed item goes back into the invalidated set: it sits at the staging offset,
      renders data-only because the quota ran out, and has no category. */
  predicate Requeued(p: Placement, item: Item) {
    p.y == STAGING_Y && p.isDataOnlyRender && !NameTruthy(item.category)
  }

  /** Whether a placed item joins the measurement queue: it mounts, and its height is dynamic or
      shared through a category. */
  predicate Queued(p: Placement, item: Item) {
    !p.isDataOnlyRender && (IsDynamicSize(item) || NameTruthy(item.category))
  }

  /** The two follow-up flags of a decision can be read off the placement it produced, because a
      cursor is never the staging offset. */
  lemma DecisionFlags(cursor: int, passDataOnly: bool, quota: nat, size: Option<SizeEntry>, item: Item,
                      scrollTop: int, viewHeight: int, orderIndex: nat)
    requires quota <= MAX_DYNAMIC_CALCULATION_PER_BATCH && cursor != STAGING_Y
    ensures var c := Classify(cursor, passDataOnly, quota, size, item, scrollTop, viewHeight);
      var p := Placement(c.y, c.isDataOnlyRender, orderIndex);
      (c.requeue <==> Requeued(p, item)) && (c.candidate <==> Queued(p, item))
  {
  }
}
