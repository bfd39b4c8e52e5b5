# Readapt render-pass engine, modelled in Dafny

Readapt is a React list-virtualisation component. A parent `Readapt` component owns a size store
and a per-pass state. Every child made with `makeVirtualItem` reports an id, an optional explicit
size and an optional size category. During a render pass each child reads the pass cursor, decides
where it sits and whether its content is mounted, and moves the cursor on. After the pass a layout
effect:

- sizes the container;
- moves the scroll placeholders (cheap fillers that fake scrollable height);
- measures the items queued for measurement, one display frame later;
- asks for another pass when something is still invalidated.

Stripped of React this is a sequential state machine. The model is that machine: a class
`Engine.Readapt` whose fields are the component's two refs (`state` and `renderPassState`) plus the
update guard. Its methods are the steps of a render cycle, in the order React runs them:

1. `RefreshCallback`, `ResetPass` and `PreparePlaceholders` run at the top of the component body.
2. `ResolveItemSize`, then `PlaceItem` (itself `ClassifyItem` plus the cursor advance), run for
   each item. `RenderItem`, `RenderItems` and `RenderPass` compose these steps. They are proved
   against `RenderStep` and `RenderAll`, the same pass written on values: one item's step from a
   `PassState` (store, quota, invalidated set, queue, order, sizes, placements), and a fold of
   those steps over the items.
3. `ItemLayoutEffects` and `ContainerLayoutEffect` run after the pass.
4. `MeasureDynamicSizes` runs one frame later.
5. `HandleScroll`, `InvalidateSize`, `RemoveItem` and `DeliverUpdate` happen between passes.
   `DeliverUpdate` stands for React applying a scheduled render-bit change.

The decisions these methods take are stated as functions in their own modules, and the properties
the component relies on are proved about those functions:

- `Sizes`: the store and `getSize`.
- `Resolver`: the per-item size resolution and placement decision.
- `Passes`: the carry-over of invalidated ids and the reorder test.
- `Measurement`: the measurement batch.
- `Placeholders`: the filler window.
- `Updates`: the `flipRenderBit` guard.

Modelling choices:

- JavaScript truthiness is explicit: `NumTruthy`, `NameTruthy` and `EntryTruthy`.
- `sizes[id]` holds either a number or a category name. It is modelled as `SizeEntry = Px | Ref`.
- `dynamicSizeIDs` is a JavaScript `Set`, whose iteration order decides which id of a category is
  measured first. It is a sequence without duplicates: `Common.SetAdd` and `Common.SetRemove`.
- JavaScript's `%` truncates toward zero. It is written out as `Placeholders.JsRem`.
- The random render bit is a counter (`renderBit`). The guard `flipped` lives in the callback
  memoised on the render bit, so a fresh guard starts only at a pass whose render bit changed.
  This is `callbackBit`.
- The ghost sequence `passSizes` records the size each item of the pass was placed with. The class
  invariant `CursorValid` says the cursor is the sum of their positive values.
- The DOM is replaced by parameters:
  - `measure` maps each queued id whose element was found to its `clientHeight`;
  - `ScrollBox` stands for the scroll element;
  - `placeholderRefs[i]` says whether the i-th filler ref is an element;
  - filler style writes are returned as `StyleWrite` values.

Points where the code does something one might not expect; the model follows the code:

- A changed `sizeInvalidationBit` only marks the previous order's ids invalidated
  (src/index.tsx:103-107). The pass becomes data-only and `invalidated` only when `children` changed
  (src/index.tsx:121-124).
- In a data-only pass, an item without a usable size is still mounted off-screen while the quota
  lasts, because the staging branch resets `isDataOnlyRender` (src/makeVirtualItem.tsx:100-103).
- The visibility test uses strict comparisons on both sides (src/makeVirtualItem.tsx:91). An item
  whose band ends exactly at `scrollTop` is visible.
- Queueing for measurement tests the item's own static size (`isDynamicSize`), not the resolved
  one (src/makeVirtualItem.tsx:26, 113). A visible item without a static size is queued again even
  after its height is stored; measuring it again then changes nothing
  (`Measurement.UnchangedHeightIsIgnored`).
- The measurement queue has no cap. Only off-screen staging counts against
  `MAX_DYNAMIC_CALCULATION_PER_BATCH` (src/makeVirtualItem.tsx:99-110). Every mounted item without
  an explicit size or with a category joins `dynamicSizeIDs` (src/makeVirtualItem.tsx:113-115). This
  includes a visible item whose category is already measured, so a pass over many such items
  queues all of them. `Engine.RenderAllCountsMounted` bounds the off-screen mounts, not the queue;
  `Engine.RenderAllQueuesCandidates` and `Resolver.CandidatesIgnoreQuota` state the queue side.
- `previousRenderPassState` is assigned at every render before the items run (src/index.tsx:91-93).
  Its presence is therefore always true in the reorder test, and only `invalidated` gates it.

## Model

| member | source | states |
|---|---|---|
| Sizes.GetSize | src/index.tsx:24-39 | a category reference yields a size only when the category value is present, non-zero and not the being-calculated sentinel, and then yields that value; an explicit size is returned as stored; an unknown id yields nothing |
| Sizes.CategoryValueSharedByReferences | src/index.tsx:29-35 | storing a measured height for a category is seen through every id that references it and through no other id |
| Sizes.ClaimHidesCategory | src/index.tsx:32-33 | once a category is claimed (sentinel -1), every id referencing it has no size |
| Sizes.StoredSizeReadsBack | src/index.tsx:38 | storing a height for an id reads back as that height and leaves every other id unchanged |
| Updates.Flip | src/index.tsx:52-65 | a call on a guard that has fired changes nothing; otherwise the guard fires and schedules one update, immediate when `fast`, next-frame otherwise |
| Updates.AtMostOneUpdate | src/index.tsx:52-65 | however many calls one callback instance receives, at most one update is scheduled, and it is the first call's, at the speed that call asked for |
| Engine.Readapt.RequestUpdate | src/index.tsx:53-63 | the guard's new state is exactly `Flip` of its old state |
| Engine.Readapt.DeliverUpdate | src/index.tsx:59-61 | a pending update changes the render bit and clears the schedule; with nothing pending nothing changes |
| Engine.Readapt.RefreshCallback | src/index.tsx:52-80 | the callback (and its guard) is renewed only when the render bit changed since it was made; otherwise the guard keeps its state |
| Engine.Readapt.constructor | src/index.tsx:68-89 | mounting starts from an empty store, an empty pass and no scheduled update |
| Passes.IndexOf | src/makeVirtualItem.tsx:57-59 | `indexOf`: -1 exactly when the id is absent, otherwise the first position holding it |
| Passes.PruneInvalidated | src/index.tsx:97-101 | the invalidated ids kept are exactly those still in the previous order |
| Passes.SeedFromOrder | src/index.tsx:103-107 | every id of the previous order is added to the invalidated set |
| Passes.CarryOver | src/index.tsx:97-107 | the invalidated set a pass starts with is `CarriedOver`: the pruned set, plus the whole previous order when the invalidation bit changed |
| Passes.CarriedOverFromOrder | src/index.tsx:97-107 | only ids of the previous order are carried over; a changed bit carries all of them, an unchanged one adds none |
| Engine.Readapt.ResetPass | src/index.tsx:91-124 | the previous order is kept, the invalidated set is carried over, cursor, order, quota and queue are reset, and both flags equal "children changed" |
| Placeholders.PlaceholderSize | src/index.tsx:126-131 | the filler size is the category's current value when a category is given, the explicit size otherwise, nothing without a descriptor |
| Placeholders.SourceFillerLoopNeverEnds | src/index.tsx:137-150 | as written, a size below -1 passes the skip test, and every offset the loop reaches stays below its bound (the loop never ends) |
| Placeholders.CorrectedSkipExtendsSource | src/index.tsx:137-141 | the corrected skip test (size must be positive) skips all the source skips and differs only on sizes below -1 |
| Placeholders.FillerCountCoversViewport | src/index.tsx:146-150 | the filler count is the least n with n · size ≥ viewHeight + size |
| Placeholders.BuildPlaceholders | src/index.tsx:133-171 | the number of fillers is `FillerCount` and the i-th filler's index (offset / size) is i |
| Engine.Readapt.PreparePlaceholders | src/index.tsx:126-171 | the pass's filler size and its fillers 0 .. n-1, with n the filler count for the current viewport |
| Placeholders.JsRem | src/index.tsx:179 | the remainder keeps the sign of the dividend, is smaller than the divisor in magnitude, and leaves a multiple of the divisor when subtracted from the dividend |
| Placeholders.PlaceholderStartRoundsDown | src/index.tsx:177-179 | the first offset is a multiple of the size, the scroll offset rounded toward zero to one |
| Placeholders.UpdatePlaceholders | src/index.tsx:173-194 | no writes without a usable size; otherwise exactly `Writes` from the rounded-down scroll offset |
| Placeholders.WritesStep | src/index.tsx:181-191 | one ref's write, then the writes of the next refs from the moved offset |
| Placeholders.WritesMatchRefs | src/index.tsx:181-186 | one entry per ref, a write exactly for the non-null refs, each setting the height to the size |
| Placeholders.WrittenOffsetsStepBySize | src/index.tsx:183-190 | every offset is the start or a whole number of sizes below it, and an offset past the start lies above the pass cursor |
| Placeholders.ScrollOffsetsAreMultiples | src/index.tsx:177-190 | every offset written on scroll is a multiple of the size |
| Placeholders.WrittenOffsetsNonDecreasing | src/index.tsx:181-193 | the offsets written along the refs never decrease |
| Engine.Readapt.HandleScroll | src/index.tsx:197-202 | with a scroll element the scroll offset is recorded and a fast update requested; without one nothing happens |
| Engine.Readapt.ContainerLayoutEffect | src/index.tsx:255-321 | the viewport height is read and the fillers are written when the scroll element exists; the container height becomes the cursor only when it is above 0; measurement is scheduled exactly when the queue is non-empty; an update is requested exactly when the pass was structural or left ids invalidated |
| Measurement.MeasureBatch | src/index.tsx:273-311 | the loop's result is the fold `Batch` of the per-id step over the queue, in insertion order |
| Measurement.NewHeightIsStored | src/index.tsx:294-309 | a non-zero height that differs from the stored size is written to the category value (for a reference) or to the id's size, reads back as that height, and requests an update |
| Measurement.UnchangedHeightIsIgnored | src/index.tsx:294-299 | a missing element, a zero height or an equal height changes nothing |
| Measurement.MeasuredCategoryIsSkipped | src/index.tsx:279-284 | an id whose category was already measured in the batch is only removed from the invalidated set |
| Measurement.BatchKeepsStoreWellFormed | src/index.tsx:275-311 | the batch keeps category values equal to the sentinel or to measured heights, and keeps every referenced category present |
| Measurement.MeasuredCategoryWrittenOnce | src/index.tsx:281-304 | a category measured in the batch keeps its first measured value for the rest of the batch |
| Measurement.BatchChangesOnlyWithRequest | src/index.tsx:275-311 | the batch only shrinks the invalidated set, and a batch that requests no update leaves the store unchanged |
| Measurement.BatchKeepsRequest | src/index.tsx:308 | once requested, the update request stays requested for the rest of the batch |
| Measurement.BatchOnlyShrinksInvalidated | src/index.tsx:282 | the batch never adds an id to the invalidated set |
| Measurement.ConsistentMeasurementIsFixpoint | src/index.tsx:294-299 | when every found element measures as the store says, the batch changes nothing and requests nothing (the measure-render loop settles) |
| Engine.Readapt.MeasureDynamicSizes | src/index.tsx:269-313 | without the container nothing changes; otherwise the store and invalidated set become those of `Batch`, and an update is requested exactly when the batch wrote a height that differed from the stored size |
| Resolver.ResolveSize | src/makeVirtualItem.tsx:28-50 | a category is recorded for the id and wins over an explicit size; the category is claimed only when it is set to the sentinel, and an item that claims is placed with its own explicit size; no resolution both claims and reuses |
| Resolver.ClaimOnlyWhenUnclaimed | src/makeVirtualItem.tsx:37-45 | a category is claimed exactly when its value is absent or 0; otherwise its value (possibly -1) is reused, so a category being calculated is never claimed again |
| Resolver.PlacedSizeAgreesWithStore | src/makeVirtualItem.tsx:28-50 | a positive size an item is placed with is what the store reports for it afterwards, unless the item claimed its category, in which case the store reports no size |
| Resolver.ExplicitSizeOverwrites | src/makeVirtualItem.tsx:46-50 | an explicit size without a category overwrites the stored size; with neither, the stored entry is reused unchanged |
| Engine.Readapt.ResolveItemSize | src/makeVirtualItem.tsx:22-50 | the store, the size and the invalidated set become those of `ResolveSize`; category values other than 0 are never changed |
| Resolver.Advance | src/makeVirtualItem.tsx:127-128 | the cursor moves exactly when the size is a positive number |
| Resolver.CursorAdvances | src/makeVirtualItem.tsx:127-128 | one more item moves the pass cursor by exactly that item's advance |
| Resolver.Classify | src/makeVirtualItem.tsx:83-117 | the quota stays at most 5 and grows by at most 1; the offset is the cursor or the staging offset; only mounted items are queued; an item is put back into the invalidated set only when the quota is exhausted |
| Resolver.VisibilityOfKnownSize | src/makeVirtualItem.tsx:86-94 | outside a data-only pass, a positive-size item sits at the cursor and is data-only exactly when its band misses the viewport |
| Resolver.StructuralPassHidesKnownItems | src/makeVirtualItem.tsx:84-110 | in a data-only pass, an item with a usable size is data-only and not queued |
| Resolver.StagingUnderQuota | src/makeVirtualItem.tsx:96-110 | an item without a usable size goes to -5000; it is mounted and uses quota while the quota is below 5, otherwise it is data-only and, without a category, put back into the invalidated set |
| Resolver.MeasurementCandidates | src/makeVirtualItem.tsx:26-115 | an item is queued exactly when it is mounted and has no static size or has a category; a statically sized item without a category never is |
| Engine.Readapt.ClassifyItem | src/makeVirtualItem.tsx:83-117 | offset, data-only flag, quota, invalidated set and queue become exactly those `Classify` decides at the current cursor; the quota invariant and queue's set property are kept |
| Engine.Readapt.PlaceItem | src/makeVirtualItem.tsx:52-128 | the id is appended with index equal to the old order length, the placement and quota are `Classify`'s, the id is in the invalidated set exactly when the item is requeued and joins the queue exactly when it is a measurement candidate, and a known-size item sits at the sum of the positive sizes placed before it, the cursor then advancing by its size |
| Resolver.DecisionFlags | src/makeVirtualItem.tsx:96-115 | the resolver's requeue and measurement-candidate decisions are read off the placement: requeued exactly when staged, data-only and without a category; a candidate exactly when mounted and without a static size or with a category |
| Engine.Readapt.RenderItem | src/makeVirtualItem.tsx:22-128 | one item's render leaves the store, quota, invalidated set, queue, order, sizes and placements exactly as `RenderStep` of the previous state says (size resolution, then the placement decision at the cursor) |
| Engine.RenderStepAppends | src/makeVirtualItem.tsx:52-128 | one step appends the id, the resolved size and the placement, which records its index and sits at -5000 exactly when the size is unusable and at the cursor otherwise |
| Engine.RenderStepPlaces | src/makeVirtualItem.tsx:83-111 | a staged item is data-only exactly when the quota is used up; any other item exactly when the pass is data-only or it lies outside the viewport; the quota grows exactly when a staged item mounts |
| Engine.RenderStepBookkeeping | src/makeVirtualItem.tsx:26-115 | other ids keep their membership of the invalidated set and the queue; the item's id is invalidated exactly when requeued, queued when a candidate, and the queue stays a set |
| Engine.Readapt.RenderNextItem | src/makeVirtualItem.tsx:22-128 | rendering the next item extends the pass state from `RenderAll` of the items before it to `RenderAll` of one more |
| Engine.Readapt.RenderItems | src/makeVirtualItem.tsx:22-128 | the pass state after all items (store, quota, invalidated set, queue, order, sizes, placements) is `RenderAll` of the items from the state before them |
| Engine.RenderAllExtends | src/makeVirtualItem.tsx:22-128 | the pass state after one more item is one more step from the state before it |
| Engine.RenderAllOrders | src/makeVirtualItem.tsx:52-53 | over a whole pass the order lists the items in render order and each placement records its index |
| Engine.RenderAllOffsets | src/makeVirtualItem.tsx:83-128 | over a whole pass each item sits at -5000 exactly when its size is unusable and otherwise at the sum of the positive sizes placed before it |
| Engine.RenderAllKeepsPrefix | src/makeVirtualItem.tsx:52-128 | later items never change the placements earlier items made |
| Engine.RenderAllPlacementDecided | src/makeVirtualItem.tsx:83-117 | each placement, offset and data-only flag included, is the one its item's step decides from the state the earlier items left |
| Resolver.CandidatesIgnoreQuota | src/makeVirtualItem.tsx:96-115 | for an item with a usable size, whether it is queued for measurement does not depend on the off-screen quota used so far |
| Engine.RenderAllConcat | src/makeVirtualItem.tsx:22-128 | rendering two runs of items one after the other is rendering them together |
| Engine.RenderStepKeepsCategoryValue | src/makeVirtualItem.tsx:37-45 | a category with a non-zero value (measured, or the being-calculated sentinel) keeps that value through one item's render |
| Engine.RenderAllKeepsCategoryValue | src/makeVirtualItem.tsx:37-45 | a category with a non-zero value keeps it through any run of items |
| Engine.RenderAllClaimsOnce | src/makeVirtualItem.tsx:37-45 | of two items of the same category in a pass, at most one claims the category |
| Engine.RenderAllKeepsQueued | src/makeVirtualItem.tsx:113-115 | an id in the measurement queue stays there for the rest of the pass |
| Engine.RenderAllQueuesCandidates | src/makeVirtualItem.tsx:113-115 | every item placed as a measurement candidate ends the pass in the queue, with no quota on how many |
| Engine.RenderAllCountsMounted | src/makeVirtualItem.tsx:96-110 | the quota used over a pass equals the items mounted off-screen for measurement, so at most 5 are |
| Engine.Readapt.BeginPass | src/index.tsx:52-171 | the top of the component body: the guard renewal, the previous order kept, the flags equal to "children changed", the carried-over invalidated set, an empty order, quota, queue and cursor, and the pass's filler size and fillers |
| Engine.Readapt.RenderPass | src/index.tsx:52-171 | a whole pass: the guard renewal, the flags, the filler size and fillers, and a final pass state that is `RenderAll` of the items from the reset state with the carried-over invalidated set |
| Passes.SameOrderIsNeverMisplaced | src/makeVirtualItem.tsx:55-59 | a pass that repeats the previous order without duplicates triggers no reorder update |
| Passes.NewIdIsMisplaced | src/makeVirtualItem.tsx:57-59 | an id absent from the previous order always fails the reorder test |
| Passes.SwapIsMisplaced | src/makeVirtualItem.tsx:57-59 | swapping any two items of a duplicate-free previous order makes both fail the reorder test |
| Engine.Readapt.ItemLayoutEffects | src/makeVirtualItem.tsx:54-65 | outside an invalidated pass, one update is requested exactly when some item's index differs from its previous index; otherwise the guard is untouched |
| Engine.Readapt.RemoveItem | src/makeVirtualItem.tsx:66-70 | the id leaves the measurement queue, with the others' order kept, and leaves the invalidated set |
| Common.SetAdd | src/makeVirtualItem.tsx:114 | `Set.add`: a new id goes to the end, an existing one keeps its place, and no duplicates appear |
| Common.SetRemove | src/makeVirtualItem.tsx:68 | `Set.delete`: exactly that id leaves and no duplicates appear |
| Common.SetRemoveKeepsOrder | src/makeVirtualItem.tsx:68 | deleting a present id cuts it out at its one position, keeping the others in insertion order |
| Engine.Readapt.InvalidateSize | src/makeVirtualItem.tsx:139-148 | with the off-viewport deoptimisation on and no static size, the id is invalidated and queued; a fast update is always requested |

## Left out

- React itself is not modelled: hooks, JSX, context, and the `componentNeedsUpdate` memo key
  (src/makeVirtualItem.tsx:153-166). The `useMemo` of the placement decision
  (src/makeVirtualItem.tsx:83-125) is recomputed at every pass. The source skips it when none of its
  dependencies changed, keeping the previous offset and not repeating the side effects.
- The placeholder memo (src/index.tsx:133-171) is also recomputed at every pass. Its ref array,
  filled by React callback refs, becomes the `placeholderRefs` parameter.
- The item cleanup effect has no dependency list (src/makeVirtualItem.tsx:66-70), so React also runs
  it between re-renders of a mounted item. The model runs it (`RemoveItem`) only when an item
  unmounts.
- DOM access (`querySelector`, `clientHeight`, style writes) becomes parameters and returned values,
  as described above.
- `requestAnimationFrame` and `Math.random()` become the `pending` schedule and a counter. The
  measurement frame is modelled as running against the pass that scheduled it.
- `MeasureDynamicSizes`: the source calls `flipRenderBit()` once per changed element. The model
  calls it once per batch, which `Updates.AtMostOneUpdate` shows gives the same guard state.
- The scroll listener wiring, `throttle` and the wrapper that also moves the fillers on scroll
  (src/index.tsx:204-253) are left out. The `useEffect` write of `viewHeight` (src/index.tsx:238)
  is the same write the layout effect makes.
- `console.warn` (src/makeVirtualItem.tsx:29-33), the no-context fallback render
  (src/makeVirtualItem.tsx:18-20) and the filler render function are left out.
- Numbers are unbounded integers. Fractional pixel sizes and heights are not modelled. A category
  name that looks numeric, which JavaScript would compare as a number in `size > 0`, is treated as a
  non-number.
- `previousRenderPassState` is a chain of shallow copies. Only its `order` is read, so only that is
  kept (`prevOrder`).
- ContainerLayoutEffect: `placeholderRefs` is a free parameter, not tied to the fillers this pass built.
  In the source the ref array has one entry per filler, and it is empty when the filler size is -1
  (src/index.tsx:137-141). The model can therefore emit writes for refs the source would not have.
- src/types.d.ts declares types only and is not part of this model.

## Findings

| source | as written | input that shows it | evidently intended | confidence | as-written member | corrected member |
|---|---|---|---|---|---|---|
| src/index.tsx:137-150 | fillers are skipped only for a size that is absent, 0 or -1; the building loop then steps `y += size` while `y < viewHeight + size` | a filler size of -2 with `viewHeight` 10: the bound is 8, and `y` takes 0, -2, -4, … and never reaches it | build fillers only for a positive size | medium, not executed | Placeholders.SourceFillerLoopNeverEnds | Placeholders.BuildPlaceholders |

A negative filler size can only come from a caller passing one, since measured heights are
positive. `Placeholders.CorrectedSkipExtendsSource` shows the corrected test differs from the
source's only on sizes below -1.
