/** The batched post-layout measurement: every queued id is measured once, at most one id per size
    category writes that category's value, and any change of the store asks for another pass. */
module Measurement {
  import opened Common
  import opened Sizes

  /** What the batch reads and writes: the store, the invalidated ids, the categories already
      measured in this batch, and whether an update was requested. */
  datatype BatchState = BatchState(
    sizes: SizeMap, values: CategoryMap, invalidatedIDs: set<string>, calculated: set<string>, requested: bool)

  /** The category an id's stored entry references, if any. */
  function CategoryOf(sizes: SizeMap, id: string): Option<string> {
    if id in sizes && sizes[id].Ref? then Some(sizes[id].category) else None
  }

  /** The batch's handling of one queued id, given the heights of the elements found in the
      container (`measure` has no entry for an id whose element is missing). */
  function MeasureStep(b: BatchState, id: string, measure: map<string, nat>): (t: BatchState)
    ensures t.invalidatedIDs <= b.invalidatedIDs
    ensures b.calculated <= t.calculated
    ensures b.requested ==> t.requested
  {
    var sizeCategory := CategoryOf(b.sizes, id);
    if sizeCategory.Some? && sizeCategory.value in b.calculated then
      b.(invalidatedIDs := b.invalidatedIDs - {id})
    else if id in measure then
      var calculatedHeight := measure[id];
      if calculatedHeight != 0 && Some(calculatedHeight as int) != GetSize(b.sizes, b.values, id) then
        if NameTruthy(sizeCategory) then
          b.(calculated := b.calculated + {sizeCategory.value},
             values := b.values[sizeCategory.value := calculatedHeight],
             requested := true)
        else
          b.(sizes := b.sizes[id := Px(calculatedHeight)], requested := true)
      else b
    else b
  }

  /** The whole batch, over the queued ids in insertion order. */
  function Batch(b: BatchState, ids: seq<string>, measure: map<string, nat>): BatchState
    decreases |ids|
  {
    if ids == [] then b else Batch(MeasureStep(b, ids[0], measure), ids[1..], measure)
  }

  /** The measurement callback's loop over the queued ids. */
  method MeasureBatch(sizes: SizeMap, values: CategoryMap, invalidatedIDs: set<string>,
                      dynamicSizeIDs: seq<string>, measure: map<string, nat>)
    returns (b: BatchState)
    ensures b == Batch(BatchState(sizes, values, invalidatedIDs, {}, false), dynamicSizeIDs, measure)
  {
    b := BatchState(sizes, values, invalidatedIDs, {}, false);
    ghost var start := b;
    for i := 0 to |dynamicSizeIDs|
      invariant Batch(b, dynamicSizeIDs[i..], measure) == Batch(start, dynamicSizeIDs, measure)
    {
      assert dynamicSizeIDs[i..][1..] == dynamicSizeIDs[i + 1..];
      var id := dynamicSizeIDs[i];
      var sizeCategory: Option<string> := None;
      if id in b.sizes && b.sizes[id].Ref? {
        if b.sizes[id].category in b.calculated {
          b := b.(invalidatedIDs := b.invalidatedIDs - {id});
          continue;
        }
        sizeCategory := Some(b.sizes[id].category);
      }
      if id in measure {
        var calculatedHeight := measure[id];
        if calculatedHeight != 0 && Some(calculatedHeight as int) != GetSize(b.sizes, b.values, id) {
          if NameTruthy(sizeCategory) {
            b := b.(calculated := b.calculated + {sizeCategory.value},
                    values := b.values[sizeCategory.value := calculatedHeight]);
          } else {
            b := b.(sizes := b.sizes[id := Px(calculatedHeight)]);
          }
          b := b.(requested := true);
        }
      }
    }
  }

  // ---- properties of one step ----

  /** A found element with a non-zero height that differs from the stored size updates the store
      (the category's value when the id references one, the id's own size otherwise) and requests
      an update; afterwards the store reports exactly that height for the id. */
  lemma {:induction false} NewHeightIsStored(b: BatchState, id: string, measure: map<string, nat>)
    requires !(CategoryOf(b.sizes, id).Some? && CategoryOf(b.sizes, id).value in b.calculated)
    requires id in measure && measure[id] != 0 && Some(measure[id] as int) != GetSize(b.sizes, b.values, id)
    ensures var t := MeasureStep(b, id, measure);
      t.requested && GetSize(t.sizes, t.values, id) == Some(measure[id] as int)
    ensures var t := MeasureStep(b, id, measure);
      NameTruthy(CategoryOf(b.sizes, id)) ==>
        t.sizes == b.sizes && t.values == b.values[CategoryOf(b.sizes, id).value := measure[id]]
    ensures var t := MeasureStep(b, id, measure);
      !NameTruthy(CategoryOf(b.sizes, id)) ==> t.values == b.values && t.sizes == b.sizes[id := Px(measure[id])]
  {
    var c := CategoryOf(b.sizes, id);
    if NameTruthy(c) {
      CategoryValueSharedByReferences(b.sizes, b.values, c.value, measure[id]);
    } else {
      StoredSizeReadsBack(b.sizes, b.values, id, measure[id]);
    }
  }

  /** A missing element, a zero height or a height equal to the stored size changes nothing. */
  lemma UnchangedHeightIsIgnored(b: BatchState, id: string, measure: map<string, nat>)
    requires id !in measure || measure[id] == 0 || Some(measure[id] as int) == GetSize(b.sizes, b.values, id)
    requires !(CategoryOf(b.sizes, id).Some? && CategoryOf(b.sizes, id).value in b.calculated)
    ensures MeasureStep(b, id, measure) == b
  {
  }

  /** Once a category has been measured in this batch, a later id referencing it is not measured:
      it is only removed from the invalidated set. */
  lemma MeasuredCategoryIsSkipped(b: BatchState, id: string, measure: map<string, nat>)
    requires CategoryOf(b.sizes, id).Some? && CategoryOf(b.sizes, id).value in b.calculated
    ensures MeasureStep(b, id, measure) == b.(invalidatedIDs := b.invalidatedIDs - {id})
  {
  }

  // ---- properties of the whole batch ----

  /** Invariant of the batch: category values stay the claim sentinel or measured heights, and
      category references keep a value behind them. */
  ghost predicate StoreWellFormed(sizes: SizeMap, values: CategoryMap) {
    WellFormedValues(values) &&
    forall id :: id in sizes && sizes[id].Ref? ==> sizes[id].category in values && sizes[id].category != ""
  }

  lemma {:induction false} BatchKeepsStoreWellFormed(b: BatchState, ids: seq<string>, measure: map<string, nat>)
    decreases |ids|
    requires StoreWellFormed(b.sizes, b.values)
    ensures var t := Batch(b, ids, measure);
      StoreWellFormed(t.sizes, t.values) && b.values.Keys <= t.values.Keys
  {
    if ids != [] {
      var t := MeasureStep(b, ids[0], measure);
      assert StoreWellFormed(t.sizes, t.values) && b.values.Keys <= t.values.Keys;
      BatchKeepsStoreWellFormed(t, ids[1..], measure);
    }
  }

  /** A category already measured in this batch keeps the value its first measurement wrote: each
      category's value is written at most once per batch. */
  lemma {:induction false} MeasuredCategoryWrittenOnce(b: BatchState, ids: seq<string>, measure: map<string, nat>, c: string)
    decreases |ids|
    requires c in b.calculated
    ensures var t := Batch(b, ids, measure);
      c in t.calculated && Lookup(t.values, c) == Lookup(b.values, c)
  {
    if ids != [] {
      MeasuredCategoryWrittenOnce(MeasureStep(b, ids[0], measure), ids[1..], measure, c);
    }
  }

  /** The batch only removes ids from the invalidated set, and only asks for an update when it
      changed the store. */
  lemma {:induction false} BatchChangesOnlyWithRequest(b: BatchState, ids: seq<string>, measure: map<string, nat>)
    decreases |ids|
    requires !b.requested
    ensures var t := Batch(b, ids, measure);
      t.invalidatedIDs <= b.invalidatedIDs &&
      (!t.requested ==> t.sizes == b.sizes && t.values == b.values && t.calculated == b.calculated)
  {
    if ids != [] {
      var t := MeasureStep(b, ids[0], measure);
      if t.requested {
        BatchKeepsRequest(t, ids[1..], measure);
        BatchOnlyShrinksInvalidated(t, ids[1..], measure);
      } else {
        BatchChangesOnlyWithRequest(t, ids[1..], measure);
      }
    }
  }

  lemma {:induction false} BatchKeepsRequest(b: BatchState, ids: seq<string>, measure: map<string, nat>)
    decreases |ids|
    requires b.requested
    ensures Batch(b, ids, measure).requested
  {
    if ids != [] {
      BatchKeepsRequest(MeasureStep(b, ids[0], measure), ids[1..], measure);
    }
  }

  lemma {:induction false} BatchOnlyShrinksInvalidated(b: BatchState, ids: seq<string>, measure: map<string, nat>)
    decreases |ids|
    ensures Batch(b, ids, measure).invalidatedIDs <= b.invalidatedIDs
  {
    if ids != [] {
      BatchOnlyShrinksInvalidated(MeasureStep(b, ids[0], measure), ids[1..], measure);
    }
  }

  /** Convergence: when every queued element measures as the store already says (or is missing or
      has height 0), the batch changes nothing and asks for no further pass. */
  lemma {:induction false} ConsistentMeasurementIsFixpoint(b: BatchState, ids: seq<string>, measure: map<string, nat>)
    decreases |ids|
    requires b.calculated == {} && !b.requested
    requires forall id :: id in ids && id in measure && measure[id] != 0 ==>
      GetSize(b.sizes, b.values, id) == Some(measure[id] as int)
    ensures Batch(b, ids, measure) == b
  {
    if ids != [] {
      assert ids[0] in ids;
      UnchangedHeightIsIgnored(b, ids[0], measure);
      forall id | id in ids[1..] ensures id in ids { }
      ConsistentMeasurementIsFixpoint(b, ids[1..], measure);
    }
  }
}
