/** The size store: what is known about each item id's height and about each shared size category. */
module Sizes {
  import opened Common

  /** At most this many items of unknown size are mounted for measurement in one render pass. */
  const MAX_DYNAMIC_CALCULATION_PER_BATCH: nat := 5
  /** Category value meaning "one item has claimed this category and is being measured". */
  const SIZE_CATEGORY_BEING_CALCULATED: int := -1
  /** Offset at which an item of unknown size is mounted so that it can be measured off-screen. */
  const STAGING_Y: int := -5000

  /** What `sizes[id]` holds: an explicit pixel size or a reference to a size category. */
  datatype SizeEntry = Px(px: int) | Ref(category: string)

  type SizeMap = map<string, SizeEntry>
  type CategoryMap = map<string, int>

  /** JavaScript truthiness of an optional number: undefined and 0 are falsy. */
  predicate NumTruthy(n: Option<int>) {
    n.Some? && n.value != 0
  }

  /** JavaScript truthiness of an optional string: undefined and "" are falsy. */
  predicate NameTruthy(s: Option<string>) {
    s.Some? && s.value != ""
  }

  /** JavaScript truthiness of the resolver's `size` variable, which may hold a number or a
      category name read back from the store. */
  predicate EntryTruthy(e: Option<SizeEntry>) {
    match e
    case None => false
    case Some(Px(n)) => n != 0
    case Some(Ref(c)) => c != ""
  }

  /** `size && size > 0`: a known positive pixel size. */
  predicate IsPositive(e: Option<SizeEntry>) {
    e.Some? && e.value.Px? && e.value.px > 0
  }

  /** A category value that can serve as a size: present, non-zero and not being calculated. */
  predicate CategoryResolved(values: CategoryMap, c: string) {
    c in values && values[c] != 0 && values[c] != SIZE_CATEGORY_BEING_CALCULATED
  }

  /** What the engine only ever stores as a category value: the claim sentinel or a measured height. */
  ghost predicate WellFormedValues(values: CategoryMap) {
    forall c :: c in values ==> values[c] == SIZE_CATEGORY_BEING_CALCULATED || values[c] > 0
  }

  /** `getSize`: the usable size of an id, None when nothing usable is known. A category reference
      yields a size only once its category has been measured; an explicit size is returned as stored. */
  function GetSize(sizes: SizeMap, values: CategoryMap, id: string): (r: Option<int>)
    ensures id !in sizes ==> r == None
    ensures id in sizes && sizes[id].Px? ==> r == Some(sizes[id].px)
    ensures id in sizes && sizes[id].Ref? ==>
      (r.None? <==> !CategoryResolved(values, sizes[id].category)) &&
      (r.Some? ==> r.value == values[sizes[id].category])
    ensures r.Some? && id in sizes && sizes[id].Ref? ==>
      r.value != 0 && r.value != SIZE_CATEGORY_BEING_CALCULATED
  {
    if id in sizes then
      match sizes[id]
      case Ref(c) =>
        var categorySize := Lookup(values, c);
        if !NumTruthy(categorySize) || categorySize.value == SIZE_CATEGORY_BEING_CALCULATED then None
        else categorySize
      case Px(n) => Some(n)
    else None
  }

  /** Storing a measured height for a category is seen through every id that references it,
      and through no other id. */
  lemma CategoryValueSharedByReferences(sizes: SizeMap, values: CategoryMap, c: string, h: int)
    requires h > 0
    ensures forall id :: id in sizes && sizes[id] == Ref(c) ==> GetSize(sizes, values[c := h], id) == Some(h)
    ensures forall id :: !(id in sizes && sizes[id] == Ref(c)) ==>
      GetSize(sizes, values[c := h], id) == GetSize(sizes, values, id)
  {
  }

  /** Claiming a category hides its size from every id that references it. */
  lemma ClaimHidesCategory(sizes: SizeMap, values: CategoryMap, c: string)
    ensures forall id :: id in sizes && sizes[id] == Ref(c) ==>
      GetSize(sizes, values[c := SIZE_CATEGORY_BEING_CALCULATED], id) == None
  {
  }

  /** Storing a size for one id reads back as that size and leaves every other id as it was. */
  lemma StoredSizeReadsBack(sizes: SizeMap, values: CategoryMap, id: string, h: int)
    ensures GetSize(sizes[id := Px(h)], values, id) == Some(h)
    ensures forall other :: other != id ==> GetSize(sizes[id := Px(h)], values, other) == GetSize(sizes, values, other)
  {
  }
}
