/** The placeholder window: cheap fillers of one fixed size that fake scrollable height, built once
    per pass and moved on scroll by direct style writes. */
module Placeholders {
  import opened Common
  import opened Sizes

  /** The filler descriptor: an explicit size or a size category (its render function is left out). */
  datatype PlaceholderOptions = PlaceholderOptions(size: Option<int>, category: Option<string>)

  /** The two style properties written on a mounted filler: its vertical offset and its height. */
  datatype StyleWrite = StyleWrite(translateY: int, height: int)

  /** The filler size of a pass: the category's current value when a category is given, the
      explicit size otherwise, nothing without a descriptor. */
  function PlaceholderSize(options: Option<PlaceholderOptions>, values: CategoryMap): (r: Option<int>)
    ensures options.None? ==> r.None?
    ensures options.Some? && NameTruthy(options.value.category) ==> r == Lookup(values, options.value.category.value)
    ensures options.Some? && !NameTruthy(options.value.category) ==> r == options.value.size
  {
    if options.None? then None
    else if NameTruthy(options.value.category) then Lookup(values, options.value.category.value)
    else options.value.size
  }

  /** The source's test for building no fillers: the size is absent, 0 or being calculated. */
  predicate SourceSkipsFillers(size: Option<int>) {
    !NumTruthy(size) || size == Some(SIZE_CATEGORY_BEING_CALCULATED)
  }

  /** The corrected test: fillers are built only for a positive size. */
  predicate SkipsFillers(size: Option<int>) {
    !(size.Some? && size.value > 0)
  }

  /** The offset of the `k`-th filler the building loop visits. */
  function FillerOffset(k: nat, size: int): int {
    k * size
  }

  /** For a size below -1 the source's building loop is entered and its guard `y < viewHeight + size`
      holds at every offset 0, size, 2 * size, ... it reaches, so the loop never ends. */
  lemma SourceFillerLoopNeverEnds(size: int, viewHeight: int)
    requires size < SIZE_CATEGORY_BEING_CALCULATED && viewHeight + size > 0
    ensures !SourceSkipsFillers(Some(size))
    ensures forall k: nat :: FillerOffset(k, size) < viewHeight + size
  {
    forall k: nat ensures FillerOffset(k, size) < viewHeight + size {
      assert k * size <= 0;
    }
  }

  /** The corrected test skips everything the source skips, and differs only for the sizes below -1
      on which the source's loop would not end (or would build nothing). */
  lemma CorrectedSkipExtendsSource(size: Option<int>)
    ensures SourceSkipsFillers(size) ==> SkipsFillers(size)
    ensures SkipsFillers(size) && !SourceSkipsFillers(size) ==> size.value < SIZE_CATEGORY_BEING_CALCULATED
  {
  }

  /** How many fillers a viewport needs: none when fillers are skipped, otherwise the least count
      whose last filler still starts above `viewHeight + size`, that is
      ceil((viewHeight + size) / size). */
  function FillerCount(size: Option<int>, viewHeight: int): nat {
    if SkipsFillers(size) || viewHeight + size.value <= 0 then 0
    else (viewHeight + size.value - 1) / size.value + 1
  }

  /** The fillers cover the viewport and one size beyond it, and one filler fewer would not. */
  lemma {:induction false} FillerCountCoversViewport(size: Option<int>, viewHeight: int)
    requires !SkipsFillers(size)
    ensures var n, s := FillerCount(size, viewHeight), size.value;
      n * s >= viewHeight + s && (n > 0 ==> (n - 1) * s < viewHeight + s)
  {
    var s, t := size.value, viewHeight + size.value;
    if t > 0 {
      var q, r := (t - 1) / s, (t - 1) % s;
      assert t - 1 == q * s + r && 0 <= r < s;
      assert (q + 1) * s == q * s + s;
    }
  }

  /** `a * s <= b * s` for `a <= b` and a positive `s`. */
  lemma MulMonotone(a: int, b: int, s: int)
    requires a <= b && s > 0
    ensures a * s <= b * s
  {
    assert b * s - a * s == (b - a) * s;
  }

  /** Building the fillers: offsets 0, size, 2 * size, ... while below `viewHeight + size`, each
      tagged with its offset divided by the size. The result lists those tags: 0 up to the filler
      count. */
  method BuildPlaceholders(size: Option<int>, viewHeight: int) returns (indices: seq<nat>)
    ensures |indices| == FillerCount(size, viewHeight)
    ensures forall i :: 0 <= i < |indices| ==> indices[i] == i
  {
    indices := [];
    if SkipsFillers(size) {
      return;
    }
    var s := size.value;
    var y := 0;
    while y < viewHeight + s
      invariant y == |indices| * s
      invariant forall i :: 0 <= i < |indices| ==> indices[i] == i
      invariant |indices| > 0 ==> (|indices| - 1) * s < viewHeight + s
      decreases viewHeight + s - y
    {
      DivModOfMultiple(|indices|, s);
      indices := indices + [y / s];
      assert (|indices| - 1) * s == y;
      y := y + s;
      assert y == |indices| * s;
    }
    var n, m := |indices|, FillerCount(size, viewHeight);
    FillerCountCoversViewport(size, viewHeight);
    if n < m {
      MulMonotone(n, m - 1, s);
      assert false;
    } else if n > m {
      MulMonotone(m, n - 1, s);
      assert false;
    }
  }

  /** Euclidean division of an exact multiple. */
  lemma DivModOfMultiple(k: int, s: int)
    requires s > 0
    ensures (k * s) / s == k && (k * s) % s == 0
  {
    var q, r := (k * s) / s, (k * s) % s;
    assert (k - q) * s == r;
    if k - q >= 1 {
      assert false;
    } else if k - q <= -1 {
      assert false;
    }
  }

  /** Adding the size to a multiple of the size gives a multiple of the size. */
  lemma AddKeepsMultiple(d: int, s: int)
    requires s > 0 && d % s == 0
    ensures (d + s) % s == 0
  {
    DivModOfMultiple(d / s + 1, s);
    assert d + s == (d / s + 1) * s;
  }

  /** JavaScript's `%`, which truncates toward zero (Dafny's `%` is Euclidean). */
  function JsRem(a: int, b: int): (r: int)
    requires b != 0
    ensures a >= 0 ==> 0 <= r < if b > 0 then b else -b
    ensures a < 0 ==> -(if b > 0 then b else -b) < r <= 0
    ensures (a - r) % (if b > 0 then b else -b) == 0
  {
    var m := if b > 0 then b else -b;
    if a >= 0 then
      RemainderLeavesMultiple(a, m);
      a % m
    else
      RemainderLeavesMultiple(-a, m);
      NegatedMultiple(-a - (-a) % m, m);
      -((-a) % m)
  }

  /** Taking off the remainder leaves a multiple of the divisor. */
  lemma RemainderLeavesMultiple(a: int, m: int)
    requires m > 0
    ensures a - a % m == (a / m) * m && (a - a % m) % m == 0
  {
    DivModOfMultiple(a / m, m);
  }

  /** The negation of a multiple is a multiple. */
  lemma NegatedMultiple(x: int, m: int)
    requires m > 0 && x % m == 0
    ensures (-x) % m == 0
  {
    var q := x / m;
    assert x == q * m;
    assert -x == (-q) * m;
    DivModOfMultiple(-q, m);
  }

  /** Where the first filler goes on scroll: the scroll offset with its remainder by the size taken off. */
  function PlaceholderStart(scrollTop: int, size: int): int
    requires size != 0
  {
    scrollTop - JsRem(scrollTop, size)
  }

  /** The start is a multiple of the size: the scroll offset rounded down to it (toward zero for a
      negative offset). */
  lemma PlaceholderStartRoundsDown(scrollTop: int, size: int)
    requires size > 0
    ensures PlaceholderStart(scrollTop, size) % size == 0
    ensures scrollTop >= 0 ==> PlaceholderStart(scrollTop, size) <= scrollTop < PlaceholderStart(scrollTop, size) + size
    ensures scrollTop < 0 ==> PlaceholderStart(scrollTop, size) - size < scrollTop <= PlaceholderStart(scrollTop, size)
  {
    if scrollTop >= 0 {
      var q := scrollTop / size;
      assert PlaceholderStart(scrollTop, size) == q * size;
      DivModOfMultiple(q, size);
    } else {
      var q := (-scrollTop) / size;
      assert PlaceholderStart(scrollTop, size) == -(q * size) == (-q) * size;
      DivModOfMultiple(-q, size);
    }
  }

  /** The writes made on the mounted fillers, in the order their refs were registered: a null ref is
      skipped; each element gets the current offset and the size as its height, and the offset moves
      down by one size only while the next filler would still end above the pass cursor. */
  function Writes(refs: seq<bool>, y: int, size: int, cursor: int): seq<Option<StyleWrite>>
    decreases |refs|
  {
    if refs == [] then []
    else if !refs[0] then [None] + Writes(refs[1..], y, size, cursor)
    else [Some(StyleWrite(y, size))] + Writes(refs[1..], if y + size < cursor then y + size else y, size, cursor)
  }

  /** `updatePlaceholders`: nothing without a usable size; otherwise the writes starting at the
      rounded-down scroll offset. `refs[i]` says whether the i-th registered ref is an element. */
  method UpdatePlaceholders(refs: seq<bool>, scrollTop: int, size: Option<int>, cursor: int)
    returns (writes: seq<Option<StyleWrite>>)
    ensures !NumTruthy(size) ==> writes == []
    ensures NumTruthy(size) ==> writes == Writes(refs, PlaceholderStart(scrollTop, size.value), size.value, cursor)
  {
    writes := [];
    if !NumTruthy(size) {
      return;
    }
    var s := size.value;
    var y := PlaceholderStart(scrollTop, s);
    ghost var all := Writes(refs, y, s, cursor);
    for i := 0 to |refs|
      invariant writes + Writes(refs[i..], y, s, cursor) == all
    {
      var w: Option<StyleWrite> := None;
      var next := y;
      if refs[i] {
        w := Some(StyleWrite(y, s));
        if y + s < cursor {
          next := y + s;
        }
      }
      WritesStep(refs, i, y, s, cursor, writes);
      writes := writes + [w];
      y := next;
    }
  }

  /** One step of the writes: the i-th ref's write (none for a null ref), then the writes from
      the next ref on, from the offset moved down by one size while it stays above the cursor. */
  lemma WritesStep(refs: seq<bool>, i: nat, y: int, size: int, cursor: int, done: seq<Option<StyleWrite>>)
    requires i < |refs|
    ensures done + Writes(refs[i..], y, size, cursor) ==
      (done + [if refs[i] then Some(StyleWrite(y, size)) else None]) +
      Writes(refs[i + 1..], if refs[i] && y + size < cursor then y + size else y, size, cursor)
  {
    assert refs[i..][1..] == refs[i + 1..];
  }

  /** One write per registered ref, exactly for the refs that are elements, each setting the
      filler's height to the size. */
  lemma {:induction false} WritesMatchRefs(refs: seq<bool>, y: int, size: int, cursor: int)
    decreases |refs|
    ensures var w := Writes(refs, y, size, cursor);
      |w| == |refs| &&
      (forall i :: 0 <= i < |w| ==> (w[i].Some? <==> refs[i])) &&
      (forall i :: 0 <= i < |w| && w[i].Some? ==> w[i].value.height == size)
  {
    if refs != [] {
      var y' := if refs[0] && y + size < cursor then y + size else y;
      WritesMatchRefs(refs[1..], y', size, cursor);
    }
  }

  /** Every offset written is the start or a whole number of sizes below it, and any offset past the
      start stays above the pass cursor. */
  ghost predicate OffsetsStepFrom(w: seq<Option<StyleWrite>>, y: int, size: int, cursor: int)
    requires size > 0
  {
    forall i :: 0 <= i < |w| && w[i].Some? ==> StepsFrom(w[i].value.translateY, y, size, cursor)
  }

  /** The offset `t` is the start `y` or a whole number of sizes below it, and above the cursor. */
  ghost predicate StepsFrom(t: int, y: int, size: int, cursor: int)
    requires size > 0
  {
    y <= t && (t - y) % size == 0 && (t == y || t < cursor)
  }

  lemma {:induction false} WrittenOffsetsStepBySize(refs: seq<bool>, y: int, size: int, cursor: int)
    requires size > 0
    decreases |refs|
    ensures OffsetsStepFrom(Writes(refs, y, size, cursor), y, size, cursor)
  {
    if refs != [] {
      var y' := if refs[0] && y + size < cursor then y + size else y;
      WrittenOffsetsStepBySize(refs[1..], y', size, cursor);
      var w := Writes(refs, y, size, cursor);
      var rest := Writes(refs[1..], y', size, cursor);
      assert OffsetsStepFrom(rest, y', size, cursor);
      assert w[1..] == rest;
      forall i | 0 <= i < |w| && w[i].Some?
        ensures StepsFrom(w[i].value.translateY, y, size, cursor)
      {
        if i == 0 {
          assert w[0] == Some(StyleWrite(y, size));
        } else {
          assert w[i] == rest[i - 1];
          OffsetShift(rest[i - 1].value.translateY, y, y', size, cursor);
        }
      }
    }
  }

  /** An offset one step from the next start is one step from this start too. */
  lemma OffsetShift(t: int, y: int, y': int, size: int, cursor: int)
    requires size > 0 && (y' == y || (y' == y + size && y' < cursor))
    requires StepsFrom(t, y', size, cursor)
    ensures StepsFrom(t, y, size, cursor)
  {
    if y' != y {
      AddKeepsMultiple(t - y', size);
    }
  }

  /** The sum of two multiples of `s` is a multiple of `s`. */
  lemma SumOfMultiples(a: int, d: int, s: int)
    requires s > 0 && a % s == 0 && d % s == 0
    ensures (a + d) % s == 0
  {
    assert a + d == (a / s + d / s) * s;
    DivModOfMultiple(a / s + d / s, s);
  }

  /** Every offset of a write list is a multiple of the size. */
  ghost predicate OffsetsMultipleOf(w: seq<Option<StyleWrite>>, size: int)
    requires size > 0
  {
    forall i :: 0 <= i < |w| && w[i].Some? ==> w[i].value.translateY % size == 0
  }

  /** On scroll, every filler is moved to a multiple of the size: the start is one, and each later
      offset is a whole number of sizes below it. */
  lemma ScrollOffsetsAreMultiples(refs: seq<bool>, scrollTop: int, size: int, cursor: int)
    requires size > 0
    ensures OffsetsMultipleOf(Writes(refs, PlaceholderStart(scrollTop, size), size, cursor), size)
  {
    var start := PlaceholderStart(scrollTop, size);
    PlaceholderStartRoundsDown(scrollTop, size);
    WrittenOffsetsStepBySize(refs, start, size, cursor);
    var w := Writes(refs, start, size, cursor);
    forall i | 0 <= i < |w| && w[i].Some? ensures w[i].value.translateY % size == 0 {
      var t := w[i].value.translateY;
      assert StepsFrom(t, start, size, cursor);
      SumOfMultiples(start, t - start, size);
    }
  }

  /** Offsets along a write list never decrease. */
  ghost predicate OffsetsNonDecreasing(w: seq<Option<StyleWrite>>) {
    forall i, j :: 0 <= i < j < |w| && w[i].Some? && w[j].Some? ==>
      w[i].value.translateY <= w[j].value.translateY
  }

  /** Written offsets never decrease along the refs. */
  lemma {:induction false} WrittenOffsetsNonDecreasing(refs: seq<bool>, y: int, size: int, cursor: int)
    requires size > 0
    decreases |refs|
    ensures OffsetsNonDecreasing(Writes(refs, y, size, cursor))
  {
    if refs != [] {
      var y' := if refs[0] && y + size < cursor then y + size else y;
      WrittenOffsetsNonDecreasing(refs[1..], y', size, cursor);
      WrittenOffsetsStepBySize(refs[1..], y', size, cursor);
      var w := Writes(refs, y, size, cursor);
      var rest := Writes(refs[1..], y', size, cursor);
      assert OffsetsNonDecreasing(rest) && OffsetsStepFrom(rest, y', size, cursor);
      assert w[1..] == rest;
      forall i, j | 0 <= i < j < |w| && w[i].Some? && w[j].Some?
        ensures w[i].value.translateY <= w[j].value.translateY
      {
        assert w[j] == rest[j - 1];
        assert StepsFrom(rest[j - 1].value.translateY, y', size, cursor);
        if i == 0 {
          assert w[0] == Some(StyleWrite(y, size));
        } else {
          assert w[i] == rest[i - 1];
        }
      }
    }
  }
}
