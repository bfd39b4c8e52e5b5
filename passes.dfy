/** Pass lifecycle bookkeeping: the order of a pass, the carry-over of invalidated ids from one pass
    to the next, and the reorder test run after each item's layout. */
module Passes {
  import opened Common

  /** `Array.prototype.indexOf`: the first position of `x` in `s`, or -1. */
  function IndexOf(s: seq<string>, x: string): (r: int)
    ensures -1 <= r < |s|
    ensures r == -1 <==> x !in s
    ensures 0 <= r ==> s[r] == x && x !in s[..r]
  {
    if s == [] then -1
    else if s[0] == x then 0
    else
      var k := IndexOf(s[1..], x);
      assert s[1..][..k + 1] == s[1..k + 2] by { }
      if k == -1 then -1 else k + 1
  }

  /** The invalidated ids that survive into the next pass: those still in the previous order. */
  method PruneInvalidated(invalidatedIDs: set<string>, order: seq<string>) returns (kept: set<string>)
    ensures kept == set id | id in invalidatedIDs && id in order
  {
    kept := invalidatedIDs;
    var pending := invalidatedIDs;
    while pending != {}
      invariant pending <= invalidatedIDs
      invariant kept == (set id | id in invalidatedIDs && id in order) + pending
      decreases pending
    {
      var id :| id in pending;
      if IndexOf(order, id) == -1 {
        kept := kept - {id};
      }
      pending := pending - {id};
    }
  }

  /** Marking every id of the previous order invalidated, when the invalidation signal changed. */
  method SeedFromOrder(invalidatedIDs: set<string>, order: seq<string>) returns (seeded: set<string>)
    ensures seeded == invalidatedIDs + set id | id in order
  {
    seeded := invalidatedIDs;
    for i := 0 to |order|
      invariant seeded == invalidatedIDs + set id | id in order[..i]
    {
      assert order[..i + 1] == order[..i] + [order[i]];
      seeded := seeded + {order[i]};
    }
    assert order[..|order|] == order;
  }

  /** The invalidated ids a pass starts with: those of the previous pass still in its order, plus
      that whole order when the invalidation signal changed. */
  function CarriedOver(invalidatedIDs: set<string>, order: seq<string>, invalidationBitChanged: bool): set<string> {
    (set id | id in invalidatedIDs && id in order) + (if invalidationBitChanged then Members(order) else {})
  }

  /** The carry-over at the start of a pass: prune, then re-seed when the signal changed. */
  method CarryOver(invalidatedIDs: set<string>, order: seq<string>, invalidationBitChanged: bool)
    returns (carried: set<string>)
    ensures carried == CarriedOver(invalidatedIDs, order, invalidationBitChanged)
  {
    carried := PruneInvalidated(invalidatedIDs, order);
    if invalidationBitChanged {
      carried := SeedFromOrder(carried, order);
    }
  }

  /** Only ids of the previous order are carried over; a changed signal carries all of them, and an
      unchanged one never adds an id. */
  lemma CarriedOverFromOrder(invalidatedIDs: set<string>, order: seq<string>, invalidationBitChanged: bool)
    ensures CarriedOver(invalidatedIDs, order, invalidationBitChanged) <= Members(order)
    ensures invalidationBitChanged ==> CarriedOver(invalidatedIDs, order, invalidationBitChanged) == Members(order)
    ensures !invalidationBitChanged ==> CarriedOver(invalidatedIDs, order, invalidationBitChanged) <= invalidatedIDs
  {
  }

  /** The reorder test of one item: its index in the previous pass's order differs from its index
      in this pass (an id missing from the previous order always differs). */
  predicate Misplaced(prevOrder: seq<string>, order: seq<string>, i: nat)
    requires i < |order|
  {
    IndexOf(prevOrder, order[i]) != i
  }

  /** Some item of the pass fails the reorder test. */
  predicate AnyMisplaced(prevOrder: seq<string>, order: seq<string>) {
    exists i :: 0 <= i < |order| && IndexOf(prevOrder, order[i]) != i
  }

  /** A pass that visits the same ids in the same order, without repeats, never looks reordered. */
  lemma {:induction false} SameOrderIsNeverMisplaced(order: seq<string>)
    requires NoDuplicates(order)
    ensures !AnyMisplaced(order, order)
  {
    forall i | 0 <= i < |order| ensures IndexOf(order, order[i]) == i {
      var r := IndexOf(order, order[i]);
      assert r >= 0 && order[r] == order[i] && order[i] !in order[..r];
    }
  }

  /** An id that was not in the previous pass always fails the reorder test. */
  lemma NewIdIsMisplaced(prevOrder: seq<string>, order: seq<string>, i: nat)
    requires i < |order| && order[i] !in prevOrder
    ensures Misplaced(prevOrder, order, i)
  {
  }

  /** Swapping two items makes both of them fail the reorder test. */
  lemma SwapIsMisplaced(prev: seq<string>, i: nat, j: nat)
    requires NoDuplicates(prev) && i < j < |prev|
    ensures var order := prev[i := prev[j]][j := prev[i]];
      Misplaced(prev, order, i) && Misplaced(prev, order, j)
  {
    IndexOfDistinct(prev, i);
    IndexOfDistinct(prev, j);
  }

  /** In a sequence without duplicates, an element is found at its own position. */
  lemma IndexOfDistinct(s: seq<string>, k: nat)
    requires NoDuplicates(s) && k < |s|
    ensures IndexOf(s, s[k]) == k
  {
  }
}
