/** Small value helpers shared by the rest of the model. */
module Common {

  datatype Option<T> = None | Some(value: T)

  /** Reading a key of a JavaScript object or Map: `undefined` becomes None. */
  function Lookup<K, V>(m: map<K, V>, k: K): (r: Option<V>)
    ensures r.Some? <==> k in m
    ensures r.Some? ==> r.value == m[k]
  {
    if k in m then Some(m[k]) else None
  }

  predicate NoDuplicates<T(==)>(s: seq<T>) {
    forall i, j :: 0 <= i < j < |s| ==> s[i] != s[j]
  }

  /** The elements of an insertion-ordered set (a JavaScript `Set`), as a set. */
  function Members<T>(s: seq<T>): set<T> {
    set x | x in s
  }

  /** `Set.prototype.add` on an insertion-ordered set kept as a sequence without duplicates:
      a new element goes to the end, an existing one keeps its place. */
  function SetAdd<T(==,!new)>(s: seq<T>, x: T): (r: seq<T>)
    ensures NoDuplicates(s) ==> NoDuplicates(r)
    ensures forall z :: z in r <==> z in s || z == x
    ensures x in s ==> r == s
    ensures x !in s ==> r == s + [x]
  {
    if x in s then s else s + [x]
  }

  /** `Set.prototype.delete` on an insertion-ordered set: the others keep their relative order. */
  function SetRemove<T(==,!new)>(s: seq<T>, x: T): (r: seq<T>)
    ensures forall z :: z in r <==> z in s && z != x
    ensures NoDuplicates(s) ==> NoDuplicates(r)
    ensures x !in s ==> r == s
  {
    if s == [] then []
    else if s[0] == x then SetRemove(s[1..], x)
    else
      var rest := SetRemove(s[1..], x);
      assert NoDuplicates(s) ==> s[0] !in s[1..] && NoDuplicates(s[1..]) by {
        if NoDuplicates(s) {
          forall k | 0 <= k < |s[1..]| ensures s[1..][k] != s[0] {
            assert s[1..][k] == s[k + 1];
          }
        }
      }
      [s[0]] + rest
  }

  /** Deleting a present element from an insertion-ordered set cuts it out at its one position. */
  lemma SetRemoveKeepsOrder<T(!new)>(s: seq<T>, x: T)
    requires NoDuplicates(s) && x in s
    ensures exists k :: 0 <= k < |s| && s[k] == x && SetRemove(s, x) == s[..k] + s[k + 1..]
  {
    var k := SetRemovePosition(s, x);
  }

  /** The position `SetRemoveKeepsOrder` cuts at, found by induction on the sequence. */
  lemma {:induction false} SetRemovePosition<T(!new)>(s: seq<T>, x: T) returns (k: nat)
    requires NoDuplicates(s) && x in s
    ensures k < |s| && s[k] == x && SetRemove(s, x) == s[..k] + s[k + 1..]
  {
    var tail := s[1..];
    assert NoDuplicates(tail) by {
      forall a, b | 0 <= a < b < |tail| ensures tail[a] != tail[b] {
        assert tail[a] == s[a + 1] && tail[b] == s[b + 1];
      }
    }
    if s[0] == x {
      assert x !in tail by {
        forall a | 0 <= a < |tail| ensures tail[a] != x {
          assert tail[a] == s[a + 1];
        }
      }
      assert SetRemove(s, x) == SetRemove(tail, x) == tail;
      assert s[..0] + s[1..] == tail;
      k := 0;
    } else {
      var j := SetRemovePosition(tail, x);
      assert SetRemove(s, x) == [s[0]] + SetRemove(tail, x);
      assert s[..j + 1] == [s[0]] + tail[..j];
      assert s[j + 2..] == tail[j + 1..];
      k := j + 1;
    }
  }
}
