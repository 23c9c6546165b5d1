/**
 * The two list updates the server performs on Python lists it keeps as sets:
 * "append if absent" (`if x not in xs: xs.append(x)`) and "remove if present"
 * (`if x in xs: xs.remove(x)`, where `remove` drops the first occurrence).
 */
module Lists {

  /** No element occurs twice. */
  predicate NoDuplicates<T(==)>(s: seq<T>) {
    forall i, j :: 0 <= i < j < |s| ==> s[i] != s[j]
  }

  /** `if x not in s: s.append(x)`. */
  function AddIfAbsent<T(==)>(s: seq<T>, x: T): (r: seq<T>)
    ensures x in r
    ensures s <= r && |r| <= |s| + 1
    ensures x in s ==> r == s
  {
    if x in s then s else s + [x]
  }

  /** The position of the first occurrence of `x` in `s`. */
  function FirstIndex<T(==)>(s: seq<T>, x: T): (i: nat)
    requires x in s
    ensures i < |s| && s[i] == x && x !in s[..i]
  {
    if s[0] == x then 0
    else
      assert s[1..][..FirstIndex(s[1..], x)] == s[1..1 + FirstIndex(s[1..], x)];
      1 + FirstIndex(s[1..], x)
  }

  /** Taking out position `i` takes exactly one copy of `s[i]` out of the multiset. */
  lemma MultisetDropAt<T>(s: seq<T>, i: nat)
    requires i < |s|
    ensures multiset(s[..i] + s[i + 1..]) == multiset(s) - multiset{s[i]}
  {
    assert s == s[..i] + [s[i]] + s[i + 1..];
  }

  /**
   * `if x in s: s.remove(x)`: the first occurrence of `x`, if any, is dropped
   * and the other elements keep their order.
   */
  function RemoveFirst<T(==)>(s: seq<T>, x: T): (r: seq<T>)
    ensures x !in s ==> r == s
    ensures x in s ==> exists i :: 0 <= i < |s| && s[i] == x && x !in s[..i] && r == s[..i] + s[i + 1..]
    ensures x in s ==> |r| == |s| - 1
    ensures multiset(r) == multiset(s) - multiset{x}
  {
    if x in s then
      var i := FirstIndex(s, x);
      MultisetDropAt(s, i);
      s[..i] + s[i + 1..]
    else s
  }

  /** Adding an element that is already there changes nothing, so a second add is a no-op. */
  lemma AddIfAbsentIdempotent<T>(s: seq<T>, x: T)
    ensures AddIfAbsent(AddIfAbsent(s, x), x) == AddIfAbsent(s, x)
  {
  }

  /** Append-if-absent never introduces a duplicate. */
  lemma AddIfAbsentKeepsNoDuplicates<T>(s: seq<T>, x: T)
    requires NoDuplicates(s)
    ensures NoDuplicates(AddIfAbsent(s, x))
  {
  }

  /** After dropping position `i`, position `k` holds what position `k` or `k + 1` held. */
  lemma DropAtIndex<T>(s: seq<T>, i: nat, k: nat)
    requires i < |s| && k < |s| - 1
    ensures (s[..i] + s[i + 1..])[k] == if k < i then s[k] else s[k + 1]
  {
  }

  /** On a duplicate-free list, removing `x` removes it completely and keeps the list duplicate-free. */
  lemma RemoveFirstNoDuplicates<T>(s: seq<T>, x: T)
    requires NoDuplicates(s)
    ensures x !in RemoveFirst(s, x)
    ensures NoDuplicates(RemoveFirst(s, x))
  {
    if x in s {
      var i := FirstIndex(s, x);
      var r := s[..i] + s[i + 1..];
      assert RemoveFirst(s, x) == r;
      forall k | 0 <= k < |r| ensures r[k] != x {
        DropAtIndex(s, i, k);
      }
      forall a, b | 0 <= a < b < |r| ensures r[a] != r[b] {
        DropAtIndex(s, i, a);
        DropAtIndex(s, i, b);
      }
    }
  }

  /** Removing an element that was just added to a list lacking it gives the original list back. */
  lemma RemoveFirstUndoesAdd<T>(s: seq<T>, x: T)
    requires x !in s
    ensures RemoveFirst(AddIfAbsent(s, x), x) == s
  {
    var added := s + [x];
    assert added[..|s|] == s;
  }

}
