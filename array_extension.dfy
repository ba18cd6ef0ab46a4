/**
 The Swift `Array` operations the wrapper uses, on sequences: `insert(_:at:)`,
 `remove(at:)`, `popLast()` and the project's own `rearrange(from:to:)`
 extension. Swift arrays are values, so a mutating call is a function from the
 old sequence to the new one.
 */
module ArrayExtension {

  import opened Options

  /** `insert(x, at: i)`: Swift traps unless `i` is between 0 and the count. */
  function InsertAt<T>(s: seq<T>, x: T, i: int): (r: seq<T>)
    requires 0 <= i <= |s|
    ensures |r| == |s| + 1
    ensures r[i] == x
    ensures forall k :: 0 <= k < i ==> r[k] == s[k]
    ensures forall k :: i < k <= |s| ==> r[k] == s[k - 1]
  {
    s[..i] + [x] + s[i..]
  }

  /** `insert` adds exactly its element. */
  lemma InsertAtMultiset<T>(s: seq<T>, x: T, i: int)
    requires 0 <= i <= |s|
    ensures multiset(InsertAt(s, x, i)) == multiset(s) + multiset{x}
  {
    assert s == s[..i] + s[i..];
  }

  /** `remove(at: i)` without its returned element (which is `s[i]`). */
  function RemoveAt<T>(s: seq<T>, i: int): (r: seq<T>)
    requires 0 <= i < |s|
    ensures |r| == |s| - 1
    ensures forall k :: 0 <= k < i ==> r[k] == s[k]
    ensures forall k :: i <= k < |r| ==> r[k] == s[k + 1]
  {
    s[..i] + s[i + 1..]
  }

  /** `remove(at:)` takes out exactly the element at that index. */
  lemma RemoveAtMultiset<T>(s: seq<T>, i: int)
    requires 0 <= i < |s|
    ensures multiset(RemoveAt(s, i)) == multiset(s) - multiset{s[i]}
  {
    assert s == s[..i] + [s[i]] + s[i + 1..];
  }

  /** `popLast()`: the array without its last element and that element, or
      the empty array and `nil` when there is nothing to pop. */
  function PopLast<T>(s: seq<T>): (r: (seq<T>, Option<T>))
    ensures s == [] ==> r == ([], None)
    ensures s != [] ==> r.1 == Some(s[|s| - 1]) && r.0 + [s[|s| - 1]] == s
  {
    if s == [] then ([], None) else (s[..|s| - 1], Some(s[|s| - 1]))
  }

  /** The precondition `rearrange` checks before it moves anything; it needs
      two distinct valid indices, so at least two elements. */
  predicate CanRearrange<T>(s: seq<T>, from: int, to: int)
    ensures CanRearrange(s, from, to) ==> |s| >= 2
  {
    from != to && 0 <= from < |s| && 0 <= to < |s|
  }

  /**
   `rearrange(from:to:)`: `insert(remove(at: from), at: to)`. Where each
   element ends up is `RearrangeMoves`; that no element is gained or lost is
   `RearrangeMultiset`.
   */
  function Rearrange<T>(s: seq<T>, from: int, to: int): (r: seq<T>)
    requires CanRearrange(s, from, to)
    ensures |r| == |s|
  {
    InsertAt(RemoveAt(s, from), s[from], to)
  }

  /** `rearrange` keeps every element, as often as it occurred. */
  lemma RearrangeMultiset<T>(s: seq<T>, from: int, to: int)
    requires CanRearrange(s, from, to)
    ensures multiset(Rearrange(s, from, to)) == multiset(s)
  {
    var moved := s[from];
    var rest := RemoveAt(s, from);
    RemoveAtMultiset(s, from);
    InsertAtMultiset(rest, moved, to);
    assert moved in multiset(s);
  }

  /**
   Where `rearrange(from:to:)` puts each element: the one at `from` moves to
   `to`; the elements between them shift by one towards `from`; everything
   outside the two indices stays where it was.
   */
  lemma RearrangeMoves<T>(s: seq<T>, from: int, to: int)
    requires CanRearrange(s, from, to)
    ensures var r := Rearrange(s, from, to);
      r[to] == s[from] &&
      (forall k :: 0 <= k < from && k < to ==> r[k] == s[k]) &&
      (forall k :: from < k < |s| && to < k ==> r[k] == s[k])
    ensures from < to ==> forall k :: from <= k < to ==> Rearrange(s, from, to)[k] == s[k + 1]
    ensures to < from ==> forall k :: to < k <= from ==> Rearrange(s, from, to)[k] == s[k - 1]
  {
    var rest := RemoveAt(s, from);
    assert Rearrange(s, from, to) == InsertAt(rest, s[from], to);
    if from < to {
      assert forall k :: from <= k < to ==> rest[k] == s[k + 1];
    } else {
      assert forall k :: to <= k < from ==> rest[k] == s[k];
    }
  }
}
