/**
 What `writeToBuffer(val:)` (GenAudio/G8AudioKitWrapper.swift) actually does
 to the amplitude buffer, in closed form, and what follows from it.

 The source's comment describes a FIFO push (write at index 0, shift the rest
 right, drop the last). The loop instead inserts at 0, pops the last element,
 and then walks the new value and its neighbours along with overlapping
 `rearrange(from: index - 1, to: index + 1)` calls. For a buffer
 `[b0, ..., b(n-1)]` with n >= 4 the result is
 `[b0, val, b1, ..., b(n-4), b(n-2), b(n-3)]`.
 */
module RollingBuffer {

  import opened ArrayExtension
  import opened RealSeqs

  /** The buffer left by one `writeToBuffer(val: v)` on buffer `b`. */
  function Shifted<T>(b: seq<T>, v: T): (r: seq<T>)
    ensures |r| == |b|
    ensures |b| >= 3 ==> r[0] == b[0] && r[|b| - 2] == b[|b| - 2]
  {
    var n := |b|;
    if n == 0 then []
    else if n == 1 then [v]
    else if n == 2 then [v] + [b[0]]
    else if n == 3 then [b[0]] + [b[1]] + [v]
    else [b[0]] + [v] + b[1..n - 3] + [b[n - 2]] + [b[n - 3]]
  }

  /** The push the source's comment describes: newest at the front, the
      others one slot to the right, the last one dropped. */
  function FifoPush<T>(b: seq<T>, v: T): (r: seq<T>)
    ensures |r| == |b|
    ensures |b| > 0 ==> r[0] == v && forall k :: 1 <= k < |b| ==> r[k] == b[k - 1]
  {
    if b == [] then [] else [v] + b[..|b| - 1]
  }

  /**
   The buffer inside the loop of `writeToBuffer`, once the iteration with
   index 0 (insert and pop) has run and the last `rearrange` call made was
   the one of the iteration with index `j` (`j <= 0`: none yet).
   */
  function AfterRearranges<T>(b: seq<T>, v: T, j: int): (r: seq<T>)
    requires 1 <= |b| && (j <= 0 || j <= |b| - 2)
    ensures |r| == |b|
  {
    var n := |b|;
    if j <= 0 then [v] + b[..n - 1]
    else if j == 1 then [b[0]] + [b[1]] + [v] + b[2..n - 1]
    else [b[0]] + [v] + b[1..j - 1] + [b[j]] + [b[j - 1]] + b[j + 1..n - 1]
  }

  /** Element by element reading of `Shifted` for buffers of four or more. */
  lemma ShiftedAt<T>(b: seq<T>, v: T)
    requires |b| >= 4
    ensures Shifted(b, v)[0] == b[0] && Shifted(b, v)[1] == v
    ensures forall k :: 2 <= k <= |b| - 3 ==> Shifted(b, v)[k] == b[k - 1]
    ensures Shifted(b, v)[|b| - 2] == b[|b| - 2] && Shifted(b, v)[|b| - 1] == b[|b| - 3]
  {
  }

  /** Element by element reading of the loop state before any `rearrange`. */
  lemma AfterNoRearrange<T>(b: seq<T>, v: T)
    requires |b| >= 1
    ensures var r := AfterRearranges(b, v, 0);
      r[0] == v && forall k :: 1 <= k < |b| ==> r[k] == b[k - 1]
  {
  }

  /** Element by element reading of the loop state after the first `rearrange`. */
  lemma AfterFirstRearrange<T>(b: seq<T>, v: T)
    requires |b| >= 3
    ensures var r := AfterRearranges(b, v, 1);
      r[0] == b[0] && r[1] == b[1] && r[2] == v && forall k :: 3 <= k < |b| ==> r[k] == b[k - 1]
  {
  }

  /** Element by element reading of the loop state after the `rearrange` of index `j >= 2`. */
  lemma AfterLaterRearrange<T>(b: seq<T>, v: T, j: int)
    requires 2 <= j <= |b| - 2
    ensures var r := AfterRearranges(b, v, j);
      r[0] == b[0] && r[1] == v && r[j] == b[j] && r[j + 1] == b[j - 1] &&
      (forall k :: 2 <= k < j ==> r[k] == b[k - 1]) &&
      (forall k :: j + 2 <= k < |b| ==> r[k] == b[k - 1])
  {
  }

  /** The iteration with index 1: `rearrange(from: 0, to: 2)` moves `val`
      from the front to slot 2, past `b0` and `b1`. */
  lemma FirstRearrangeStep<T>(b: seq<T>, v: T)
    requires |b| >= 3
    ensures Rearrange(AfterRearranges(b, v, 0), 0, 2) == AfterRearranges(b, v, 1)
  {
    var s := AfterRearranges(b, v, 0);
    var r := Rearrange(s, 0, 2);
    RearrangeMoves(s, 0, 2);
    var t := AfterRearranges(b, v, 1);
    AfterNoRearrange(b, v);
    AfterFirstRearrange(b, v);
    forall k | 0 <= k < |b| ensures r[k] == t[k] {
      if k < 2 {
        assert r[k] == s[k + 1];
      } else if k > 2 {
        assert r[k] == s[k];
      }
    }
  }

  /** The iteration with index 2: `rearrange(from: 1, to: 3)` moves `b1`
      from slot 1 to slot 3, so `val` comes back to slot 1. */
  lemma SecondRearrangeStep<T>(b: seq<T>, v: T)
    requires |b| >= 4
    ensures Rearrange(AfterRearranges(b, v, 1), 1, 3) == AfterRearranges(b, v, 2)
  {
    var s := AfterRearranges(b, v, 1);
    var r := Rearrange(s, 1, 3);
    RearrangeMoves(s, 1, 3);
    var t := AfterRearranges(b, v, 2);
    AfterFirstRearrange(b, v);
    AfterLaterRearrange(b, v, 2);
    forall k | 0 <= k < |b| ensures r[k] == t[k] {
      if k == 0 {
        assert r[k] == s[k];
      } else if k < 3 {
        assert r[k] == s[k + 1];
      } else if k > 3 {
        assert r[k] == s[k];
      }
    }
  }

  /** An iteration with index 3 or more: `rearrange(from: index - 1, to:
      index + 1)` swaps the pair behind `val`'s old neighbours along by one. */
  lemma LaterRearrangeStep<T>(b: seq<T>, v: T, index: int)
    requires 3 <= index < |b| - 1
    ensures Rearrange(AfterRearranges(b, v, index - 1), index - 1, index + 1) == AfterRearranges(b, v, index)
  {
    var s := AfterRearranges(b, v, index - 1);
    var r := Rearrange(s, index - 1, index + 1);
    RearrangeMoves(s, index - 1, index + 1);
    var t := AfterRearranges(b, v, index);
    AfterLaterRearrange(b, v, index - 1);
    AfterLaterRearrange(b, v, index);
    forall k | 0 <= k < |b| ensures r[k] == t[k] {
      if k < index - 1 {
        assert r[k] == s[k];
      } else if k < index + 1 {
        assert r[k] == s[k + 1];
      } else if k > index + 1 {
        assert r[k] == s[k];
      }
    }
  }

  /**
   One iteration of the loop with `1 <= index < count - 1`: its call
   `rearrange(from: index - 1, to: index + 1)` advances the loop state by one
   step. The first postcondition (the extension's precondition holds) is
   immediate from the length of the closed form.
   */
  lemma RearrangeStep<T>(b: seq<T>, v: T, index: int)
    requires 1 <= index < |b| - 1
    ensures CanRearrange(AfterRearranges(b, v, index - 1), index - 1, index + 1)
    ensures Rearrange(AfterRearranges(b, v, index - 1), index - 1, index + 1) == AfterRearranges(b, v, index)
  {
    if index == 1 {
      FirstRearrangeStep(b, v);
    } else if index == 2 {
      SecondRearrangeStep(b, v);
    } else {
      LaterRearrangeStep(b, v, index);
    }
  }

  /** After the `rearrange` of the last index `last - 1` the loop reaches,
      where `last` is `count - 1`, the buffer is `Shifted`. */
  lemma AfterAllRearranges<T>(b: seq<T>, v: T, last: int)
    requires last == |b| - 1 && last >= 1
    ensures AfterRearranges(b, v, last - 1) == Shifted(b, v)
  {
    var n := |b|;
    if n == 2 {
      assert b[..n - 1] == [b[0]];
    } else if n == 3 {
      assert b[2..n - 1] == [];
    } else {
      assert b[n - 1..n - 1] == [];
    }
  }

  /**
   One pass of the body of the loop in `writeToBuffer`, with index `index`,
   on the buffer `s` as it is at that point. Index 0 inserts `v` at the front
   and pops the last element; an index with `index < count - 1` (the count
   read afresh) makes one `rearrange` call; any other index does nothing.
   */
  function WriteIteration<T>(s: seq<T>, v: T, index: int): (r: seq<T>)
    requires 0 <= index
    ensures |r| == |s|
  {
    if index == 0 then PopLast(InsertAt(s, v, 0)).0
    else if index < |s| - 1 then Rearrange(s, index - 1, index + 1)
    else s
  }

  /**
   The buffer at the top of the iteration with index `index` of the loop in
   `writeToBuffer`, which runs over the indices of the buffer `b` it started
   with.
   */
  function LoopState<T>(b: seq<T>, v: T, index: nat): (r: seq<T>)
    requires index <= |b|
    ensures |r| == |b|
  {
    if index == 0 then b else WriteIteration(LoopState(b, v, index - 1), v, index - 1)
  }

  /** The iteration with index 0: `insert(val, at: 0)` then `popLast()`. */
  lemma FirstIteration<T>(b: seq<T>, v: T)
    requires |b| >= 1
    ensures PopLast(InsertAt(b, v, 0)).0 == AfterRearranges(b, v, 0)
  {
    var s := InsertAt(b, v, 0);
    assert s == [v] + b;
    assert PopLast(s).0 == s[..|s| - 1];
  }

  /**
   Once the iterations `0` to `index - 1` have run, for `index < count`, the
   buffer is the closed form `AfterRearranges` of the last `rearrange` call
   made (`index - 1`).
   */
  lemma {:induction false} LoopStateClosedForm<T>(b: seq<T>, v: T, index: nat)
    requires 1 <= index < |b|
    ensures LoopState(b, v, index) == AfterRearranges(b, v, index - 1)
  {
    if index == 1 {
      assert LoopState(b, v, 1) == PopLast(InsertAt(b, v, 0)).0;
      FirstIteration(b, v);
    } else {
      var i := index - 1;
      var s := LoopState(b, v, i);
      assert s == AfterRearranges(b, v, i - 1) by {
        LoopStateClosedForm(b, v, i);
      }
      assert LoopState(b, v, index) == Rearrange(s, i - 1, i + 1);
      RearrangeStep(b, v, i);
    }
  }

  /** The last iteration (index `count - 1`) fails the `index < count - 1`
      test and changes nothing. */
  lemma LastIteration<T>(b: seq<T>, v: T)
    requires |b| >= 2
    ensures LoopState(b, v, |b|) == LoopState(b, v, |b| - 1)
  {
    var s := LoopState(b, v, |b| - 1);
    assert LoopState(b, v, |b|) == WriteIteration(s, v, |b| - 1);
  }

  /** A one-element buffer: the insert and pop leave `[v]`. */
  lemma LoopEndSingle<T>(b: seq<T>, v: T)
    requires |b| == 1
    ensures LoopState(b, v, 1) == Shifted(b, v)
  {
    assert LoopState(b, v, 1) == PopLast(InsertAt(b, v, 0)).0;
    FirstIteration(b, v);
  }

  /** Two or more elements: the last `rearrange` leaves the closed form. */
  lemma LoopEndLong<T>(b: seq<T>, v: T)
    requires |b| >= 2
    ensures LoopState(b, v, |b|) == Shifted(b, v)
  {
    var last := |b| - 1;
    assert LoopState(b, v, |b|) == LoopState(b, v, last) by {
      LastIteration(b, v);
    }
    assert LoopState(b, v, last) == AfterRearranges(b, v, last - 1) by {
      LoopStateClosedForm(b, v, last);
    }
    AfterAllRearranges(b, v, last);
  }

  /** Once every index has been visited, the loop state is `Shifted`. */
  lemma LoopEnd<T>(b: seq<T>, v: T)
    ensures LoopState(b, v, |b|) == Shifted(b, v)
  {
    if |b| == 1 {
      LoopEndSingle(b, v);
    } else if |b| >= 2 {
      LoopEndLong(b, v);
    }
  }

  /** A buffer of four or more, cut into its first element, its middle and
      its last three. */
  lemma SplitLong<T>(b: seq<T>)
    requires |b| >= 4
    ensures b == [b[0]] + b[1..|b| - 3] + [b[|b| - 3]] + [b[|b| - 2]] + [b[|b| - 1]]
  {
    var n := |b|;
    assert b == b[..1] + b[1..n - 3] + b[n - 3..];
  }

  lemma SplitShort<T>(b: seq<T>)
    requires 1 <= |b| <= 3
    ensures |b| == 1 ==> b == [b[0]]
    ensures |b| == 2 ==> b == [b[0]] + [b[1]]
    ensures |b| == 3 ==> b == [b[0]] + [b[1]] + [b[2]]
  {
  }

  lemma ReplaceInMultiset<T>(kept: multiset<T>, z: T, v: T)
    ensures kept + multiset{z} - multiset{z} + multiset{v} == kept + multiset{v}
  {
  }

  /** The write of `v` on a buffer of four or more, in named pieces. */
  lemma ShiftedLong<T>(b: seq<T>, v: T)
    requires |b| >= 4
    ensures Shifted(b, v) == [b[0]] + [v] + b[1..|b| - 3] + [b[|b| - 2]] + [b[|b| - 3]]
  {
  }

  lemma MultisetOfPieces<T>(b0: T, v: T, mid: seq<T>, x: T, y: T, z: T)
    ensures multiset([b0] + [v] + mid + [y] + [x]) ==
            multiset([b0] + mid + [x] + [y] + [z]) - multiset{z} + multiset{v}
  {
    ReplaceInMultiset(multiset{b0} + multiset(mid) + multiset{x} + multiset{y}, z, v);
  }

  lemma LongShiftedMultiset<T>(b: seq<T>, v: T)
    requires |b| >= 4
    ensures multiset(Shifted(b, v)) == multiset(b) - multiset{b[|b| - 1]} + multiset{v}
  {
    var n := |b|;
    var b0, mid, x, y, z := b[0], b[1..n - 3], b[n - 3], b[n - 2], b[n - 1];
    var s := Shifted(b, v);
    assert s == [b0] + [v] + mid + [y] + [x] by { ShiftedLong(b, v); }
    assert b == [b0] + mid + [x] + [y] + [z] by { SplitLong(b); }
    MultisetOfPieces(b0, v, mid, x, y, z);
  }

  lemma ShortShiftedMultiset<T>(b: seq<T>, v: T)
    requires 1 <= |b| <= 3
    ensures multiset(Shifted(b, v)) == multiset(b) - multiset{b[|b| - 1]} + multiset{v}
  {
    SplitShort(b);
    if |b| == 2 {
      ReplaceInMultiset(multiset{b[0]}, b[1], v);
    } else if |b| == 3 {
      ReplaceInMultiset(multiset{b[0]} + multiset{b[1]}, b[2], v);
    }
  }

  /** The write keeps the multiset of the buffer except that the last
      element is evicted and `v` is added. */
  lemma ShiftedMultiset<T>(b: seq<T>, v: T)
    requires |b| >= 1
    ensures multiset(Shifted(b, v)) == multiset(b) - multiset{b[|b| - 1]} + multiset{v}
  {
    if |b| >= 4 {
      LongShiftedMultiset(b, v);
    } else {
      ShortShiftedMultiset(b, v);
    }
  }

  lemma SumOfTwo(x: real, y: real)
    ensures Sum([x] + [y]) == x + y
  {
    SumConcat([x], [y]);
    SumSingleton(x);
    SumSingleton(y);
  }

  lemma SumOfPieces(b0: real, v: real, mid: seq<real>, x: real, y: real, z: real)
    ensures Sum([b0] + mid + [x] + [y] + [z]) == b0 + Sum(mid) + x + y + z
    ensures Sum([b0] + [v] + mid + [y] + [x]) == b0 + v + Sum(mid) + y + x
  {
    SumConcat([b0] + mid + [x] + [y], [z]);
    SumConcat([b0] + mid + [x], [y]);
    SumConcat([b0] + mid, [x]);
    SumConcat([b0], mid);
    SumConcat([b0] + [v] + mid + [y], [x]);
    SumConcat([b0] + [v] + mid, [y]);
    SumConcat([b0] + [v], mid);
    SumOfTwo(b0, v);
    SumSingleton(b0);
    SumSingleton(x);
    SumSingleton(y);
    SumSingleton(z);
  }

  lemma LongShiftedSum(b: seq<real>, v: real)
    requires |b| >= 4
    ensures Sum(Shifted(b, v)) == Sum(b) - b[|b| - 1] + v
  {
    var n := |b|;
    var b0, mid, x, y, z := b[0], b[1..n - 3], b[n - 3], b[n - 2], b[n - 1];
    var s := Shifted(b, v);
    assert s == [b0] + [v] + mid + [y] + [x] by { ShiftedLong(b, v); }
    assert b == [b0] + mid + [x] + [y] + [z] by { SplitLong(b); }
    SumOfPieces(b0, v, mid, x, y, z);
  }

  lemma ShortShiftedSum(b: seq<real>, v: real)
    requires 1 <= |b| <= 3
    ensures Sum(Shifted(b, v)) == Sum(b) - b[|b| - 1] + v
  {
    SplitShort(b);
    if |b| == 1 {
      SumSingleton(b[0]);
      SumSingleton(v);
    } else if |b| == 2 {
      SumOfTwo(b[0], b[1]);
      SumOfTwo(v, b[0]);
    } else {
      SumConcat([b[0]] + [b[1]], [b[2]]);
      SumConcat([b[0]] + [b[1]], [v]);
      SumOfTwo(b[0], b[1]);
      SumSingleton(b[2]);
      SumSingleton(v);
    }
  }

  /** The write changes the buffer's sum by `v` minus the evicted element. */
  lemma ShiftedSum(b: seq<real>, v: real)
    requires |b| >= 1
    ensures Sum(Shifted(b, v)) == Sum(b) - b[|b| - 1] + v
  {
    if |b| >= 4 {
      LongShiftedSum(b, v);
    } else {
      ShortShiftedSum(b, v);
    }
  }

  /**
   The write is the FIFO push of the comment only for buffers of at most two
   elements; from three on, it agrees with it exactly when `v` equals the
   first element and the elements at `n - 2` and `n - 3` are equal.
   */
  lemma ShiftedVersusFifo<T>(b: seq<T>, v: T)
    ensures |b| <= 2 ==> Shifted(b, v) == FifoPush(b, v)
    ensures |b| >= 3 ==>
      (Shifted(b, v) == FifoPush(b, v) <==> v == b[0] && b[|b| - 2] == b[|b| - 3])
  {
    var n := |b|;
    var r, f := Shifted(b, v), FifoPush(b, v);
    if n <= 2 {
      assert r == f;
    } else {
      if r == f {
        assert r[0] == f[0] && r[n - 2] == f[n - 2];
        if n == 3 {
          assert r[2] == f[2];
        }
      }
      if v == b[0] && b[n - 2] == b[n - 3] {
        if n == 3 {
          assert r == f;
        } else {
          ShiftedAt(b, v);
          assert forall k :: 0 <= k < n ==> r[k] == f[k];
          assert r == f;
        }
      }
    }
  }

  /** The buffer after writing every value of `vs`, first to last. */
  function PushAll<T>(b: seq<T>, vs: seq<T>): (r: seq<T>)
    ensures |r| == |b|
    decreases |vs|
  {
    if vs == [] then b else Shifted(PushAll(b, vs[..|vs| - 1]), vs[|vs| - 1])
  }

  /** However many values are written, slots 0 and n - 2 keep their value. */
  lemma {:induction false} PushAllKeepsFixedSlots<T>(b: seq<T>, vs: seq<T>)
    requires |b| >= 3
    ensures PushAll(b, vs)[0] == b[0] && PushAll(b, vs)[|b| - 2] == b[|b| - 2]
    decreases |vs|
  {
    if vs != [] {
      PushAllKeepsFixedSlots(b, vs[..|vs| - 1]);
    }
  }

  /** The zero-filled buffer after `k <= n - 3` writes of `c`. */
  function Filling(n: nat, c: real, k: nat): (r: seq<real>)
    requires k <= n - 1
    ensures |r| == n
    ensures r[0] == 0.0
    ensures forall i :: 1 <= i <= k ==> r[i] == c
    ensures forall i :: k < i < n ==> r[i] == 0.0
  {
    [0.0] + Repeat(c, k) + Repeat(0.0, n - 1 - k)
  }

  /** The zero-filled buffer once `n - 2` or more copies of `c` are written. */
  function Settled(n: nat, c: real): (r: seq<real>)
    requires n >= 4
    ensures |r| == n
    ensures r[0] == 0.0 && r[n - 2] == 0.0 && r[n - 1] == c
    ensures forall i :: 1 <= i <= n - 3 ==> r[i] == c
  {
    [0.0] + Repeat(c, n - 3) + [0.0] + [c]
  }

  lemma FillingStep(n: nat, c: real, k: nat)
    requires n >= 4 && 1 <= k <= n - 3
    ensures Shifted(Filling(n, c, k - 1), c) == Filling(n, c, k)
  {
    var prev, t := Filling(n, c, k - 1), Filling(n, c, k);
    var r := Shifted(prev, c);
    ShiftedAt(prev, c);
    forall i | 0 <= i < n ensures r[i] == t[i] {
      if 2 <= i <= n - 3 {
        assert r[i] == prev[i - 1];
      }
    }
    assert r == t;
  }

  lemma SettlingStep(n: nat, c: real)
    requires n >= 4
    ensures Shifted(Filling(n, c, n - 3), c) == Settled(n, c)
  {
    var prev, t := Filling(n, c, n - 3), Settled(n, c);
    var r := Shifted(prev, c);
    ShiftedAt(prev, c);
    forall i | 0 <= i < n ensures r[i] == t[i] {
      if 2 <= i <= n - 3 {
        assert r[i] == prev[i - 1];
      }
    }
    assert r == t;
  }

  lemma SettledStep(n: nat, c: real)
    requires n >= 4
    ensures Shifted(Settled(n, c), c) == Settled(n, c)
  {
    var t := Settled(n, c);
    var r := Shifted(t, c);
    ShiftedAt(t, c);
    forall i | 0 <= i < n ensures r[i] == t[i] {
      if 2 <= i <= n - 3 {
        assert r[i] == t[i - 1];
      }
    }
    assert r == t;
  }

  /**
   Writing `k` copies of `c` into a zero-filled buffer of `n >= 4` slots:
   the copies fill slots 1 to k while `k <= n - 3`; after `n - 2` writes the
   buffer is `[0, c, ..., c, 0, c]` and stays so.
   */
  lemma {:induction false} ConstantStreamFromZeros(n: nat, c: real, k: nat)
    requires n >= 4
    ensures PushAll(Repeat(0.0, n), Repeat(c, k)) ==
      if k <= n - 3 then Filling(n, c, k) else Settled(n, c)
  {
    if k == 0 {
      assert Repeat(c, k) == [];
      assert Repeat(0.0, n) == Filling(n, c, 0);
    } else {
      var prev := PushAll(Repeat(0.0, n), Repeat(c, k - 1));
      assert PushAll(Repeat(0.0, n), Repeat(c, k)) == Shifted(prev, c) by {
        assert Repeat(c, k)[..k - 1] == Repeat(c, k - 1);
      }
      ConstantStreamFromZeros(n, c, k - 1);
      if k <= n - 3 {
        assert Shifted(prev, c) == Filling(n, c, k) by { FillingStep(n, c, k); }
      } else if k == n - 2 {
        assert Shifted(prev, c) == Settled(n, c) by { SettlingStep(n, c); }
      } else {
        assert Shifted(prev, c) == Settled(n, c) by { SettledStep(n, c); }
      }
    }
  }

  lemma SumOfFilling(n: nat, c: real, k: nat)
    requires k <= n - 1
    ensures Sum(Filling(n, c, k)) == (k as real) * c
  {
    SumConcat([0.0] + Repeat(c, k), Repeat(0.0, n - 1 - k));
    SumConcat([0.0], Repeat(c, k));
    SumSingleton(0.0);
    SumRepeat(c, k);
    SumRepeat(0.0, n - 1 - k);
  }

  lemma SumOfSettled(n: nat, c: real)
    requires n >= 4
    ensures Sum(Settled(n, c)) == ((n - 2) as real) * c
  {
    SumConcat([0.0] + Repeat(c, n - 3) + [0.0], [c]);
    SumConcat([0.0] + Repeat(c, n - 3), [0.0]);
    SumConcat([0.0], Repeat(c, n - 3));
    SumSingleton(0.0);
    SumSingleton(c);
    SumRepeat(c, n - 3);
  }

  /**
   A constant stream never reaches its own value: once `n - 2` copies of `c`
   are written into a zero-filled buffer, the average is `(n - 2) / n * c`.
   */
  lemma ConstantStreamAverage(n: nat, c: real, k: nat)
    requires n >= 4 && k >= n - 2
    ensures Mean(PushAll(Repeat(0.0, n), Repeat(c, k))) == ((n - 2) as real) * c / (n as real)
  {
    ConstantStreamFromZeros(n, c, k);
    SumOfSettled(n, c);
  }

  lemma DivideBound(x: real, y: real, n: real)
    requires n > 0.0 && x <= y
    ensures x / n <= y / n
  {
  }

  lemma ScaleBound(x: real, y: real, c: real)
    requires x <= y && c >= 0.0
    ensures x * c <= y * c
  {
  }

  /** While the buffer is still filling, its average stays below the bound. */
  lemma FillingAverageBound(n: nat, c: real, k: nat)
    requires n >= 4 && c >= 0.0 && k <= n - 3
    ensures Mean(Filling(n, c, k)) <= ((n - 2) as real) * c / (n as real)
  {
    SumOfFilling(n, c, k);
    var reached := (k as real) * c;
    var bound := ((n - 2) as real) * c;
    ScaleBound(k as real, (n - 2) as real, c);
    DivideBound(reached, bound, n as real);
  }

  /** For `c >= 0`, a constant stream's average never rises above `(n - 2) / n * c`. */
  lemma ConstantStreamAverageBound(n: nat, c: real, k: nat)
    requires n >= 4 && c >= 0.0
    ensures Mean(PushAll(Repeat(0.0, n), Repeat(c, k))) <= ((n - 2) as real) * c / (n as real)
  {
    if k <= n - 3 {
      assert PushAll(Repeat(0.0, n), Repeat(c, k)) == Filling(n, c, k) by {
        ConstantStreamFromZeros(n, c, k);
      }
      FillingAverageBound(n, c, k);
    } else {
      ConstantStreamAverage(n, c, k);
    }
  }

  /** Ten writes of 1.0 into the initial ten zeros average to 0.8, not 1.0. */
  lemma TenWritesOfOne()
    ensures Mean(PushAll(Repeat(0.0, 10), Repeat(1.0, 10))) == 0.8
  {
    ConstantStreamAverage(10, 1.0, 10);
  }

  /** One write of 1.0 into the initial ten zeros averages to 0.1. */
  lemma OneWriteOfOne()
    ensures Mean(PushAll(Repeat(0.0, 10), [1.0])) == 0.1
  {
    assert [1.0] == Repeat(1.0, 1);
    ConstantStreamFromZeros(10, 1.0, 1);
    SumOfFilling(10, 1.0, 1);
  }
}
