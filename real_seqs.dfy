/**
 Sums and means of amplitude sequences. Amplitudes are `real`: the Swift code
 works on `Double`, whose rounding this model does not follow.
 */
module RealSeqs {

  /** `count` copies of `x`; `Repeat(0.0, n)` is Swift's
      `[Double](repeating: 0.0, count: n)`. */
  function Repeat<T>(x: T, count: nat): (r: seq<T>)
    ensures |r| == count
    ensures forall k :: 0 <= k < count ==> r[k] == x
  {
    seq(count, _ => x)
  }

  /** Sum accumulated from the front, in the order of the source's `for val in` loop. */
  function Sum(s: seq<real>): real
  {
    if s == [] then 0.0 else Sum(s[..|s| - 1]) + s[|s| - 1]
  }

  /** Arithmetic mean: the value that, times the element count, gives the sum. */
  function Mean(s: seq<real>): (r: real)
    requires |s| > 0
    ensures r * (|s| as real) == Sum(s)
  {
    Sum(s) / (|s| as real)
  }

  lemma {:induction false} SumConcat(a: seq<real>, b: seq<real>)
    ensures Sum(a + b) == Sum(a) + Sum(b)
    decreases |b|
  {
    if b != [] {
      assert (a + b)[..|a + b| - 1] == a + b[..|b| - 1];
      SumConcat(a, b[..|b| - 1]);
    } else {
      assert a + b == a;
    }
  }

  lemma SumSingleton(x: real)
    ensures Sum([x]) == x
  {
    assert [x][..0] == [];
  }

  /** A sequence of `count` copies of `c` sums to `count * c`. */
  lemma {:induction false} SumRepeat(c: real, count: nat)
    ensures Sum(Repeat(c, count)) == (count as real) * c
  {
    if count > 0 {
      assert Repeat(c, count)[..count - 1] == Repeat(c, count - 1);
      SumRepeat(c, count - 1);
    }
  }

  /** Element bounds carry over to the sum, scaled by the length. */
  lemma {:induction false} SumBounds(s: seq<real>, lo: real, hi: real)
    requires forall k :: 0 <= k < |s| ==> lo <= s[k] <= hi
    ensures (|s| as real) * lo <= Sum(s) <= (|s| as real) * hi
    decreases |s|
  {
    if s != [] {
      var init := s[..|s| - 1];
      assert forall k :: 0 <= k < |init| ==> init[k] == s[k];
      SumBounds(init, lo, hi);
      var n := |init| as real;
      var last := s[|s| - 1];
      assert Sum(s) == Sum(init) + last && lo <= last <= hi;
      assert |s| as real == n + 1.0;
      assert (n + 1.0) * lo == n * lo + lo && (n + 1.0) * hi == n * hi + hi;
    }
  }

  /** The mean lies within any bounds that hold for every element. */
  lemma MeanBounds(s: seq<real>, lo: real, hi: real)
    requires |s| > 0
    requires forall k :: 0 <= k < |s| ==> lo <= s[k] <= hi
    ensures lo <= Mean(s) <= hi
  {
    SumBounds(s, lo, hi);
    var n := |s| as real;
    assert Mean(s) * n == Sum(s);
  }

  /** The mean of `count` copies of `c` is `c`. */
  lemma MeanRepeat(c: real, count: nat)
    requires count > 0
    ensures Mean(Repeat(c, count)) == c
  {
    SumRepeat(c, count);
  }

  /** If every element equals `c`, the mean is `c`. */
  lemma MeanOfConstant(s: seq<real>, c: real)
    requires |s| > 0
    requires forall k :: 0 <= k < |s| ==> s[k] == c
    ensures Mean(s) == c
  {
    assert s == Repeat(c, |s|);
    MeanRepeat(c, |s|);
  }

  /** The smallest element. */
  function Min(s: seq<real>): (m: real)
    requires |s| > 0
    ensures m in s
    ensures forall k :: 0 <= k < |s| ==> m <= s[k]
  {
    if |s| == 1 then s[0]
    else
      var rest := Min(s[..|s| - 1]);
      assert forall k :: 0 <= k < |s| - 1 ==> s[..|s| - 1][k] == s[k];
      if s[|s| - 1] < rest then s[|s| - 1] else rest
  }

  /** The largest element. */
  function Max(s: seq<real>): (m: real)
    requires |s| > 0
    ensures m in s
    ensures forall k :: 0 <= k < |s| ==> s[k] <= m
  {
    if |s| == 1 then s[0]
    else
      var rest := Max(s[..|s| - 1]);
      assert forall k :: 0 <= k < |s| - 1 ==> s[..|s| - 1][k] == s[k];
      if rest < s[|s| - 1] then s[|s| - 1] else rest
  }

  /** The mean lies between the smallest and the largest element. */
  lemma MeanBetweenMinAndMax(s: seq<real>)
    requires |s| > 0
    ensures Min(s) <= Mean(s) <= Max(s)
  {
    MeanBounds(s, Min(s), Max(s));
  }
}
