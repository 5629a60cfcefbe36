/** Sums over sequences: the integer sums behind `np.sum`, and the real sums
    and weighted sums behind `np.mean` and `np.average`. */
module Sums {

  /** The sum of a sequence of integers. */
  function Sum(s: seq<int>): (sum: int)
  {
    if s == [] then 0 else s[0] + Sum(s[1..])
  }

  /** The sum of a sequence of reals. */
  function SumR(xs: seq<real>): (sum: real)
  {
    if xs == [] then 0.0 else xs[0] + SumR(xs[1..])
  }

  /** The weighted sum of `xs` with integer weights `ws`. */
  function Dot(xs: seq<real>, ws: seq<int>): (d: real)
    requires |xs| == |ws|
  {
    if xs == [] then 0.0 else xs[0] * ws[0] as real + Dot(xs[1..], ws[1..])
  }

  predicate AllNonNegative(s: seq<int>)
  {
    forall k :: 0 <= k < |s| ==> 0 <= s[k]
  }

  predicate InRange(xs: seq<real>, lo: real, hi: real)
  {
    forall k :: 0 <= k < |xs| ==> lo <= xs[k] <= hi
  }

  lemma {:induction false} SumConcat(a: seq<int>, b: seq<int>)
    ensures Sum(a + b) == Sum(a) + Sum(b)
  {
    if a == [] {
      assert a + b == b;
    } else {
      assert (a + b)[1..] == a[1..] + b;
      SumConcat(a[1..], b);
    }
  }

  /** A sum of non-negative terms is at least each of its terms. */
  lemma {:induction false} SumAtLeastElement(s: seq<int>, j: int)
    requires AllNonNegative(s) && 0 <= j < |s|
    ensures 0 <= s[j] <= Sum(s)
  {
    SumNonNegative(s[1..]);
    if j > 0 {
      SumAtLeastElement(s[1..], j - 1);
    }
  }

  lemma {:induction false} SumNonNegative(s: seq<int>)
    requires AllNonNegative(s)
    ensures 0 <= Sum(s)
  {
    if s != [] {
      SumNonNegative(s[1..]);
    }
  }

  /** Summing is monotone in each term. */
  lemma {:induction false} SumMonotone(a: seq<int>, b: seq<int>)
    requires |a| == |b|
    requires forall k :: 0 <= k < |a| ==> a[k] <= b[k]
    ensures Sum(a) <= Sum(b)
  {
    if a != [] {
      SumMonotone(a[1..], b[1..]);
    }
  }

  /** Summing is additive: the sum of a pointwise sum is the sum of the sums. */
  lemma {:induction false} SumPointwise(a: seq<int>, b: seq<int>, c: seq<int>)
    requires |a| == |b| == |c|
    requires forall k :: 0 <= k < |c| ==> c[k] == a[k] + b[k]
    ensures Sum(c) == Sum(a) + Sum(b)
  {
    if c != [] {
      SumPointwise(a[1..], b[1..], c[1..]);
    }
  }

  lemma {:induction false} SumZeros(s: seq<int>)
    requires forall k :: 0 <= k < |s| ==> s[k] == 0
    ensures Sum(s) == 0
  {
    if s != [] {
      SumZeros(s[1..]);
    }
  }

  /** `n` terms in `[lo, hi]` sum to between `n * lo` and `n * hi`. */
  lemma {:induction false} SumRBounds(xs: seq<real>, lo: real, hi: real)
    requires InRange(xs, lo, hi)
    ensures |xs| as real * lo <= SumR(xs) <= |xs| as real * hi
  {
    if xs != [] {
      SumRBounds(xs[1..], lo, hi);
    }
  }

  /** A weighted sum of terms in `[lo, hi]` with non-negative weights lies
      between `lo` and `hi` times the total weight. */
  lemma {:induction false} DotBounds(xs: seq<real>, ws: seq<int>, lo: real, hi: real)
    requires |xs| == |ws| && AllNonNegative(ws) && InRange(xs, lo, hi)
    ensures lo * Sum(ws) as real <= Dot(xs, ws) <= hi * Sum(ws) as real
  {
    if xs != [] {
      DotBounds(xs[1..], ws[1..], lo, hi);
      var w := ws[0] as real;
      assert 0.0 <= w;
      assert lo * w <= xs[0] * w <= hi * w by {
        assert 0.0 <= (xs[0] - lo) * w;
        assert 0.0 <= (hi - xs[0]) * w;
      }
    }
  }

  /** With every weight equal to `w`, a weighted sum is `w` times the plain sum. */
  lemma {:induction false} DotUniform(xs: seq<real>, ws: seq<int>, w: int)
    requires |xs| == |ws|
    requires forall k :: 0 <= k < |ws| ==> ws[k] == w
    ensures Dot(xs, ws) == w as real * SumR(xs)
    ensures Sum(ws) == |ws| * w
  {
    if xs != [] {
      DotUniform(xs[1..], ws[1..], w);
    }
  }

  /** A weighted sum whose terms `xs[k] * ws[k]` are the integers `ys[k]` is
      the sum of `ys`. */
  lemma {:induction false} DotOfIntegers(xs: seq<real>, ws: seq<int>, ys: seq<int>)
    requires |xs| == |ws| == |ys|
    requires forall k :: 0 <= k < |ys| ==> xs[k] * ws[k] as real == ys[k] as real
    ensures Dot(xs, ws) == Sum(ys) as real
  {
    if xs != [] {
      DotOfIntegers(xs[1..], ws[1..], ys[1..]);
    }
  }

  /** Bounds on `x` scaled by a positive `w` are bounds on `x / w`. */
  lemma QuotientBounds(x: real, w: real, lo: real, hi: real)
    requires 0.0 < w && lo * w <= x <= hi * w
    ensures lo <= x / w <= hi
  {
    assert x / w * w == x;
  }
}
