/** The two averages of scripts/precision_recall.py:123-137: `np.mean` and
    `np.average` with weights. */
module Averages {
  import opened Sums

  /** `np.mean(xs)`: the arithmetic mean of a non-empty list. */
  function Mean(xs: seq<real>): (m: real)
    requires |xs| > 0
  {
    SumR(xs) / |xs| as real
  }

  /** `np.average(xs, weights=ws)`: the sum of `xs[k] * ws[k]` divided by the
      sum of the weights, which numpy refuses to do when the weights sum
      to zero. */
  function WeightedAverage(xs: seq<real>, ws: seq<int>): (a: real)
    requires |xs| == |ws| && Sum(ws) != 0
  {
    Dot(xs, ws) / Sum(ws) as real
  }

  /** The mean of values in `[lo, hi]` lies in `[lo, hi]`. */
  lemma MeanInRange(xs: seq<real>, lo: real, hi: real)
    requires |xs| > 0 && InRange(xs, lo, hi)
    ensures lo <= Mean(xs) <= hi
  {
    SumRBounds(xs, lo, hi);
    QuotientBounds(SumR(xs), |xs| as real, lo, hi);
  }

  /** With non-negative weights of positive sum, the weighted average of
      values in `[lo, hi]` lies in `[lo, hi]`. */
  lemma WeightedAverageInRange(xs: seq<real>, ws: seq<int>, lo: real, hi: real)
    requires |xs| == |ws| && AllNonNegative(ws) && 0 < Sum(ws) && InRange(xs, lo, hi)
    ensures lo <= WeightedAverage(xs, ws) <= hi
  {
    DotBounds(xs, ws, lo, hi);
    QuotientBounds(Dot(xs, ws), Sum(ws) as real, lo, hi);
  }

  /** When every weight is the same non-zero `w`, the weighted average is the
      plain mean: the two averagings agree on balanced classes. */
  lemma WeightedAverageOfEqualWeights(xs: seq<real>, ws: seq<int>, w: int)
    requires |xs| == |ws| && 0 < |xs| && w != 0
    requires forall k :: 0 <= k < |ws| ==> ws[k] == w
    ensures Sum(ws) != 0
    ensures WeightedAverage(xs, ws) == Mean(xs)
  {
    DotUniform(xs, ws, w);
    var n := |xs| as real;
    assert Sum(ws) as real == n * w as real;
    assert n * w as real != 0.0;
    calc {
      WeightedAverage(xs, ws);
      (w as real * SumR(xs)) / (n * w as real);
      SumR(xs) / n;
    }
  }
}
