/** The per-class ratios of scripts/precision_recall.py:86-105, as exact
    rationals. Each zero-denominator guard of the source is kept as written. */
module Ratios {
  import opened Sums
  import opened ClassCounts

  /** `num / den if den > 0 else 0`: the guarded division shared by
      precision, recall (and sensitivity) and specificity. */
  function Ratio(num: int, den: int): (r: real)
    ensures 0 <= num <= den ==> 0.0 <= r <= 1.0
    ensures 0 <= num <= den ==> (r == 0.0 <==> num == 0)
    ensures 0 <= num <= den ==> (r == 1.0 <==> 0 < num == den)
  {
    if den > 0 then num as real / den as real else 0.0
  }

  /** TP / (TP + FP), 0 when nothing was predicted as the class. */
  function Precision(k: Counts): (p: real)
  {
    Ratio(k.tp, k.tp + k.fp)
  }

  /** TP / (TP + FN), 0 when no sample is of the class. The source computes
      sensitivity with the same expression, so it is this function too. */
  function Recall(k: Counts): (r: real)
  {
    Ratio(k.tp, k.tp + k.fn)
  }

  /** TN / (TN + FP), 0 when every sample is of the class or predicted as it. */
  function Specificity(k: Counts): (s: real)
  {
    Ratio(k.tn, k.tn + k.fp)
  }

  /** The harmonic mean of precision and recall, 0 when both are 0. */
  function F1(p: real, r: real): (f: real)
  {
    if p + r > 0.0 then 2.0 * (p * r) / (p + r) else 0.0
  }

  /** The mean of sensitivity and specificity. */
  function BalancedAccuracy(k: Counts): (b: real)
  {
    (Recall(k) + Specificity(k)) / 2.0
  }

  /** (TP + TN) / (TP + TN + FP + FN): the share of samples the classifier
      gets right about this class. Unguarded in the source; the model needs
      a non-zero denominator. */
  function WeightedAccuracy(k: Counts): (w: real)
    requires k.Size() != 0
  {
    (k.tp + k.tn) as real / (k.tp + k.tn + k.fp + k.fn) as real
  }

  /** (TP + FP)(TP + FN)(TN + FP)(TN + FN): the product under the square
      root of the MCC denominator. */
  function Marginals(k: Counts): (m: int)
  {
    (k.tp + k.fp) * (k.tp + k.fn) * (k.tn + k.fp) * (k.tn + k.fn)
  }

  /** TP * TN - FP * FN: the MCC numerator. */
  function MccNumerator(k: Counts): (n: int)
  {
    k.tp * k.tn - k.fp * k.fn
  }

  /** The Matthews correlation coefficient, 0 when its denominator is 0.
      The square root is a parameter. */
  function Mcc(k: Counts, sqrt: real -> real): (m: real)
  {
    var d := sqrt(Marginals(k) as real);
    if d != 0.0 then MccNumerator(k) as real / d else 0.0
  }

  /** `sqrt` is the non-negative square root on the non-negative reals: it
      maps 0 to 0 and each positive real to its positive root. */
  ghost predicate IsSqrt(sqrt: real -> real)
  {
    && sqrt(0.0) == 0.0
    && forall x: real :: 0.0 < x ==> 0.0 < sqrt(x) && sqrt(x) * sqrt(x) == x
  }

  /** Precision is 0 when nothing is predicted as the class; on counts it
      lies in [0, 1], is 0 exactly when there is no true positive and is 1
      exactly when there are true positives and no false positive. */
  lemma PrecisionRange(k: Counts)
    requires k.NonNegative()
    ensures k.tp + k.fp == 0 ==> Precision(k) == 0.0
    ensures 0.0 <= Precision(k) <= 1.0
    ensures Precision(k) == 0.0 <==> k.tp == 0
    ensures Precision(k) == 1.0 <==> 0 < k.tp && k.fp == 0
  {
    assert 0 <= k.tp <= k.tp + k.fp;
  }

  /** Recall (and sensitivity) behave as precision with FN in place of FP. */
  lemma RecallRange(k: Counts)
    requires k.NonNegative()
    ensures k.tp + k.fn == 0 ==> Recall(k) == 0.0
    ensures 0.0 <= Recall(k) <= 1.0
    ensures Recall(k) == 0.0 <==> k.tp == 0
    ensures Recall(k) == 1.0 <==> 0 < k.tp && k.fn == 0
  {
    assert 0 <= k.tp <= k.tp + k.fn;
  }

  lemma SpecificityRange(k: Counts)
    requires k.NonNegative()
    ensures k.tn + k.fp == 0 ==> Specificity(k) == 0.0
    ensures 0.0 <= Specificity(k) <= 1.0
    ensures Specificity(k) == 1.0 <==> 0 < k.tn && k.fp == 0
  {
    assert 0 <= k.tn <= k.tn + k.fp;
  }

  /** F1 is 0 exactly when precision or recall is, and otherwise lies
      between them; so it stays in [0, 1] with them. */
  lemma F1Range(p: real, r: real)
    requires 0.0 <= p && 0.0 <= r
    ensures F1(p, r) == 0.0 <==> p == 0.0 || r == 0.0
    ensures p <= r ==> p <= F1(p, r) <= r
    ensures r <= p ==> r <= F1(p, r) <= p
    ensures p <= 1.0 && r <= 1.0 ==> 0.0 <= F1(p, r) <= 1.0
  {
    if p + r > 0.0 {
      F1Symmetric(p, r);
      if p <= r {
        F1Between(p, r);
      } else {
        F1Between(r, p);
      }
      if p == 0.0 || r == 0.0 {
        assert p * r == 0.0;
        assert F1(p, r) == 2.0 * (p * r) / (p + r);
      }
    }
  }

  lemma F1Symmetric(p: real, r: real)
    ensures F1(p, r) == F1(r, p)
  {
    assert p * r == r * p;
  }

  /** For 0 <= lo <= hi, not both 0, the harmonic mean lies between them. */
  lemma F1Between(lo: real, hi: real)
    requires 0.0 <= lo <= hi && 0.0 < lo + hi
    ensures lo <= F1(lo, hi) <= hi
  {
    RealMulMonotone(lo, hi, lo);
    RealMulMonotone(lo, hi, hi);
    Distribute(lo, lo, hi);
    Distribute(hi, lo, hi);
    var x, s := 2.0 * (lo * hi), lo + hi;
    assert lo * s <= x <= hi * s;
    QuotientBounds(x, s, lo, hi);
    assert F1(lo, hi) == 2.0 * (lo * hi) / (lo + hi);
  }

  lemma RealMulMonotone(a: real, b: real, c: real)
    requires a <= b && 0.0 <= c
    ensures c * a <= c * b && a * c <= b * c && c * a <= b * c
  {
    assert c * b - c * a == c * (b - a);
  }

  lemma Distribute(a: real, b: real, c: real)
    ensures a * (b + c) == a * b + a * c
  {
  }

  /** On counts, F1 equals 2TP / (2TP + FP + FN), 0 when there is no true
      positive. */
  lemma F1OfCounts(k: Counts)
    requires k.NonNegative()
    ensures F1(Precision(k), Recall(k)) == Ratio(2 * k.tp, 2 * k.tp + k.fp + k.fn)
  {
    PrecisionRange(k);
    RecallRange(k);
    if k.tp > 0 {
      var t, a, b := k.tp as real, (k.tp + k.fp) as real, (k.tp + k.fn) as real;
      var p, r := Precision(k), Recall(k);
      assert p * a == t;
      assert r * b == t;
      var f := F1(p, r);
      assert f * (p + r) == 2.0 * (p * r);
      assert (p + r) * (a * b) == t * (a + b) by {
        assert (p + r) * (a * b) == (p * a) * b + (r * b) * a;
      }
      assert f * t * (a + b) == 2.0 * t * t by {
        calc {
          f * t * (a + b);
          f * ((p + r) * (a * b));
          (f * (p + r)) * (a * b);
          2.0 * (p * a) * (r * b);
        }
      }
      assert f * (a + b) == 2.0 * t;
    }
  }

  /** Balanced accuracy lies in [0, 1] and is 1 exactly when the class has no
      false positive and no false negative while both of its sides are
      non-empty. */
  lemma BalancedAccuracyRange(k: Counts)
    requires k.NonNegative()
    ensures 0.0 <= BalancedAccuracy(k) <= 1.0
    ensures BalancedAccuracy(k) == 1.0 <==> 0 < k.tp && 0 < k.tn && k.fp == 0 && k.fn == 0
  {
    RecallRange(k);
    SpecificityRange(k);
  }

  /** Weighted accuracy lies in [0, 1], and is 1 exactly when the class has
      no false positive and no false negative. */
  lemma WeightedAccuracyRange(k: Counts)
    requires k.NonNegative() && k.Size() != 0
    ensures 0.0 <= WeightedAccuracy(k) <= 1.0
    ensures WeightedAccuracy(k) == 1.0 <==> k.fp == 0 && k.fn == 0
  {
    assert 0 <= k.tp + k.tn <= k.Size();
    assert WeightedAccuracy(k) == Ratio(k.tp + k.tn, k.Size());
  }

  /** MCC is 0 when any of the four marginals is empty, whatever the other
      counts are. */
  lemma MccZeroMarginal(k: Counts, sqrt: real -> real)
    requires IsSqrt(sqrt)
    requires k.tp + k.fp == 0 || k.tp + k.fn == 0 || k.tn + k.fp == 0 || k.tn + k.fn == 0
    ensures Mcc(k, sqrt) == 0.0
  {
    assert Marginals(k) == 0;
    assert Marginals(k) as real == 0.0;
  }

  /** When every marginal of the counts is non-empty, MCC times the square
      root of the marginals' product is the integer TP * TN - FP * FN, so it
      has that integer's sign. */
  lemma MccNonZeroMarginals(k: Counts, sqrt: real -> real)
    requires IsSqrt(sqrt)
    requires 0 < k.tp + k.fp && 0 < k.tp + k.fn && 0 < k.tn + k.fp && 0 < k.tn + k.fn
    ensures 0.0 < sqrt(Marginals(k) as real)
    ensures Mcc(k, sqrt) * sqrt(Marginals(k) as real) == MccNumerator(k) as real
    ensures Mcc(k, sqrt) == 0.0 <==> MccNumerator(k) == 0
    ensures 0.0 < Mcc(k, sqrt) <==> 0 < MccNumerator(k)
  {
    var m := Marginals(k);
    ProductPositive(k.tp + k.fp, k.tp + k.fn, k.tn + k.fp, k.tn + k.fn);
    var d := sqrt(m as real);
    assert 0.0 < d;
    QuotientSign(MccNumerator(k), d);
  }

  lemma QuotientSign(n: int, d: real)
    requires 0.0 < d
    ensures n as real / d * d == n as real
    ensures n as real / d == 0.0 <==> n == 0
    ensures 0.0 < n as real / d <==> 0 < n
  {
  }

  lemma ProductPositive(a: int, b: int, c: int, d: int)
    requires 0 < a && 0 < b && 0 < c && 0 < d
    ensures 0 < a * b * c * d
  {
    assert 0 < a * b;
    assert 0 < a * b * c;
  }

  /** (TP * TN - FP * FN)^2 never exceeds the marginals' product. */
  lemma MccNumeratorSquareBound(k: Counts)
    requires k.NonNegative()
    ensures MccNumerator(k) * MccNumerator(k) <= Marginals(k)
  {
    var a, b, c, d := k.tp, k.fp, k.fn, k.tn;
    var x := (a + b) * (d + c);
    var y := (a + c) * (d + b);
    var m := a * d + b * c;
    MarginalsRegrouped(a, b, c, d);
    CrossExpanded(a, b, c, d);
    CrossExpanded(a, c, b, d);
    assert m <= x && m <= y by {
      NonNegativeProduct(a, c);
      NonNegativeProduct(b, d);
      NonNegativeProduct(a, b);
      NonNegativeProduct(c, d);
    }
    NonNegativeProduct(a, d);
    NonNegativeProduct(b, c);
    MulMonotone(m, x, m, y);
    DifferenceOfSquares(a * d, b * c);
    NonNegativeProduct(a * d, b * c);
  }

  lemma NonNegativeProduct(a: int, b: int)
    requires 0 <= a && 0 <= b
    ensures 0 <= a * b
  {
  }

  lemma MarginalsRegrouped(a: int, b: int, c: int, d: int)
    ensures (a + b) * (a + c) * (d + b) * (d + c) == ((a + b) * (d + c)) * ((a + c) * (d + b))
  {
  }

  lemma CrossExpanded(a: int, b: int, c: int, d: int)
    ensures (a + b) * (d + c) == (a * d + b * c) + a * c + b * d
  {
  }

  lemma DifferenceOfSquares(u: int, v: int)
    ensures (u + v) * (u + v) - (u - v) * (u - v) == 4 * (u * v)
  {
  }

  lemma MulMonotone(a: int, b: int, c: int, d: int)
    requires 0 <= a <= b && 0 <= c <= d
    ensures a * c <= b * d
  {
    assert a * c <= b * c;
    assert b * c <= b * d;
  }

  /** On counts MCC lies in [-1, 1]. */
  lemma MccRange(k: Counts, sqrt: real -> real)
    requires IsSqrt(sqrt) && k.NonNegative()
    ensures -1.0 <= Mcc(k, sqrt) <= 1.0
  {
    MccNumeratorSquareBound(k);
    MarginalsNonNegative(k);
    QuotientByRootBound(MccNumerator(k), Marginals(k), sqrt);
  }

  /** n / sqrt(m) lies in [-1, 1] when n^2 <= m and the root is non-zero. */
  lemma QuotientByRootBound(n: int, m: int, sqrt: real -> real)
    requires IsSqrt(sqrt) && 0 <= m && n * n <= m
    ensures sqrt(m as real) != 0.0 ==> -1.0 <= n as real / sqrt(m as real) <= 1.0
  {
    var d := sqrt(m as real);
    if d != 0.0 {
      assert m != 0;
      assert 0.0 < d && d * d == m as real;
      SquareAsReal(n, m);
      SquareBound(n as real, d);
    }
  }

  lemma MarginalsNonNegative(k: Counts)
    requires k.NonNegative()
    ensures 0 <= Marginals(k)
  {
    var a, b, c, d := k.tp + k.fp, k.tp + k.fn, k.tn + k.fp, k.tn + k.fn;
    NonNegativeProduct(a, b);
    NonNegativeProduct(a * b, c);
    NonNegativeProduct(a * b * c, d);
  }

  lemma SquareAsReal(n: int, m: int)
    requires n * n <= m
    ensures (n as real) * (n as real) <= m as real
  {
    assert (n * n) as real == (n as real) * (n as real);
  }

  /** |x| <= d from x^2 <= d^2, and so x / d lies in [-1, 1]. */
  lemma SquareBound(x: real, d: real)
    requires 0.0 < d && x * x <= d * d
    ensures -1.0 <= x / d <= 1.0
  {
    assert -d <= x <= d;
  }
}
