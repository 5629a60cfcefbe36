/** `calculate_classification_metrics` (scripts/precision_recall.py:3-139):
    per-class ratios from a confusion matrix, overall accuracy, and macro and
    weighted averages of the per-class lists. */
module ClassificationMetrics {
  import opened Sums
  import opened ConfusionMatrix
  import opened ClassCounts
  import opened Ratios
  import opened Averages

  /** `np.average` raises ZeroDivisionError when its weights sum to zero. */
  datatype Error = WeightsSumToZero

  datatype Result<T> = Ok(value: T) | Err(error: Error)

  /** `metrics['per_class']`: six lists, entry `i` for class `i`. */
  datatype PerClass = PerClass(
    precision: seq<real>,
    recall: seq<real>,
    f1Score: seq<real>,
    balancedAccuracy: seq<real>,
    weightedAccuracy: seq<real>,
    mcc: seq<real>)

  /** `metrics['overall']`. */
  datatype Overall = Overall(
    accuracy: real,
    macroPrecision: real,
    macroRecall: real,
    macroF1Score: real,
    macroBalancedAccuracy: real,
    macroWeightedAccuracy: real,
    macroMcc: real,
    weightedPrecision: real,
    weightedRecall: real,
    weightedF1Score: real,
    weightedBalancedAccuracy: real,
    weightedWeightedAccuracy: real,
    weightedMcc: real)

  datatype Metrics = Metrics(perClass: PerClass, overall: Overall)

  /** Every per-class list has one entry per class. */
  predicate HasLength(pc: PerClass, n: int)
  {
    && |pc.precision| == n && |pc.recall| == n && |pc.f1Score| == n
    && |pc.balancedAccuracy| == n && |pc.weightedAccuracy| == n && |pc.mcc| == n
  }

  /** The per-class lists the class loop builds, in class order. */
  function PerClassOf(cm: Matrix, sqrt: real -> real): (pc: PerClass)
    requires IsSquare(cm) && Total(cm) != 0
  {
    var n := |cm|;
    PerClass(
      seq(n, i requires 0 <= i < n => Precision(CountsOf(cm, i))),
      seq(n, i requires 0 <= i < n => Recall(CountsOf(cm, i))),
      seq(n, i requires 0 <= i < n => F1(Precision(CountsOf(cm, i)), Recall(CountsOf(cm, i)))),
      seq(n, i requires 0 <= i < n => BalancedAccuracy(CountsOf(cm, i))),
      seq(n, i requires 0 <= i < n => WeightedAccuracy(CountsOf(cm, i))),
      seq(n, i requires 0 <= i < n => Mcc(CountsOf(cm, i), sqrt)))
  }

  /** trace / total_samples, the plain means of the lists, and their averages
      weighted by the row sums. */
  function OverallOf(cm: Matrix, pc: PerClass): (o: Overall)
    requires IsSquare(cm) && Total(cm) != 0 && HasLength(pc, |cm|)
  {
    RowSumsTotal(cm);
    assert cm != [];
    var w := RowSums(cm);
    Overall(
      Trace(cm) as real / Total(cm) as real,
      Mean(pc.precision),
      Mean(pc.recall),
      Mean(pc.f1Score),
      Mean(pc.balancedAccuracy),
      Mean(pc.weightedAccuracy),
      Mean(pc.mcc),
      WeightedAverage(pc.precision, w),
      WeightedAverage(pc.recall, w),
      WeightedAverage(pc.f1Score, w),
      WeightedAverage(pc.balancedAccuracy, w),
      WeightedAverage(pc.weightedAccuracy, w),
      WeightedAverage(pc.mcc, w))
  }

  /** What `calculate_classification_metrics` returns, or the error it
      raises: `np.average` fails when the row sums it is given as weights
      sum to zero, which is exactly when the matrix holds no samples. */
  function Calculate(cm: Matrix, sqrt: real -> real): (r: Result<Metrics>)
    requires IsSquare(cm)
    ensures r.Err? <==> Total(cm) == 0
  {
    RowSumsTotal(cm);
    if Sum(RowSums(cm)) == 0 then Err(WeightsSumToZero)
    else
      var pc := PerClassOf(cm, sqrt);
      Ok(Metrics(pc, OverallOf(cm, pc)))
  }

  /** `calculate_classification_metrics`: the class loop, then the overall
      values. It fails exactly when the matrix holds no samples; otherwise
      the per-class lists have one entry per class, entry `i` computed from
      row `i` and column `i`. */
  method CalculateClassificationMetrics(cm: Matrix, sqrt: real -> real) returns (r: Result<Metrics>)
    requires IsSquare(cm)
    ensures r == Calculate(cm, sqrt)
    ensures r.Ok? ==> HasLength(r.value.perClass, |cm|)
    ensures r.Ok? ==> forall i :: 0 <= i < |cm| ==>
      var k := CountsOf(cm, i);
      var pc := r.value.perClass;
      && pc.precision[i] == Precision(k) && pc.recall[i] == Recall(k)
      && pc.f1Score[i] == F1(Precision(k), Recall(k))
      && pc.balancedAccuracy[i] == BalancedAccuracy(k)
      && pc.weightedAccuracy[i] == WeightedAccuracy(k) && pc.mcc[i] == Mcc(k, sqrt)
  {
    var classSamples := RowSums(cm);
    RowSumsTotal(cm);
    if Sum(classSamples) == 0 {
      // np.average raises before anything is returned
      return Err(WeightsSumToZero);
    }
    var perClass := PerClassLists(cm, sqrt);
    r := Ok(Metrics(perClass, OverallOf(cm, perClass)));
  }

  /** The class loop of scripts/precision_recall.py:72-113: one entry per
      class appended to each of the six lists, in class order. */
  method PerClassLists(cm: Matrix, sqrt: real -> real) returns (perClass: PerClass)
    requires IsSquare(cm) && Total(cm) != 0
    ensures perClass == PerClassOf(cm, sqrt)
  {
    var numClasses := |cm|;
    ghost var spec := PerClassOf(cm, sqrt);
    var precisions: seq<real> := [];
    var recalls: seq<real> := [];
    var f1Scores: seq<real> := [];
    var balancedAccuracies: seq<real> := [];
    var weightedAccuracies: seq<real> := [];
    var mccs: seq<real> := [];
    var classIdx := 0;
    while classIdx < numClasses
      invariant 0 <= classIdx <= numClasses
      invariant precisions == spec.precision[..classIdx]
      invariant recalls == spec.recall[..classIdx]
      invariant f1Scores == spec.f1Score[..classIdx]
      invariant balancedAccuracies == spec.balancedAccuracy[..classIdx]
      invariant weightedAccuracies == spec.weightedAccuracy[..classIdx]
      invariant mccs == spec.mcc[..classIdx]
    {
      var counts := CountsOf(cm, classIdx);
      var precision := Precision(counts);
      var recall := Recall(counts);
      var f1 := F1(precision, recall);
      var balancedAccuracy := BalancedAccuracy(counts);
      var weightedAccuracy := WeightedAccuracy(counts);
      var mcc := Mcc(counts, sqrt);
      assert spec.precision[..classIdx + 1] == precisions + [precision];
      precisions := precisions + [precision];
      assert spec.recall[..classIdx + 1] == recalls + [recall];
      recalls := recalls + [recall];
      assert spec.f1Score[..classIdx + 1] == f1Scores + [f1];
      f1Scores := f1Scores + [f1];
      assert spec.balancedAccuracy[..classIdx + 1] == balancedAccuracies + [balancedAccuracy];
      balancedAccuracies := balancedAccuracies + [balancedAccuracy];
      assert spec.weightedAccuracy[..classIdx + 1] == weightedAccuracies + [weightedAccuracy];
      weightedAccuracies := weightedAccuracies + [weightedAccuracy];
      assert spec.mcc[..classIdx + 1] == mccs + [mcc];
      mccs := mccs + [mcc];
      classIdx := classIdx + 1;
    }
    assert HasLength(spec, numClasses);
    perClass := PerClass(precisions, recalls, f1Scores, balancedAccuracies, weightedAccuracies, mccs);
  }

  predicate PerClassInRange(pc: PerClass)
  {
    && InRange(pc.precision, 0.0, 1.0) && InRange(pc.recall, 0.0, 1.0)
    && InRange(pc.f1Score, 0.0, 1.0) && InRange(pc.balancedAccuracy, 0.0, 1.0)
    && InRange(pc.weightedAccuracy, 0.0, 1.0) && InRange(pc.mcc, -1.0, 1.0)
  }

  predicate OverallInRange(o: Overall)
  {
    && 0.0 <= o.accuracy <= 1.0
    && 0.0 <= o.macroPrecision <= 1.0 && 0.0 <= o.weightedPrecision <= 1.0
    && 0.0 <= o.macroRecall <= 1.0 && 0.0 <= o.weightedRecall <= 1.0
    && 0.0 <= o.macroF1Score <= 1.0 && 0.0 <= o.weightedF1Score <= 1.0
    && 0.0 <= o.macroBalancedAccuracy <= 1.0 && 0.0 <= o.weightedBalancedAccuracy <= 1.0
    && 0.0 <= o.macroWeightedAccuracy <= 1.0 && 0.0 <= o.weightedWeightedAccuracy <= 1.0
    && -1.0 <= o.macroMcc <= 1.0 && -1.0 <= o.weightedMcc <= 1.0
  }

  lemma PerClassInRangeOf(cm: Matrix, sqrt: real -> real)
    requires IsSquare(cm) && NonNegative(cm) && Total(cm) != 0 && IsSqrt(sqrt)
    ensures PerClassInRange(PerClassOf(cm, sqrt))
  {
    forall i | 0 <= i < |cm|
      ensures var k := CountsOf(cm, i);
        && 0.0 <= Precision(k) <= 1.0 && 0.0 <= Recall(k) <= 1.0
        && 0.0 <= F1(Precision(k), Recall(k)) <= 1.0 && 0.0 <= BalancedAccuracy(k) <= 1.0
        && 0.0 <= WeightedAccuracy(k) <= 1.0 && -1.0 <= Mcc(k, sqrt) <= 1.0
    {
      var k := CountsOf(cm, i);
      CountsNonNegative(cm, i);
      PrecisionRange(k);
      RecallRange(k);
      F1Range(Precision(k), Recall(k));
      BalancedAccuracyRange(k);
      WeightedAccuracyRange(k);
      MccRange(k, sqrt);
    }
  }

  /** On a confusion matrix of counts with at least one sample, every
      per-class ratio lies in [0, 1] (MCC in [-1, 1]); so do overall
      accuracy and every macro and weighted average. */
  lemma MetricsInRange(cm: Matrix, sqrt: real -> real)
    requires IsSquare(cm) && NonNegative(cm) && Total(cm) != 0 && IsSqrt(sqrt)
    ensures Calculate(cm, sqrt).Ok?
    ensures PerClassInRange(Calculate(cm, sqrt).value.perClass)
    ensures OverallInRange(Calculate(cm, sqrt).value.overall)
  {
    var pc := PerClassOf(cm, sqrt);
    PerClassInRangeOf(cm, sqrt);
    OverallInRangeOf(cm, pc);
  }

  /** Averages of in-range lists, with the row sums of a matrix of counts as
      weights, are in range. */
  lemma OverallInRangeOf(cm: Matrix, pc: PerClass)
    requires IsSquare(cm) && NonNegative(cm) && Total(cm) != 0
    requires HasLength(pc, |cm|) && PerClassInRange(pc)
    ensures OverallInRange(OverallOf(cm, pc))
  {
    var w := RowSums(cm);
    RowSumsTotal(cm);
    forall i | 0 <= i < |cm|
      ensures 0 <= w[i]
    {
      SumNonNegative(cm[i]);
    }
    TraceBounds(cm);
    assert cm != [];
    MeanInRange(pc.precision, 0.0, 1.0);
    MeanInRange(pc.recall, 0.0, 1.0);
    MeanInRange(pc.f1Score, 0.0, 1.0);
    MeanInRange(pc.balancedAccuracy, 0.0, 1.0);
    MeanInRange(pc.weightedAccuracy, 0.0, 1.0);
    MeanInRange(pc.mcc, -1.0, 1.0);
    WeightedAverageInRange(pc.precision, w, 0.0, 1.0);
    WeightedAverageInRange(pc.recall, w, 0.0, 1.0);
    WeightedAverageInRange(pc.f1Score, w, 0.0, 1.0);
    WeightedAverageInRange(pc.balancedAccuracy, w, 0.0, 1.0);
    WeightedAverageInRange(pc.weightedAccuracy, w, 0.0, 1.0);
    WeightedAverageInRange(pc.mcc, w, -1.0, 1.0);
    QuotientBounds(Trace(cm) as real, Total(cm) as real, 0.0, 1.0);
  }

  /** On counts, recall averaged with the row sums as weights is overall
      accuracy: each class contributes its true positives. */
  lemma WeightedRecallIsAccuracy(cm: Matrix, sqrt: real -> real)
    requires IsSquare(cm) && NonNegative(cm) && Total(cm) != 0
    ensures Calculate(cm, sqrt).Ok?
    ensures Calculate(cm, sqrt).value.overall.weightedRecall == Calculate(cm, sqrt).value.overall.accuracy
  {
    var pc := PerClassOf(cm, sqrt);
    WeightedRecallSum(cm, sqrt);
    WeightedRecallOf(cm, pc);
  }

  /** Summing recall times row sum over the classes gives the trace. */
  lemma WeightedRecallSum(cm: Matrix, sqrt: real -> real)
    requires IsSquare(cm) && NonNegative(cm) && Total(cm) != 0
    ensures Dot(PerClassOf(cm, sqrt).recall, RowSums(cm)) == Trace(cm) as real
  {
    var recalls, w, d := PerClassOf(cm, sqrt).recall, RowSums(cm), Diagonal(cm);
    forall i | 0 <= i < |cm|
      ensures recalls[i] * w[i] as real == d[i] as real
    {
      RecallTimesRowSum(cm, i);
    }
    DotOfIntegers(recalls, w, d);
  }

  lemma WeightedRecallOf(cm: Matrix, pc: PerClass)
    requires IsSquare(cm) && Total(cm) != 0 && HasLength(pc, |cm|)
    requires Dot(pc.recall, RowSums(cm)) == Trace(cm) as real
    ensures OverallOf(cm, pc).weightedRecall == OverallOf(cm, pc).accuracy
  {
    RowSumsTotal(cm);
  }

  /** Recall of class `i` times its row sum gives back its true positives. */
  lemma RecallTimesRowSum(cm: Matrix, i: int)
    requires IsSquare(cm) && NonNegative(cm) && 0 <= i < |cm|
    ensures Recall(CountsOf(cm, i)) * RowSum(cm, i) as real == cm[i][i] as real
  {
    SumAtLeastElement(cm[i], i);
    var tp, rs := cm[i][i], RowSum(cm, i);
    assert Recall(CountsOf(cm, i)) == Ratio(tp, rs);
    if rs > 0 {
      assert tp as real / rs as real * rs as real == tp as real;
    }
  }

  /** On counts, the F1 score of class `i` is twice its diagonal cell over
      the sum of its row and its column. */
  lemma F1FromMatrix(cm: Matrix, i: int, sqrt: real -> real)
    requires IsSquare(cm) && NonNegative(cm) && Total(cm) != 0 && 0 <= i < |cm|
    ensures PerClassOf(cm, sqrt).f1Score[i] == Ratio(2 * cm[i][i], RowSum(cm, i) + ColSum(cm, i))
  {
    CountsNonNegative(cm, i);
    F1OfCounts(CountsOf(cm, i));
  }

  /** When every class has the same number of samples, each weighted
      average equals the corresponding macro average. */
  lemma BalancedClassesAverageAlike(cm: Matrix, sqrt: real -> real)
    requires IsSquare(cm) && Total(cm) != 0
    requires forall i :: 0 <= i < |cm| ==> RowSum(cm, i) == RowSum(cm, 0)
    ensures Calculate(cm, sqrt).Ok?
    ensures var o := Calculate(cm, sqrt).value.overall;
      && o.weightedPrecision == o.macroPrecision && o.weightedRecall == o.macroRecall
      && o.weightedF1Score == o.macroF1Score
      && o.weightedBalancedAccuracy == o.macroBalancedAccuracy
      && o.weightedWeightedAccuracy == o.macroWeightedAccuracy
      && o.weightedMcc == o.macroMcc
  {
    RowSumsTotal(cm);
    var pc := PerClassOf(cm, sqrt);
    var w := RowSums(cm);
    assert cm != [];
    var w0 := RowSum(cm, 0);
    DotUniform(pc.precision, w, w0);
    assert w0 != 0;
    WeightedAverageOfEqualWeights(pc.precision, w, w0);
    WeightedAverageOfEqualWeights(pc.recall, w, w0);
    WeightedAverageOfEqualWeights(pc.f1Score, w, w0);
    WeightedAverageOfEqualWeights(pc.balancedAccuracy, w, w0);
    WeightedAverageOfEqualWeights(pc.weightedAccuracy, w, w0);
    WeightedAverageOfEqualWeights(pc.mcc, w, w0);
  }
}
