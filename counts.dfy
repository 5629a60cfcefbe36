/** The four per-class counts of scripts/precision_recall.py:74-83. */
module ClassCounts {
  import opened Sums
  import opened ConfusionMatrix

  /** True positives, false positives, false negatives and true negatives of
      one class. */
  datatype Counts = Counts(tp: int, fp: int, fn: int, tn: int)
  {
    /** The number of samples the four counts partition. */
    function Size(): (n: int)
    {
      tp + fp + fn + tn
    }

    predicate NonNegative()
    {
      0 <= tp && 0 <= fp && 0 <= fn && 0 <= tn
    }
  }

  /** The counts of class `i`: the diagonal cell, the rest of column `i`, the
      rest of row `i`, and whatever is left of total_samples. What is left is
      exactly the cells outside row `i` and column `i`. */
  function CountsOf(cm: Matrix, i: int): (k: Counts)
    requires IsSquare(cm) && 0 <= i < |cm|
    ensures k.tp == cm[i][i]
    ensures k.fp == ColumnSkip(cm, i, i)
    ensures k.fn == SumSkip(cm[i], i)
    ensures k.tn == Outside(cm, i, i)
    ensures k.tp + k.fp == ColSum(cm, i) && k.tp + k.fn == RowSum(cm, i)
    ensures k.Size() == Total(cm)
  {
    ColumnSkipIs(cm, i, i);
    SumSkipIsSumWithout(cm[i], i);
    OutsideIs(cm, i, i);
    var tp := cm[i][i];
    var fp := ColSum(cm, i) - tp;
    var fn := RowSum(cm, i) - tp;
    var tn := Total(cm) - (tp + fp + fn);
    Counts(tp, fp, fn, tn)
  }

  /** On a matrix of counts every derived count is a count. */
  lemma CountsNonNegative(cm: Matrix, i: int)
    requires IsSquare(cm) && NonNegative(cm) && 0 <= i < |cm|
    ensures CountsOf(cm, i).NonNegative()
  {
    ColSumAtLeastCell(cm, i, i);
    SumAtLeastElement(cm[i], i);
    OutsideNonNegative(cm, i, i);
  }
}
