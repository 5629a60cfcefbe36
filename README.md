# Classification metrics from a confusion matrix

This project models `calculate_classification_metrics` from
`scripts/precision_recall.py`. The function takes a square confusion matrix.
Row `r` counts the samples whose actual class is `r`. Column `c` counts the
samples predicted as class `c`.

For each class it derives four counts:

- true positives: the diagonal cell;
- false positives: the rest of the column;
- false negatives: the rest of the row;
- true negatives: whatever remains of the total.

From these counts it computes six ratios: precision, recall, F1, balanced
accuracy, a per-class "weighted accuracy" and the Matthews correlation
coefficient (MCC). Precision, recall, specificity, F1 and MCC give 0 on a
zero denominator. Balanced accuracy averages two of those guarded ratios.
Weighted accuracy divides by the total without a guard. The ratios are
appended to six per-class lists, one entry per class in class order.

Overall accuracy (the trace over the total) is computed before the class
loop. After the loop the function computes the plain (macro) mean of each
list, and the mean of each list weighted by the row sums.

Modules, one file each:

- `Sums` (`sums.dfy`): sums of integer and real sequences and the weighted sum `Dot`.
- `ConfusionMatrix` (`matrix.dfy`): the matrix, its row sums, column sums, total and trace.
- `ClassCounts` (`counts.dfy`): TP/FP/FN/TN of one class.
- `Ratios` (`ratios.dfy`): the six per-class ratios and their ranges.
- `Averages` (`averages.dfy`): `np.mean` and `np.average` with weights.
- `ClassificationMetrics` (`metrics.dfy`):
  - the function as a whole, specified by `Calculate`;
  - the imperative class loop `PerClassLists`, proved equal to the specification;
  - the properties of the result.

Ratios are exact Dafny `real`s. The square root used by MCC is a parameter
`sqrt: real -> real`. Lemmas that need it to be a square root require
`IsSqrt(sqrt)`: `sqrt(0) = 0`, and every positive `x` has a positive root
whose square is `x`.

`np.average` raises `ZeroDivisionError` when its weights sum to zero. Its
weights are the row sums, which add up to the total number of samples. So
on a square matrix the function fails exactly when the matrix holds no
samples; that includes a 0-by-0 matrix. The model returns
`Err(WeightsSumToZero)` in that case, and `Ok` with the metrics otherwise.

## Model

| member | source | states |
|---|---|---|
| ConfusionMatrix.RowSumsTotal | scripts/precision_recall.py:50-51 | `class_samples` (`RowSums`: entry `r` is `Sum(cm[r])`), the weights of the weighted averages, adds up to `total_samples` (`Total`: the sum of every cell) |
| ConfusionMatrix.ColSumsTotal | scripts/precision_recall.py:77 | the column sums (`ColSum`, `np.sum(cm[:, c])`: samples predicted as class `c`) also add up to `total_samples` |
| ConfusionMatrix.TraceBounds | scripts/precision_recall.py:54-55 | on non-negative counts, `correct_predictions` (`Trace`: the sum of the diagonal) lies between 0 and `total_samples` |
| ConfusionMatrix.ColumnSkipIs | scripts/precision_recall.py:77 | column `c` without the cell of row `r` is the column sum less that cell |
| ConfusionMatrix.OutsideIs | scripts/precision_recall.py:83 | the cells outside row `r` and column `c` are the total, less column `c`, less the rest of row `r` |
| ClassCounts.CountsOf | scripts/precision_recall.py:74-83 | what each count is, apart from its formula: TP is the diagonal cell; FP is the off-diagonal cells of column `i` (`ColumnSkip`); FN is the off-diagonal cells of row `i` (`SumSkip`); TN is exactly the cells outside row `i` and column `i` (`Outside`); the four add up to `total_samples` |
| ClassCounts.CountsNonNegative | scripts/precision_recall.py:76-83 | on a matrix of non-negative counts, FP, FN and TN are non-negative |
| Ratios.Ratio | scripts/precision_recall.py:86-96 | the guarded division gives 0 on a zero denominator; for `0 <= num <= den` it lies in [0, 1], is 0 iff `num` is 0, and is 1 iff `0 < num == den` |
| Ratios.PrecisionRange | scripts/precision_recall.py:86 | precision (`Precision`: `Ratio(TP, TP + FP)`) is 0 when TP + FP is 0; on counts it lies in [0, 1], is 0 iff TP is 0, and is 1 iff TP > 0 and FP is 0 |
| Ratios.RecallRange | scripts/precision_recall.py:89-95 | recall (`Recall`: `Ratio(TP, TP + FN)`, which is also sensitivity) is 0 when TP + FN is 0; on counts it lies in [0, 1], is 0 iff TP is 0, and is 1 iff TP > 0 and FN is 0 |
| Ratios.SpecificityRange | scripts/precision_recall.py:96 | specificity (`Specificity`: `Ratio(TN, TN + FP)`) is 0 when TN + FP is 0; on counts it lies in [0, 1] and is 1 iff TN > 0 and FP is 0 |
| Ratios.F1Range | scripts/precision_recall.py:92 | F1 (`F1`: 2pr/(p+r), 0 when p + r is 0), for non-negative p and r, is 0 iff precision or recall is 0; otherwise it lies between them, and so in [0, 1] |
| Ratios.F1OfCounts | scripts/precision_recall.py:86-92 | on counts, F1 of the guarded precision and recall equals 2TP / (2TP + FP + FN), which is 0 when that denominator is 0 |
| Ratios.BalancedAccuracyRange | scripts/precision_recall.py:94-97 | on counts, balanced accuracy (`BalancedAccuracy`: the mean of recall and specificity) lies in [0, 1]; it is 1 iff TP > 0, TN > 0, FP = 0 and FN = 0 |
| Ratios.WeightedAccuracyRange | scripts/precision_recall.py:100 | on counts with a non-zero total, weighted accuracy (`WeightedAccuracy`: (TP + TN) / total) lies in [0, 1] and is 1 iff FP = FN = 0 |
| Ratios.MccZeroMarginal | scripts/precision_recall.py:104-105 | MCC (`Mcc`: (TP*TN - FP*FN) / sqrt(`Marginals`), 0 when the root is 0) is 0 whenever TP+FP, TP+FN, TN+FP or TN+FN is 0 |
| Ratios.MccNonZeroMarginals | scripts/precision_recall.py:103-105 | when all four marginals are positive, the denominator is positive, MCC times it is the integer TP*TN - FP*FN, and MCC has that integer's sign |
| Ratios.MccNumeratorSquareBound | scripts/precision_recall.py:103-104 | on counts, (TP*TN - FP*FN)^2 never exceeds the product under the square root |
| Ratios.MccRange | scripts/precision_recall.py:103-105 | on counts, MCC lies in [-1, 1] |
| Averages.MeanInRange | scripts/precision_recall.py:124-129 | `np.mean` (`Mean`: the sum over the length) of values in [lo, hi] lies in [lo, hi] |
| Averages.WeightedAverageInRange | scripts/precision_recall.py:132-137 | `np.average` (`WeightedAverage`: the weighted sum over the sum of the weights) with non-negative weights of positive sum, of values in [lo, hi], lies in [lo, hi] |
| Averages.WeightedAverageOfEqualWeights | scripts/precision_recall.py:124-137 | with equal non-zero weights, the weighted average equals the plain mean |
| ClassificationMetrics.Calculate | scripts/precision_recall.py:3-139 | on a square matrix the function fails where the source does, when the weights `class_samples` given to `np.average` sum to zero (lines 51, 132); that happens exactly when `total_samples` is 0; otherwise it returns `PerClassOf` and `OverallOf` (accuracy, means and row-sum-weighted averages, lines 54-55 and 124-137) |
| ClassificationMetrics.CalculateClassificationMetrics | scripts/precision_recall.py:3-139 | the imperative function returns `Calculate`; on success each per-class list has `num_classes` entries, and entry `i` is the ratio of the counts of class `i` |
| ClassificationMetrics.PerClassLists | scripts/precision_recall.py:72-113 | the class loop appending to the six lists produces exactly `PerClassOf`: entry `i` of each list is the ratio of the counts of class `i`, in class order |
| ClassificationMetrics.PerClassInRangeOf | scripts/precision_recall.py:86-113 | on counts with at least one sample, and with `IsSqrt(sqrt)`, every per-class entry lies in [0, 1], and every MCC entry in [-1, 1] |
| ClassificationMetrics.OverallInRangeOf | scripts/precision_recall.py:54-137 | on counts, accuracy and every macro and weighted average of in-range lists lie in range |
| ClassificationMetrics.MetricsInRange | scripts/precision_recall.py:3-139 | on a matrix of counts with at least one sample (`Total(cm) != 0`), and with `IsSqrt(sqrt)`, the function succeeds, and every value it returns lies in [0, 1] (MCC values in [-1, 1]) |
| ClassificationMetrics.RecallTimesRowSum | scripts/precision_recall.py:89 | on counts, recall of class `i` times its row sum gives back its true positives |
| ClassificationMetrics.WeightedRecallSum | scripts/precision_recall.py:133 | on counts, recall weighted by the row sums sums to the trace |
| ClassificationMetrics.WeightedRecallIsAccuracy | scripts/precision_recall.py:133 | on counts, `weighted_recall` equals overall `accuracy` |
| ClassificationMetrics.F1FromMatrix | scripts/precision_recall.py:74-92 | on counts, the F1 entry of class `i` is twice its diagonal cell over its row sum plus its column sum |
| ClassificationMetrics.BalancedClassesAverageAlike | scripts/precision_recall.py:124-137 | on a square matrix with at least one sample (`Total(cm) != 0`), when every class has the same number of samples, each weighted average equals its macro average |

## Left out

- `print_metrics` (scripts/precision_recall.py:142-195) is console output with fixed-width float formatting.
- The example matrices and the top-level run of the script (scripts/precision_recall.py:197-247) are script I/O.
- `CLASS_LABELS` (scripts/precision_recall.py:58-69) is built and never used by the calculation.
- Floating point is not modelled. Ratios are exact rationals, so rounding, NaN and division warnings are out of scope.
- 64-bit integer overflow of numpy sums and of the MCC product is not modelled. Integers are unbounded.
- `np.sqrt` is not modelled. The square root is a parameter. For a matrix with negative cells, numpy yields NaN where the model yields whatever the parameter returns. The range lemmas ask for non-negative counts and `IsSqrt`.
- Non-square input is not handled: every member that indexes a class (`CountsOf`, `Trace`, `ColSums`, `PerClassOf`, `Calculate`, …) requires a square matrix. The source's indexing assumes one as well; for other shapes numpy fails or reads a different region.
- A class-less input given as an empty list is not modelled as such. numpy turns `[]` into a one-dimensional array, and `np.sum(cm, axis=1)` at line 51 fails with an axis error before any average. The model's empty matrix behaves as a 0-by-0 array, which reaches the `ZeroDivisionError`. Both fail.
- Order of failure: the model returns the error before the class loop. The source first computes accuracy and the per-class values, which may be NaN on an empty matrix, and then raises in `np.average`. Either way the caller gets no result.
- `WeightedAccuracy`: requires a non-zero total. The source divides without a guard, but with a zero total the function raises before returning. So such a value never reaches a caller.
- Sensitivity (scripts/precision_recall.py:95) is not a separate function: it is the same expression as recall, and `Recall` stands for both.
