/** The confusion matrix and the sums the metrics are built from. Row `r`
    counts the samples whose actual class is `r`, column `c` the samples
    predicted as class `c` (scripts/precision_recall.py:9-11). */
module ConfusionMatrix {
  import opened Sums

  type Matrix = seq<seq<int>>

  /** One row and one column per class. */
  predicate IsSquare(cm: Matrix)
  {
    forall r :: 0 <= r < |cm| ==> |cm[r]| == |cm|
  }

  predicate NonNegative(cm: Matrix)
  {
    forall r, c :: 0 <= r < |cm| && 0 <= c < |cm[r]| ==> 0 <= cm[r][c]
  }

  /** `c` is a column index and every row has a cell in column `c`. */
  predicate HasColumn(rows: Matrix, c: int)
  {
    0 <= c && forall r :: 0 <= r < |rows| ==> c < |rows[r]|
  }

  /** `np.sum(cm[r, :])`: the samples of actual class `r`. */
  function RowSum(cm: Matrix, r: int): (s: int)
    requires 0 <= r < |cm|
  {
    Sum(cm[r])
  }

  /** `np.sum(cm, axis=1)`: the per-class sample counts used as weights. */
  function RowSums(cm: Matrix): (ws: seq<int>)
    ensures |ws| == |cm|
    ensures forall r :: 0 <= r < |cm| ==> ws[r] == RowSum(cm, r)
  {
    seq(|cm|, r requires 0 <= r < |cm| => RowSum(cm, r))
  }

  /** `np.sum(cm[:, c])`: the samples predicted as class `c`. */
  function ColSum(rows: Matrix, c: int): (s: int)
    requires HasColumn(rows, c)
  {
    if rows == [] then 0
    else
      HasColumnTail(rows, c);
      rows[0][c] + ColSum(rows[1..], c)
  }

  /** The column sums of a square matrix, one per class. */
  function ColSums(cm: Matrix): (ps: seq<int>)
    requires IsSquare(cm)
    ensures |ps| == |cm|
  {
    seq(|cm|, c requires 0 <= c < |cm| => ColSum(cm, c))
  }

  /** All cells, row after row. */
  function Flatten(rows: Matrix): (cells: seq<int>)
  {
    if rows == [] then [] else rows[0] + Flatten(rows[1..])
  }

  /** `np.sum(cm)`: total_samples, the sum of every cell. */
  function Total(cm: Matrix): (t: int)
  {
    Sum(Flatten(cm))
  }

  /** The cells `cm[k][k]`: the correctly classified samples of each class. */
  function Diagonal(cm: Matrix): (d: seq<int>)
    requires IsSquare(cm)
    ensures |d| == |cm|
    ensures forall k :: 0 <= k < |cm| ==> d[k] == cm[k][k]
  {
    seq(|cm|, k requires 0 <= k < |cm| => cm[k][k])
  }

  /** `np.trace(cm)`: correct_predictions. */
  function Trace(cm: Matrix): (t: int)
    requires IsSquare(cm)
  {
    Sum(Diagonal(cm))
  }

  /** The sum of `s` leaving out the entry at index `j`. */
  function SumSkip(s: seq<int>, j: int): (rest: int)
  {
    if s == [] then 0 else (if j == 0 then 0 else s[0]) + SumSkip(s[1..], j - 1)
  }

  /** The sum of column `c` leaving out the cell of row `sr`. */
  function ColumnSkip(rows: Matrix, sr: int, c: int): (rest: int)
    requires HasColumn(rows, c)
  {
    if rows == [] then 0
    else
      HasColumnTail(rows, c);
      (if sr == 0 then 0 else rows[0][c]) + ColumnSkip(rows[1..], sr - 1, c)
  }

  /** The sum of the cells of `rows` outside row `sr` and outside column `c`. */
  function Outside(rows: Matrix, sr: int, c: int): (s: int)
  {
    if rows == [] then 0
    else (if sr == 0 then 0 else SumSkip(rows[0], c)) + Outside(rows[1..], sr - 1, c)
  }

  lemma HasColumnTail(rows: Matrix, c: int)
    requires rows != [] && HasColumn(rows, c)
    ensures HasColumn(rows[1..], c)
  {
  }

  lemma {:induction false} TotalStep(rows: Matrix)
    requires rows != []
    ensures Total(rows) == Sum(rows[0]) + Total(rows[1..])
  {
    SumConcat(rows[0], Flatten(rows[1..]));
  }

  /** The per-class sample counts add up to total_samples: the weights of the
      weighted averages sum to the number of samples. */
  lemma {:induction false} RowSumsTotal(cm: Matrix)
    ensures Sum(RowSums(cm)) == Total(cm)
  {
    if cm != [] {
      TotalStep(cm);
      RowSumsTotal(cm[1..]);
      assert RowSums(cm)[1..] == RowSums(cm[1..]);
    }
  }

  /** The column sums of a matrix whose rows all have width `w` add up to the
      sum of every cell. */
  lemma {:induction false} ColumnsTotal(rows: Matrix, w: nat)
    requires forall r :: 0 <= r < |rows| ==> |rows[r]| == w
    ensures Sum(seq(w, c requires 0 <= c < w => ColSum(rows, c))) == Total(rows)
  {
    var sums := seq(w, c requires 0 <= c < w => ColSum(rows, c));
    if rows == [] {
      SumZeros(sums);
    } else {
      var rest := seq(w, c requires 0 <= c < w => ColSum(rows[1..], c));
      ColumnsTotal(rows[1..], w);
      SumPointwise(rows[0], rest, sums);
      TotalStep(rows);
    }
  }

  /** The samples predicted as each class also add up to total_samples. */
  lemma ColSumsTotal(cm: Matrix)
    requires IsSquare(cm)
    ensures Sum(ColSums(cm)) == Total(cm)
  {
    ColumnsTotal(cm, |cm|);
  }

  /** With non-negative counts, the correct predictions are at most all of
      the samples. */
  lemma TraceBounds(cm: Matrix)
    requires IsSquare(cm) && NonNegative(cm)
    ensures 0 <= Trace(cm) <= Total(cm)
  {
    var d := Diagonal(cm);
    forall k | 0 <= k < |cm|
      ensures 0 <= d[k] <= RowSums(cm)[k]
    {
      SumAtLeastElement(cm[k], k);
    }
    SumNonNegative(d);
    SumMonotone(d, RowSums(cm));
    RowSumsTotal(cm);
  }

  lemma {:induction false} SumSkipNothing(s: seq<int>, j: int)
    requires j < 0
    ensures SumSkip(s, j) == Sum(s)
  {
    if s != [] {
      SumSkipNothing(s[1..], j - 1);
    }
  }

  lemma {:induction false} SumSkipIsSumWithout(s: seq<int>, j: int)
    requires 0 <= j < |s|
    ensures SumSkip(s, j) == Sum(s) - s[j]
  {
    if j > 0 {
      SumSkipIsSumWithout(s[1..], j - 1);
    } else {
      SumSkipNothing(s[1..], j - 1);
    }
  }

  lemma {:induction false} SumSkipNonNegative(s: seq<int>, j: int)
    requires AllNonNegative(s)
    ensures 0 <= SumSkip(s, j)
  {
    if s != [] {
      SumSkipNonNegative(s[1..], j - 1);
    }
  }

  /** The cells outside row `sr` and column `c` are all cells, less column
      `c`, less what row `sr` holds outside column `c`. */
  lemma {:induction false} OutsideIs(rows: Matrix, sr: int, c: int)
    requires HasColumn(rows, c)
    ensures Outside(rows, sr, c)
      == Total(rows) - ColSum(rows, c) - (if 0 <= sr < |rows| then Sum(rows[sr]) - rows[sr][c] else 0)
  {
    if rows != [] {
      HasColumnTail(rows, c);
      OutsideIs(rows[1..], sr - 1, c);
      TotalStep(rows);
      SumSkipIsSumWithout(rows[0], c);
    }
  }

  lemma {:induction false} ColumnSkipNothing(rows: Matrix, sr: int, c: int)
    requires HasColumn(rows, c) && sr < 0
    ensures ColumnSkip(rows, sr, c) == ColSum(rows, c)
  {
    if rows != [] {
      HasColumnTail(rows, c);
      ColumnSkipNothing(rows[1..], sr - 1, c);
    }
  }

  /** Column `c` without the cell of row `sr` is the column sum less that cell. */
  lemma {:induction false} ColumnSkipIs(rows: Matrix, sr: int, c: int)
    requires HasColumn(rows, c) && 0 <= sr < |rows|
    ensures ColumnSkip(rows, sr, c) == ColSum(rows, c) - rows[sr][c]
  {
    HasColumnTail(rows, c);
    if sr > 0 {
      ColumnSkipIs(rows[1..], sr - 1, c);
    } else {
      ColumnSkipNothing(rows[1..], sr - 1, c);
    }
  }

  lemma {:induction false} OutsideNonNegative(rows: Matrix, sr: int, c: int)
    requires NonNegative(rows)
    ensures 0 <= Outside(rows, sr, c)
  {
    if rows != [] {
      SumSkipNonNegative(rows[0], c);
      OutsideNonNegative(rows[1..], sr - 1, c);
    }
  }

  /** With non-negative counts a column sum is at least each of its cells. */
  lemma {:induction false} ColSumAtLeastCell(rows: Matrix, r: int, c: int)
    requires HasColumn(rows, c) && NonNegative(rows) && 0 <= r < |rows| && c < |rows[r]|
    ensures rows[r][c] <= ColSum(rows, c)
  {
    HasColumnTail(rows, c);
    if r == 0 {
      ColSumNonNegative(rows[1..], c);
    } else {
      ColSumAtLeastCell(rows[1..], r - 1, c);
    }
  }

  lemma {:induction false} ColSumNonNegative(rows: Matrix, c: int)
    requires HasColumn(rows, c) && NonNegative(rows)
    ensures 0 <= ColSum(rows, c)
  {
    if rows != [] {
      HasColumnTail(rows, c);
      ColSumNonNegative(rows[1..], c);
    }
  }
}
