/**
 * scikit-learn's `confusion_matrix(y_true, y_pred)` without a `labels`
 * argument, by its definition: rows and columns are indexed by the sorted
 * union of the labels seen in either stream, and cell (i, j) counts the
 * samples whose true label is the i-th class and whose prediction is the j-th.
 */
module Confusion {
  import opened Wrappers
  import opened Errors
  import opened Reports

  type Matrix = seq<seq<int>>

  ghost predicate StrictlyIncreasing(s: seq<int>) {
    forall i, j :: 0 <= i < j < |s| ==> s[i] < s[j]
  }

  /** Every row of `m` has `cols` cells. */
  ghost predicate Rectangular(m: Matrix, cols: nat) {
    forall i :: 0 <= i < |m| ==> |m[i]| == cols
  }

  /** Places `x` into a strictly increasing sequence, unless it is already there. */
  function Insert(s: seq<int>, x: int): (r: seq<int>)
    requires StrictlyIncreasing(s)
    ensures StrictlyIncreasing(r)
    ensures forall y :: y in r <==> y in s || y == x
  {
    if s == [] then [x]
    else if x < s[0] then [x] + s
    else if x == s[0] then s
    else
      var tail := s[1..];
      assert s == [s[0]] + tail;
      assert forall j :: 0 <= j < |tail| ==> s[0] < tail[j];
      var rest := Insert(tail, x);
      assert forall j :: 0 <= j < |rest| ==> s[0] < rest[j] by {
        forall j | 0 <= j < |rest| ensures s[0] < rest[j] {
          assert rest[j] in rest;
        }
      }
      [s[0]] + rest
  }

  /** NumPy's `unique`: the distinct elements of `s` in increasing order. */
  function SortedUnique(s: seq<int>): (r: seq<int>)
    ensures StrictlyIncreasing(r)
    ensures forall y :: y in r <==> y in s
  {
    if s == [] then []
    else
      var init := s[..|s| - 1];
      assert forall y :: y in s <==> y in init || y == s[|s| - 1];
      Insert(SortedUnique(init), s[|s| - 1])
  }

  /** The classes the confusion matrix is indexed by (`unique_labels(y_true, y_pred)`). */
  function Classes(yTrue: seq<int>, yPred: seq<int>): (r: seq<int>)
    ensures StrictlyIncreasing(r)
    ensures forall c :: c in r <==> c in yTrue || c in yPred
  {
    SortedUnique(yTrue + yPred)
  }

  /** The number of samples k with `yTrue[k] == a` and `yPred[k] == b`. */
  function Count(yTrue: seq<int>, yPred: seq<int>, a: int, b: int): (n: nat)
    requires |yTrue| == |yPred|
    ensures n <= |yTrue|
  {
    if yTrue == [] then 0
    else
      var k := |yTrue| - 1;
      Count(yTrue[..k], yPred[..k], a, b) + (if yTrue[k] == a && yPred[k] == b then 1 else 0)
  }

  /** The number of positions of `s` holding `a`. */
  function Occurrences(s: seq<int>, a: int): (n: nat)
    ensures n <= |s|
  {
    if s == [] then 0
    else Occurrences(s[..|s| - 1], a) + (if s[|s| - 1] == a then 1 else 0)
  }

  /** The matrix of pair counts over an explicit list of class labels. */
  function MatrixOver(yTrue: seq<int>, yPred: seq<int>, labels: seq<int>): (m: Matrix)
    requires |yTrue| == |yPred|
    ensures |m| == |labels| && Rectangular(m, |labels|)
    ensures forall i, j :: 0 <= i < |labels| && 0 <= j < |labels| ==>
      m[i][j] == Count(yTrue, yPred, labels[i], labels[j])
  {
    seq(|labels|, i requires 0 <= i < |labels| =>
      seq(|labels|, j requires 0 <= j < |labels| => Count(yTrue, yPred, labels[i], labels[j])))
  }

  /** `confusion_matrix(y_true, y_pred)`; unequal lengths raise. */
  function ConfusionMatrix(yTrue: seq<int>, yPred: seq<int>): (r: Result<Matrix, Error>)
    ensures r.Failure? <==> |yTrue| != |yPred|
    ensures r.Failure? ==> r.error == LengthMismatch
    ensures r.Success? ==> |r.value| == |Classes(yTrue, yPred)| && Rectangular(r.value, |r.value|)
  {
    if |yTrue| != |yPred| then Failure(LengthMismatch)
    else Success(MatrixOver(yTrue, yPred, Classes(yTrue, yPred)))
  }

  /** `sum` of a row: with no negative entry, the sum is non-negative and bounds every entry. */
  function SumSeq(s: seq<int>): (r: int)
    ensures (forall i :: 0 <= i < |s| ==> s[i] >= 0) ==> r >= 0 && forall i :: 0 <= i < |s| ==> s[i] <= r
  {
    if s == [] then 0
    else
      var init := s[..|s| - 1];
      assert forall i :: 0 <= i < |init| ==> init[i] == s[i];
      SumSeq(init) + s[|s| - 1]
  }

  /** `m.sum(axis=1)`. */
  function RowSums(m: Matrix): (r: seq<int>)
    ensures |r| == |m|
  {
    seq(|m|, i requires 0 <= i < |m| => SumSeq(m[i]))
  }

  // ---------------------------------------------------------------------------
  // Marginals of the confusion matrix

  /** The number of samples k with `yTrue[k] == a` and `yPred[k]` among `labels`. */
  function CountPredictedIn(yTrue: seq<int>, yPred: seq<int>, a: int, labels: seq<int>): nat
    requires |yTrue| == |yPred|
  {
    if yTrue == [] then 0
    else
      var k := |yTrue| - 1;
      CountPredictedIn(yTrue[..k], yPred[..k], a, labels) + (if yTrue[k] == a && yPred[k] in labels then 1 else 0)
  }

  /** The number of positions of `s` holding one of `labels`. */
  function OccurrencesIn(s: seq<int>, labels: seq<int>): nat {
    if s == [] then 0
    else OccurrencesIn(s[..|s| - 1], labels) + (if s[|s| - 1] in labels then 1 else 0)
  }

  lemma {:induction false} CountPredictedInSnoc(yTrue: seq<int>, yPred: seq<int>, a: int, labels: seq<int>, b: int)
    requires |yTrue| == |yPred|
    requires b !in labels
    ensures CountPredictedIn(yTrue, yPred, a, labels + [b])
         == CountPredictedIn(yTrue, yPred, a, labels) + Count(yTrue, yPred, a, b)
  {
    if yTrue != [] {
      var k := |yTrue| - 1;
      CountPredictedInSnoc(yTrue[..k], yPred[..k], a, labels, b);
    }
  }

  lemma {:induction false} CountPredictedInAll(yTrue: seq<int>, yPred: seq<int>, a: int, labels: seq<int>)
    requires |yTrue| == |yPred|
    requires forall k :: 0 <= k < |yPred| ==> yPred[k] in labels
    ensures CountPredictedIn(yTrue, yPred, a, labels) == Occurrences(yTrue, a)
  {
    if yTrue != [] {
      var k := |yTrue| - 1;
      CountPredictedInAll(yTrue[..k], yPred[..k], a, labels);
    }
  }

  lemma {:induction false} OccurrencesInSnoc(s: seq<int>, labels: seq<int>, b: int)
    requires b !in labels
    ensures OccurrencesIn(s, labels + [b]) == OccurrencesIn(s, labels) + Occurrences(s, b)
  {
    if s != [] {
      OccurrencesInSnoc(s[..|s| - 1], labels, b);
    }
  }

  lemma {:induction false} OccurrencesInAll(s: seq<int>, labels: seq<int>)
    requires forall k :: 0 <= k < |s| ==> s[k] in labels
    ensures OccurrencesIn(s, labels) == |s|
  {
    if s != [] {
      OccurrencesInAll(s[..|s| - 1], labels);
    }
  }

  lemma SumSeqSnoc(s: seq<int>, j: nat)
    requires j < |s|
    ensures SumSeq(s[..j + 1]) == SumSeq(s[..j]) + s[j]
  {
    assert s[..j + 1][..j] == s[..j];
  }

  /** Summing the counts of row `a` over the first `j` labels counts predictions among those labels. */
  lemma {:induction false} RowSumPrefix(yTrue: seq<int>, yPred: seq<int>, a: int, labels: seq<int>, row: seq<int>, j: nat)
    requires |yTrue| == |yPred| && StrictlyIncreasing(labels)
    requires |row| == |labels| && j <= |labels|
    requires forall q :: 0 <= q < |labels| ==> row[q] == Count(yTrue, yPred, a, labels[q])
    ensures SumSeq(row[..j]) == CountPredictedIn(yTrue, yPred, a, labels[..j])
  {
    if j == 0 {
      ZeroCountInEmpty(yTrue, yPred, a);
    } else {
      RowSumPrefix(yTrue, yPred, a, labels, row, j - 1);
      SumSeqSnoc(row, j - 1);
      assert labels[..j] == labels[..j - 1] + [labels[j - 1]];
      CountPredictedInSnoc(yTrue, yPred, a, labels[..j - 1], labels[j - 1]);
    }
  }

  lemma {:induction false} ZeroCountInEmpty(yTrue: seq<int>, yPred: seq<int>, a: int)
    requires |yTrue| == |yPred|
    ensures CountPredictedIn(yTrue, yPred, a, []) == 0
  {
    if yTrue != [] {
      var k := |yTrue| - 1;
      ZeroCountInEmpty(yTrue[..k], yPred[..k], a);
    }
  }

  lemma {:induction false} ZeroOccurrencesInEmpty(s: seq<int>)
    ensures OccurrencesIn(s, []) == 0
  {
    if s != [] {
      ZeroOccurrencesInEmpty(s[..|s| - 1]);
    }
  }

  /** Summing the row totals of the first `j` labels counts the true labels among them. */
  lemma {:induction false} TotalPrefix(yTrue: seq<int>, labels: seq<int>, totals: seq<int>, j: nat)
    requires StrictlyIncreasing(labels)
    requires |totals| == |labels| && j <= |labels|
    requires forall q :: 0 <= q < |labels| ==> totals[q] == Occurrences(yTrue, labels[q])
    ensures SumSeq(totals[..j]) == OccurrencesIn(yTrue, labels[..j])
  {
    if j == 0 {
      ZeroOccurrencesInEmpty(yTrue);
    } else {
      TotalPrefix(yTrue, labels, totals, j - 1);
      SumSeqSnoc(totals, j - 1);
      assert labels[..j] == labels[..j - 1] + [labels[j - 1]];
      OccurrencesInSnoc(yTrue, labels[..j - 1], labels[j - 1]);
    }
  }

  /** Row i of `confusion_matrix` sums to the number of samples whose true label is the i-th class. */
  lemma ConfusionMatrixRowSum(yTrue: seq<int>, yPred: seq<int>, i: nat)
    requires |yTrue| == |yPred|
    requires i < |Classes(yTrue, yPred)|
    ensures var cm := ConfusionMatrix(yTrue, yPred).value;
      SumSeq(cm[i]) == Occurrences(yTrue, Classes(yTrue, yPred)[i])
  {
    var cm := ConfusionMatrix(yTrue, yPred).value;
    var classes := Classes(yTrue, yPred);
    var n := |classes|;
    RowSumPrefix(yTrue, yPred, classes[i], classes, cm[i], n);
    assert forall k :: 0 <= k < |yPred| ==> yPred[k] in classes;
    CountPredictedInAll(yTrue, yPred, classes[i], classes);
    assert cm[i][..n] == cm[i];
    assert classes[..n] == classes;
  }

  /** Every true label is one of the classes. */
  lemma TrueLabelsClassified(yTrue: seq<int>, yPred: seq<int>)
    ensures OccurrencesIn(yTrue, Classes(yTrue, yPred)) == |yTrue|
  {
    var classes := Classes(yTrue, yPred);
    forall k | 0 <= k < |yTrue| ensures yTrue[k] in classes {
      assert yTrue[k] in yTrue;
    }
    OccurrencesInAll(yTrue, classes);
  }

  /** The row sums of `confusion_matrix` add up to the number of samples. */
  lemma ConfusionMatrixTotal(yTrue: seq<int>, yPred: seq<int>)
    requires |yTrue| == |yPred|
    ensures SumSeq(RowSums(ConfusionMatrix(yTrue, yPred).value)) == |yTrue|
  {
    var classes := Classes(yTrue, yPred);
    var n := |classes|;
    var totals := RowSums(ConfusionMatrix(yTrue, yPred).value);
    forall q | 0 <= q < n ensures totals[q] == Occurrences(yTrue, classes[q]) {
      ConfusionMatrixRowSum(yTrue, yPred, q);
    }
    TotalPrefix(yTrue, classes, totals, n);
    TrueLabelsClassified(yTrue, yPred);
    assert totals[..n] == totals;
    assert classes[..n] == classes;
  }

  /**
   * The marginals of `confusion_matrix`: every cell is a count, row i sums to
   * the number of samples whose true label is the i-th class, and the whole
   * matrix sums to the number of samples.
   */
  lemma ConfusionMatrixMarginals(yTrue: seq<int>, yPred: seq<int>)
    requires |yTrue| == |yPred|
    ensures var cm := ConfusionMatrix(yTrue, yPred).value;
      && (forall i, j :: 0 <= i < |cm| && 0 <= j < |cm| ==> cm[i][j] >= 0)
      && (forall i :: 0 <= i < |cm| ==> SumSeq(cm[i]) == Occurrences(yTrue, Classes(yTrue, yPred)[i]))
      && SumSeq(RowSums(cm)) == |yTrue|
  {
    var cm := ConfusionMatrix(yTrue, yPred).value;
    forall i | 0 <= i < |cm|
      ensures SumSeq(cm[i]) == Occurrences(yTrue, Classes(yTrue, yPred)[i])
    {
      ConfusionMatrixRowSum(yTrue, yPred, i);
    }
    ConfusionMatrixTotal(yTrue, yPred);
  }

  lemma {:induction false} CountAtMostOccurrences(yTrue: seq<int>, yPred: seq<int>, a: int, b: int)
    requires |yTrue| == |yPred|
    ensures Count(yTrue, yPred, a, b) <= Occurrences(yTrue, a)
  {
    if yTrue != [] {
      var k := |yTrue| - 1;
      CountAtMostOccurrences(yTrue[..k], yPred[..k], a, b);
    }
  }

  lemma {:induction false} OccurrencesZero(s: seq<int>, a: int)
    ensures Occurrences(s, a) == 0 <==> a !in s
  {
    if s != [] {
      OccurrencesZero(s[..|s| - 1], a);
      assert s == s[..|s| - 1] + [s[|s| - 1]];
    }
  }
}
