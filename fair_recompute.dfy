/**
 * The first half of `get_fair_model_metrics`: the confusion matrix is cut
 * down to the classes seen in training (NumPy fancy indexing on rows, then on
 * columns), and a label stream is rebuilt from it by emitting, for every
 * cell (row, column), `int(cell)` samples with target `row` and prediction
 * `column`.
 */
module FairRecompute {
  import opened Wrappers
  import opened Errors
  import opened Confusion

  // ---------------------------------------------------------------------------
  // Fancy indexing

  /** An index NumPy accepts on an axis of length n: negative ones count from the end. */
  predicate InAxis(l: int, n: nat) {
    -(n as int) <= l < n
  }

  /** The position an accepted index selects. */
  function Wrap(l: int, n: nat): (p: nat)
    requires InAxis(l, n)
    ensures p < n
    ensures l >= 0 ==> p == l
    ensures l < 0 ==> p == l + n
  {
    if l < 0 then l + n else l
  }

  /** Indices accepted on both axes of an n × cols matrix. */
  predicate AllInAxes(labels: seq<int>, n: nat, cols: nat) {
    forall a :: 0 <= a < |labels| ==> InAxis(labels[a], n) && InAxis(labels[a], cols)
  }

  /**
   * `cm[labels, :][:, labels]` for an n × cols matrix: an index outside an
   * axis raises; otherwise cell (a, b) of the result is the cell of `cm` in
   * the row selected by `labels[a]` and the column selected by `labels[b]`.
   */
  function FilterMatrix(cm: Matrix, cols: nat, labels: seq<int>): (r: Result<Matrix, Error>)
    requires Rectangular(cm, cols)
    ensures r.Failure? <==> !AllInAxes(labels, |cm|, cols)
    ensures r.Failure? ==> r.error == IndexOutOfBounds
    ensures r.Success? ==> |r.value| == |labels| && Rectangular(r.value, |labels|)
    ensures r.Success? ==> forall a, b :: 0 <= a < |labels| && 0 <= b < |labels| ==>
      r.value[a][b] == cm[Wrap(labels[a], |cm|)][Wrap(labels[b], cols)]
  {
    if !AllInAxes(labels, |cm|, cols) then Failure(IndexOutOfBounds)
    else
      Success(seq(|labels|, a requires 0 <= a < |labels| =>
        seq(|labels|, b requires 0 <= b < |labels| => cm[Wrap(labels[a], |cm|)][Wrap(labels[b], cols)])))
  }

  function Range(n: nat): (r: seq<int>)
    ensures |r| == n && forall i :: 0 <= i < n ==> r[i] == i
  {
    seq(n, i requires 0 <= i < n => i)
  }

  /** Keeping every class of a square matrix, in order, leaves it as it was. */
  lemma FilterAllClasses(cm: Matrix)
    requires Rectangular(cm, |cm|)
    ensures FilterMatrix(cm, |cm|, Range(|cm|)) == Success(cm)
  {
    var r := FilterMatrix(cm, |cm|, Range(|cm|));
    assert r.Success?;
    forall a | 0 <= a < |cm| ensures r.value[a] == cm[a] {
      assert |r.value[a]| == |cm[a]|;
      assert forall b :: 0 <= b < |cm| ==> r.value[a][b] == cm[a][b];
    }
    assert r.value == cm;
  }

  // ---------------------------------------------------------------------------
  // The rebuilt label streams

  /** `range(int(x))` runs max(x, 0) times. */
  function Clamp(x: int): (r: nat)
    ensures r >= x && (r == x || r == 0)
  {
    if x < 0 then 0 else x
  }

  /** n copies of x, none when n <= 0. */
  function Copies(x: int, n: int): (r: seq<int>)
    ensures |r| == Clamp(n)
    ensures forall k :: 0 <= k < |r| ==> r[k] == x
  {
    if n <= 0 then [] else Copies(x, n - 1) + [x]
  }

  predicate NonDecreasing(s: seq<int>) {
    forall i, j :: 0 <= i < j < |s| ==> s[i] <= s[j]
  }

  /** The predictions one row contributes: column j repeated `row[j]` times, columns in order. */
  function RowPredictions(row: seq<int>): (r: seq<int>)
    ensures forall k :: 0 <= k < |r| ==> 0 <= r[k] < |row|
    ensures NonDecreasing(r)
  {
    if row == [] then []
    else
      var n := |row| - 1;
      var prev := RowPredictions(row[..n]);
      assert forall k :: 0 <= k < |prev| ==> prev[k] < n;
      prev + Copies(n, row[n])
  }

  /** The concatenation of the rows' predictions (`np.concatenate(all_preds)`). */
  function PredictionStream(m: Matrix): (r: seq<int>)
    ensures forall k :: 0 <= k < |r| ==> r[k] >= 0
    ensures forall i :: 0 <= i < |m| ==> |RowPredictions(m[i])| <= |r|
  {
    if m == [] then [] else PredictionStream(m[..|m| - 1]) + RowPredictions(m[|m| - 1])
  }

  /**
   * The concatenation of the rows' targets: row i contributes i once per
   * prediction it contributes, so the two streams line up and the targets
   * come in increasing row order.
   */
  function TargetStream(m: Matrix): (r: seq<int>)
    ensures |r| == |PredictionStream(m)|
    ensures forall k :: 0 <= k < |r| ==> 0 <= r[k] < |m|
    ensures NonDecreasing(r)
  {
    if m == [] then []
    else
      var n := |m| - 1;
      var prev := TargetStream(m[..n]);
      assert forall k :: 0 <= k < |prev| ==> prev[k] < n;
      prev + Copies(n, |RowPredictions(m[n])|)
  }

  /** Every prediction of an n × cols matrix's stream is a column index. */
  lemma {:induction false} PredictionsInColumns(m: Matrix, cols: nat)
    requires Rectangular(m, cols)
    ensures forall k :: 0 <= k < |PredictionStream(m)| ==> 0 <= PredictionStream(m)[k] < cols
  {
    if m != [] {
      PredictionsInColumns(m[..|m| - 1], cols);
    }
  }

  /** Pairs (t[k], p[k]) in lexicographic order. */
  ghost predicate LexSorted(t: seq<int>, p: seq<int>)
    requires |t| == |p|
  {
    forall i, j :: 0 <= i < j < |t| ==> t[i] < t[j] || (t[i] == t[j] && p[i] <= p[j])
  }

  lemma LexSortedAppend(t0: seq<int>, p0: seq<int>, n: int, row: seq<int>)
    requires |t0| == |p0| && LexSorted(t0, p0)
    requires forall k :: 0 <= k < |t0| ==> t0[k] < n
    requires NonDecreasing(row)
    ensures LexSorted(t0 + Copies(n, |row|), p0 + row)
  {
    var t, p := t0 + Copies(n, |row|), p0 + row;
    forall i, j | 0 <= i < j < |t| ensures t[i] < t[j] || (t[i] == t[j] && p[i] <= p[j]) {
      if j < |t0| {
        assert t[i] == t0[i] && t[j] == t0[j] && p[i] == p0[i] && p[j] == p0[j];
      } else if i < |t0| {
        assert t[i] == t0[i] && t[j] == n;
      } else {
        assert t[i] == n && t[j] == n;
        assert p[i] == row[i - |t0|] && p[j] == row[j - |t0|];
      }
    }
  }

  /** The pairs come sorted by target, and by prediction among equal targets. */
  lemma {:induction false} StreamsSorted(m: Matrix)
    ensures LexSorted(TargetStream(m), PredictionStream(m))
  {
    if m != [] {
      var n := |m| - 1;
      StreamsSorted(m[..n]);
      LexSortedAppend(TargetStream(m[..n]), PredictionStream(m[..n]), n, RowPredictions(m[n]));
    }
  }

  // ---------------------------------------------------------------------------
  // The loops of get_fair_model_metrics

  /** `np.concatenate(parts)` of a non-empty list of one-dimensional arrays. */
  function Flatten(parts: seq<seq<int>>): (r: seq<int>)
    ensures forall x :: x in r <==> exists i :: 0 <= i < |parts| && x in parts[i]
  {
    if parts == [] then [] else Flatten(parts[..|parts| - 1]) + parts[|parts| - 1]
  }

  /**
   * The body of the row loop: the column loop with its inner `range(int(cell))`
   * loop appending predictions, and `targets` rebuilt after every column.
   */
  method ExpandRow(row: seq<int>, rowId: int) returns (preds: seq<int>, targets: seq<int>)
    ensures preds == RowPredictions(row)
    ensures targets == Copies(rowId, |preds|)
  {
    preds := [];
    targets := [];
    var columnId := 0;
    while columnId < |row|
      invariant 0 <= columnId <= |row|
      invariant preds == RowPredictions(row[..columnId])
      invariant targets == Copies(rowId, |preds|)
    {
      var i := 0;
      while i < row[columnId]
        invariant 0 <= i <= Clamp(row[columnId])
        invariant preds == RowPredictions(row[..columnId]) + Copies(columnId, i)
      {
        preds := preds + [columnId];
        i := i + 1;
      }
      assert row[..columnId + 1][..columnId] == row[..columnId];
      targets := Copies(rowId, |preds|);
      columnId := columnId + 1;
    }
    assert row[..columnId] == row;
  }

  /**
   * The loop over rows that builds `all_preds` and `all_targets`, followed by
   * the two concatenations, which raise when the matrix has no rows. The
   * result is (y_true, y_pred).
   */
  method ExpandMatrix(m: Matrix) returns (r: Result<(seq<int>, seq<int>), Error>)
    ensures m == [] ==> r == Failure(NothingToConcatenate)
    ensures m != [] ==> r == Success((TargetStream(m), PredictionStream(m)))
  {
    var allPreds: seq<seq<int>> := [];
    var allTargets: seq<seq<int>> := [];
    var rowId := 0;
    while rowId < |m|
      invariant 0 <= rowId <= |m|
      invariant |allPreds| == |allTargets| == rowId
      invariant Flatten(allPreds) == PredictionStream(m[..rowId])
      invariant Flatten(allTargets) == TargetStream(m[..rowId])
    {
      var preds, targets := ExpandRow(m[rowId], rowId);
      assert (allPreds + [preds])[..rowId] == allPreds;
      assert (allTargets + [targets])[..rowId] == allTargets;
      assert m[..rowId + 1][..rowId] == m[..rowId];
      allPreds := allPreds + [preds];
      allTargets := allTargets + [targets];
      rowId := rowId + 1;
    }
    assert m[..rowId] == m;
    if allPreds == [] {
      return Failure(NothingToConcatenate);
    }
    r := Success((Flatten(allTargets), Flatten(allPreds)));
  }

  // ---------------------------------------------------------------------------
  // Round trip: the rebuilt streams have the matrix as their confusion matrix

  /** The number of samples a cell (a, b) of m stands for; none outside the matrix. */
  function Cell(m: Matrix, a: int, b: int): nat {
    if 0 <= a < |m| && 0 <= b < |m[a]| then Clamp(m[a][b]) else 0
  }

  lemma {:induction false} CountAppend(t1: seq<int>, p1: seq<int>, t2: seq<int>, p2: seq<int>, a: int, b: int)
    requires |t1| == |p1| && |t2| == |p2|
    ensures Count(t1 + t2, p1 + p2, a, b) == Count(t1, p1, a, b) + Count(t2, p2, a, b)
  {
    if t2 != [] {
      var k := |t2| - 1;
      CountAppend(t1, p1, t2[..k], p2[..k], a, b);
      assert (t1 + t2)[..|t1| + k] == t1 + t2[..k];
      assert (p1 + p2)[..|p1| + k] == p1 + p2[..k];
    } else {
      assert t1 + t2 == t1 && p1 + p2 == p1;
    }
  }

  lemma {:induction false} OccurrencesAppend(s1: seq<int>, s2: seq<int>, b: int)
    ensures Occurrences(s1 + s2, b) == Occurrences(s1, b) + Occurrences(s2, b)
  {
    if s2 != [] {
      var k := |s2| - 1;
      OccurrencesAppend(s1, s2[..k], b);
      assert (s1 + s2)[..|s1| + k] == s1 + s2[..k];
    } else {
      assert s1 + s2 == s1;
    }
  }

  /** Pairs whose targets are all `row` count as the predictions' occurrences, and only for that row. */
  lemma {:induction false} CountUniformTargets(row: int, p: seq<int>, a: int, b: int)
    ensures Count(Copies(row, |p|), p, a, b) == if a == row then Occurrences(p, b) else 0
  {
    if p != [] {
      var k := |p| - 1;
      CountUniformTargets(row, p[..k], a, b);
      assert Copies(row, |p|)[..k] == Copies(row, k);
    }
  }

  lemma {:induction false} OccurrencesCopies(x: int, n: int, b: int)
    ensures Occurrences(Copies(x, n), b) == if b == x then Clamp(n) else 0
  {
    if n > 0 {
      OccurrencesCopies(x, n - 1, b);
      assert Copies(x, n)[..|Copies(x, n)| - 1] == Copies(x, n - 1);
    }
  }

  /** Column b occurs in a row's predictions as often as the row's cell b says. */
  lemma {:induction false} OccurrencesRow(row: seq<int>, b: int)
    ensures Occurrences(RowPredictions(row), b) == if 0 <= b < |row| then Clamp(row[b]) else 0
  {
    if row != [] {
      var n := |row| - 1;
      OccurrencesRow(row[..n], b);
      OccurrencesAppend(RowPredictions(row[..n]), Copies(n, row[n]), b);
      OccurrencesCopies(n, row[n], b);
    }
  }

  /** The rebuilt streams hold exactly `Clamp(m[a][b])` samples (a, b), and none outside the matrix. */
  lemma {:induction false} StreamCounts(m: Matrix, a: int, b: int)
    ensures Count(TargetStream(m), PredictionStream(m), a, b) == Cell(m, a, b)
  {
    if m != [] {
      var n := |m| - 1;
      var init := m[..n];
      StreamCounts(init, a, b);
      var row := RowPredictions(m[n]);
      CountAppend(TargetStream(init), PredictionStream(init), Copies(n, |row|), row, a, b);
      CountUniformTargets(n, row, a, b);
      OccurrencesRow(m[n], b);
      assert 0 <= a < n ==> init[a] == m[a];
    }
  }

  /** Row a of the rebuilt confusion matrix over 0 .. n-1 is row a of m. */
  lemma RoundTripRow(m: Matrix, a: nat)
    requires Rectangular(m, |m|) && a < |m|
    requires forall b :: 0 <= b < |m| ==> m[a][b] >= 0
    ensures MatrixOver(TargetStream(m), PredictionStream(m), Range(|m|))[a] == m[a]
  {
    var t, p, labels := TargetStream(m), PredictionStream(m), Range(|m|);
    var row := MatrixOver(t, p, labels)[a];
    assert |row| == |m[a]|;
    forall b | 0 <= b < |m| ensures row[b] == m[a][b] {
      assert row[b] == Count(t, p, a, b);
      StreamCounts(m, a, b);
    }
  }

  /**
   * For a square matrix of non-negative counts, the confusion matrix of the
   * rebuilt streams over the classes 0 .. n-1 is the matrix itself.
   */
  lemma RoundTrip(m: Matrix)
    requires Rectangular(m, |m|)
    requires forall a, b :: 0 <= a < |m| && 0 <= b < |m| ==> m[a][b] >= 0
    ensures MatrixOver(TargetStream(m), PredictionStream(m), Range(|m|)) == m
  {
    var r := MatrixOver(TargetStream(m), PredictionStream(m), Range(|m|));
    forall a | 0 <= a < |m| ensures r[a] == m[a] {
      RoundTripRow(m, a);
    }
  }

  /**
   * The fair path as one fact: keeping the training classes of a confusion
   * matrix with non-negative cells and rebuilding streams from the result
   * gives streams whose confusion matrix over `0 .. n-1` is that sub-matrix.
   */
  lemma FairRoundTrip(cm: Matrix, cols: nat, labels: seq<int>)
    requires Rectangular(cm, cols) && AllInAxes(labels, |cm|, cols)
    requires forall a, b :: 0 <= a < |cm| && 0 <= b < cols ==> cm[a][b] >= 0
    ensures var filtered := FilterMatrix(cm, cols, labels).value;
      MatrixOver(TargetStream(filtered), PredictionStream(filtered), Range(|labels|)) == filtered
  {
    RoundTrip(FilterMatrix(cm, cols, labels).value);
  }

  /** Each stream is as long as the matrix's clamped counts add up to. */
  lemma {:induction false} StreamLength(m: Matrix)
    ensures |PredictionStream(m)| == SumSeq(RowTotals(m))
  {
    if m != [] {
      var n := |m| - 1;
      StreamLength(m[..n]);
      RowPredictionsLength(m[n]);
      assert RowTotals(m)[..n] == RowTotals(m[..n]);
    }
  }

  /** The clamped sum of each row. */
  function RowTotals(m: Matrix): (r: seq<int>)
    ensures |r| == |m|
  {
    seq(|m|, i requires 0 <= i < |m| => SumSeq(ClampAll(m[i])))
  }

  function ClampAll(row: seq<int>): (r: seq<int>)
    ensures |r| == |row| && forall j :: 0 <= j < |row| ==> r[j] == Clamp(row[j])
  {
    seq(|row|, j requires 0 <= j < |row| => Clamp(row[j]))
  }

  lemma {:induction false} RowPredictionsLength(row: seq<int>)
    ensures |RowPredictions(row)| == SumSeq(ClampAll(row))
  {
    if row != [] {
      var n := |row| - 1;
      RowPredictionsLength(row[..n]);
      assert ClampAll(row)[..n] == ClampAll(row[..n]);
    }
  }
}
