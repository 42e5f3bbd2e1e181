/** Worked examples: the model evaluated on small concrete inputs. */
module WorkedExamples {
  import opened Wrappers
  import opened Reports
  import opened Confusion
  import opened PerformanceMetrics
  import opened FairRecompute

  /** A strictly increasing integer sequence rises by at least one per position. */
  lemma {:induction false} RisesByIndex(r: seq<int>, k: nat)
    requires StrictlyIncreasing(r) && k < |r|
    ensures r[k] >= r[0] + k
  {
    if k > 0 {
      RisesByIndex(r, k - 1);
    }
  }

  /** The only strictly increasing sequence holding exactly 0 and 1. */
  lemma TwoClasses(r: seq<int>)
    requires StrictlyIncreasing(r)
    requires forall c :: c in r <==> c == 0 || c == 1
    ensures r == [0, 1]
  {
    assert 0 in r && 1 in r;
    assert r[0] in r && r[|r| - 1] in r;
    RisesByIndex(r, |r| - 1);
    assert r[1] in r;
  }

  /** The four pair counts of the first example. */
  lemma ExampleOneCounts()
    ensures Count([0, 0, 1, 1], [0, 1, 1, 1], 0, 0) == 1 && Count([0, 0, 1, 1], [0, 1, 1, 1], 0, 1) == 1
    ensures Count([0, 0, 1, 1], [0, 1, 1, 1], 1, 0) == 0 && Count([0, 0, 1, 1], [0, 1, 1, 1], 1, 1) == 2
  {
    assert [0, 0, 1, 1][..3] == [0, 0, 1] && [0, 0, 1][..2] == [0, 0] && [0, 0][..1] == [0] && [0][..0] == [];
    assert [0, 1, 1, 1][..3] == [0, 1, 1] && [0, 1, 1][..2] == [0, 1] && [0, 1][..1] == [0];
    assert Count([0], [0], 0, 0) == 1 && Count([0], [0], 0, 1) == 0;
    assert Count([0], [0], 1, 0) == 0 && Count([0], [0], 1, 1) == 0;
    assert Count([0, 0], [0, 1], 0, 0) == 1 && Count([0, 0], [0, 1], 0, 1) == 1;
    assert Count([0, 0], [0, 1], 1, 0) == 0 && Count([0, 0], [0, 1], 1, 1) == 0;
    assert Count([0, 0, 1], [0, 1, 1], 0, 0) == 1 && Count([0, 0, 1], [0, 1, 1], 0, 1) == 1;
    assert Count([0, 0, 1], [0, 1, 1], 1, 0) == 0 && Count([0, 0, 1], [0, 1, 1], 1, 1) == 1;
  }

  /** Worked example 1: two classes, one sample of the first predicted as the second. */
  lemma ExampleOneMatrix()
    ensures ConfusionMatrix([0, 0, 1, 1], [0, 1, 1, 1]) == Success([[1, 1], [0, 2]])
  {
    var t, p := [0, 0, 1, 1], [0, 1, 1, 1];
    TwoClasses(Classes(t, p));
    ExampleOneCounts();
    var classes := Classes(t, p);
    assert classes[0] == 0 && classes[1] == 1;
    var cm := ConfusionMatrix(t, p).value;
    assert |cm| == 2 && |cm[0]| == 2 && |cm[1]| == 2;
    assert cm[0][0] == Count(t, p, 0, 0) && cm[0][1] == Count(t, p, 0, 1);
    assert cm[1][0] == Count(t, p, 1, 0) && cm[1][1] == Count(t, p, 1, 1);
    assert cm[0] == [1, 1] && cm[1] == [0, 2];
    assert cm == [[1, 1], [0, 2]];
  }

  /** Worked example 1 continued: the recalls of the two classes are 1/2 and 1. */
  lemma ExampleOneAccuracy()
    ensures MeanPerClassAccuracy([0, 0, 1, 1], [0, 1, 1, 1]) == Success([Finite(0.5), Finite(1.0)])
  {
    ExampleOneMatrix();
    assert [1, 1][..1] == [1] && [0, 2][..1] == [0] && [1][..0] == [] && [0][..0] == [];
    assert SumSeq([1, 1]) == 2 && SumSeq([0, 2]) == 2;
    var acc := MeanPerClassAccuracy([0, 0, 1, 1], [0, 1, 1, 1]).value;
    assert |acc| == 2 && acc[0] == Quotient(1, 2) && acc[1] == Quotient(2, 2);
    assert acc == [Finite(0.5), Finite(1.0)];
  }

  /** Worked example 2: keeping classes 0 and 2 of a three-class matrix. */
  lemma ExampleTwoFilter()
    ensures FilterMatrix([[10, 0, 2], [1, 4, 0], [0, 0, 3]], 3, [0, 2]) == Success([[10, 2], [0, 3]])
  {
    var r := FilterMatrix([[10, 0, 2], [1, 4, 0], [0, 0, 3]], 3, [0, 2]).value;
    assert r[0][0] == 10 && r[0][1] == 2 && r[1][0] == 0 && r[1][1] == 3;
    assert r[0] == [10, 2] && r[1] == [0, 3];
    assert r == [[10, 2], [0, 3]];
  }

  /** The clamped row sums of the kept sub-matrix. */
  lemma ExampleTwoTotals()
    ensures RowTotals([[10, 2], [0, 3]]) == [12, 3]
  {
    assert ClampAll([10, 2]) == [10, 2] && ClampAll([0, 3]) == [0, 3];
    assert [10, 2][..1] == [10] && [0, 3][..1] == [0] && [10][..0] == [] && [0][..0] == [];
    assert SumSeq([10, 2]) == 12 && SumSeq([0, 3]) == 3;
  }

  /** Worked example 2 continued: the rebuilt streams hold 15 samples. */
  lemma ExampleTwoLength()
    ensures |TargetStream([[10, 2], [0, 3]])| == 15
  {
    StreamLength([[10, 2], [0, 3]]);
    ExampleTwoTotals();
    assert [12, 3][..1] == [12] && [12][..0] == [];
    assert SumSeq([12, 3]) == 15;
  }
}
