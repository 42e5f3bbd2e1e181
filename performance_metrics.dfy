/**
 * The part of `performance_metrics.py` that both copies of the file share:
 * mean per-class accuracy, `compute_metrics`, and the expansion of the
 * per-class vector into `Class_<i>` entries.
 */
module PerformanceMetrics {
  import opened Wrappers
  import opened Errors
  import opened Reports
  import opened Numerals
  import opened Confusion

  /** A metric function of (y_true, y_pred); it may raise. */
  type MetricFn = (seq<int>, seq<int>) -> Result<Value, Error>

  /** A metric function together with its `__name__`, the key of its report entry. */
  datatype Metric = Metric(name: string, fn: MetricFn)

  /** scikit-learn's scorers, left uninterpreted. */
  datatype Scorers = Scorers(accuracy: MetricFn, balancedAccuracy: MetricFn, cohenKappa: MetricFn)

  const PerClassKey := "mean_per_class_accuracy"

  /** NumPy's `n / d` on counts: 0/0 is NaN, and a count over a larger one lies in [0, 1]. */
  function Quotient(n: int, d: int): (r: Num)
    ensures r.NaN? <==> d == 0
    ensures 0 <= n <= d && d > 0 ==> 0.0 <= r.value <= 1.0
  {
    if d == 0 then NaN else Finite(n as real / d as real)
  }

  /** `conf_matrix.diagonal() / conf_matrix.sum(axis=1)`. */
  function MeanPerClassAccuracy(yTrue: seq<int>, yPred: seq<int>): (r: Result<seq<Num>, Error>)
    ensures r.Failure? <==> |yTrue| != |yPred|
    ensures r.Failure? ==> r.error == LengthMismatch
    ensures r.Success? ==> |r.value| == |Classes(yTrue, yPred)|
  {
    var cm :- ConfusionMatrix(yTrue, yPred);
    Success(seq(|cm|, i requires 0 <= i < |cm| => Quotient(cm[i][i], SumSeq(cm[i]))))
  }

  /**
   * Entry i of the per-class accuracy is the recall of the i-th class: the
   * fraction of its samples predicted as that class, a number in [0, 1]; it is
   * NaN exactly when the class occurs only among the predictions.
   */
  lemma MeanPerClassAccuracyIsRecall(yTrue: seq<int>, yPred: seq<int>, i: nat)
    requires |yTrue| == |yPred|
    requires i < |Classes(yTrue, yPred)|
    ensures var c := Classes(yTrue, yPred)[i];
      var acc := MeanPerClassAccuracy(yTrue, yPred).value[i];
      && (acc == NaN <==> c !in yTrue)
      && (c in yTrue ==>
            && Occurrences(yTrue, c) > 0
            && acc == Finite(Count(yTrue, yPred, c, c) as real / Occurrences(yTrue, c) as real)
            && 0.0 <= acc.value <= 1.0)
  {
    var c := Classes(yTrue, yPred)[i];
    var cm := ConfusionMatrix(yTrue, yPred).value;
    var hits, total := Count(yTrue, yPred, c, c), Occurrences(yTrue, c);
    assert cm[i][i] == hits;
    ConfusionMatrixRowSum(yTrue, yPred, i);
    assert MeanPerClassAccuracy(yTrue, yPred).value[i] == Quotient(hits, total);
    CountAtMostOccurrences(yTrue, yPred, c, c);
    OccurrencesZero(yTrue, c);
    if total > 0 {
      RatioInUnitInterval(hits, total);
    }
  }

  lemma RatioInUnitInterval(n: nat, d: nat)
    requires n <= d && d > 0
    ensures 0.0 <= n as real / d as real <= 1.0
  {
    assert n as real <= d as real;
  }

  /** `mean_per_class_accuracy` as an entry of a metric list: a vector value, one entry per class. */
  function MeanPerClassAccuracyValue(yTrue: seq<int>, yPred: seq<int>): (r: Result<Value, Error>)
    ensures r.Failure? <==> |yTrue| != |yPred|
    ensures r.Failure? ==> r.error == LengthMismatch
    ensures r.Success? ==> r.value.Vector? && |r.value.items| == |Classes(yTrue, yPred)|
  {
    var v :- MeanPerClassAccuracy(yTrue, yPred);
    Success(Vector(v))
  }

  /** The list entry for `mean_per_class_accuracy`: keyed by its `__name__`, raising only on a length mismatch. */
  function MeanPerClassAccuracyMetric(): (m: Metric)
    ensures m.name == PerClassKey
    ensures forall yTrue, yPred :: m.fn(yTrue, yPred).Failure? <==> |yTrue| != |yPred|
  {
    Metric(PerClassKey, MeanPerClassAccuracyValue)
  }

  // ---------------------------------------------------------------------------
  // compute_metrics

  function Names(ms: seq<Metric>): (r: seq<string>)
    ensures |r| == |ms| && forall i :: 0 <= i < |ms| ==> r[i] == ms[i].name
  {
    seq(|ms|, i requires 0 <= i < |ms| => ms[i].name)
  }

  /** The elements of `s` in order of first occurrence: the keys of a dict built from `s`. */
  function Dedup(s: seq<string>): (r: seq<string>)
    ensures Distinct(r)
    ensures forall x :: x in r <==> x in s
    ensures Distinct(s) ==> r == s
  {
    if s == [] then []
    else
      var init, last := s[..|s| - 1], s[|s| - 1];
      assert s == init + [last];
      Dedup(init) + (if last in init then [] else [last])
  }

  /** Metric i is the last one in `ms` with its name, so its value is the one the dict keeps. */
  ghost predicate LastWithName(ms: seq<Metric>, i: nat)
    requires i < |ms|
  {
    forall j :: i < j < |ms| ==> ms[j].name != ms[i].name
  }

  /** Every metric of `ms` returns instead of raising. */
  predicate AllSucceed(yTrue: seq<int>, yPred: seq<int>, ms: seq<Metric>) {
    forall i :: 0 <= i < |ms| ==> ms[i].fn(yTrue, yPred).Success?
  }

  /**
   * `{f.__name__: [f(y_true, y_pred)] for f in metrics}`: the metrics are
   * applied in list order and the first one that raises makes the whole call
   * raise.
   */
  function ComputeMetrics(yTrue: seq<int>, yPred: seq<int>, ms: seq<Metric>): (r: Result<Report, Error>)
    ensures r.Success? ==> r.value.Valid()
  {
    if ms == [] then Success(EmptyReport)
    else
      var report :- ComputeMetrics(yTrue, yPred, ms[..|ms| - 1]);
      var v :- ms[|ms| - 1].fn(yTrue, yPred);
      Success(report.Set(ms[|ms| - 1].name, [v]))
  }

  /**
   * The call succeeds exactly when every metric returns, and otherwise raises
   * what the first metric in list order that raises raised.
   */
  lemma {:induction false} ComputeMetricsOutcome(yTrue: seq<int>, yPred: seq<int>, ms: seq<Metric>)
    ensures ComputeMetrics(yTrue, yPred, ms).Success? <==> AllSucceed(yTrue, yPred, ms)
    ensures ComputeMetrics(yTrue, yPred, ms).Failure? ==>
      exists i :: 0 <= i < |ms| && ms[i].fn(yTrue, yPred) == Failure(ComputeMetrics(yTrue, yPred, ms).error) &&
        AllSucceed(yTrue, yPred, ms[..i])
  {
    if ms != [] {
      var init := ms[..|ms| - 1];
      ComputeMetricsOutcome(yTrue, yPred, init);
      assert forall i :: 0 <= i < |init| ==> init[i] == ms[i];
      if ComputeMetrics(yTrue, yPred, init).Failure? {
        var i :| 0 <= i < |init| && init[i].fn(yTrue, yPred) == Failure(ComputeMetrics(yTrue, yPred, init).error) &&
          AllSucceed(yTrue, yPred, init[..i]);
        assert ms[i] == init[i];
        assert init[..i] == ms[..i];
      } else if ComputeMetrics(yTrue, yPred, ms).Failure? {
        assert init == ms[..|ms| - 1];
      }
    }
  }

  /** On success the keys are the metric names in order of first occurrence. */
  lemma {:induction false} ComputeMetricsKeys(yTrue: seq<int>, yPred: seq<int>, ms: seq<Metric>)
    requires ComputeMetrics(yTrue, yPred, ms).Success?
    ensures ComputeMetrics(yTrue, yPred, ms).value.keys == Dedup(Names(ms))
  {
    if ms != [] {
      var init, last := ms[..|ms| - 1], ms[|ms| - 1];
      ComputeMetricsKeys(yTrue, yPred, init);
      var names := Names(ms);
      assert names[..|ms| - 1] == Names(init);
      var prev := ComputeMetrics(yTrue, yPred, init).value;
      assert ComputeMetrics(yTrue, yPred, ms).value.keys == AppendNew(prev.keys, last.name);
    }
  }

  /** On success each name holds the one-element list of the value of the last metric with that name. */
  lemma {:induction false} ComputeMetricsEntries(yTrue: seq<int>, yPred: seq<int>, ms: seq<Metric>, i: nat)
    requires ComputeMetrics(yTrue, yPred, ms).Success?
    requires i < |ms| && LastWithName(ms, i)
    ensures ms[i].fn(yTrue, yPred).Success?
    ensures var r := ComputeMetrics(yTrue, yPred, ms).value;
      ms[i].name in r.entries && r.entries[ms[i].name] == [ms[i].fn(yTrue, yPred).value]
  {
    var init, last := ms[..|ms| - 1], ms[|ms| - 1];
    var r := ComputeMetrics(yTrue, yPred, ms).value;
    var prev := ComputeMetrics(yTrue, yPred, init).value;
    assert r == prev.Set(last.name, [last.fn(yTrue, yPred).value]);
    if i < |init| {
      assert ms[i] == init[i];
      assert LastWithName(init, i);
      ComputeMetricsEntries(yTrue, yPred, init, i);
    }
  }

  /** When the metric names are distinct, the report has exactly those keys, in list order. */
  lemma ComputeMetricsDistinct(yTrue: seq<int>, yPred: seq<int>, ms: seq<Metric>)
    requires Distinct(Names(ms))
    requires ComputeMetrics(yTrue, yPred, ms).Success?
    ensures var report := ComputeMetrics(yTrue, yPred, ms).value;
      && report.keys == Names(ms)
      && forall i :: 0 <= i < |ms| ==>
           ms[i].fn(yTrue, yPred).Success? && report.entries[ms[i].name] == [ms[i].fn(yTrue, yPred).value]
  {
    ComputeMetricsKeys(yTrue, yPred, ms);
    forall i | 0 <= i < |ms|
      ensures ms[i].fn(yTrue, yPred).Success?
      ensures var report := ComputeMetrics(yTrue, yPred, ms).value;
        ms[i].name in report.entries && report.entries[ms[i].name] == [ms[i].fn(yTrue, yPred).value]
    {
      assert LastWithName(ms, i) by {
        forall j | i < j < |ms| ensures ms[j].name != ms[i].name {
          assert Names(ms)[j] != Names(ms)[i];
        }
      }
      ComputeMetricsEntries(yTrue, yPred, ms, i);
    }
  }

  // ---------------------------------------------------------------------------
  // Per-class expansion

  /** `'Class_' + str(i)`; every such key begins with a capital C. */
  function ClassKey(i: nat): (k: string)
    ensures |k| > 0 && k[0] == 'C'
  {
    "Class_" + NatToString(i)
  }

  lemma ClassKeyInjective(i: nat, j: nat)
    requires ClassKey(i) == ClassKey(j)
    ensures i == j
  {
    assert NatToString(i) == ClassKey(i)[6..];
    assert NatToString(j) == ClassKey(j)[6..];
    NatToStringInjective(i, j);
  }

  function ClassKeys(n: nat): (r: seq<string>)
    ensures |r| == n && forall i :: 0 <= i < n ==> r[i] == ClassKey(i)
  {
    seq(n, i requires 0 <= i < n => ClassKey(i))
  }

  /** The keys for n + 1 classes extend those for n by a key not among them. */
  lemma ClassKeysSnoc(n: nat)
    ensures ClassKeys(n + 1) == ClassKeys(n) + [ClassKey(n)]
    ensures ClassKey(n) !in ClassKeys(n)
  {
    forall i | 0 <= i < n ensures ClassKeys(n)[i] != ClassKey(n) {
      if ClassKeys(n)[i] == ClassKey(n) {
        ClassKeyInjective(i, n);
      }
    }
  }

  /** `{'Class_' + str(i): [item] for i, item in enumerate(vec)}`: its keys in index order. */
  function PerClassEntries(vec: seq<Num>): (r: Report)
    ensures r.Valid()
    ensures r.keys == ClassKeys(|vec|)
  {
    if vec == [] then EmptyReport
    else
      var n := |vec| - 1;
      ClassKeysSnoc(n);
      PerClassEntries(vec[..n]).Set(ClassKey(n), [Scalar(vec[n])])
  }

  /** Key `Class_<i>` holds the one-element list of the i-th entry of the vector. */
  lemma {:induction false} PerClassEntriesValues(vec: seq<Num>, i: nat)
    requires i < |vec|
    ensures ClassKey(i) in PerClassEntries(vec).entries
    ensures PerClassEntries(vec).entries[ClassKey(i)] == [Scalar(vec[i])]
  {
    var n := |vec| - 1;
    if i < n {
      PerClassEntriesValues(vec[..n], i);
      if ClassKey(i) == ClassKey(n) {
        ClassKeyInjective(i, n);
      }
    }
  }

  /** The per-class value of a report is iterable: the one-element list of a vector. */
  predicate IsPerClassVector(vals: seq<Value>) {
    |vals| == 1 && vals[0].Vector?
  }

  /**
   * The per-class step of `get_model_metrics` before the (uninterpreted)
   * restructuring: without the `mean_per_class_accuracy` key the report is
   * returned unchanged; with it, the key must hold a one-element list of a
   * vector, whose entries are merged in as `Class_<i>` keys.
   */
  function ExpandPerClass(report: Report): (r: Result<Report, Error>)
    requires report.Valid()
    ensures PerClassKey !in report.entries ==> r == Success(report)
    ensures PerClassKey in report.entries ==> (r.Success? <==> IsPerClassVector(report.entries[PerClassKey]))
    ensures r.Failure? ==> r.error == NotIterable
    ensures r.Success? ==> r.value.Valid()
  {
    if PerClassKey !in report.entries then Success(report)
    else if IsPerClassVector(report.entries[PerClassKey]) then
      Success(Merge(report, PerClassEntries(report.entries[PerClassKey][0].items)))
    else Failure(NotIterable)
  }

  /**
   * When the per-class vector is present, every index i of it gains the key
   * `Class_<i>` holding `[vec[i]]`; new keys are appended after the existing
   * ones in index order, every other entry keeps its value, and no other key
   * appears.
   */
  lemma PerClassExpansion(report: Report)
    requires report.Valid()
    requires PerClassKey in report.entries && IsPerClassVector(report.entries[PerClassKey])
    ensures var vec := report.entries[PerClassKey][0].items;
      var expanded := ExpandPerClass(report).value;
      && expanded.keys == report.keys + Absent(ClassKeys(|vec|), report.keys)
      && (forall i :: 0 <= i < |vec| ==> ClassKey(i) in expanded.entries && expanded.entries[ClassKey(i)] == [Scalar(vec[i])])
      && (forall k :: k in report.entries && k !in ClassKeys(|vec|) ==>
            k in expanded.entries && expanded.entries[k] == report.entries[k])
      && (forall k :: k in expanded.entries ==> k in report.entries || k in ClassKeys(|vec|))
  {
    var vec := report.entries[PerClassKey][0].items;
    var perClass := PerClassEntries(vec);
    assert forall k :: k in perClass.entries <==> k in ClassKeys(|vec|);
    forall i | 0 <= i < |vec|
      ensures ClassKey(i) in perClass.entries && perClass.entries[ClassKey(i)] == [Scalar(vec[i])]
    {
      PerClassEntriesValues(vec, i);
    }
  }

  /** No key begins with a capital C, so none can be a per-class key. */
  predicate ClassFree(keys: seq<string>) {
    forall j :: 0 <= j < |keys| ==> |keys[j]| == 0 || keys[j][0] != 'C'
  }

  /**
   * When no existing key begins with `Class_`, the expansion appends exactly
   * `Class_0 .. Class_<n-1>` after the existing keys and keeps every existing
   * entry.
   */
  lemma ExpandClassFree(report: Report)
    requires report.Valid() && ClassFree(report.keys)
    requires PerClassKey in report.entries && IsPerClassVector(report.entries[PerClassKey])
    ensures var vec := report.entries[PerClassKey][0].items;
      var expanded := ExpandPerClass(report).value;
      && expanded.keys == report.keys + ClassKeys(|vec|)
      && (forall i :: 0 <= i < |vec| ==> ClassKey(i) in expanded.entries && expanded.entries[ClassKey(i)] == [Scalar(vec[i])])
      && (forall k :: k in report.entries ==> k in expanded.entries && expanded.entries[k] == report.entries[k])
  {
    var vec := report.entries[PerClassKey][0].items;
    PerClassExpansion(report);
    var keys := ClassKeys(|vec|);
    forall k | k in keys ensures k !in report.keys {
      var i :| 0 <= i < |keys| && keys[i] == k;
      assert k[0] == 'C';
    }
    AbsentOfDisjoint(keys, report.keys);
  }

  /**
   * `utils.restructure_per_class_accuracy`, whose definition is not part of
   * this model: it takes the expanded report and returns a report, or raises.
   */
  type Restructure = Report -> Result<Report, Error>

  /**
   * The tail of `get_model_metrics`: when the per-class key is present its
   * vector is expanded into `Class_<i>` entries and the expanded report handed
   * to the restructuring, whose outcome is the result; otherwise the report
   * is returned as it is.
   */
  function PerClassStep(report: Report, restructure: Restructure): (r: Result<Report, Error>)
    requires report.Valid()
    ensures PerClassKey !in report.entries ==> r == Success(report)
    ensures PerClassKey in report.entries && !IsPerClassVector(report.entries[PerClassKey]) ==> r == Failure(NotIterable)
    ensures PerClassKey in report.entries && IsPerClassVector(report.entries[PerClassKey]) ==>
      r == restructure(ExpandPerClass(report).value)
  {
    if PerClassKey in report.entries then
      var expanded :- ExpandPerClass(report);
      restructure(expanded)
    else Success(report)
  }

  // ---------------------------------------------------------------------------
  // The scikit-learn scorers as list entries

  const AccuracyName := "accuracy_score"
  const BalancedAccuracyName := "balanced_accuracy_score"
  const CohenKappaName := "cohen_kappa_score"

  /** `[metrics.accuracy_score, metrics.balanced_accuracy_score, metrics.cohen_kappa_score]`. */
  function ScorerMetrics(s: Scorers): seq<Metric> {
    [Metric(AccuracyName, s.accuracy), Metric(BalancedAccuracyName, s.balancedAccuracy), Metric(CohenKappaName, s.cohenKappa)]
  }

  /** The three scorers return a value on these labels. */
  predicate ScorersSucceed(s: Scorers, yTrue: seq<int>, yPred: seq<int>) {
    s.accuracy(yTrue, yPred).Success? && s.balancedAccuracy(yTrue, yPred).Success? && s.cohenKappa(yTrue, yPred).Success?
  }

  /** The scorer list followed by `mean_per_class_accuracy`: the default list of both copies. */
  function AllMetrics(s: Scorers): seq<Metric> {
    ScorerMetrics(s) + [MeanPerClassAccuracyMetric()]
  }

  const ScorerNames := [AccuracyName, BalancedAccuracyName, CohenKappaName]

  /**
   * With the default list the report holds the three scorers' values under
   * their names, then the per-class vector, in that order.
   */
  lemma AllMetricsReport(yTrue: seq<int>, yPred: seq<int>, s: Scorers)
    requires |yTrue| == |yPred| && ScorersSucceed(s, yTrue, yPred)
    ensures var r := ComputeMetrics(yTrue, yPred, AllMetrics(s));
      && r.Success?
      && r.value.keys == ScorerNames + [PerClassKey]
      && AccuracyName in r.value.entries && BalancedAccuracyName in r.value.entries
      && CohenKappaName in r.value.entries && PerClassKey in r.value.entries
      && r.value.entries[AccuracyName] == [s.accuracy(yTrue, yPred).value]
      && r.value.entries[BalancedAccuracyName] == [s.balancedAccuracy(yTrue, yPred).value]
      && r.value.entries[CohenKappaName] == [s.cohenKappa(yTrue, yPred).value]
      && r.value.entries[PerClassKey] == [Vector(MeanPerClassAccuracy(yTrue, yPred).value)]
  {
    var ms := AllMetrics(s);
    var names := Names(ms);
    assert names[0] == AccuracyName && names[1] == BalancedAccuracyName;
    assert names[2] == CohenKappaName && names[3] == PerClassKey;
    assert names == ScorerNames + [PerClassKey];
    assert Distinct(names) by {
      assert names[0][0] == 'a' && names[1][0] == 'b' && names[2][0] == 'c' && names[3][0] == 'm';
    }
    assert AllSucceed(yTrue, yPred, ms) by {
      assert ms[3].fn(yTrue, yPred) == MeanPerClassAccuracyValue(yTrue, yPred);
    }
    ComputeMetricsOutcome(yTrue, yPred, ms);
    ComputeMetricsDistinct(yTrue, yPred, ms);
    var r := ComputeMetrics(yTrue, yPred, ms).value;
    assert r.keys[1] in r.entries && r.keys[2] in r.entries;
  }

  /** The scorer list leaves out the per-class metric, so a report of it holds the three scorer names only. */
  lemma ScorerMetricsReport(yTrue: seq<int>, yPred: seq<int>, s: Scorers)
    ensures PerClassKey !in Names(ScorerMetrics(s))
    ensures ComputeMetrics(yTrue, yPred, ScorerMetrics(s)).Success? ==>
      ComputeMetrics(yTrue, yPred, ScorerMetrics(s)).value.keys == ScorerNames
  {
    var names := Names(ScorerMetrics(s));
    assert names[0] == AccuracyName && names[1] == BalancedAccuracyName && names[2] == CohenKappaName;
    assert names == ScorerNames;
    assert Distinct(names) by {
      assert names[0][0] == 'a' && names[1][0] == 'b' && names[2][0] == 'c';
    }
    assert PerClassKey !in names by {
      assert PerClassKey[0] == 'm';
    }
    if ComputeMetrics(yTrue, yPred, ScorerMetrics(s)).Success? {
      ComputeMetricsKeys(yTrue, yPred, ScorerMetrics(s));
    }
  }

  /** Without the three scorers' and the per-class names among the keys there is no `Class_` key. */
  lemma ScorerNamesClassFree(extra: seq<string>)
    requires ClassFree(extra)
    ensures ClassFree(ScorerNames + [PerClassKey] + extra)
  {
    var keys := ScorerNames + [PerClassKey] + extra;
    forall j | 0 <= j < |keys| ensures |keys[j]| == 0 || keys[j][0] != 'C' {
      if j >= 4 {
        assert keys[j] == extra[j - 4];
      }
    }
  }
}
