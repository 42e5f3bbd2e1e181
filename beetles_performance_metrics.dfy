/**
 * The version of `performance_metrics.py` under `beetles/`: its default
 * metric lists, `get_model_metrics` and `get_fair_model_metrics`.
 */
module BeetlesPerformanceMetrics {
  import opened Wrappers
  import opened Errors
  import opened Reports
  import opened Confusion
  import opened PerformanceMetrics
  import opened FairRecompute

  /** `DEFAULT_METRICS`: the three scorers, then `mean_per_class_accuracy`. */
  function DefaultMetrics(s: Scorers): (r: seq<Metric>)
    ensures Names(r) == ScorerNames + [PerClassKey]
    ensures r[3] == MeanPerClassAccuracyMetric()
  {
    AllMetrics(s)
  }

  /** `DEFAULT_FAIR_METRICS`: the three scorers only. */
  function DefaultFairMetrics(s: Scorers): (r: seq<Metric>)
    ensures Names(r) == ScorerNames && PerClassKey !in Names(r)
  {
    ScorerMetrics(s)
  }

  /**
   * `get_model_metrics`: the metrics (`DEFAULT_METRICS` when none are given)
   * are computed, and a per-class vector among them is expanded and handed to
   * the restructuring step. Without the per-class metric the result is the
   * report of `compute_metrics` itself.
   */
  function ModelMetrics(yTrue: seq<int>, yPred: seq<int>, metricsToCompute: Option<seq<Metric>>,
                        s: Scorers, restructure: Restructure): (r: Result<Report, Error>)
    ensures r.Success? ==> AllSucceed(yTrue, yPred, metricsToCompute.GetOr(DefaultMetrics(s)))
    ensures var ms := metricsToCompute.GetOr(DefaultMetrics(s));
      PerClassKey !in Names(ms) ==> r == ComputeMetrics(yTrue, yPred, ms)
    ensures var ms := metricsToCompute.GetOr(DefaultMetrics(s));
      var base := ComputeMetrics(yTrue, yPred, ms);
      base.Failure? ==> r == Failure(base.error)
    ensures var ms := metricsToCompute.GetOr(DefaultMetrics(s));
      var base := ComputeMetrics(yTrue, yPred, ms);
      base.Success? && PerClassKey in Names(ms) ==>
        && PerClassKey in base.value.entries
        && (!IsPerClassVector(base.value.entries[PerClassKey]) ==> r == Failure(NotIterable))
        && (IsPerClassVector(base.value.entries[PerClassKey]) ==> r == restructure(ExpandPerClass(base.value).value))
  {
    var ms := metricsToCompute.GetOr(DefaultMetrics(s));
    ComputeMetricsOutcome(yTrue, yPred, ms);
    var base :- ComputeMetrics(yTrue, yPred, ms);
    ComputeMetricsKeys(yTrue, yPred, ms);
    PerClassStep(base, restructure)
  }

  /**
   * `get_model_metrics` step by step: the report is computed, then updated
   * in place with the per-class entries and restructured.
   */
  method GetModelMetrics(yTrue: seq<int>, yPred: seq<int>, metricsToCompute: Option<seq<Metric>>,
                         s: Scorers, restructure: Restructure) returns (r: Result<Report, Error>)
    ensures r == ModelMetrics(yTrue, yPred, metricsToCompute, s, restructure)
  {
    var ms := metricsToCompute.GetOr(DefaultMetrics(s));
    var computed := ComputeMetrics(yTrue, yPred, ms);
    if computed.Failure? {
      return Failure(computed.error);
    }
    var modelMetrics := computed.value;
    if PerClassKey in modelMetrics.entries {
      var perClass := modelMetrics.entries[PerClassKey];
      if !IsPerClassVector(perClass) {
        return Failure(NotIterable);
      }
      var perClassAcc := PerClassEntries(perClass[0].items);
      modelMetrics := Merge(modelMetrics, perClassAcc);
      modelMetrics :- restructure(modelMetrics);
    }
    return Success(modelMetrics);
  }

  /**
   * With the default metrics on labels of equal length, the report handed to
   * the restructuring step holds the three scorers, the per-class vector and
   * then `Class_0 .. Class_<n-1>` for the n observed classes, `Class_<i>`
   * holding the recall of the i-th class.
   */
  lemma DefaultModelMetrics(yTrue: seq<int>, yPred: seq<int>, s: Scorers, restructure: Restructure)
    requires |yTrue| == |yPred| && ScorersSucceed(s, yTrue, yPred)
    ensures var base := ComputeMetrics(yTrue, yPred, DefaultMetrics(s));
      && base.Success?
      && ExpandPerClass(base.value).Success?
      && var expanded := ExpandPerClass(base.value).value;
      && ModelMetrics(yTrue, yPred, None, s, restructure) == restructure(expanded)
      && expanded.keys == ScorerNames + [PerClassKey] + ClassKeys(|Classes(yTrue, yPred)|)
      && (forall k :: k in base.value.entries ==> k in expanded.entries && expanded.entries[k] == base.value.entries[k])
      && (forall i :: 0 <= i < |Classes(yTrue, yPred)| ==>
            ClassKey(i) in expanded.entries &&
            expanded.entries[ClassKey(i)] == [Scalar(MeanPerClassAccuracy(yTrue, yPred).value[i])])
  {
    AllMetricsReport(yTrue, yPred, s);
    var base := ComputeMetrics(yTrue, yPred, DefaultMetrics(s)).value;
    ScorerNamesClassFree([]);
    assert ScorerNames + [PerClassKey] + [] == base.keys;
    ExpandClassFree(base);
  }

  /**
   * `get_fair_model_metrics`: the matrix is restricted to the training
   * classes, label streams are rebuilt from it, and the three scorers are
   * computed on them. An index outside the matrix and an empty label list
   * raise; otherwise the report holds exactly the three scorers.
   */
  method GetFairModelMetrics(confMatrix: Matrix, cols: nat, labelsInTrain: seq<int>,
                             s: Scorers, restructure: Restructure) returns (r: Result<Report, Error>)
    requires Rectangular(confMatrix, cols)
    ensures !AllInAxes(labelsInTrain, |confMatrix|, cols) ==> r == Failure(IndexOutOfBounds)
    ensures AllInAxes(labelsInTrain, |confMatrix|, cols) && labelsInTrain == [] ==> r == Failure(NothingToConcatenate)
    ensures AllInAxes(labelsInTrain, |confMatrix|, cols) && labelsInTrain != [] ==>
      var filtered := FilterMatrix(confMatrix, cols, labelsInTrain).value;
      r == ComputeMetrics(TargetStream(filtered), PredictionStream(filtered), DefaultFairMetrics(s))
    ensures r.Success? ==> r.value.keys == ScorerNames
  {
    var filtered := FilterMatrix(confMatrix, cols, labelsInTrain);
    if filtered.Failure? {
      return Failure(filtered.error);
    }
    var streams := ExpandMatrix(filtered.value);
    if streams.Failure? {
      return Failure(streams.error);
    }
    var yTrue, yPred := streams.value.0, streams.value.1;
    ScorerMetricsReport(yTrue, yPred, s);
    r := GetModelMetrics(yTrue, yPred, Some(DefaultFairMetrics(s)), s, restructure);
  }
}
