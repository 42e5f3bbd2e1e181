/**
 * The version of `performance_metrics.py` under `ml_intuition/`: the same
 * kernel with `CUSTOM_METRICS` as the default list, an optional inference
 * time recorded in the report, `get_confusion_matrix`, and a fair recompute
 * with the list minus its last entry.
 */
module IntuitionPerformanceMetrics {
  import opened Wrappers
  import opened Errors
  import opened Reports
  import opened Confusion
  import opened PerformanceMetrics
  import opened FairRecompute

  /** `CUSTOM_METRICS`: the three scorers, then `mean_per_class_accuracy`. */
  function CustomMetrics(s: Scorers): (r: seq<Metric>)
    ensures Names(r) == ScorerNames + [PerClassKey]
    ensures r[3] == MeanPerClassAccuracyMetric()
  {
    AllMetrics(s)
  }

  const InferenceTimeKey := "inference_time"

  /** `model_metrics['inference_time'] = [inference_time]` when a time is given. */
  function WithInferenceTime(report: Report, inferenceTime: Option<real>): (r: Report)
    requires report.Valid()
    ensures r.Valid()
    ensures inferenceTime.None? ==> r == report
    ensures inferenceTime.Some? ==>
      && r.keys == AppendNew(report.keys, InferenceTimeKey)
      && InferenceTimeKey in r.entries
      && r.entries[InferenceTimeKey] == [Scalar(Finite(inferenceTime.value))]
    ensures forall k :: k in report.entries && k != InferenceTimeKey ==> k in r.entries && r.entries[k] == report.entries[k]
    ensures forall k :: k in r.entries ==> k in report.entries || k == InferenceTimeKey
  {
    match inferenceTime
    case None => report
    case Some(t) => report.Set(InferenceTimeKey, [Scalar(Finite(t))])
  }

  /**
   * `get_model_metrics`: the metrics (`CUSTOM_METRICS` when none are given)
   * are computed, the inference time is recorded, and a per-class vector is
   * expanded and handed to the restructuring step. Without the per-class
   * metric the result is the report of `compute_metrics` with the time added.
   */
  function ModelMetrics(yTrue: seq<int>, yPred: seq<int>, inferenceTime: Option<real>,
                        metricsToCompute: Option<seq<Metric>>,
                        s: Scorers, restructure: Restructure): (r: Result<Report, Error>)
    ensures r.Success? ==> AllSucceed(yTrue, yPred, metricsToCompute.GetOr(CustomMetrics(s)))
    ensures var ms := metricsToCompute.GetOr(CustomMetrics(s));
      var base := ComputeMetrics(yTrue, yPred, ms);
      PerClassKey !in Names(ms) ==>
        r == if base.Success? then Success(WithInferenceTime(base.value, inferenceTime)) else Failure(base.error)
    ensures var ms := metricsToCompute.GetOr(CustomMetrics(s));
      var base := ComputeMetrics(yTrue, yPred, ms);
      base.Failure? ==> r == Failure(base.error)
    ensures var ms := metricsToCompute.GetOr(CustomMetrics(s));
      var base := ComputeMetrics(yTrue, yPred, ms);
      base.Success? && PerClassKey in Names(ms) ==>
        var timed := WithInferenceTime(base.value, inferenceTime);
        && PerClassKey in timed.entries
        && (!IsPerClassVector(timed.entries[PerClassKey]) ==> r == Failure(NotIterable))
        && (IsPerClassVector(timed.entries[PerClassKey]) ==> r == restructure(ExpandPerClass(timed).value))
  {
    var ms := metricsToCompute.GetOr(CustomMetrics(s));
    ComputeMetricsOutcome(yTrue, yPred, ms);
    var base :- ComputeMetrics(yTrue, yPred, ms);
    ComputeMetricsKeys(yTrue, yPred, ms);
    PerClassStep(WithInferenceTime(base, inferenceTime), restructure)
  }

  /**
   * `get_model_metrics` step by step: the report is computed, then updated
   * in place with the per-class entries and restructured.
   */
  method GetModelMetrics(yTrue: seq<int>, yPred: seq<int>, inferenceTime: Option<real>,
                         metricsToCompute: Option<seq<Metric>>, s: Scorers, restructure: Restructure) returns (r: Result<Report, Error>)
    ensures r == ModelMetrics(yTrue, yPred, inferenceTime, metricsToCompute, s, restructure)
  {
    var ms := metricsToCompute.GetOr(CustomMetrics(s));
    var computed := ComputeMetrics(yTrue, yPred, ms);
    if computed.Failure? {
      return Failure(computed.error);
    }
    var modelMetrics := computed.value;
    if inferenceTime.Some? {
      modelMetrics := modelMetrics.Set(InferenceTimeKey, [Scalar(Finite(inferenceTime.value))]);
    }
    if PerClassKey in modelMetrics.entries {
      var perClass := modelMetrics.entries[PerClassKey];
      if !IsPerClassVector(perClass) {
        return Failure(NotIterable);
      }
      var perClassAcc := PerClassEntries(perClass[0].items);
      modelMetrics := Merge(modelMetrics, perClassAcc);
      modelMetrics :- restructure(modelMetrics);
    }
    return Success(modelMetrics);
  }

  /** The keys recorded before the per-class step: the time goes after the default metrics. */
  function TimedKeys(inferenceTime: Option<real>): seq<string> {
    ScorerNames + [PerClassKey] + (if inferenceTime.Some? then [InferenceTimeKey] else [])
  }

  /** The default report with the time recorded: its keys, and the per-class vector it still holds. */
  lemma TimedDefaultReport(yTrue: seq<int>, yPred: seq<int>, inferenceTime: Option<real>, s: Scorers)
    requires |yTrue| == |yPred| && ScorersSucceed(s, yTrue, yPred)
    ensures var base := ComputeMetrics(yTrue, yPred, CustomMetrics(s));
      && base.Success?
      && var timed := WithInferenceTime(base.value, inferenceTime);
      && timed.keys == TimedKeys(inferenceTime)
      && ClassFree(timed.keys)
      && PerClassKey in timed.entries
      && timed.entries[PerClassKey] == [Vector(MeanPerClassAccuracy(yTrue, yPred).value)]
  {
    AllMetricsReport(yTrue, yPred, s);
    var base := ComputeMetrics(yTrue, yPred, CustomMetrics(s)).value;
    var extra: seq<string> := if inferenceTime.Some? then [InferenceTimeKey] else [];
    assert InferenceTimeKey !in base.keys by {
      assert InferenceTimeKey[0] == 'i';
      assert base.keys[0][0] == 'a' && base.keys[1][0] == 'b' && base.keys[2][0] == 'c' && base.keys[3][0] == 'm';
    }
    assert ClassFree(extra) by {
      assert InferenceTimeKey[0] == 'i';
    }
    ScorerNamesClassFree(extra);
    assert PerClassKey != InferenceTimeKey;
  }

  /**
   * With the default metrics on labels of equal length, the report handed to
   * the restructuring step holds the three scorers, the per-class vector, the
   * inference time when one is given, and then `Class_0 .. Class_<n-1>` for
   * the n observed classes, `Class_<i>` holding the recall of the i-th class.
   */
  lemma DefaultModelMetrics(yTrue: seq<int>, yPred: seq<int>, inferenceTime: Option<real>,
                            s: Scorers, restructure: Restructure)
    requires |yTrue| == |yPred| && ScorersSucceed(s, yTrue, yPred)
    ensures var base := ComputeMetrics(yTrue, yPred, CustomMetrics(s));
      && base.Success?
      && var timed := WithInferenceTime(base.value, inferenceTime);
      && ExpandPerClass(timed).Success?
      && var expanded := ExpandPerClass(timed).value;
      && ModelMetrics(yTrue, yPred, inferenceTime, None, s, restructure) == restructure(expanded)
      && expanded.keys == TimedKeys(inferenceTime) + ClassKeys(|Classes(yTrue, yPred)|)
      && (forall k :: k in timed.entries ==> k in expanded.entries && expanded.entries[k] == timed.entries[k])
      && (inferenceTime.Some? ==> timed.entries[InferenceTimeKey] == [Scalar(Finite(inferenceTime.value))])
      && (forall i :: 0 <= i < |Classes(yTrue, yPred)| ==>
            ClassKey(i) in expanded.entries &&
            expanded.entries[ClassKey(i)] == [Scalar(MeanPerClassAccuracy(yTrue, yPred).value[i])])
  {
    TimedDefaultReport(yTrue, yPred, inferenceTime, s);
    var base := ComputeMetrics(yTrue, yPred, CustomMetrics(s)).value;
    ExpandClassFree(WithInferenceTime(base, inferenceTime));
  }

  /**
   * `get_confusion_matrix`: scikit-learn's confusion matrix, whose cells are
   * the pair counts over the observed classes, whose row i sums to the number
   * of samples of the i-th class and whose cells sum to the number of samples.
   */
  function GetConfusionMatrix(yTrue: seq<int>, yPred: seq<int>): (r: Result<Matrix, Error>)
    ensures r.Failure? <==> |yTrue| != |yPred|
    ensures r.Failure? ==> r.error == LengthMismatch
    ensures r.Success? ==> var classes := Classes(yTrue, yPred);
      && |r.value| == |classes| && Rectangular(r.value, |classes|)
      && (forall i, j :: 0 <= i < |classes| && 0 <= j < |classes| ==>
            r.value[i][j] == Count(yTrue, yPred, classes[i], classes[j]))
      && (forall i :: 0 <= i < |classes| ==> SumSeq(r.value[i]) == Occurrences(yTrue, classes[i]))
      && SumSeq(RowSums(r.value)) == |yTrue|
  {
    if |yTrue| == |yPred| then
      ConfusionMatrixMarginals(yTrue, yPred);
      ConfusionMatrix(yTrue, yPred)
    else ConfusionMatrix(yTrue, yPred)
  }

  /**
   * `get_fair_model_metrics`: as in the other copy, with `CUSTOM_METRICS[:-1]`
   * (the three scorers) computed on the rebuilt streams and no inference time.
   */
  method GetFairModelMetrics(confMatrix: Matrix, cols: nat, labelsInTrain: seq<int>,
                             s: Scorers, restructure: Restructure) returns (r: Result<Report, Error>)
    requires Rectangular(confMatrix, cols)
    ensures !AllInAxes(labelsInTrain, |confMatrix|, cols) ==> r == Failure(IndexOutOfBounds)
    ensures AllInAxes(labelsInTrain, |confMatrix|, cols) && labelsInTrain == [] ==> r == Failure(NothingToConcatenate)
    ensures AllInAxes(labelsInTrain, |confMatrix|, cols) && labelsInTrain != [] ==>
      var filtered := FilterMatrix(confMatrix, cols, labelsInTrain).value;
      r == ComputeMetrics(TargetStream(filtered), PredictionStream(filtered), ScorerMetrics(s))
    ensures r.Success? ==> r.value.keys == ScorerNames
  {
    var filtered := FilterMatrix(confMatrix, cols, labelsInTrain);
    if filtered.Failure? {
      return Failure(filtered.error);
    }
    var streams := ExpandMatrix(filtered.value);
    if streams.Failure? {
      return Failure(streams.error);
    }
    var yTrue, yPred := streams.value.0, streams.value.1;
    var ms := CustomMetrics(s)[..|CustomMetrics(s)| - 1];
    assert ms == ScorerMetrics(s);
    ScorerMetricsReport(yTrue, yPred, s);
    r := GetModelMetrics(yTrue, yPred, None, Some(ms), s, restructure);
  }
}
