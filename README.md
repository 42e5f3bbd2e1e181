# Metrics kernel of the hyperspectral classification evaluation

This project is a Dafny model of the evaluation metrics kernel of the
`hypernet` repository. The kernel lives in `performance_metrics.py`, and
the repository has two near-identical copies of that file: one under
`beetles/ml_intuition/evaluation/` and one under `ml_intuition/evaluation/`.
The kernel has three parts:

- **Per-class accuracy.** `mean_per_class_accuracy` builds scikit-learn's confusion matrix from two integer label streams. It divides the diagonal by the row sums, which gives the recall of every observed class. A class that occurs only among the predictions gets NaN.
- **Report building.**
  - `compute_metrics` maps every metric function's name to the one-element list of its value, in an insertion-ordered dict.
  - `get_model_metrics` picks the default metric list when none is given.
  - The `ml_intuition` copy can also record an `inference_time`.
  - When the `mean_per_class_accuracy` key is present, `get_model_metrics` merges `Class_0 … Class_<n-1>` entries into the report and hands it to a restructuring step.
- **Fair recomputation.** `get_fair_model_metrics` cuts a confusion matrix down to the classes seen in training. It uses NumPy fancy indexing on rows, then on columns. Nested loops then rebuild synthetic `(y_true, y_pred)` streams from the cut-down matrix, and the three aggregate scikit-learn scores are recomputed on them.

One model serves both copies. The shared parts are in `PerformanceMetrics`,
`Confusion` and `FairRecompute`. Each copy's defaults, `get_model_metrics`
and `get_fair_model_metrics` have their own module:
`BeetlesPerformanceMetrics` and `IntuitionPerformanceMetrics`.

How each part is represented:

- **Reports.** A Python dict built as a local value is a `Report`: a key order (`seq<string>`) plus a `map`. Item assignment is `Report.Set` and `dict.update` is `Merge`. Each keeps the insertion order Python does: existing keys stay in place and new keys are appended.
- **Values.** A report value is a `Value`: a scalar or a vector of `Num`. A `Num` is an exact `real` or `NaN`.
- **Errors.** The exceptions the code can raise are `Error` values inside a `Result`:
  - `LengthMismatch`: scikit-learn's length check.
  - `NotIterable`: `enumerate` over a per-class entry that is not a vector.
  - `IndexOutOfBounds`: NumPy's `IndexError`.
  - `NothingToConcatenate`: `np.concatenate` of an empty list.
- **Scorers.** The three scikit-learn scorers are uninterpreted function values in a `Scorers` record. A metric is a name paired with such a function, standing in for a `__name__`-keyed callable.
- **Restructuring.** `utils.restructure_per_class_accuracy` is a function parameter of type `Report -> Result<Report, Error>`. It may return a report or raise, and nothing else is assumed about it.
- **Fair recomputation.** The loops that rebuild the streams are imperative methods (`ExpandRow`, `ExpandMatrix`). They are proved equal to the specification functions `PredictionStream` and `TargetStream`. The round trip is proved on those functions: the confusion matrix of the rebuilt streams over the classes `0 .. n-1` is the cut-down matrix.
- **`get_model_metrics`.** This is a method (`GetModelMetrics`) that updates its local report step by step. It is proved equal to the specification function `ModelMetrics`, and the lemmas about the default report are stated on that function.

Behaviour of the code that the model keeps:

- Empty label streams are not rejected. An empty input gives a 0 × 0 confusion matrix and an empty per-class vector. Only the uninterpreted scorers could object to an empty input.
- `mean_per_class_accuracy` returns the vector of per-class recalls, not their mean.
- On the fair path the code itself raises only the two NumPy errors named above: an index outside an axis, and an empty list of training labels. Beyond those, the uninterpreted scorers may raise, and their error is then the result.

## Model

| member | source | states |
|---|---|---|
| Reports.Report.Set | beetles/ml_intuition/evaluation/performance_metrics.py:34-36 | Assigning a key keeps the report well formed, sets that key's value, keeps the other values, and appends the key only if it is new. |
| Reports.UpdateWith | beetles/ml_intuition/evaluation/performance_metrics.py:72 | Writing keys one after another keeps the report well formed; the key order becomes the old order with the new keys appended in writing order. |
| Reports.UpdateWithEntries | beetles/ml_intuition/evaluation/performance_metrics.py:72 | After the writes, the domain is the old domain plus the written keys; written keys hold the new values and every other key keeps its old one. |
| Reports.AppendAllNewIsAbsent | beetles/ml_intuition/evaluation/performance_metrics.py:72 | For distinct keys, adding them to an order keeps the existing keys first, followed by the keys that were absent, in their own order. |
| Reports.Absent | beetles/ml_intuition/evaluation/performance_metrics.py:72 | The keys `dict.update` appends are exactly the other report's keys that were not already present. |
| Reports.AbsentOfDisjoint | beetles/ml_intuition/evaluation/performance_metrics.py:72 | Keys none of which are present are all appended. |
| Reports.Merge | beetles/ml_intuition/evaluation/performance_metrics.py:72 | `dict.update`: the result is well formed; its keys are the old keys followed by the other report's absent keys; its domain is the union; the other report's values win; every other old value is kept. |
| Numerals.NatToString | beetles/ml_intuition/evaluation/performance_metrics.py:69 | `str(i)` is a non-empty string of decimal digits. |
| Numerals.ParseNatToString | beetles/ml_intuition/evaluation/performance_metrics.py:69 | Reading the decimal digits of `str(n)` back gives n. |
| Numerals.NatToStringInjective | beetles/ml_intuition/evaluation/performance_metrics.py:69 | Different numbers have different decimal strings. |
| Confusion.Insert | beetles/ml_intuition/evaluation/performance_metrics.py:21 | Inserting into a strictly increasing sequence keeps it strictly increasing and adds exactly the new element. |
| Confusion.SortedUnique | beetles/ml_intuition/evaluation/performance_metrics.py:21 | The result is strictly increasing and holds exactly the elements of the input. |
| Confusion.Classes | beetles/ml_intuition/evaluation/performance_metrics.py:21 | The classes of the confusion matrix are strictly increasing and are exactly the labels seen in either stream. |
| Confusion.Count | beetles/ml_intuition/evaluation/performance_metrics.py:21 | A pair count never exceeds the number of samples. |
| Confusion.Occurrences | beetles/ml_intuition/evaluation/performance_metrics.py:22 | An occurrence count never exceeds the length of the stream. |
| Confusion.SumSeq | beetles/ml_intuition/evaluation/performance_metrics.py:22 | The sum of a row of counts is non-negative and at least each of its entries. |
| Confusion.MatrixOver | beetles/ml_intuition/evaluation/performance_metrics.py:21 | Over a list of labels, the matrix is square of that size, and cell (i, j) counts the samples with true label i and prediction j. |
| Confusion.ConfusionMatrix | beetles/ml_intuition/evaluation/performance_metrics.py:21 | `confusion_matrix` fails exactly when the lengths differ, and then with LengthMismatch; otherwise it is square over the observed classes. |
| Confusion.RowSums | beetles/ml_intuition/evaluation/performance_metrics.py:22 | `sum(axis=1)` has one entry per row. |
| Confusion.ConfusionMatrixRowSum | beetles/ml_intuition/evaluation/performance_metrics.py:22 | Row i sums to the number of samples whose true label is the i-th class. |
| Confusion.TrueLabelsClassified | beetles/ml_intuition/evaluation/performance_metrics.py:21 | Every true label is one of the classes. |
| Confusion.ConfusionMatrixTotal | ml_intuition/evaluation/performance_metrics.py:64-65 | All cells together sum to the number of samples. |
| Confusion.ConfusionMatrixMarginals | ml_intuition/evaluation/performance_metrics.py:64-65 | Cells are non-negative; row i sums to the count of the i-th class among the true labels; the total is the number of samples. |
| Confusion.CountAtMostOccurrences | beetles/ml_intuition/evaluation/performance_metrics.py:22 | A diagonal cell never exceeds its row sum, so every recall is at most 1. |
| Confusion.OccurrencesZero | beetles/ml_intuition/evaluation/performance_metrics.py:22 | A row sum is 0 exactly when the class never occurs among the true labels. |
| PerformanceMetrics.MeanPerClassAccuracy | beetles/ml_intuition/evaluation/performance_metrics.py:13-22 | Fails exactly when the lengths differ, with LengthMismatch; otherwise it has one entry per observed class. |
| PerformanceMetrics.Quotient | beetles/ml_intuition/evaluation/performance_metrics.py:22 | NumPy's division of a diagonal cell by its row sum: NaN exactly when the row sum is 0, and a number in [0, 1] when the cell is at most a positive row sum. |
| PerformanceMetrics.MeanPerClassAccuracyIsRecall | beetles/ml_intuition/evaluation/performance_metrics.py:21-22 | Entry i is NaN exactly when class i never occurs among the true labels; otherwise it is that class's hits divided by its occurrences, a number in [0, 1]. |
| PerformanceMetrics.MeanPerClassAccuracyValue | beetles/ml_intuition/evaluation/performance_metrics.py:13-22 | As a metric value, the per-class accuracy fails exactly on a length mismatch, with LengthMismatch, and is otherwise a vector with one entry per observed class. |
| PerformanceMetrics.MeanPerClassAccuracyMetric | beetles/ml_intuition/evaluation/performance_metrics.py:43 | The list entry `mean_per_class_accuracy` is keyed by that name and raises exactly on a length mismatch. |
| PerformanceMetrics.Names | beetles/ml_intuition/evaluation/performance_metrics.py:34-36 | The names of a metric list, in list order. |
| PerformanceMetrics.Dedup | beetles/ml_intuition/evaluation/performance_metrics.py:34-36 | The keys of a dict built from a name list: distinct, the same names, and the list itself when the names are already distinct. |
| PerformanceMetrics.ComputeMetrics | beetles/ml_intuition/evaluation/performance_metrics.py:25-36 | A successful `compute_metrics` gives a well-formed report. |
| PerformanceMetrics.ComputeMetricsOutcome | beetles/ml_intuition/evaluation/performance_metrics.py:34-36 | `compute_metrics` succeeds exactly when every metric returns a value; otherwise it raises the error of the first metric in list order that raises, every metric before it having returned. |
| PerformanceMetrics.ComputeMetricsKeys | beetles/ml_intuition/evaluation/performance_metrics.py:34-36 | The keys are the metric names in the order of their first occurrence. |
| PerformanceMetrics.ComputeMetricsEntries | beetles/ml_intuition/evaluation/performance_metrics.py:34-36 | Each name holds the one-element list of the value of the last metric bearing that name. |
| PerformanceMetrics.ComputeMetricsDistinct | ml_intuition/evaluation/performance_metrics.py:34-36 | With distinct names, the keys are exactly the names in list order, and each holds `[f(y_true, y_pred)]`. |
| PerformanceMetrics.ClassKey | beetles/ml_intuition/evaluation/performance_metrics.py:69 | `'Class_' + str(i)` begins with a capital C. |
| PerformanceMetrics.ClassKeyInjective | beetles/ml_intuition/evaluation/performance_metrics.py:69 | Different indices give different per-class keys. |
| PerformanceMetrics.ClassKeys | beetles/ml_intuition/evaluation/performance_metrics.py:69-71 | The per-class keys for n classes, in index order. |
| PerformanceMetrics.ClassKeysSnoc | beetles/ml_intuition/evaluation/performance_metrics.py:69-71 | The keys for n + 1 classes extend the keys for n by a key not already among them. |
| PerformanceMetrics.PerClassEntries | beetles/ml_intuition/evaluation/performance_metrics.py:69-71 | The per-class dict comprehension is well formed, and its keys are `Class_0 .. Class_<n-1>` in order. |
| PerformanceMetrics.PerClassEntriesValues | beetles/ml_intuition/evaluation/performance_metrics.py:69-71 | `Class_<i>` holds `[vec[i]]`. |
| PerformanceMetrics.ExpandPerClass | beetles/ml_intuition/evaluation/performance_metrics.py:68-72 | Without the per-class key the report is unchanged. With it, the step succeeds exactly when the value is a one-element list holding a vector, fails otherwise with NotIterable, and yields a well-formed report. |
| PerformanceMetrics.PerClassExpansion | beetles/ml_intuition/evaluation/performance_metrics.py:68-72 | After the merge, the old keys come first and the new per-class keys follow in index order; `Class_<i>` holds `[vec[i]]`; other entries are unchanged; no other key appears. |
| PerformanceMetrics.ExpandClassFree | ml_intuition/evaluation/performance_metrics.py:55-59 | When no existing key begins with C, the new keys are exactly `Class_0 .. Class_<n-1>`, and every existing entry is kept. |
| PerformanceMetrics.PerClassStep | beetles/ml_intuition/evaluation/performance_metrics.py:68-74 | Without the per-class key the report comes back unchanged. With it, an entry that is not a one-element list of a vector fails with NotIterable; otherwise the result is the restructuring's outcome on the expanded report. |
| PerformanceMetrics.AllMetricsReport | beetles/ml_intuition/evaluation/performance_metrics.py:39-44 | With the default list and scorers that return, the report's keys are the three scorer names and then `mean_per_class_accuracy`, holding the scorer values and the per-class vector. |
| PerformanceMetrics.ScorerMetricsReport | beetles/ml_intuition/evaluation/performance_metrics.py:46-50 | The three-scorer list has no per-class metric, so its report has exactly the three scorer names as keys. |
| PerformanceMetrics.ScorerNamesClassFree | beetles/ml_intuition/evaluation/performance_metrics.py:39-44 | No default metric name can be mistaken for a per-class key. |
| BeetlesPerformanceMetrics.DefaultMetrics | beetles/ml_intuition/evaluation/performance_metrics.py:39-44 | `DEFAULT_METRICS` names the three scorers and then `mean_per_class_accuracy`, its last entry being the per-class metric. |
| BeetlesPerformanceMetrics.DefaultFairMetrics | beetles/ml_intuition/evaluation/performance_metrics.py:46-50 | `DEFAULT_FAIR_METRICS` names exactly the three scorers and leaves out the per-class metric. |
| IntuitionPerformanceMetrics.CustomMetrics | ml_intuition/evaluation/performance_metrics.py:39-44 | `CUSTOM_METRICS` names the three scorers and then `mean_per_class_accuracy`, its last entry being the per-class metric. |
| FairRecompute.Wrap | beetles/ml_intuition/evaluation/performance_metrics.py:85-86 | An accepted index selects a position on the axis; a negative index counts from the end. |
| FairRecompute.FilterMatrix | beetles/ml_intuition/evaluation/performance_metrics.py:85-86 | The filter fails with IndexOutOfBounds exactly when some label is outside an axis. Otherwise the result is `|labels|` × `|labels|`, and cell (a, b) is the original cell in the rows and columns the labels select. |
| FairRecompute.FilterAllClasses | beetles/ml_intuition/evaluation/performance_metrics.py:85-86 | Keeping every class of a square matrix, in order, returns the matrix unchanged. |
| FairRecompute.Clamp | beetles/ml_intuition/evaluation/performance_metrics.py:93 | `range(int(x))` runs `max(x, 0)` times: at least x, and either x or 0. |
| FairRecompute.Copies | beetles/ml_intuition/evaluation/performance_metrics.py:93-95 | `range(int(x))` appends `max(x, 0)` copies. |
| FairRecompute.RowPredictions | beetles/ml_intuition/evaluation/performance_metrics.py:92-94 | A row's predictions are column indices of the row, in non-decreasing order. |
| FairRecompute.PredictionStream | beetles/ml_intuition/evaluation/performance_metrics.py:92-98 | `y_pred` holds only column indices, so no negative value, and every row's contribution fits within it. |
| FairRecompute.TargetStream | beetles/ml_intuition/evaluation/performance_metrics.py:95-99 | The targets match the predictions in length, are row indices, and are non-decreasing. |
| FairRecompute.PredictionsInColumns | beetles/ml_intuition/evaluation/performance_metrics.py:92-94 | Every rebuilt prediction is a column index of the matrix. |
| FairRecompute.LexSortedAppend | beetles/ml_intuition/evaluation/performance_metrics.py:89-97 | Appending a row block with a larger target keeps the pairs sorted. |
| FairRecompute.StreamsSorted | beetles/ml_intuition/evaluation/performance_metrics.py:89-97 | The rebuilt pairs are sorted by target, and by prediction within each target. |
| FairRecompute.ExpandRow | beetles/ml_intuition/evaluation/performance_metrics.py:90-95 | The column loop and the inner counting loop yield the row's predictions, with as many row targets as predictions. |
| FairRecompute.Flatten | beetles/ml_intuition/evaluation/performance_metrics.py:98-99 | `np.concatenate` holds exactly the elements of its parts. |
| FairRecompute.ExpandMatrix | beetles/ml_intuition/evaluation/performance_metrics.py:87-99 | The nested loops and the concatenations yield the target and prediction streams; a matrix with no rows fails with NothingToConcatenate. |
| FairRecompute.CountAppend | beetles/ml_intuition/evaluation/performance_metrics.py:98-99 | Pair counts add up over concatenated streams. |
| FairRecompute.OccurrencesAppend | beetles/ml_intuition/evaluation/performance_metrics.py:98-99 | Occurrence counts add up over concatenated streams. |
| FairRecompute.CountUniformTargets | beetles/ml_intuition/evaluation/performance_metrics.py:95 | In a row block whose targets are all r, the pairs with target r count the predictions, and pairs with any other target are absent. |
| FairRecompute.OccurrencesCopies | beetles/ml_intuition/evaluation/performance_metrics.py:93-94 | n copies of x hold x `max(n, 0)` times and nothing else. |
| FairRecompute.OccurrencesRow | beetles/ml_intuition/evaluation/performance_metrics.py:92-94 | Column b occurs in a row's predictions as many times as the row's cell b says. |
| FairRecompute.StreamCounts | beetles/ml_intuition/evaluation/performance_metrics.py:89-97 | In the rebuilt streams, the number of samples (a, b) is the clamped cell (a, b), and 0 outside the matrix. |
| FairRecompute.RoundTripRow | beetles/ml_intuition/evaluation/performance_metrics.py:89-97 | Row a of the rebuilt confusion matrix over `0 .. n-1` equals row a of a non-negative square matrix. |
| FairRecompute.RoundTrip | beetles/ml_intuition/evaluation/performance_metrics.py:87-99 | The confusion matrix of the rebuilt streams over `0 .. n-1` equals the non-negative square matrix itself. |
| FairRecompute.FairRoundTrip | beetles/ml_intuition/evaluation/performance_metrics.py:85-99 | After keeping the training classes of a matrix with non-negative cells, the confusion matrix of the rebuilt streams over `0 .. n-1` is the kept sub-matrix. |
| FairRecompute.StreamLength | beetles/ml_intuition/evaluation/performance_metrics.py:87-99 | A rebuilt stream is as long as the sum of the clamped cells. |
| FairRecompute.RowPredictionsLength | beetles/ml_intuition/evaluation/performance_metrics.py:92-94 | A row contributes as many predictions as its clamped cells add up to. |
| BeetlesPerformanceMetrics.ModelMetrics | beetles/ml_intuition/evaluation/performance_metrics.py:53-74 | A successful `get_model_metrics` means every chosen metric returned a value; without the per-class metric, the result is the `compute_metrics` report itself; a metric's failure is the result; with the per-class metric in the list, the key is in the report and the result is NotIterable or the restructuring's outcome on the expanded report. |
| BeetlesPerformanceMetrics.GetModelMetrics | beetles/ml_intuition/evaluation/performance_metrics.py:53-74 | The step-by-step update of the local report yields `ModelMetrics`. |
| BeetlesPerformanceMetrics.DefaultModelMetrics | beetles/ml_intuition/evaluation/performance_metrics.py:63-73 | With no metric list, the result is the restructuring's outcome on a report keyed by the three scorers, `mean_per_class_accuracy`, and then `Class_0 .. Class_<n-1>` for the n observed classes; `Class_<i>` holds the recall of class i and the other entries are kept. |
| BeetlesPerformanceMetrics.GetFairModelMetrics | beetles/ml_intuition/evaluation/performance_metrics.py:77-101 | An out-of-axis label fails with IndexOutOfBounds; an empty label list fails with NothingToConcatenate. Otherwise the result is `compute_metrics` with the three scorers on the rebuilt streams, and its keys are exactly the three scorer names. |
| IntuitionPerformanceMetrics.WithInferenceTime | ml_intuition/evaluation/performance_metrics.py:53-54 | With no time the report is unchanged; with a time, `inference_time` holds `[t]` and is appended if new; every other entry is kept; no other key appears. |
| IntuitionPerformanceMetrics.ModelMetrics | ml_intuition/evaluation/performance_metrics.py:47-61 | A successful call means every chosen metric returned a value; without the per-class metric, the result is the `compute_metrics` report with the time recorded, or the metric's failure; with the per-class metric in the list, the key is in the timed report and the result is NotIterable or the restructuring's outcome on the expanded report. |
| IntuitionPerformanceMetrics.GetModelMetrics | ml_intuition/evaluation/performance_metrics.py:47-61 | The step-by-step update of the local report, including the time assignment, yields `ModelMetrics`. |
| IntuitionPerformanceMetrics.TimedDefaultReport | ml_intuition/evaluation/performance_metrics.py:49-54 | With the default list, the time goes after the four default keys, no key begins with C, and the per-class vector stays in place. |
| IntuitionPerformanceMetrics.DefaultModelMetrics | ml_intuition/evaluation/performance_metrics.py:47-61 | With no metric list, the result is the restructuring's outcome on a report with the four default keys, then `inference_time` exactly when a time is given, then `Class_0 .. Class_<n-1>`. `Class_<i>` holds the recall of class i, and every earlier entry is kept. |
| IntuitionPerformanceMetrics.GetConfusionMatrix | ml_intuition/evaluation/performance_metrics.py:64-65 | The call fails exactly when the lengths differ. Otherwise the cells are the pair counts over the observed classes, row i sums to the count of class i among the true labels, and all cells sum to the number of samples. |
| IntuitionPerformanceMetrics.GetFairModelMetrics | ml_intuition/evaluation/performance_metrics.py:68-85 | The same failures as the other copy. Otherwise the result is `compute_metrics` with `CUSTOM_METRICS[:-1]`, that is the three scorers, on the rebuilt streams; its keys are exactly the three scorer names, so it has no `inference_time` and no `Class_<i>` key. |
| WorkedExamples.TwoClasses | beetles/ml_intuition/evaluation/performance_metrics.py:21 | The only class list holding exactly the labels 0 and 1 is `[0, 1]`. |
| WorkedExamples.ExampleOneMatrix | beetles/ml_intuition/evaluation/performance_metrics.py:21 | For `y_true = [0, 0, 1, 1]` and `y_pred = [0, 1, 1, 1]` the confusion matrix is `[[1, 1], [0, 2]]`. |
| WorkedExamples.ExampleOneAccuracy | beetles/ml_intuition/evaluation/performance_metrics.py:21-22 | For the same streams the per-class accuracy is `[0.5, 1.0]`. |
| WorkedExamples.ExampleTwoFilter | beetles/ml_intuition/evaluation/performance_metrics.py:85-86 | Keeping classes 0 and 2 of `[[10, 0, 2], [1, 4, 0], [0, 0, 3]]` gives `[[10, 2], [0, 3]]`. |
| WorkedExamples.ExampleTwoTotals | beetles/ml_intuition/evaluation/performance_metrics.py:87-97 | The rows of `[[10, 2], [0, 3]]` contribute 12 and 3 samples. |
| WorkedExamples.ExampleTwoLength | beetles/ml_intuition/evaluation/performance_metrics.py:87-99 | The streams rebuilt from `[[10, 2], [0, 3]]` hold 15 samples. |

## Left out

- The scikit-learn scorers `accuracy_score`, `balanced_accuracy_score` and `cohen_kappa_score` are uninterpreted functions. Nothing is stated about their values beyond their place in the report.
- `utils.restructure_per_class_accuracy`: `ml_intuition/data/utils.py` is not part of this model. The restructuring is a function parameter that returns a report or an error, with no other assumed properties.
- BeetlesPerformanceMetrics.DefaultModelMetrics: the keys and values are stated for the report handed to the restructuring step, not for the returned report, because the restructuring is uninterpreted.
- IntuitionPerformanceMetrics.DefaultModelMetrics: states the report before restructuring only, for the same reason.
- Floating point: ratios are exact reals, and 0/0 is the explicit `NaN` value. NumPy's warnings are not modelled.
- Matrix cells are integers. `int(cell)` truncating a float cell is not modelled; negative cells give no samples, as `range` does.
- Confusion matrices are rectangular, as every two-dimensional NumPy array is. Ragged rows are outside the model: the fair-path methods require rectangularity.
- Labels are integers. NumPy boolean masks and non-integer index arrays are not modelled.
- PerformanceMetrics.ExpandPerClass: a per-class entry that is not a one-element list of a vector fails with NotIterable. `enumerate(*value)` over a longer list would treat the second element as a start index. This cannot arise, because `compute_metrics` only builds one-element lists.
- FairRecompute.RoundTrip: stated over the explicit classes `0 .. n-1`. scikit-learn indexes its matrix by the sorted labels that occur. The two coincide only when every kept class occurs in the rebuilt streams, that is, each row or column of the kept matrix has a positive cell.
- scikit-learn's input validation beyond the length check is not modelled: target-type detection, `labels`, `sample_weight` and `normalize`.
- `beetles/scripts/inference_runner.py`: experiment tracking, file layout, data preparation, session handling and the command line.
- `ml_intuition/data/io.py`: file and model I/O.
- `scripts/evaluate_model.py`: model loading, transforms, noise injection and file output. Its report assembly repeats `get_model_metrics`, including adding and then deleting a `confusion_matrix` key.
- `utils.py`: reflection-based type checking and dataset loading.
