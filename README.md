# Coffee-leaf classifier training: a Dafny model

This project models the discrete logic of the training script for the two
coffee-leaf classifiers: the entire-leaf classifier, which predicts disease and
severity, and the lesion-spot classifier, which predicts disease. It covers:

- **the imbalance-aware sampler** (`sampler`). Each example gets a draw weight
  inversely proportional to the size of its class. For the entire-leaf set the
  class is the (disease, severity) cell on the 5 x 5 grid, and the cell size is
  smoothed by a balance factor of 20. The weights are then normalised to sum to 1.
- **mixup-aware accuracy** (`eval_metrics`).
- **the step learning-rate schedule** (`adjust_learning_rate`).
- **the size-weighted epoch averages** of both classifiers' `train` and
  `validation` loops.
- **the per-epoch bookkeeping of `run_training`**. The record holds one list per
  metric and split. The "keep best" checkpoint policy acts on the validation
  loss, and the record is pickled after every epoch.
- **the parameter count** (`get_n_params`).

Floating-point values are exact reals. The networks, loss functions,
augmentations and data loaders are outside the model. What they produce (a
batch's losses, predictions and labels, an epoch's metrics, a parameter's shape)
is an input.

Modules, one per file:

| file | module | models |
|---|---|---|
| wrappers.dfy | `Wrappers` | `Option` and `Result` |
| config.dfy | `Config` | the command-line options the logic reads, and the metric-dictionary keys |
| sums.dfy | `RealSums` | sums and the size-weighted sum a batch loop keeps |
| metrics.dfy | `Metrics` | `accuracy_score` and `eval_metrics` |
| sampler.dfy | `Sampling` | `sampler`: the two in-place weight fills (array methods), normalisation, the error cases |
| schedule.dfy | `Schedule` | `adjust_learning_rate`, the optimiser's param groups (a class over an array), and the schedule's defects |
| averaging.dfy | `Averaging` | the batch loops of `train` and `validation` for both classifiers |
| recorder.dfy | `Recorder` | the `record` dictionary and `best_loss` (a class), the checkpoint policy, and the pickled log |
| training.dfy | `Training` | the epoch loop of `run_training` |
| params.dfy | `Parameters` | `get_n_params` (nested loops) |

## Model

| member | source | states |
|---|---|---|
| Sampling.Count | classifier/classifiers-backup.py:67 | a count never exceeds the length of the sequence, and it is positive exactly when the label occurs |
| Sampling.CountIsIndexSetSize | classifier/classifiers-backup.py:67-69 | the count of a label is the number of indices `np.where` returns for it |
| Sampling.SingleLabelWeights | classifier/classifiers-backup.py:74-82 | there is one pre-normalisation weight per example, `total / count(t)` |
| Sampling.SingleLabelWeightOrder | classifier/classifiers-backup.py:79-82 | every weight is positive; examples of one class share a weight; an example of a smaller class gets a strictly larger one |
| Sampling.InverseFrequencySum | classifier/classifiers-backup.py:79-82 | the inverse frequencies add up to the same mass for every distinct label |
| Sampling.SingleLabelWeightsSum | classifier/classifiers-backup.py:77-85 | the single-label weights sum to the number of distinct classes times the set size |
| Sampling.JointWeightOrder | classifier/classifiers-backup.py:63-70 | an example off the 5 x 5 grid keeps weight 0; one on the grid has a weight in (0, total/20); examples of one cell share a weight; a smaller cell gets a strictly larger weight |
| Sampling.JointWeightsMass | classifier/classifiers-backup.py:63-70 | the joint weights have non-negative mass, and the mass is positive exactly when some example lies on the grid |
| Sampling.Normalised | classifier/classifiers-backup.py:85 | normalising keeps one weight per example |
| Sampling.NormalisedIsDistribution | classifier/classifiers-backup.py:85 | normalising non-negative weights of positive mass gives non-negative weights that sum to 1 |
| Sampling.NormalisedTimesMass | classifier/classifiers-backup.py:85 | a normalised weight times the mass is the raw weight |
| Sampling.ClassShare | classifier/classifiers-backup.py:82-85 | the normalised weight of an example in a class of n among k classes is positive |
| Sampling.ClassMass | classifier/classifiers-backup.py:82-85 | the n examples of a class together get 1/k of the mass, whatever n is |
| Sampling.ClassShareOrder | classifier/classifiers-backup.py:82-85 | after normalisation an example of a smaller class still weighs strictly more |
| Sampling.SingleLabelNormalised | classifier/classifiers-backup.py:74-85 | after normalisation an example of class t weighs (1/K)/count(t), where K is the number of classes |
| Sampling.SingleLabelMass | classifier/classifiers-backup.py:77-85 | a non-empty lesion-spot set has positive mass, K times its size |
| Sampling.NormalisedInverseFrequency | classifier/classifiers-backup.py:82-85 | normalising inverse frequencies of any positive mass per label gives inverse frequencies of mass 1/K |
| Sampling.InverseOfRatio | classifier/classifiers-backup.py:70 | `1 / (a / b)`, as the source writes the weight, is `b / a` |
| Sampling.FillJointWeights | classifier/classifiers-backup.py:63-70 | the nested loop over the 25 cells leaves the zeroed array equal to the joint weights |
| Sampling.FillSingleLabelWeights | classifier/classifiers-backup.py:77-82 | the loop over the distinct labels leaves the zeroed array equal to the single-label weights |
| Sampling.LeastRemaining | classifier/classifiers-backup.py:79 | it returns the smallest label not yet handled (the ascending order of `np.unique`), or none exactly when every label is handled |
| Sampling.Sampler | classifier/classifiers-backup.py:53-88 | ZeroDivisionError exactly for an empty entire-leaf set; NaN weights exactly when a non-empty set has zero mass; otherwise one draw per example, weights equal to the normalised raw weights, non-negative and summing to 1 |
| Sampling.RawWeightsMass | classifier/classifiers-backup.py:63-85 | the raw weights are non-negative, one per example, and their mass is zero exactly for an empty set or an entire-leaf set with no example on the grid |
| Metrics.Matches | classifier/classifiers-backup.py:94 | the number of agreeing positions is at most the number of labels |
| Metrics.MatchesCountsAgreement | classifier/classifiers-backup.py:94 | the count is the size of the set of positions where prediction equals label |
| Metrics.MatchesExtremes | classifier/classifiers-backup.py:94 | the count is full exactly when every prediction is right, and zero exactly when every prediction is wrong |
| Metrics.MatchesAppend | classifier/classifiers-backup.py:604-607 | counting over two concatenated batches adds the two counts |
| Metrics.Accuracy | classifier/classifiers-backup.py:94 | accuracy lies in [0, 1] |
| Metrics.AccuracyCounts | classifier/classifiers-backup.py:94 | accuracy times the number of labels is the number of matches; it is 1 exactly when all are right and 0 exactly when all are wrong |
| Metrics.AccuracyWeightedCount | classifier/classifiers-backup.py:249-251 | adding accuracy times batch size to a running count adds the batch's number of correct predictions |
| Metrics.BlendBetween | classifier/classifiers-backup.py:98 | a blend with lambda in [0, 1] lies between the two accuracies |
| Metrics.EvalMetrics | classifier/classifiers-backup.py:90-100 | a value is returned exactly when the metric is 'acc' |
| Metrics.EvalMetricsRange | classifier/classifiers-backup.py:90-100 | without mixup the value is the accuracy; with lambda in [0, 1] it lies between the two accuracies and in [0, 1]; lambda 1 or 0, or identical label vectors, give back a plain accuracy |
| RealSums.SizeWeightedSnoc | classifier/classifiers-backup.py:238-242 | one more batch adds its value times its size to the running total |
| RealSums.SumNonNegative | classifier/classifiers-backup.py:85 | a sum of non-negative weights is non-negative, and zero exactly when every weight is |
| RealSums.SumDivided | classifier/classifiers-backup.py:85 | dividing every weight by d divides their sum by d |
| RealSums.EqualSizesGiveMean | classifier/classifiers-backup.py:238-266 | with equal batch sizes, the size-weighted sum divided by the number of examples is the plain mean of the batch values |
| RealSums.SizeWeightedSumBounds | classifier/classifiers-backup.py:247-264 | batch values in [0, 1] weighted by size sum to between 0 and the number of examples |
| Schedule.RoundHalfEven | classifier/classifiers-backup.py:105 | Python's `round`: the result is within half a unit of the quotient, and a tie goes to the even neighbour |
| Schedule.StepClosedForm | classifier/classifiers-backup.py:105 | `round(epochs / 5)` is `(epochs + 2) div 5`, since no tie can arise |
| Schedule.ScheduledLrDefinedIff | classifier/classifiers-backup.py:105-108 | the lookup succeeds exactly when the step is positive and epoch < 5 * step; a zero step raises ZeroDivisionError, otherwise the failure is IndexError |
| Schedule.ScheduledLrValues | classifier/classifiers-backup.py:104-108 | every rate the schedule sets is one of `lr_values`, and epoch 0 gets 0.01 |
| Schedule.ScheduledLrNonIncreasing | classifier/classifiers-backup.py:104-108 | if a later epoch has a rate, so does every earlier one, and the rate never increases |
| Schedule.RunScheduleDefinedIff | classifier/classifiers-backup.py:105-108 | every epoch of a run gets a rate exactly when epochs mod 5 is neither 1 nor 2 |
| Schedule.IndexOverrunAtTwelveEpochs | classifier/classifiers-backup.py:107-108 | with 12 epochs the step is 2, and epoch 10 indexes one past `lr_values` |
| Schedule.ZeroStepAtTwoEpochs | classifier/classifiers-backup.py:105-107 | with 2 epochs the step is 0, and epoch 0 divides by it |
| Schedule.CorrectedLr | classifier/classifiers-backup.py:104-108 | the corrected schedule always yields one of `lr_values` |
| Schedule.CorrectedLrAgrees | classifier/classifiers-backup.py:104-108 | wherever the written schedule is defined, the corrected one gives the same rate |
| Schedule.CorrectedLrNonIncreasing | classifier/classifiers-backup.py:104-108 | the corrected schedule starts at 0.01 and never increases |
| Schedule.Optimizer.constructor | classifier/classifiers-backup.py:341-344 | a new optimiser holds SGD's 0.01 or Adam's 0.001 in every param group |
| Schedule.AdjustLearningRate | classifier/classifiers-backup.py:102-113 | Adam is left unchanged; SGD either raises the schedule's error and writes nothing, or writes the scheduled rate into every param group |
| Averaging.ReportedAgainstBackprop | classifier/classifiers-backup.py:222-242 | the reported loss is the back-propagated one, except in multitask mode, where it is half the back-propagated sum and lies between the two head losses |
| Averaging.HeadAccuracyBounds | classifier/classifiers-backup.py:247-260 | a head's batch accuracy lies in [0, 1] when lambda does |
| Averaging.PerExample | classifier/classifiers-backup.py:262-266 | the closing loop over the dictionary keeps its keys |
| Averaging.LeafSumsSnocByKey | classifier/classifiers-backup.py:236-260 | one more batch adds its weighted loss to the loss entry and, only with CUDA, its weighted accuracies to the accuracy entries |
| Averaging.LeafSumsSnoc | classifier/classifiers-backup.py:236-260 | the same, as the dictionary update the loop body performs |
| Averaging.SumLeafBatches | classifier/classifiers-backup.py:186-260 | the batch loop leaves the dictionary equal to the size-weighted sums of the batch losses and (with CUDA) accuracies, with the accuracies at 0 without CUDA |
| Averaging.EntireLeafEpoch | classifier/classifiers-backup.py:186-268 | ZeroDivisionError exactly for an empty dataset; otherwise the accuracies become percent and every entry is divided by the dataset size |
| Averaging.EntireLeafTrain | classifier/classifiers-backup.py:182-268 | the training epoch, scored against the mixup labels exactly when the augmentation is mixup |
| Averaging.EntireLeafValidation | classifier/classifiers-backup.py:270-316 | the validation epoch, scored against the plain labels |
| Averaging.EntireLeafEpochBounds | classifier/classifiers-backup.py:238-266 | when the batches cover the dataset, each accuracy lies in [0, 100], and with equal batch sizes the loss is the plain mean of the batch losses |
| Averaging.LeafAccuracyColumnBounds | classifier/classifiers-backup.py:247-260 | the size-weighted batch accuracies sum to between 0 and the number of images |
| Averaging.WeightedAccuracyCountsMatches | classifier/classifiers-backup.py:249-251 | without mixup, the size-weighted accuracies are the number of correct predictions over all batches |
| Averaging.EntireLeafAccuracyIsPooled | classifier/classifiers-backup.py:299-312 | without mixup and with CUDA, the epoch disease accuracy is 100 times the accuracy over all images of the epoch |
| Averaging.PercentOfAccuracy | classifier/classifiers-backup.py:312 | the match count over the dataset, in percent, is 100 times the accuracy |
| Averaging.LesionSpotTrain | classifier/classifiers-backup.py:504-576 | ZeroDivisionError exactly for an empty dataset; otherwise the loss is the size-weighted sum over the dataset size, and the accuracy is 100 * correct / total after the last batch, where correct counts only with CUDA and 0 before any batch |
| Averaging.LesionSpotValidation | classifier/classifiers-backup.py:578-623 | the same loss; the accuracy is 100 * matches / total over all batches, whatever the device |
| Averaging.SpotAccuraciesAgree | classifier/classifiers-backup.py:556-611 | without mixup, the training accuracy counts exactly the matches the validation loop counts |
| Recorder.SeriesKeys | classifier/classifiers-backup.py:354-359 | the entire-leaf record has exactly the six lists `train_loss`, `val_loss`, `train_dis_acc`, `val_dis_acc`, `train_sev_acc`, `val_sev_acc`, and the lesion-spot record (lines 661-664) exactly the four lists `train_loss`, `val_loss`, `train_acc`, `val_acc`: one per split and metric the classifier reports |
| Recorder.PolicyStep | classifier/classifiers-backup.py:384-391 | one more epoch replaces the best loss and logs a save exactly when the epoch improves on it |
| Recorder.BestLossIsMinimum | classifier/classifiers-backup.py:361-391 | `best_loss` is at most 1000.0 and at most every validation loss from epoch 5 on, and equal to one of them unless it is still 1000.0 |
| Recorder.BestLossNonIncreasing | classifier/classifiers-backup.py:384-391 | `best_loss` never increases from one epoch to a later one |
| Recorder.SavedIffImproves | classifier/classifiers-backup.py:384-391 | an epoch is saved exactly when it improves on the best loss of the epochs before it |
| Recorder.SavesBelowLength | classifier/classifiers-backup.py:384-391 | the saved epochs are increasing and all are epochs that ran |
| Recorder.SavedIff | classifier/classifiers-backup.py:384-391 | epoch e is saved exactly when e >= 5, its loss is below 1000.0, and its loss is strictly below every earlier validation loss from epoch 5 on |
| Recorder.NoSaveDuringWarmUp | classifier/classifiers-backup.py:386 | no save happens at epochs 0-4 |
| Recorder.LastSaveIsBest | classifier/classifiers-backup.py:384-391 | the last saved epoch holds the best loss; with no save, the best loss is still 1000.0 |
| Recorder.SavedLossesDecrease | classifier/classifiers-backup.py:384-391 | each save holds a strictly smaller validation loss than every earlier save |
| Recorder.ColumnAppend | classifier/classifiers-backup.py:376-382 | recording an epoch appends exactly its value to a list |
| Recorder.ColumnsAppend | classifier/classifiers-backup.py:376-382 | recording an epoch appends exactly its value to every list of the classifier |
| Recorder.DumpsAppend | classifier/classifiers-backup.py:393-396 | after one more dump, dump i is still the record as it stood after epoch i |
| Recorder.RecordStep | classifier/classifiers-backup.py:375-396 | appending the rows, applying the checkpoint policy and dumping the record keeps the record consistent |
| Recorder.TrainingRecord.constructor | classifier/classifiers-backup.py:346-361 | the record starts with the hyperparameters, empty lists, `best_loss` 1000.0, no saves and no dumps |
| Recorder.TrainingRecord.RecordEpoch | classifier/classifiers-backup.py:375-396 | every list gains exactly the epoch's value; `best_loss` and the saves follow the policy; the record is dumped; the record stays consistent |
| Training.CompletedEpochs | classifier/classifiers-backup.py:363-373 | a run never records more epochs than it asks for |
| Training.CompletedEpochsIff | classifier/classifiers-backup.py:363-373 | epoch e is recorded exactly when the optimiser is Adam or the schedule has a rate for e |
| Training.RunCompletesIff | classifier/classifiers-backup.py:363-373 | a run records every epoch exactly when the optimiser is Adam or epochs mod 5 is neither 1 nor 2 |
| Training.LrAfterRecorded | classifier/classifiers-backup.py:341-373 | after the recorded epochs Adam holds 0.001; SGD holds the rate the schedule set at the last recorded epoch, which is also the corrected schedule's rate |
| Training.EpochStep | classifier/classifiers-backup.py:372-396 | an epoch either raises the schedule's error and changes nothing, or sets the next learning rate and records exactly the epoch's rows |
| Training.RunTraining | classifier/classifiers-backup.py:341-396 | the record holds exactly the rows of the completed epochs and stays consistent; each of its lists holds one value per completed epoch, element i being epoch i's train or validation metric; the run succeeds exactly when every epoch completed, and otherwise returns the error of the first failing epoch; the optimiser holds the rate of the last completed epoch |
| Parameters.GetNParams | classifier/classifiers-backup.py:487-495 | the nested loop returns the sum over the parameters of the product of their dimensions |
| Parameters.NumelZeroIff | classifier/classifiers-backup.py:491-493 | a tensor has no elements exactly when one of its dimensions is 0 |
| Parameters.NumelAppend | classifier/classifiers-backup.py:491-493 | joining two shapes multiplies their element counts |
| Parameters.TotalParamsAppend | classifier/classifiers-backup.py:489-494 | the count over two parameter lists is the sum of their counts |
| Parameters.TotalParamsBounds | classifier/classifiers-backup.py:489-494 | the total is at least each tensor's count, and it is 0 exactly when every tensor has a zero dimension |
| Parameters.TotalParamsAtLeastCount | classifier/classifiers-backup.py:489-494 | with no zero dimension, the total is at least the number of parameter tensors |

The two classifiers share one model of their `run_training` loops, their
records and their parameter counts. `ClassifierKind` selects the metrics each
records: `Recorder.MetricKeys`, for lines 653-664 of the lesion-spot copy. The
lesion-spot copy of the epoch loop (lines 668-700) and of `get_n_params`
(lines 764-772) are the same code as the entire-leaf ones cited above.

## Left out

- The networks, `cnn_model`, device placement, the loss functions, `backward`, gradient clipping and `optimizer.step` are not modelled. A batch's losses, predicted classes and labels are inputs.
- `torch.cuda.is_available()` is a boolean input (`cuda`). In the lesion-spot validation loop it is written without parentheses, so the test is always true; both branches count the same matches, so the model counts them unconditionally.
- `between_class`, `mixup_data` and `mixup_criterion` are not part of this model. Their labels and lambda come with the batch. The `bc+` labels are whatever the batch carries as labels.
- `data_loader`, the datasets and the image transforms are not modelled. The sampler takes the label columns of the training set, and the epoch loops take the batches and the dataset size.
- `WeightedRandomSampler` is reduced to the weights and the number of draws it is built from. The random drawing and torch's own argument checks, such as its refusal of zero draws, are not modelled.
- Sampling.Sampler: numpy turns the 0/0 of an all-zero entire-leaf weight vector into NaN weights without raising. The model reports that case as an error value instead of carrying NaNs.
- Sampling.Sampler: the entire-leaf dataset's `data` is taken to be a two-dimensional array even when the dataset is empty, so that an empty set reaches the division by `total` (line 70). Were it an empty one-dimensional array, the column index `data[:,1]` (line 59) would raise IndexError first. The dataset class is not part of this model.
- `torch.save`, `pickle.dump` and the log files are ghost logs in `TrainingRecord`: the saved epochs and the record as dumped after each epoch. `torch.load` in `get_n_params` is replaced by the list of parameter shapes.
- The record's per-metric lists are stored as the per-epoch rows of train and validation metrics. `TrainingRecord.Series` reads a list back from them as a column.
- Training.RunTraining: the metrics each epoch's `train` and `validation` would return are inputs, and so is their output. At the epoch where `adjust_learning_rate` raises, the source has already run that epoch's training and validation; the model does not describe those side effects. It only states that nothing is recorded for that epoch.
- `print_info`, the progress bar and every other console output are not modelled.
- `run_test`, precision, recall, F1, the confusion matrix, the results CSV and the plots are not part of this model.
- Floating point is exact real arithmetic. Rounding of the float `epochs / 5` cannot create a tie, because 5 is odd.
- Integers are unbounded. Python's are too, and parameter counts fit in 64 bits in practice.

## Findings

| source | as written | input that shows it | evidently intended | confidence | as-written member | corrected member |
|---|---|---|---|---|---|---|
| classifier/classifiers-backup.py:107-108 | `idx = min(floor(epoch / step), len(lr_values))` caps the index at 5, one past the last rate | 12 epochs with SGD: step 2, and epoch 10 gives index 5, so `lr_values[5]` raises IndexError and training stops | cap the index at `len(lr_values) - 1`, so the last rate holds until the end | high; not executed | Schedule.IndexOverrunAtTwelveEpochs | Schedule.CorrectedLrAgrees |
| classifier/classifiers-backup.py:105-107 | `step = round(epochs / 5)` is 0 for runs of 1 or 2 epochs | 2 epochs with SGD: step 0, and epoch 0 evaluates `epoch / 0` and raises ZeroDivisionError | a step of at least one epoch | high; not executed | Schedule.ZeroStepAtTwoEpochs | Schedule.CorrectedLrNonIncreasing |

`Schedule.CorrectedLr` is the corrected schedule. `Schedule.CorrectedLrAgrees`
proves it equals the written one wherever the written one is defined.
`Schedule.CorrectedLrNonIncreasing` proves it starts at 0.01 and never
increases. `Training.LrAfterRecorded` proves that every rate the training loop
records is the corrected schedule's rate. The training loop itself follows the
code as written: a run with epochs mod 5 equal to 1 or 2 stops at the failing
epoch (`Training.RunCompletesIff`).
