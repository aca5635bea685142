/**
 * `run_training`: the epoch loop that trains, validates, adjusts the learning
 * rate and records each epoch, for either classifier. The networks, data
 * loaders and losses are outside the model: the metrics each epoch's `train`
 * and `validation` return are inputs, one map per epoch.
 */
module Training {
  import opened Wrappers
  import opened Config
  import opened Schedule
  import opened Recorder

  /**
   * How many epochs `run_training` records before `adjust_learning_rate`
   * raises: all of them with Adam; with SGD none when the step is zero, and
   * otherwise those before the schedule runs past its last rate.
   */
  function CompletedEpochs(kind: OptimizerKind, epochs: int): (n: nat)
    ensures n <= MaxInt(epochs, 0)
  {
    if epochs <= 0 then 0
    else if kind == Adam then epochs
    else if Step(epochs) <= 0 then 0
    else MinInt(epochs, 5 * Step(epochs))
  }

  /** Epoch `e` is recorded exactly when the optimiser is Adam or the schedule has a rate for it. */
  lemma {:induction false} CompletedEpochsIff(kind: OptimizerKind, epochs: int, e: nat)
    requires e < epochs
    ensures e < CompletedEpochs(kind, epochs) <==> kind == Adam || ScheduledLr(e, epochs).Ok?
  {
    ScheduledLrDefinedIff(e, epochs);
  }

  /**
   * A run records every epoch exactly when the optimiser is Adam or the
   * number of epochs is not 1 or 2 modulo 5.
   */
  lemma {:induction false} RunCompletesIff(kind: OptimizerKind, epochs: int)
    requires epochs > 0
    ensures CompletedEpochs(kind, epochs) == epochs <==> kind == Adam || (epochs % 5 != 1 && epochs % 5 != 2)
  {
    RunScheduleDefinedIff(epochs);
    if kind == Sgd {
      if CompletedEpochs(kind, epochs) == epochs {
        forall e: nat | e < epochs ensures ScheduledLr(e, epochs).Ok? {
          CompletedEpochsIff(kind, epochs, e);
        }
      } else {
        CompletedEpochsIff(kind, epochs, CompletedEpochs(kind, epochs));
      }
    }
  }

  /**
   * The learning rate the optimiser holds after `done` epochs of the loop:
   * the initial one, replaced at each epoch by the scheduled rate when the
   * optimiser is SGD and the schedule has a rate for that epoch.
   */
  function LrAfter(kind: OptimizerKind, done: nat, epochs: int): real
    requires done == 0 || done <= epochs
  {
    if done == 0 then InitialLr(kind)
    else if kind == Sgd && ScheduledLr(done - 1, epochs).Ok? then ScheduledLr(done - 1, epochs).value
    else LrAfter(kind, done - 1, epochs)
  }

  /**
   * After `done` recorded epochs, Adam still holds its initial rate, and SGD
   * holds the rate the schedule set at the last recorded epoch, which is also
   * the corrected schedule's rate for that epoch.
   */
  lemma {:induction false} LrAfterRecorded(kind: OptimizerKind, done: nat, epochs: int)
    requires done <= CompletedEpochs(kind, epochs)
    ensures kind == Adam || done == 0 ==> LrAfter(kind, done, epochs) == InitialLr(kind)
    ensures kind == Sgd && done > 0 ==> ScheduledLr(done - 1, epochs) == Ok(LrAfter(kind, done, epochs))
    ensures kind == Sgd && done > 0 ==> LrAfter(kind, done, epochs) == CorrectedLr(done - 1, epochs)
  {
    if done > 0 {
      LrAfterRecorded(kind, done - 1, epochs);
      CompletedEpochsIff(kind, epochs, done - 1);
      if kind == Sgd {
        CorrectedLrAgrees(done - 1, epochs);
      }
    }
  }

  /** A prefix one longer is the shorter prefix and the next element. */
  lemma SliceExtends<T>(s: seq<T>, i: nat)
    requires i < |s|
    ensures s[..i + 1] == s[..i] + [s[i]]
  {
  }

  /**
   * One pass of the epoch loop once `train` and `validation` have returned:
   * adjust the learning rate and, unless that raises, record the epoch.
   */
  method EpochStep(
    record: TrainingRecord, optimizer: Optimizer,
    train: seq<map<MetricKey, real>>, val: seq<map<MetricKey, real>>, epoch: nat, epochs: int)
    returns (r: Result<(), LrError>)
    requires epoch < epochs && epoch < |train| == |val|
    requires Reports(record.kind, train) && Reports(record.kind, val)
    requires record.Valid() && record.trainRows == train[..epoch] && record.valRows == val[..epoch]
    requires optimizer.groupLr.Length == 1 && optimizer.groupLr[0] == LrAfter(optimizer.kind, epoch, epochs)
    modifies record, optimizer.groupLr
    ensures r.Ok? <==> epoch < CompletedEpochs(optimizer.kind, epochs)
    ensures r.Err? ==> ScheduledLr(epoch, epochs) == Err(r.error) && unchanged(record) && unchanged(optimizer.groupLr)
    ensures r.Ok? ==> record.Valid() && record.trainRows == train[..epoch + 1] && record.valRows == val[..epoch + 1]
    ensures r.Ok? ==> optimizer.groupLr[0] == LrAfter(optimizer.kind, epoch + 1, epochs)
  {
    CompletedEpochsIff(optimizer.kind, epochs, epoch);
    r := AdjustLearningRate(optimizer, epoch, epochs);
    if r.Err? {
      return;
    }
    SliceExtends(train, epoch);
    SliceExtends(val, epoch);
    record.RecordEpoch(epoch, train[epoch], val[epoch]);
  }

  /**
   * `run_training`: a fresh optimiser (SGD at 0.01, Adam at 0.001, one param
   * group) and a fresh record; then for each epoch the learning rate is
   * adjusted and, unless that raises, the epoch is recorded. The run stops at
   * the first error, which it returns.
   */
  method RunTraining(
    kind: ClassifierKind, hyper: Hyperparameters,
    train: seq<map<MetricKey, real>>, val: seq<map<MetricKey, real>>)
    returns (record: TrainingRecord, optimizer: Optimizer, r: Result<(), LrError>)
    requires |train| == |val| && hyper.epochs <= |train|
    requires Reports(kind, train) && Reports(kind, val)
    ensures fresh(record) && fresh(optimizer) && fresh(optimizer.groupLr)
    ensures record.Valid() && record.kind == kind && record.hyper == hyper
    ensures optimizer.kind == hyper.optimizer && optimizer.groupLr.Length == 1
    ensures var n := CompletedEpochs(hyper.optimizer, hyper.epochs);
      && record.trainRows == train[..n] && record.valRows == val[..n]
      && (r.Ok? <==> n == MaxInt(hyper.epochs, 0))
      && (r.Err? ==> n < hyper.epochs && ScheduledLr(n, hyper.epochs) == Err(r.error))
      && optimizer.groupLr[0] == LrAfter(hyper.optimizer, n, hyper.epochs)
    ensures var n := CompletedEpochs(hyper.optimizer, hyper.epochs);
      forall k :: k in SeriesKeys(kind) ==>
        && |record.Series(k)| == n
        && forall i :: 0 <= i < n ==> record.Series(k)[i] == EpochValue(k, train[i], val[i])
  {
    var epochs := hyper.epochs;
    optimizer := new Optimizer(hyper.optimizer, 1);
    record := new TrainingRecord(kind, hyper);
    ghost var n := CompletedEpochs(hyper.optimizer, epochs);
    var epoch := 0;
    while epoch < epochs
      invariant epoch <= n && epoch <= |train|
      invariant fresh(record) && fresh(optimizer) && fresh(optimizer.groupLr)
      invariant record.Valid() && record.kind == kind && record.hyper == hyper
      invariant record.trainRows == train[..epoch] && record.valRows == val[..epoch]
      invariant optimizer.kind == hyper.optimizer && optimizer.groupLr.Length == 1
      invariant optimizer.groupLr[0] == LrAfter(hyper.optimizer, epoch, epochs)
    {
      r := EpochStep(record, optimizer, train, val, epoch, epochs);
      if r.Err? {
        assert epoch == n;
        return;
      }
      epoch := epoch + 1;
    }
    assert epoch == n;
    r := Ok(());
  }
}
