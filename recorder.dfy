/**
 * The per-epoch bookkeeping of `run_training`: the `record` dictionary with
 * its fixed hyperparameter entries and one list per metric and split, the
 * "keep best" checkpoint policy on the validation loss, and the pickled log
 * that is rewritten after every epoch.
 */
module Recorder {
  import opened Config

  /** `best_loss = 1000.0` before the first epoch. */
  const InitialBestLoss: real := 1000.0

  /** Checkpoints are only considered from epoch 5 on (`epoch >= 5`). */
  const WarmUpEpochs: nat := 5

  /** The two classifiers, which record different metrics. */
  datatype ClassifierKind = EntireLeaf | LesionSpot

  /** Which loop a recorded list comes from. */
  datatype Split = Train | Val

  /** The name of one per-epoch list of the record: `train_loss`, `val_dis_acc`, ... */
  datatype SeriesKey = SeriesKey(split: Split, metric: MetricKey)

  /** The metrics each classifier's `train` and `validation` return. */
  function MetricKeys(kind: ClassifierKind): set<MetricKey>
  {
    match kind
    case EntireLeaf => {Loss, DisAcc, SevAcc}
    case LesionSpot => {Loss, Acc}
  }

  /**
   * The per-epoch lists of a classifier's record: one per split and metric,
   * that is `train_loss`, `val_loss`, `train_dis_acc`, `val_dis_acc`,
   * `train_sev_acc`, `val_sev_acc` for the entire-leaf classifier and
   * `train_loss`, `val_loss`, `train_acc`, `val_acc` for the lesion-spot one.
   */
  function SeriesKeys(kind: ClassifierKind): (keys: set<SeriesKey>)
    ensures forall k :: k in keys <==> k.metric in MetricKeys(kind)
    ensures kind == EntireLeaf ==>
      && keys == {SeriesKey(Train, Loss), SeriesKey(Val, Loss), SeriesKey(Train, DisAcc),
                  SeriesKey(Val, DisAcc), SeriesKey(Train, SevAcc), SeriesKey(Val, SevAcc)}
      && |keys| == 6
    ensures kind == LesionSpot ==>
      && keys == {SeriesKey(Train, Loss), SeriesKey(Val, Loss), SeriesKey(Train, Acc), SeriesKey(Val, Acc)}
      && |keys| == 4
    ensures SeriesKey(Val, Loss) in keys
  {
    var keys := set s: Split, m: MetricKey | m in MetricKeys(kind) :: SeriesKey(s, m);
    assert forall k: SeriesKey :: k in keys <==> k.metric in MetricKeys(kind);
    assert forall k: SeriesKey :: k == SeriesKey(k.split, k.metric) && (k.split == Train || k.split == Val);
    keys
  }

  /** The value an epoch appends to the list `k`, taken from that epoch's train or validation metrics. */
  function EpochValue(k: SeriesKey, train: map<MetricKey, real>, val: map<MetricKey, real>): real
    requires k.metric in train && k.metric in val
  {
    if k.split == Train then train[k.metric] else val[k.metric]
  }

  /** `(curr_loss < best_loss) and epoch >= 5`: the epoch improves on the best loss and is saved. */
  predicate Improves(epoch: nat, loss: real, best: real)
  {
    loss < best && epoch >= WarmUpEpochs
  }

  /** `best_loss` after the epochs whose validation losses are `losses`. */
  function BestLoss(losses: seq<real>): real
  {
    if losses == [] then InitialBestLoss
    else
      var e := |losses| - 1;
      var best := BestLoss(losses[..e]);
      if Improves(e, losses[e], best) then losses[e] else best
  }

  /** The epochs at which a checkpoint is saved, in order. */
  function Saves(losses: seq<real>): seq<nat>
  {
    if losses == [] then []
    else
      var e := |losses| - 1;
      Saves(losses[..e]) + if Improves(e, losses[e], BestLoss(losses[..e])) then [e] else []
  }

  /** One more epoch updates the best loss and the saves as the loop body does. */
  lemma {:induction false} PolicyStep(losses: seq<real>, loss: real)
    ensures BestLoss(losses + [loss])
      == if Improves(|losses|, loss, BestLoss(losses)) then loss else BestLoss(losses)
    ensures Saves(losses + [loss])
      == Saves(losses) + if Improves(|losses|, loss, BestLoss(losses)) then [|losses|] else []
  {
    assert (losses + [loss])[..|losses|] == losses;
  }

  /**
   * The best loss is the smallest of 1000.0 and the validation losses of
   * epochs 5 onward: it is at most each of them and equal to one of them
   * unless it is still the initial value.
   */
  lemma {:induction false} BestLossIsMinimum(losses: seq<real>)
    ensures BestLoss(losses) <= InitialBestLoss
    ensures forall e :: WarmUpEpochs <= e < |losses| ==> BestLoss(losses) <= losses[e]
    ensures BestLoss(losses) == InitialBestLoss || exists e :: WarmUpEpochs <= e < |losses| && BestLoss(losses) == losses[e]
  {
    if losses != [] {
      var e := |losses| - 1;
      var p := losses[..e];
      BestLossIsMinimum(p);
      assert forall d :: 0 <= d < e ==> p[d] == losses[d];
      if !Improves(e, losses[e], BestLoss(p)) && BestLoss(p) != InitialBestLoss {
        var d :| WarmUpEpochs <= d < |p| && BestLoss(p) == p[d];
        assert BestLoss(losses) == losses[d];
      }
    }
  }

  /** `best_loss` never increases from one epoch to a later one. */
  lemma {:induction false} BestLossNonIncreasing(losses: seq<real>, i: nat, j: nat)
    requires i <= j <= |losses|
    ensures BestLoss(losses[..j]) <= BestLoss(losses[..i])
  {
    if i < j {
      BestLossNonIncreasing(losses, i, j - 1);
      assert losses[..j][..j - 1] == losses[..j - 1];
    }
  }

  /** An epoch is saved exactly when it improves on the best loss of the epochs before it. */
  lemma {:induction false} SavedIffImproves(losses: seq<real>, e: nat)
    ensures e in Saves(losses) <==> e < |losses| && Improves(e, losses[e], BestLoss(losses[..e]))
  {
    if losses != [] {
      var n := |losses| - 1;
      var p := losses[..n];
      SavedIffImproves(p, e);
      SavesBelowLength(p);
      if e < n {
        assert p[..e] == losses[..e] && p[e] == losses[e];
      }
    }
  }

  /** The saved epochs are increasing and all lie in `[0, |losses|)`. */
  lemma {:induction false} SavesBelowLength(losses: seq<real>)
    ensures forall i :: 0 <= i < |Saves(losses)| ==> Saves(losses)[i] < |losses|
    ensures forall i, j :: 0 <= i < j < |Saves(losses)| ==> Saves(losses)[i] < Saves(losses)[j]
  {
    if losses != [] {
      SavesBelowLength(losses[..|losses| - 1]);
    }
  }

  /**
   * The checkpoint policy: epoch `e` is saved exactly when `e >= 5`, its
   * validation loss is below 1000.0 and strictly below the validation loss of
   * every earlier epoch from epoch 5 on.
   */
  lemma {:induction false} SavedIff(losses: seq<real>, e: nat)
    requires e < |losses|
    ensures e in Saves(losses) <==>
      && e >= WarmUpEpochs
      && losses[e] < InitialBestLoss
      && forall d :: WarmUpEpochs <= d < e ==> losses[e] < losses[d]
  {
    SavedIffImproves(losses, e);
    var p := losses[..e];
    BestLossIsMinimum(p);
    assert forall d :: 0 <= d < e ==> p[d] == losses[d];
    if e >= WarmUpEpochs && losses[e] < InitialBestLoss && forall d :: WarmUpEpochs <= d < e ==> losses[e] < losses[d] {
      if BestLoss(p) != InitialBestLoss {
        var d :| WarmUpEpochs <= d < |p| && BestLoss(p) == p[d];
        assert losses[e] < losses[d];
      }
    }
  }

  /** No checkpoint is ever saved during the first five epochs. */
  lemma {:induction false} NoSaveDuringWarmUp(losses: seq<real>)
    ensures forall i :: 0 <= i < |Saves(losses)| ==> Saves(losses)[i] >= WarmUpEpochs
  {
    SavesBelowLength(losses);
    forall i | 0 <= i < |Saves(losses)| ensures Saves(losses)[i] >= WarmUpEpochs {
      SavedIffImproves(losses, Saves(losses)[i]);
    }
  }

  /**
   * The last checkpoint holds the best loss; with no checkpoint, the best
   * loss is still the initial 1000.0.
   */
  lemma {:induction false} LastSaveIsBest(losses: seq<real>)
    ensures |Saves(losses)| == 0 ==> BestLoss(losses) == InitialBestLoss
    ensures |Saves(losses)| > 0 ==> Saves(losses)[|Saves(losses)| - 1] < |losses|
    ensures |Saves(losses)| > 0 ==> losses[Saves(losses)[|Saves(losses)| - 1]] == BestLoss(losses)
  {
    if losses != [] {
      var e := |losses| - 1;
      var p := losses[..e];
      LastSaveIsBest(p);
      var best := BestLoss(p);
      var s := Saves(p);
      if Improves(e, losses[e], best) {
        assert Saves(losses) == s + [e];
        assert BestLoss(losses) == losses[e];
      } else {
        assert Saves(losses) == s;
        assert BestLoss(losses) == best;
        if |s| > 0 {
          var last := s[|s| - 1];
          assert last < e && losses[last] == p[last] == best;
        } else {
          assert best == InitialBestLoss;
        }
      }
    }
  }

  /** Every checkpoint saved after another holds a strictly smaller validation loss. */
  lemma {:induction false} SavedLossesDecrease(losses: seq<real>, i: nat, j: nat)
    requires i < j < |Saves(losses)|
    ensures Saves(losses)[i] < Saves(losses)[j] < |losses|
    ensures losses[Saves(losses)[j]] < losses[Saves(losses)[i]]
  {
    var s := Saves(losses);
    SavesBelowLength(losses);
    NoSaveDuringWarmUp(losses);
    SavedIffImproves(losses, s[j]);
    assert s[j] in s;
    SavedIff(losses, s[j]);
    assert WarmUpEpochs <= s[i] < s[j];
  }

  /** Every epoch's metrics carry the keys the classifier records. */
  predicate Reports(kind: ClassifierKind, rows: seq<map<MetricKey, real>>)
  {
    forall i :: 0 <= i < |rows| ==> MetricKeys(kind) <= rows[i].Keys
  }

  /**
   * The list `k` of the record (`record['train_loss']`, `record['val_dis_acc']`,
   * ...) after the epochs whose metrics are `train` and `val`: one value per
   * epoch, in epoch order.
   */
  function Column(kind: ClassifierKind, k: SeriesKey, train: seq<map<MetricKey, real>>, val: seq<map<MetricKey, real>>)
    : (column: seq<real>)
    requires |train| == |val| && Reports(kind, train) && Reports(kind, val)
    requires k in SeriesKeys(kind)
    ensures |column| == |train|
    ensures forall i :: 0 <= i < |train| ==> column[i] == EpochValue(k, train[i], val[i])
  {
    seq(|train|, i requires 0 <= i < |train| => EpochValue(k, train[i], val[i]))
  }

  /** Recording one more epoch appends that epoch's value to every list. */
  lemma {:induction false} ColumnAppend(
    kind: ClassifierKind, k: SeriesKey, train: seq<map<MetricKey, real>>, val: seq<map<MetricKey, real>>,
    t: map<MetricKey, real>, v: map<MetricKey, real>)
    requires |train| == |val| && Reports(kind, train) && Reports(kind, val)
    requires MetricKeys(kind) <= t.Keys && MetricKeys(kind) <= v.Keys
    requires k in SeriesKeys(kind)
    ensures Reports(kind, train + [t]) && Reports(kind, val + [v])
    ensures Column(kind, k, train + [t], val + [v]) == Column(kind, k, train, val) + [EpochValue(k, t, v)]
  {
    assert forall i :: 0 <= i < |train| ==> (train + [t])[i] == train[i] && (val + [v])[i] == val[i];
  }

  /** `logs[i]` is the record as it stood after epoch `i`: the first `i + 1` rows of both splits. */
  ghost predicate Dumps(logs: seq<(seq<map<MetricKey, real>>, seq<map<MetricKey, real>>)>,
                        train: seq<map<MetricKey, real>>, val: seq<map<MetricKey, real>>)
  {
    && |logs| == |train| == |val|
    && forall i :: 0 <= i < |logs| ==> logs[i] == (train[..i + 1], val[..i + 1])
  }

  /** Dumping the record after one more epoch keeps every earlier dump a dump of its epoch. */
  lemma {:induction false} DumpsAppend(
    logs: seq<(seq<map<MetricKey, real>>, seq<map<MetricKey, real>>)>,
    train: seq<map<MetricKey, real>>, val: seq<map<MetricKey, real>>,
    t: map<MetricKey, real>, v: map<MetricKey, real>)
    requires Dumps(logs, train, val)
    ensures Dumps(logs + [(train + [t], val + [v])], train + [t], val + [v])
  {
    var logs', train', val' := logs + [(train + [t], val + [v])], train + [t], val + [v];
    forall i | 0 <= i < |logs'| ensures logs'[i] == (train'[..i + 1], val'[..i + 1]) {
      if i < |logs| {
        assert train'[..i + 1] == train[..i + 1] && val'[..i + 1] == val[..i + 1];
      } else {
        assert train'[..i + 1] == train' && val'[..i + 1] == val';
      }
    }
  }

  /**
   * The state the record keeps between epochs: both splits hold one row per
   * recorded epoch, each with the classifier's metrics; `best_loss` and the
   * saved epochs are those of the checkpoint policy on the validation losses;
   * the log holds one dump per epoch, each the record as it stood then.
   */
  ghost predicate Consistent(
    kind: ClassifierKind, train: seq<map<MetricKey, real>>, val: seq<map<MetricKey, real>>,
    bestLoss: real, saved: seq<nat>, logs: seq<(seq<map<MetricKey, real>>, seq<map<MetricKey, real>>)>)
  {
    && |train| == |val| && Reports(kind, train) && Reports(kind, val)
    && bestLoss == BestLoss(Column(kind, SeriesKey(Val, Loss), train, val))
    && saved == Saves(Column(kind, SeriesKey(Val, Loss), train, val))
    && Dumps(logs, train, val)
  }

  /** Recording one more epoch appends that epoch's value to every list of the classifier. */
  lemma {:induction false} ColumnsAppend(
    kind: ClassifierKind, train: seq<map<MetricKey, real>>, val: seq<map<MetricKey, real>>,
    t: map<MetricKey, real>, v: map<MetricKey, real>)
    requires |train| == |val| && Reports(kind, train) && Reports(kind, val)
    requires MetricKeys(kind) <= t.Keys && MetricKeys(kind) <= v.Keys
    ensures Reports(kind, train + [t]) && Reports(kind, val + [v])
    ensures forall k :: k in SeriesKeys(kind) ==>
      Column(kind, k, train + [t], val + [v]) == Column(kind, k, train, val) + [EpochValue(k, t, v)]
  {
    forall k | k in SeriesKeys(kind)
      ensures Column(kind, k, train + [t], val + [v]) == Column(kind, k, train, val) + [EpochValue(k, t, v)]
    {
      ColumnAppend(kind, k, train, val, t, v);
    }
  }

  /**
   * Recording one more epoch (appending its rows, applying the checkpoint
   * policy to its validation loss, dumping the record) keeps the state
   * consistent.
   */
  lemma {:induction false} RecordStep(
    kind: ClassifierKind, train: seq<map<MetricKey, real>>, val: seq<map<MetricKey, real>>,
    bestLoss: real, saved: seq<nat>, logs: seq<(seq<map<MetricKey, real>>, seq<map<MetricKey, real>>)>,
    t: map<MetricKey, real>, v: map<MetricKey, real>)
    requires Consistent(kind, train, val, bestLoss, saved, logs)
    requires MetricKeys(kind) <= t.Keys && MetricKeys(kind) <= v.Keys
    ensures var improves := Improves(|train|, v[Loss], bestLoss);
      Consistent(kind, train + [t], val + [v],
        if improves then v[Loss] else bestLoss,
        saved + if improves then [|train|] else [],
        logs + [(train + [t], val + [v])])
  {
    var key := SeriesKey(Val, Loss);
    ColumnAppend(kind, key, train, val, t, v);
    PolicyStep(Column(kind, key, train, val), v[Loss]);
    DumpsAppend(logs, train, val, t, v);
  }

  /**
   * `record`: the hyperparameter entries, and one list per split and metric,
   * kept as the rows of train and validation metrics they are built from
   * (list `k` is `Series(k)`); `best_loss`; and two ghost logs of the file
   * writes the loop performs: the epochs whose model `torch.save` wrote, and
   * the record `pickle.dump` wrote after each epoch.
   */
  class TrainingRecord {
    const kind: ClassifierKind
    const hyper: Hyperparameters
    var trainRows: seq<map<MetricKey, real>>
    var valRows: seq<map<MetricKey, real>>
    var bestLoss: real
    ghost var saved: seq<nat>
    ghost var logs: seq<(seq<map<MetricKey, real>>, seq<map<MetricKey, real>>)>

    /** Both splits hold one row per recorded epoch, each with the classifier's metrics. */
    ghost predicate WellFormed()
      reads this
    {
      |trainRows| == |valRows| && Reports(kind, trainRows) && Reports(kind, valRows)
    }

    /** The number of epochs recorded so far. */
    ghost function Epochs(): nat
      reads this
    {
      |valRows|
    }

    /** The list `k` of the record. */
    ghost function Series(k: SeriesKey): seq<real>
      reads this
      requires WellFormed() && k in SeriesKeys(kind)
    {
      Column(kind, k, trainRows, valRows)
    }

    /** `record['val_loss']`. */
    ghost function ValLosses(): seq<real>
      reads this
      requires WellFormed()
    {
      Series(SeriesKey(Val, Loss))
    }

    /** The record's fields are consistent with the epochs it holds. */
    ghost predicate Valid()
      reads this
    {
      Consistent(kind, trainRows, valRows, bestLoss, saved, logs)
    }

    /** `record = {...}` with empty lists, and `best_loss = 1000.0`. */
    constructor (kind: ClassifierKind, hyper: Hyperparameters)
      ensures Valid()
      ensures this.kind == kind && this.hyper == hyper
      ensures trainRows == [] && valRows == []
      ensures bestLoss == InitialBestLoss && saved == [] && logs == []
    {
      this.kind := kind;
      this.hyper := hyper;
      trainRows := [];
      valRows := [];
      bestLoss := InitialBestLoss;
      saved := [];
      logs := [];
      new;
      assert ValLosses() == [];
    }

    /**
     * The bookkeeping of epoch `epoch`: append the epoch's value to every
     * list, replace `best_loss` and save the model when the validation loss
     * improves on it from epoch 5 on, and dump the record.
     */
    method RecordEpoch(epoch: nat, train: map<MetricKey, real>, val: map<MetricKey, real>)
      requires Valid() && epoch == Epochs()
      requires MetricKeys(kind) <= train.Keys && MetricKeys(kind) <= val.Keys
      modifies this
      ensures Valid()
      ensures trainRows == old(trainRows) + [train] && valRows == old(valRows) + [val]
      ensures forall k :: k in SeriesKeys(kind) ==> Series(k) == old(Series(k)) + [EpochValue(k, train, val)]
      ensures bestLoss <= old(bestLoss)
      ensures bestLoss == if Improves(epoch, val[Loss], old(bestLoss)) then val[Loss] else old(bestLoss)
      ensures saved == old(saved) + if Improves(epoch, val[Loss], old(bestLoss)) then [epoch] else []
      ensures logs == old(logs) + [(trainRows, valRows)]
    {
      RecordStep(kind, trainRows, valRows, bestLoss, saved, logs, train, val);
      ColumnsAppend(kind, trainRows, valRows, train, val);
      trainRows := trainRows + [train];
      valRows := valRows + [val];
      var currLoss := val[Loss];
      if currLoss < bestLoss && epoch >= WarmUpEpochs {
        bestLoss := currLoss;
        saved := saved + [epoch];
      }
      logs := logs + [(trainRows, valRows)];
    }
  }
}
