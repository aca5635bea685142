/**
 * The epoch metrics of the `train` and `validation` loops of both classifiers:
 * each batch's loss and accuracy weighted by the number of images in the
 * batch, summed, and divided by the size of the dataset (accuracies also
 * scaled to percent). The network, the loss functions and the augmentation
 * are outside the model: a batch carries the values they produced.
 */
module Averaging {
  import opened Wrappers
  import opened RealSums
  import opened Metrics
  import opened Config

  /** Dividing by `len(loader.dataset)` when the dataset is empty. */
  datatype AveragingError = ZeroDivisionError

  /**
   * What one classification head produced for a batch: the predicted class
   * of every image, the labels it is scored against and, under mixup, the
   * second label vector with the blend coefficient.
   */
  datatype HeadOutput = HeadOutput(pred: seq<int>, labels: seq<int>, mix: Option<MixupLabels>)

  predicate HeadOk(h: HeadOutput)
  {
    |h.pred| == |h.labels| > 0 && (h.mix.Some? ==> |h.mix.value.yTrueB| == |h.labels|)
  }

  /** One entire-leaf batch: the two head losses and the two head outputs. */
  datatype LeafBatch = LeafBatch(lossDis: real, lossSev: real, dis: HeadOutput, sev: HeadOutput)

  /** One lesion-spot batch: the loss and the single head's output. */
  datatype SpotBatch = SpotBatch(loss: real, out: HeadOutput)

  predicate LeafBatchOk(b: LeafBatch)
  {
    HeadOk(b.dis) && HeadOk(b.sev) && |b.sev.labels| == |b.dis.labels|
  }

  /** `len(images)`. */
  function LeafSize(b: LeafBatch): nat
  {
    |b.dis.labels|
  }

  /** The loss a batch adds to the epoch loss, per `opt.output_std`. */
  function ReportedLoss(mode: OutputMode, b: LeafBatch): real
  {
    match mode
    case Multitask => (b.lossDis + b.lossSev) / 2.0
    case Disease => b.lossDis
    case Severity => b.lossSev
  }

  /** The quantity the training step back-propagates, per `opt.output_std`. */
  function BackpropLoss(mode: OutputMode, b: LeafBatch): real
  {
    match mode
    case Multitask => b.lossDis + b.lossSev
    case Disease => b.lossDis
    case Severity => b.lossSev
  }

  /**
   * The reported loss is the back-propagated one, except in multitask mode,
   * where the sum of the two head losses is trained but its mean is reported.
   */
  lemma ReportedAgainstBackprop(mode: OutputMode, b: LeafBatch)
    ensures mode != Multitask ==> ReportedLoss(mode, b) == BackpropLoss(mode, b)
    ensures mode == Multitask ==> 2.0 * ReportedLoss(mode, b) == BackpropLoss(mode, b)
    ensures mode == Multitask ==>
      Metrics.Min(b.lossDis, b.lossSev) <= ReportedLoss(mode, b) <= Metrics.Max(b.lossDis, b.lossSev)
  {
  }

  /** `eval_metrics('acc', pred, labels[, labels_b, lam])` for one head; mixup labels only when `useMix`. */
  function HeadAccuracy(h: HeadOutput, useMix: bool): real
    requires HeadOk(h)
  {
    EvalMetrics("acc", h.pred, h.labels, if useMix then h.mix else None).value
  }

  /** A head's accuracy is a fraction, given a blend coefficient in [0, 1]. */
  lemma {:induction false} HeadAccuracyBounds(h: HeadOutput, useMix: bool)
    requires HeadOk(h)
    requires useMix && h.mix.Some? ==> 0.0 <= h.mix.value.lam <= 1.0
    ensures 0.0 <= HeadAccuracy(h, useMix) <= 1.0
  {
    EvalMetricsRange("acc", h.pred, h.labels, if useMix then h.mix else None);
  }

  /** The per-batch values of one column of the epoch, and the batch sizes. */
  function LeafSizes(bs: seq<LeafBatch>): (ns: seq<nat>)
    ensures |ns| == |bs|
  {
    seq(|bs|, i requires 0 <= i < |bs| => LeafSize(bs[i]))
  }

  function LeafLosses(mode: OutputMode, bs: seq<LeafBatch>): (xs: seq<real>)
    ensures |xs| == |bs|
  {
    seq(|bs|, i requires 0 <= i < |bs| => ReportedLoss(mode, bs[i]))
  }

  /** The disease (`sev == false`) or severity (`sev == true`) accuracies of the batches. */
  function LeafAccuracies(bs: seq<LeafBatch>, sev: bool, useMix: bool): (xs: seq<real>)
    requires forall i :: 0 <= i < |bs| ==> LeafBatchOk(bs[i])
    ensures |xs| == |bs|
  {
    seq(|bs|, i requires 0 <= i < |bs| =>
      assert LeafBatchOk(bs[i]);
      if sev then HeadAccuracy(bs[i].sev, useMix) else HeadAccuracy(bs[i].dis, useMix))
  }

  /** The three entire-leaf metrics before the final division. */
  function LeafSums(mode: OutputMode, bs: seq<LeafBatch>, useMix: bool, cuda: bool): map<MetricKey, real>
    requires forall i :: 0 <= i < |bs| ==> LeafBatchOk(bs[i])
  {
    map[Loss := SizeWeightedSum(LeafLosses(mode, bs), LeafSizes(bs)),
        DisAcc := if cuda then SizeWeightedSum(LeafAccuracies(bs, false, useMix), LeafSizes(bs)) else 0.0,
        SevAcc := if cuda then SizeWeightedSum(LeafAccuracies(bs, true, useMix), LeafSizes(bs)) else 0.0]
  }

  /** One entry of the closing loop over the dictionary: accuracies in percent, everything per example. */
  function PerExampleValue(k: MetricKey, x: real, datasetSize: nat): real
    requires datasetSize > 0
  {
    if k != Loss then 100.0 * x / (datasetSize as real) else x / (datasetSize as real)
  }

  /** The closing loop over the dictionary, applied to every entry. */
  function PerExample(sums: map<MetricKey, real>, datasetSize: nat): (r: map<MetricKey, real>)
    requires datasetSize > 0
    ensures r.Keys == sums.Keys
  {
    map k | k in sums :: PerExampleValue(k, sums[k], datasetSize)
  }

  /**
   * One more batch adds its loss and, when CUDA is present, its two
   * accuracies to the sums, each times the batch size.
   */
  lemma {:induction false} LeafSumsSnocByKey(mode: OutputMode, bs: seq<LeafBatch>, useMix: bool, cuda: bool, i: nat)
    requires i < |bs|
    requires forall j :: 0 <= j < |bs| ==> LeafBatchOk(bs[j])
    ensures LeafBatchOk(bs[i])
    ensures var s, t, b := LeafSums(mode, bs[..i], useMix, cuda), LeafSums(mode, bs[..i + 1], useMix, cuda), bs[i];
      && t[Loss] == AddWeighted(s[Loss], ReportedLoss(mode, b), LeafSize(b))
      && t[DisAcc] == (if cuda then AddWeighted(s[DisAcc], HeadAccuracy(b.dis, useMix), LeafSize(b)) else 0.0)
      && t[SevAcc] == (if cuda then AddWeighted(s[SevAcc], HeadAccuracy(b.sev, useMix), LeafSize(b)) else 0.0)
  {
    var b := bs[i];
    assert LeafBatchOk(b);
    LeafColumnsPrefix(mode, bs, useMix, i);
    LeafColumnsPrefix(mode, bs, useMix, i + 1);
    SizeWeightedSnoc(LeafLosses(mode, bs), LeafSizes(bs), i);
    if cuda {
      SizeWeightedSnoc(LeafAccuracies(bs, false, useMix), LeafSizes(bs), i);
      SizeWeightedSnoc(LeafAccuracies(bs, true, useMix), LeafSizes(bs), i);
    }
  }

  /**
   * The dictionary after one more batch: the loss entry and, when CUDA is
   * present, the two accuracy entries gain that batch's weighted values.
   */
  lemma LeafSumsSnoc(mode: OutputMode, bs: seq<LeafBatch>, useMix: bool, cuda: bool, i: nat)
    requires i < |bs|
    requires forall j :: 0 <= j < |bs| ==> LeafBatchOk(bs[j])
    ensures var s, b := LeafSums(mode, bs[..i], useMix, cuda), bs[i];
      && LeafBatchOk(b)
      && var loss := s[Loss := AddWeighted(s[Loss], ReportedLoss(mode, b), LeafSize(b))];
      LeafSums(mode, bs[..i + 1], useMix, cuda) ==
        if cuda then
          loss[DisAcc := AddWeighted(s[DisAcc], HeadAccuracy(b.dis, useMix), LeafSize(b))]
              [SevAcc := AddWeighted(s[SevAcc], HeadAccuracy(b.sev, useMix), LeafSize(b))]
        else loss
  {
    LeafSumsSnocByKey(mode, bs, useMix, cuda, i);
  }

  /** The columns of a prefix of the batches are the prefixes of the columns. */
  lemma LeafColumnsPrefix(mode: OutputMode, bs: seq<LeafBatch>, useMix: bool, i: nat)
    requires i <= |bs|
    requires forall j :: 0 <= j < |bs| ==> LeafBatchOk(bs[j])
    ensures LeafSizes(bs[..i]) == LeafSizes(bs)[..i]
    ensures LeafLosses(mode, bs[..i]) == LeafLosses(mode, bs)[..i]
    ensures LeafAccuracies(bs[..i], false, useMix) == LeafAccuracies(bs, false, useMix)[..i]
    ensures LeafAccuracies(bs[..i], true, useMix) == LeafAccuracies(bs, true, useMix)[..i]
  {
  }

  /**
   * The batch loop of the entire-leaf `train` and `validation`: the
   * dictionary starts at zero and every batch adds its loss and, when CUDA is
   * present, its two accuracies, each times the batch size.
   */
  method SumLeafBatches(mode: OutputMode, bs: seq<LeafBatch>, useMix: bool, cuda: bool)
    returns (metrics: map<MetricKey, real>)
    requires forall i :: 0 <= i < |bs| ==> LeafBatchOk(bs[i])
    ensures metrics == LeafSums(mode, bs, useMix, cuda)
  {
    metrics := map[Loss := 0.0, DisAcc := 0.0, SevAcc := 0.0];
    for i := 0 to |bs|
      invariant metrics == LeafSums(mode, bs[..i], useMix, cuda)
    {
      var b := bs[i];
      LeafSumsSnoc(mode, bs, useMix, cuda, i);
      var n := |b.dis.labels|;
      metrics := metrics[Loss := AddWeighted(metrics[Loss], ReportedLoss(mode, b), n)];
      if cuda {
        var accDis, accSev := HeadAccuracy(b.dis, useMix), HeadAccuracy(b.sev, useMix);
        metrics := metrics[DisAcc := AddWeighted(metrics[DisAcc], accDis, n)];
        metrics := metrics[SevAcc := AddWeighted(metrics[SevAcc], accSev, n)];
      }
    }
    assert bs[..|bs|] == bs;
  }

  /**
   * An entire-leaf epoch (`useMix` when training under mixup, `false` in
   * validation): the batch loop, then every entry of the dictionary divided
   * by the dataset size, which raises when the dataset is empty.
   */
  method EntireLeafEpoch(mode: OutputMode, bs: seq<LeafBatch>, datasetSize: nat, useMix: bool, cuda: bool)
    returns (r: Result<map<MetricKey, real>, AveragingError>)
    requires forall i :: 0 <= i < |bs| ==> LeafBatchOk(bs[i])
    ensures r.Err? <==> datasetSize == 0
    ensures r.Ok? ==> r.value == PerExample(LeafSums(mode, bs, useMix, cuda), datasetSize)
  {
    var metrics := SumLeafBatches(mode, bs, useMix, cuda);
    if datasetSize == 0 {
      return Err(ZeroDivisionError);
    }
    r := Ok(PerExample(metrics, datasetSize));
  }

  /** `EntireLeafClf.train`: mixup labels are used when the augmentation is mixup. */
  method EntireLeafTrain(mode: OutputMode, aug: Augmentation, bs: seq<LeafBatch>, datasetSize: nat, cuda: bool)
    returns (r: Result<map<MetricKey, real>, AveragingError>)
    requires forall i :: 0 <= i < |bs| ==> LeafBatchOk(bs[i])
    ensures r.Err? <==> datasetSize == 0
    ensures r.Ok? ==> r.value == PerExample(LeafSums(mode, bs, aug == Mixup, cuda), datasetSize)
  {
    r := EntireLeafEpoch(mode, bs, datasetSize, aug == Mixup, cuda);
  }

  /** `EntireLeafClf.validation`: plain labels only. */
  method EntireLeafValidation(mode: OutputMode, bs: seq<LeafBatch>, datasetSize: nat, cuda: bool)
    returns (r: Result<map<MetricKey, real>, AveragingError>)
    requires forall i :: 0 <= i < |bs| ==> LeafBatchOk(bs[i])
    ensures r.Err? <==> datasetSize == 0
    ensures r.Ok? ==> r.value == PerExample(LeafSums(mode, bs, false, cuda), datasetSize)
  {
    r := EntireLeafEpoch(mode, bs, datasetSize, false, cuda);
  }

  /**
   * When the batches cover the dataset, each entire-leaf accuracy lies in
   * [0, 100] and the loss is the size-weighted mean of the batch losses;
   * with equal batch sizes it is their plain mean.
   */
  lemma {:induction false} EntireLeafEpochBounds(mode: OutputMode, bs: seq<LeafBatch>, useMix: bool, cuda: bool, k: nat)
    requires |bs| > 0
    requires forall i :: 0 <= i < |bs| ==> LeafBatchOk(bs[i])
    requires forall i :: 0 <= i < |bs| ==> bs[i].dis.mix.Some? ==> 0.0 <= bs[i].dis.mix.value.lam <= 1.0
    requires forall i :: 0 <= i < |bs| ==> bs[i].sev.mix.Some? ==> 0.0 <= bs[i].sev.mix.value.lam <= 1.0
    ensures NatSum(LeafSizes(bs)) > 0
    ensures var m := PerExample(LeafSums(mode, bs, useMix, cuda), NatSum(LeafSizes(bs)));
      && 0.0 <= m[DisAcc] <= 100.0
      && 0.0 <= m[SevAcc] <= 100.0
      && ((forall i :: 0 <= i < |bs| ==> LeafSize(bs[i]) == k) ==> m[Loss] == Sum(LeafLosses(mode, bs)) / (|bs| as real))
  {
    var sizes := LeafSizes(bs);
    PositiveSizes(sizes);
    var total := NatSum(sizes);
    var sums := LeafSums(mode, bs, useMix, cuda);
    var m := PerExample(sums, total);
    LeafAccuracyColumnBounds(bs, false, useMix);
    LeafAccuracyColumnBounds(bs, true, useMix);
    assert m[DisAcc] == PerExampleValue(DisAcc, sums[DisAcc], total);
    assert m[SevAcc] == PerExampleValue(SevAcc, sums[SevAcc], total);
    PercentBound(DisAcc, sums[DisAcc], total);
    PercentBound(SevAcc, sums[SevAcc], total);
    if forall i :: 0 <= i < |bs| ==> LeafSize(bs[i]) == k {
      assert k > 0 by { assert LeafBatchOk(bs[0]); }
      EqualSizesGiveMean(LeafLosses(mode, bs), sizes, k);
      assert m[Loss] == PerExampleValue(Loss, sums[Loss], total);
    }
  }

  /** A column of batch accuracies, weighted by batch size, sums to between 0 and the number of images. */
  lemma {:induction false} LeafAccuracyColumnBounds(bs: seq<LeafBatch>, sev: bool, useMix: bool)
    requires forall i :: 0 <= i < |bs| ==> LeafBatchOk(bs[i])
    requires forall i :: 0 <= i < |bs| ==> bs[i].dis.mix.Some? ==> 0.0 <= bs[i].dis.mix.value.lam <= 1.0
    requires forall i :: 0 <= i < |bs| ==> bs[i].sev.mix.Some? ==> 0.0 <= bs[i].sev.mix.value.lam <= 1.0
    ensures 0.0 <= SizeWeightedSum(LeafAccuracies(bs, sev, useMix), LeafSizes(bs)) <= NatSum(LeafSizes(bs)) as real
  {
    var accs := LeafAccuracies(bs, sev, useMix);
    forall i | 0 <= i < |bs| ensures 0.0 <= accs[i] <= 1.0 {
      assert LeafBatchOk(bs[i]);
      if sev {
        HeadAccuracyBounds(bs[i].sev, useMix);
      } else {
        HeadAccuracyBounds(bs[i].dis, useMix);
      }
    }
    SizeWeightedSumBounds(accs, LeafSizes(bs));
  }

  /** A sum of sizes of non-empty batches is positive. */
  lemma {:induction false} PositiveSizes(ns: seq<nat>)
    requires |ns| > 0 && forall i :: 0 <= i < |ns| ==> ns[i] > 0
    ensures NatSum(ns) > 0
  {
    assert NatSum(ns) >= ns[|ns| - 1];
  }

  /** A count between 0 and `n`, as a per-example accuracy, is between 0 and 100 percent. */
  lemma {:induction false} PercentBound(k: MetricKey, x: real, n: nat)
    requires k != Loss && n > 0 && 0.0 <= x <= n as real
    ensures 0.0 <= PerExampleValue(k, x, n) <= 100.0
  {
    var q := x / (n as real);
    assert q * (n as real) == x;
    assert 0.0 <= q <= 1.0;
    assert 100.0 * x / (n as real) == 100.0 * q;
  }

  /** The accuracies of a sequence of heads, and their concatenated predictions and labels. */
  function HeadAccuracies(hs: seq<HeadOutput>): (xs: seq<real>)
    requires forall i :: 0 <= i < |hs| ==> HeadOk(hs[i])
    ensures |xs| == |hs|
  {
    seq(|hs|, i requires 0 <= i < |hs| => assert HeadOk(hs[i]); HeadAccuracy(hs[i], false))
  }

  function HeadSizes(hs: seq<HeadOutput>): (ns: seq<nat>)
    ensures |ns| == |hs|
  {
    seq(|hs|, i requires 0 <= i < |hs| => |hs[i].labels|)
  }

  function AllPred(hs: seq<HeadOutput>): seq<int>
  {
    if hs == [] then [] else AllPred(hs[..|hs| - 1]) + hs[|hs| - 1].pred
  }

  function AllLabels(hs: seq<HeadOutput>): seq<int>
  {
    if hs == [] then [] else AllLabels(hs[..|hs| - 1]) + hs[|hs| - 1].labels
  }

  /** Extending the prefix of heads by one appends that head's predictions and labels. */
  lemma {:induction false} AllSnoc(hs: seq<HeadOutput>, i: nat)
    requires i < |hs|
    ensures AllPred(hs[..i + 1]) == AllPred(hs[..i]) + hs[i].pred
    ensures AllLabels(hs[..i + 1]) == AllLabels(hs[..i]) + hs[i].labels
  {
    assert hs[..i + 1][..i] == hs[..i];
  }

  lemma {:induction false} AllLengths(hs: seq<HeadOutput>)
    requires forall i :: 0 <= i < |hs| ==> HeadOk(hs[i])
    ensures |AllPred(hs)| == |AllLabels(hs)| == NatSum(HeadSizes(hs))
  {
    if hs != [] {
      var p := hs[..|hs| - 1];
      AllLengths(p);
      assert HeadSizes(hs)[..|hs| - 1] == HeadSizes(p);
    }
  }

  /**
   * Without mixup, accuracy times batch size is the batch's number of correct
   * predictions, so the size-weighted sum counts the correct predictions over
   * all batches: the epoch accuracy is the accuracy of the whole epoch.
   */
  lemma {:induction false} WeightedAccuracyCountsMatches(hs: seq<HeadOutput>)
    requires forall i :: 0 <= i < |hs| ==> HeadOk(hs[i])
    ensures |AllPred(hs)| == |AllLabels(hs)|
    ensures SizeWeightedSum(HeadAccuracies(hs), HeadSizes(hs)) == Matches(AllPred(hs), AllLabels(hs)) as real
  {
    AllLengths(hs);
    if hs != [] {
      var n := |hs| - 1;
      var p, h := hs[..n], hs[n];
      assert HeadOk(h);
      WeightedAccuracyCountsMatches(p);
      assert HeadAccuracies(hs)[..n] == HeadAccuracies(p);
      assert HeadSizes(hs)[..n] == HeadSizes(p);
      AllLengths(p);
      MatchesAppend(AllPred(p), AllLabels(p), h.pred, h.labels);
      assert hs[..n] == p;
      assert AllPred(hs) == AllPred(p) + h.pred && AllLabels(hs) == AllLabels(p) + h.labels;
      var xs, ns := HeadAccuracies(hs), HeadSizes(hs);
      assert xs[n] == Accuracy(h.labels, h.pred) && ns[n] == |h.labels|;
      assert SizeWeightedSum(xs, ns)
        == AddWeighted(SizeWeightedSum(HeadAccuracies(p), HeadSizes(p)), Accuracy(h.labels, h.pred), |h.labels|);
      AccuracyWeightedCount(h.labels, h.pred, Matches(AllPred(p), AllLabels(p)));
    }
  }

  /**
   * Without mixup and with CUDA, when the batches cover the dataset the
   * epoch's disease accuracy is 100 times the accuracy over all its images.
   */
  lemma {:induction false} EntireLeafAccuracyIsPooled(mode: OutputMode, bs: seq<LeafBatch>)
    requires |bs| > 0
    requires forall i :: 0 <= i < |bs| ==> LeafBatchOk(bs[i])
    ensures var hs := seq(|bs|, i requires 0 <= i < |bs| => bs[i].dis);
      |AllLabels(hs)| == |AllPred(hs)| == NatSum(LeafSizes(bs)) > 0 &&
      PerExample(LeafSums(mode, bs, false, true), NatSum(LeafSizes(bs)))[DisAcc]
        == 100.0 * Accuracy(AllLabels(hs), AllPred(hs))
  {
    var hs := seq(|bs|, i requires 0 <= i < |bs| => bs[i].dis);
    assert HeadAccuracies(hs) == LeafAccuracies(bs, false, false);
    assert HeadSizes(hs) == LeafSizes(bs);
    AllLengths(hs);
    PositiveSizes(LeafSizes(bs));
    WeightedAccuracyCountsMatches(hs);
    var total := NatSum(LeafSizes(bs));
    var sums := LeafSums(mode, bs, false, true);
    var matches := Matches(AllPred(hs), AllLabels(hs)) as real;
    assert sums[DisAcc] == matches;
    PercentOfAccuracy(DisAcc, AllLabels(hs), AllPred(hs));
    assert PerExample(sums, total)[DisAcc] == PerExampleValue(DisAcc, matches, |AllLabels(hs)|);
  }

  /** The number of correct predictions over all images, in percent, is 100 times the accuracy. */
  lemma {:induction false} PercentOfAccuracy(k: MetricKey, yTrue: seq<int>, yPred: seq<int>)
    requires k != Loss && |yPred| == |yTrue| > 0
    ensures PerExampleValue(k, Matches(yPred, yTrue) as real, |yTrue|) == 100.0 * Accuracy(yTrue, yPred)
  {
    ScaleQuotient(100.0, Matches(yPred, yTrue) as real, |yTrue| as real);
  }

  lemma ScaleQuotient(c: real, x: real, n: real)
    requires n != 0.0
    ensures c * x / n == c * (x / n)
  {
  }

  /** The lesion-spot metric sums: the loss, and `correct` and `total` of the accuracy. */
  function SpotSizes(bs: seq<SpotBatch>): (ns: seq<nat>)
    ensures |ns| == |bs|
  {
    seq(|bs|, i requires 0 <= i < |bs| => |bs[i].out.labels|)
  }

  function SpotLosses(bs: seq<SpotBatch>): (xs: seq<real>)
    ensures |xs| == |bs|
  {
    seq(|bs|, i requires 0 <= i < |bs| => bs[i].loss)
  }

  function SpotHeads(bs: seq<SpotBatch>): (hs: seq<HeadOutput>)
    ensures |hs| == |bs|
  {
    seq(|bs|, i requires 0 <= i < |bs| => bs[i].out)
  }

  function SpotAccuracies(bs: seq<SpotBatch>, useMix: bool): (xs: seq<real>)
    requires forall i :: 0 <= i < |bs| ==> HeadOk(bs[i].out)
    ensures |xs| == |bs|
  {
    seq(|bs|, i requires 0 <= i < |bs| => assert HeadOk(bs[i].out); HeadAccuracy(bs[i].out, useMix))
  }

  /** `100 * correct / total` as the last batch leaves it, 0 before any batch. */
  function RunningAccuracy(correct: real, total: nat): real
  {
    if total == 0 then 0.0 else 100.0 * correct / (total as real)
  }

  /**
   * The batch loop of `LesionSpotClf.train`: the loss is summed size-weighted
   * and divided by the dataset size; `correct` gains accuracy times batch size
   * (only when CUDA is present), `total` the batch size, and the accuracy is
   * recomputed as `100 * correct / total` after every batch.
   */
  method LesionSpotTrain(aug: Augmentation, bs: seq<SpotBatch>, datasetSize: nat, cuda: bool)
    returns (r: Result<map<MetricKey, real>, AveragingError>)
    requires forall i :: 0 <= i < |bs| ==> HeadOk(bs[i].out)
    ensures r.Err? <==> datasetSize == 0
    ensures r.Ok? ==> r.value.Keys == {Loss, Acc}
    ensures r.Ok? ==> r.value[Loss] == SizeWeightedSum(SpotLosses(bs), SpotSizes(bs)) / (datasetSize as real)
    ensures r.Ok? ==> r.value[Acc] == RunningAccuracy(
      if cuda then SizeWeightedSum(SpotAccuracies(bs, aug == Mixup), SpotSizes(bs)) else 0.0,
      NatSum(SpotSizes(bs)))
  {
    ghost var losses, accs, sizes := SpotLosses(bs), SpotAccuracies(bs, aug == Mixup), SpotSizes(bs);
    var metrics := map[Loss := 0.0, Acc := 0.0];
    var correct := 0.0;
    var total := 0;
    for i := 0 to |bs|
      invariant metrics.Keys == {Loss, Acc}
      invariant metrics[Loss] == SizeWeightedSum(losses[..i], sizes[..i])
      invariant cuda ==> correct == SizeWeightedSum(accs[..i], sizes[..i])
      invariant !cuda ==> correct == 0.0
      invariant total == NatSum(sizes[..i])
      invariant metrics[Acc] == RunningAccuracy(correct, total)
    {
      var b := bs[i];
      assert HeadOk(b.out);
      var n := |b.out.labels|;
      SizeWeightedSnoc(losses, sizes, i);
      NatSumSnoc(sizes, i);
      metrics := metrics[Loss := AddWeighted(metrics[Loss], b.loss, n)];
      if cuda {
        var acc := HeadAccuracy(b.out, aug == Mixup);
        SizeWeightedSnoc(accs, sizes, i);
        correct := AddWeighted(correct, acc, n);
      }
      total := total + n;
      metrics := metrics[Acc := RunningAccuracy(correct, total)];
    }
    assert losses[..|bs|] == losses && sizes[..|bs|] == sizes && accs[..|bs|] == accs;
    if datasetSize == 0 {
      return Err(ZeroDivisionError);
    }
    r := Ok(metrics[Loss := metrics[Loss] / (datasetSize as real)]);
  }

  /**
   * The batch loop of `LesionSpotClf.validation`: as in training, but
   * `correct` counts the matching predictions of every batch whatever the
   * device (both branches of the device test count the same).
   */
  method LesionSpotValidation(bs: seq<SpotBatch>, datasetSize: nat)
    returns (r: Result<map<MetricKey, real>, AveragingError>)
    requires forall i :: 0 <= i < |bs| ==> HeadOk(bs[i].out)
    ensures r.Err? <==> datasetSize == 0
    ensures r.Ok? ==> r.value.Keys == {Loss, Acc}
    ensures r.Ok? ==> r.value[Loss] == SizeWeightedSum(SpotLosses(bs), SpotSizes(bs)) / (datasetSize as real)
    ensures |AllPred(SpotHeads(bs))| == |AllLabels(SpotHeads(bs))|
    ensures r.Ok? ==>
      r.value[Acc] == RunningAccuracy(Matches(AllPred(SpotHeads(bs)), AllLabels(SpotHeads(bs))) as real, |AllLabels(SpotHeads(bs))|)
  {
    ghost var losses, sizes, hs := SpotLosses(bs), SpotSizes(bs), SpotHeads(bs);
    var metrics := map[Loss := 0.0, Acc := 0.0];
    var correct := 0;
    var total := 0;
    for i := 0 to |bs|
      invariant metrics.Keys == {Loss, Acc}
      invariant metrics[Loss] == SizeWeightedSum(losses[..i], sizes[..i])
      invariant |AllPred(hs[..i])| == |AllLabels(hs[..i])| == total
      invariant correct == Matches(AllPred(hs[..i]), AllLabels(hs[..i]))
      invariant metrics[Acc] == RunningAccuracy(correct as real, total)
    {
      var b := bs[i];
      assert HeadOk(b.out);
      var n := |b.out.labels|;
      SizeWeightedSnoc(losses, sizes, i);
      AllSnoc(hs, i);
      MatchesAppend(AllPred(hs[..i]), AllLabels(hs[..i]), b.out.pred, b.out.labels);
      metrics := metrics[Loss := AddWeighted(metrics[Loss], b.loss, n)];
      total := total + n;
      correct := correct + Matches(b.out.pred, b.out.labels);
      metrics := metrics[Acc := RunningAccuracy(correct as real, total)];
    }
    assert losses[..|bs|] == losses && sizes[..|bs|] == sizes && hs[..|bs|] == hs;
    if datasetSize == 0 {
      return Err(ZeroDivisionError);
    }
    r := Ok(metrics[Loss := metrics[Loss] / (datasetSize as real)]);
  }

  /**
   * The two lesion-spot accuracies agree: without mixup and with CUDA, the
   * training loop's size-weighted accuracies count exactly the matches the
   * validation loop counts.
   */
  lemma {:induction false} SpotAccuraciesAgree(bs: seq<SpotBatch>)
    requires forall i :: 0 <= i < |bs| ==> HeadOk(bs[i].out)
    ensures |AllPred(SpotHeads(bs))| == |AllLabels(SpotHeads(bs))| == NatSum(SpotSizes(bs))
    ensures RunningAccuracy(SizeWeightedSum(SpotAccuracies(bs, false), SpotSizes(bs)), NatSum(SpotSizes(bs)))
         == RunningAccuracy(Matches(AllPred(SpotHeads(bs)), AllLabels(SpotHeads(bs))) as real, |AllLabels(SpotHeads(bs))|)
  {
    var hs := SpotHeads(bs);
    assert HeadAccuracies(hs) == SpotAccuracies(bs, false);
    assert HeadSizes(hs) == SpotSizes(bs);
    AllLengths(hs);
    WeightedAccuracyCountsMatches(hs);
  }
}
