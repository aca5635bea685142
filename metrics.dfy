/**
 * Accuracy as `eval_metrics` computes it: the fraction of positions where the
 * prediction equals the label, and under mixup the lambda-weighted blend of the
 * accuracies against the two label vectors.
 */
module Metrics {
  import opened Wrappers
  import opened RealSums

  /** The number of positions where prediction and label agree (`(pred == labels).sum()`). */
  function Matches(pred: seq<int>, truth: seq<int>): (n: nat)
    requires |pred| == |truth|
    ensures n <= |truth|
  {
    if truth == [] then 0
    else
      Matches(pred[..|pred| - 1], truth[..|truth| - 1])
      + (if pred[|pred| - 1] == truth[|truth| - 1] then 1 else 0)
  }

  /** The set of positions where prediction and label agree. */
  ghost function Agreeing(pred: seq<int>, truth: seq<int>): set<nat>
    requires |pred| == |truth|
  {
    set i: nat | i < |truth| && pred[i] == truth[i]
  }

  /** `Matches` counts exactly the agreeing positions. */
  lemma {:induction false} MatchesCountsAgreement(pred: seq<int>, truth: seq<int>)
    requires |pred| == |truth|
    ensures Matches(pred, truth) == |Agreeing(pred, truth)|
  {
    if truth != [] {
      var n := |truth| - 1;
      MatchesCountsAgreement(pred[..n], truth[..n]);
      var before := Agreeing(pred[..n], truth[..n]);
      if pred[n] == truth[n] {
        assert Agreeing(pred, truth) == before + {n};
      } else {
        assert Agreeing(pred, truth) == before;
      }
    }
  }

  /** All positions agree exactly when the count is full; none agree exactly when it is zero. */
  lemma {:induction false} MatchesExtremes(pred: seq<int>, truth: seq<int>)
    requires |pred| == |truth|
    ensures Matches(pred, truth) == |truth| <==> forall i :: 0 <= i < |truth| ==> pred[i] == truth[i]
    ensures Matches(pred, truth) == 0 <==> forall i :: 0 <= i < |truth| ==> pred[i] != truth[i]
  {
    if truth != [] {
      var n := |truth| - 1;
      MatchesExtremes(pred[..n], truth[..n]);
      assert forall i :: 0 <= i < n ==> pred[..n][i] == pred[i] && truth[..n][i] == truth[i];
    }
  }

  /** Counting agreements over two concatenated batches adds the two counts. */
  lemma {:induction false} MatchesAppend(p1: seq<int>, t1: seq<int>, p2: seq<int>, t2: seq<int>)
    requires |p1| == |t1| && |p2| == |t2|
    ensures Matches(p1 + p2, t1 + t2) == Matches(p1, t1) + Matches(p2, t2)
  {
    if t2 != [] {
      var n := |t2| - 1;
      MatchesAppend(p1, t1, p2[..n], t2[..n]);
      assert (p1 + p2)[..|p1| + n] == p1 + p2[..n];
      assert (t1 + t2)[..|t1| + n] == t1 + t2[..n];
    } else {
      assert p1 + p2 == p1 && t1 + t2 == t1;
    }
  }

  /** `accuracy_score(y_true, y_pred)`: the fraction of agreeing positions. */
  function Accuracy(yTrue: seq<int>, yPred: seq<int>): (acc: real)
    requires |yPred| == |yTrue| > 0
    ensures 0.0 <= acc <= 1.0
  {
    Matches(yPred, yTrue) as real / |yTrue| as real
  }

  /**
   * The accuracy times the number of labels is the number of agreeing
   * positions; it is 1 exactly when every prediction is right and 0 exactly
   * when every prediction is wrong.
   */
  lemma {:induction false} AccuracyCounts(yTrue: seq<int>, yPred: seq<int>)
    requires |yPred| == |yTrue| > 0
    ensures Accuracy(yTrue, yPred) * (|yTrue| as real) == Matches(yPred, yTrue) as real
    ensures Accuracy(yTrue, yPred) == 1.0 <==> forall i :: 0 <= i < |yTrue| ==> yPred[i] == yTrue[i]
    ensures Accuracy(yTrue, yPred) == 0.0 <==> forall i :: 0 <= i < |yTrue| ==> yPred[i] != yTrue[i]
  {
    MatchesExtremes(yPred, yTrue);
    var m, n := Matches(yPred, yTrue) as real, |yTrue| as real;
    QuotientFacts(m, n);
  }

  /**
   * Adding a batch's accuracy times its size to a running count of correct
   * predictions adds the batch's number of correct predictions.
   */
  lemma {:induction false} AccuracyWeightedCount(yTrue: seq<int>, yPred: seq<int>, before: nat)
    requires |yPred| == |yTrue| > 0
    ensures AddWeighted(before as real, Accuracy(yTrue, yPred), |yTrue|) == (before + Matches(yPred, yTrue)) as real
  {
    AccuracyCounts(yTrue, yPred);
  }

  /** `q = m / n` times `n` is `m`; it is 1 exactly when `m == n` and 0 exactly when `m == 0`. */
  lemma QuotientFacts(m: real, n: real)
    requires n > 0.0
    ensures (m / n) * n == m
    ensures m / n == 1.0 <==> m == n
    ensures m / n == 0.0 <==> m == 0.0
  {
  }

  /** The b-side labels and the blend coefficient lambda of a mixup batch. */
  datatype MixupLabels = MixupLabels(yTrueB: seq<int>, lam: real)

  function Min(a: real, b: real): real { if a <= b then a else b }

  function Max(a: real, b: real): real { if a <= b then b else a }

  /** A convex blend of two values lies between them. */
  lemma BlendBetween(a: real, b: real, lam: real)
    requires 0.0 <= lam <= 1.0
    ensures Min(a, b) <= lam * a + (1.0 - lam) * b <= Max(a, b)
  {
    var d := a - b;
    assert lam * a + (1.0 - lam) * b == b + lam * d;
    if d >= 0.0 {
      assert 0.0 <= lam * d <= d by { assert d - lam * d == (1.0 - lam) * d; }
      assert Min(a, b) == b && b + d == a && Max(a, b) == a;
    } else {
      assert d <= lam * d <= 0.0 by { assert lam * d - d == (1.0 - lam) * (-d); }
      assert Min(a, b) == a && b + d == a && Max(a, b) == b;
      assert a <= b + lam * d;
    }
  }

  /**
   * `eval_metrics(metric, y_pred, y_true, y2_true, lam)`: only 'acc' is known;
   * without mixup it is the accuracy against `y_true`, with mixup the blend
   * `lam * acc(y_true) + (1 - lam) * acc(y2_true)`; any other metric is None.
   */
  function EvalMetrics(metric: string, yPred: seq<int>, yTrue: seq<int>, mixup: Option<MixupLabels>): (r: Option<real>)
    requires |yPred| == |yTrue| > 0
    requires mixup.Some? ==> |mixup.value.yTrueB| == |yTrue|
    ensures r.Some? <==> metric == "acc"
  {
    if metric != "acc" then None
    else match mixup
      case None => Some(Accuracy(yTrue, yPred))
      case Some(MixupLabels(yTrueB, lam)) =>
        Some(lam * Accuracy(yTrue, yPred) + (1.0 - lam) * Accuracy(yTrueB, yPred))
  }

  /**
   * Without mixup the metric is the accuracy; with mixup and a coefficient in
   * [0, 1] it lies between the two accuracies, so in [0, 1]; the extreme
   * coefficients and identical label vectors give back a plain accuracy.
   */
  lemma {:induction false} EvalMetricsRange(metric: string, yPred: seq<int>, yTrue: seq<int>, mixup: Option<MixupLabels>)
    requires |yPred| == |yTrue| > 0
    requires mixup.Some? ==> |mixup.value.yTrueB| == |yTrue|
    ensures var r := EvalMetrics(metric, yPred, yTrue, mixup);
      && (r.Some? && mixup.None? ==> r.value == Accuracy(yTrue, yPred))
      && (r.Some? && mixup.Some? && 0.0 <= mixup.value.lam <= 1.0 ==>
           var accA, accB := Accuracy(yTrue, yPred), Accuracy(mixup.value.yTrueB, yPred);
           Min(accA, accB) <= r.value <= Max(accA, accB) && 0.0 <= r.value <= 1.0)
      && (r.Some? && mixup.Some? && mixup.value.lam == 1.0 ==> r.value == Accuracy(yTrue, yPred))
      && (r.Some? && mixup.Some? && mixup.value.lam == 0.0 ==> r.value == Accuracy(mixup.value.yTrueB, yPred))
      && (r.Some? && mixup.Some? && mixup.value.yTrueB == yTrue ==> r.value == Accuracy(yTrue, yPred))
  {
    if metric == "acc" && mixup.Some? {
      var accA, accB := Accuracy(yTrue, yPred), Accuracy(mixup.value.yTrueB, yPred);
      var lam := mixup.value.lam;
      if 0.0 <= lam <= 1.0 {
        BlendBetween(accA, accB, lam);
      }
      assert lam * accA + (1.0 - lam) * accA == accA;
    }
  }
}
