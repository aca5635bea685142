/**
 * The step learning-rate schedule of `adjust_learning_rate`: for SGD the
 * learning rate of epoch `e` is `lr_values[min(floor(e / step), 5)]` with
 * `step = round(epochs / 5)`, written into every param group of the optimiser.
 */
module Schedule {
  import opened Wrappers
  import opened Config

  /** `lr_values` of the SGD schedule, largest first. */
  const LrValues: seq<real> := [0.01, 0.005, 0.001, 0.0005, 0.0001]

  /** The exceptions the schedule can raise. */
  datatype LrError = ZeroDivisionError | IndexError

  function MinInt(a: int, b: int): int { if a <= b then a else b }

  function MaxInt(a: int, b: int): int { if a <= b then b else a }

  /** Python's `round(num / den)` for a positive denominator: the nearest integer, ties to the even one. */
  function RoundHalfEven(num: int, den: int): (r: int)
    requires den > 0
    ensures -den <= 2 * (num - r * den) <= den
    ensures 2 * (num - r * den) == den || 2 * (num - r * den) == -den ==> r % 2 == 0
  {
    var q, m := num / den, num % den;
    assert num == q * den + m;
    assert num - (q + 1) * den == m - den;
    if 2 * m < den then q
    else if 2 * m > den then q + 1
    else if q % 2 == 0 then q
    else q + 1
  }

  /** `step = round(opt.epochs / 5)`. */
  function Step(epochs: int): int
  {
    RoundHalfEven(epochs, 5)
  }

  /** Five is odd, so no tie arises and the step is `(epochs + 2) div 5`. */
  lemma StepClosedForm(epochs: int)
    ensures Step(epochs) == (epochs + 2) / 5
  {
    var q, m := epochs / 5, epochs % 5;
    assert epochs == 5 * q + m;
    if m <= 2 {
      assert (epochs + 2) / 5 == q by { assert epochs + 2 == 5 * q + (m + 2); }
    } else {
      assert (epochs + 2) / 5 == q + 1 by { assert epochs + 2 == 5 * (q + 1) + (m - 3); }
    }
  }

  /**
   * The learning rate the SGD branch sets at `epoch` (`0 <= epoch < epochs`,
   * as the training loop calls it), or the exception it raises: division by
   * a zero step, or an index one past the end of `lr_values`.
   */
  function ScheduledLr(epoch: nat, epochs: int): Result<real, LrError>
    requires epoch < epochs
  {
    var step := Step(epochs);
    if step == 0 then Err(ZeroDivisionError)
    else
      var idx := MinInt(epoch / step, |LrValues|);
      if idx < |LrValues| then Ok(LrValues[idx]) else Err(IndexError)
  }

  lemma {:induction false} DivBelowIff(e: nat, step: int, k: nat)
    requires step > 0
    ensures e / step < k <==> e < k * step
  {
    var q, m := e / step, e % step;
    assert e == q * step + m;
    if q < k {
      assert q + 1 <= k;
      assert (q + 1) * step <= k * step;
    } else {
      assert q * step >= k * step;
    }
  }

  lemma {:induction false} DivMonotone(a: nat, b: nat, step: int)
    requires step > 0 && a <= b
    ensures a / step <= b / step
  {
    assert (a / step) * step <= a by { assert a == (a / step) * step + a % step; }
    DivBelowIff(b, step, a / step);
  }

  /**
   * The lookup succeeds exactly when the step is positive and `epoch < 5 * step`;
   * a zero step raises ZeroDivisionError, otherwise the failure is IndexError.
   */
  lemma {:induction false} ScheduledLrDefinedIff(epoch: nat, epochs: int)
    requires epoch < epochs
    ensures ScheduledLr(epoch, epochs).Ok? <==> Step(epochs) > 0 && epoch < 5 * Step(epochs)
    ensures Step(epochs) == 0 ==> ScheduledLr(epoch, epochs) == Err(ZeroDivisionError)
    ensures Step(epochs) > 0 && epoch >= 5 * Step(epochs) ==> ScheduledLr(epoch, epochs) == Err(IndexError)
  {
    StepClosedForm(epochs);
    var step := Step(epochs);
    if step > 0 {
      DivBelowIff(epoch, step, |LrValues|);
    }
  }

  /** Every defined learning rate is one of `lr_values`, and the first epoch gets the largest. */
  lemma {:induction false} ScheduledLrValues(epoch: nat, epochs: int)
    requires epoch < epochs
    requires ScheduledLr(epoch, epochs).Ok?
    ensures ScheduledLr(epoch, epochs).value in LrValues
    ensures epoch == 0 ==> ScheduledLr(epoch, epochs).value == LrValues[0]
  {
    ScheduledLrDefinedIff(epoch, epochs);
    assert 0 / Step(epochs) == 0;
  }

  /** The schedule index never decreases with the epoch, so the learning rate never increases. */
  lemma {:induction false} ScheduledLrNonIncreasing(e1: nat, e2: nat, epochs: int)
    requires e1 <= e2 < epochs
    requires ScheduledLr(e2, epochs).Ok?
    ensures ScheduledLr(e1, epochs).Ok?
    ensures ScheduledLr(e2, epochs).value <= ScheduledLr(e1, epochs).value
  {
    ScheduledLrDefinedIff(e1, epochs);
    ScheduledLrDefinedIff(e2, epochs);
    CorrectedLrAgrees(e1, epochs);
    CorrectedLrAgrees(e2, epochs);
    CorrectedLrNonIncreasing(e1, e2, epochs);
  }

  /**
   * Every epoch of a run of `epochs` epochs gets a learning rate exactly when
   * `epochs mod 5` is neither 1 nor 2; otherwise the run raises at the epoch
   * `5 * step` (IndexError) or at once (ZeroDivisionError, one or two epochs).
   */
  lemma {:induction false} RunScheduleDefinedIff(epochs: int)
    requires epochs > 0
    ensures (forall e: nat :: e < epochs ==> ScheduledLr(e, epochs).Ok?) <==> epochs % 5 != 1 && epochs % 5 != 2
  {
    StepClosedForm(epochs);
    var step := Step(epochs);
    var last: nat := epochs - 1;
    ScheduledLrDefinedIff(last, epochs);
    if epochs % 5 != 1 && epochs % 5 != 2 {
      assert step > 0 && last < 5 * step;
      forall e: nat | e < epochs ensures ScheduledLr(e, epochs).Ok? {
        ScheduledLrNonIncreasing(e, last, epochs);
      }
    } else {
      assert !ScheduledLr(last, epochs).Ok?;
    }
  }

  /** Twelve epochs give step 2, and epoch 10 asks for `lr_values[5]`. */
  lemma IndexOverrunAtTwelveEpochs()
    ensures Step(12) == 2
    ensures ScheduledLr(10, 12) == Err(IndexError)
  {
    StepClosedForm(12);
  }

  /** Two epochs give step 0, and the very first epoch divides by it. */
  lemma ZeroStepAtTwoEpochs()
    ensures Step(2) == 0
    ensures ScheduledLr(0, 2) == Err(ZeroDivisionError)
  {
    StepClosedForm(2);
  }

  /**
   * The evidently intended schedule: a step of at least one epoch and the
   * index held at the last entry of `lr_values`, so that every epoch is served.
   */
  function CorrectedLr(epoch: nat, epochs: int): (lr: real)
    ensures lr in LrValues
  {
    var step := MaxInt(Step(epochs), 1);
    LrValues[MinInt(epoch / step, |LrValues| - 1)]
  }

  /** Wherever the schedule as written is defined, the corrected one gives the same rate. */
  lemma {:induction false} CorrectedLrAgrees(epoch: nat, epochs: int)
    requires epoch < epochs
    requires ScheduledLr(epoch, epochs).Ok?
    ensures ScheduledLr(epoch, epochs) == Ok(CorrectedLr(epoch, epochs))
  {
    ScheduledLrDefinedIff(epoch, epochs);
    DivBelowIff(epoch, Step(epochs), |LrValues|);
  }

  /** The corrected schedule starts at the base rate and never increases. */
  lemma {:induction false} CorrectedLrNonIncreasing(e1: nat, e2: nat, epochs: int)
    requires e1 <= e2
    ensures CorrectedLr(0, epochs) == LrValues[0]
    ensures CorrectedLr(e2, epochs) <= CorrectedLr(e1, epochs)
  {
    var step := MaxInt(Step(epochs), 1);
    assert 0 / step == 0;
    DivMonotone(e1, e2, step);
  }

  /** The learning rate a new optimiser starts with: SGD 0.01, Adam 0.001. */
  function InitialLr(kind: OptimizerKind): real
  {
    if kind == Sgd then 0.01 else 0.001
  }

  /** The optimiser's param groups, each reduced to the learning rate it holds (`param_group['lr']`). */
  class Optimizer {
    const kind: OptimizerKind
    const groupLr: array<real>

    /** `torch.optim.SGD(..., lr=0.01)` or `torch.optim.Adam(..., lr=0.001)` over `groups` param groups. */
    constructor (kind: OptimizerKind, groups: nat)
      ensures this.kind == kind && fresh(groupLr) && groupLr.Length == groups
      ensures forall g :: 0 <= g < groups ==> groupLr[g] == InitialLr(kind)
    {
      this.kind := kind;
      groupLr := new real[groups](_ => InitialLr(kind));
    }
  }

  /**
   * `adjust_learning_rate(optimizer, epoch, opt)`: SGD writes the scheduled
   * rate into every param group, or raises and writes nothing; any other
   * optimiser is left as it is.
   */
  method AdjustLearningRate(optimizer: Optimizer, epoch: nat, epochs: int) returns (r: Result<(), LrError>)
    requires epoch < epochs
    modifies optimizer.groupLr
    ensures optimizer.kind == Adam ==> r == Ok(()) && unchanged(optimizer.groupLr)
    ensures optimizer.kind == Sgd && ScheduledLr(epoch, epochs).Err? ==>
      r == Err(ScheduledLr(epoch, epochs).error) && unchanged(optimizer.groupLr)
    ensures optimizer.kind == Sgd && ScheduledLr(epoch, epochs).Ok? ==>
      r == Ok(()) &&
      forall g :: 0 <= g < optimizer.groupLr.Length ==> optimizer.groupLr[g] == ScheduledLr(epoch, epochs).value
  {
    if optimizer.kind == Sgd {
      var scheduled := ScheduledLr(epoch, epochs);
      if scheduled.Err? {
        return Err(scheduled.error);
      }
      var groups := optimizer.groupLr;
      for g := 0 to groups.Length
        invariant forall h :: 0 <= h < g ==> groups[h] == scheduled.value
      {
        groups[g] := scheduled.value;
      }
    }
    r := Ok(());
  }
}
