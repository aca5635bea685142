/** Sums over sequences of reals and naturals, and the size-weighted sum a batch loop keeps. */
module RealSums {

  /** Python's `sum` of a sequence of reals, accumulated left to right. */
  function Sum(s: seq<real>): real
  {
    if s == [] then 0.0 else Sum(s[..|s| - 1]) + s[|s| - 1]
  }

  /** The sum of a sequence of naturals (the number of examples in a list of batches). */
  function NatSum(ns: seq<nat>): nat
  {
    if ns == [] then 0 else NatSum(ns[..|ns| - 1]) + ns[|ns| - 1]
  }

  /** Extending the prefix by one batch adds that batch's weighted value. */
  lemma {:induction false} SizeWeightedSnoc(xs: seq<real>, ns: seq<nat>, i: nat)
    requires i < |xs| == |ns|
    ensures SizeWeightedSum(xs[..i + 1], ns[..i + 1]) == AddWeighted(SizeWeightedSum(xs[..i], ns[..i]), xs[i], ns[i])
  {
    assert xs[..i + 1][..i] == xs[..i] && ns[..i + 1][..i] == ns[..i];
  }

  /** Extending the prefix by one batch adds that batch's size. */
  lemma {:induction false} NatSumSnoc(ns: seq<nat>, i: nat)
    requires i < |ns|
    ensures NatSum(ns[..i + 1]) == NatSum(ns[..i]) + ns[i]
  {
    assert ns[..i + 1][..i] == ns[..i];
  }

  /** Every element divided by `d` (numpy's `array / scalar`). */
  function Divided(s: seq<real>, d: real): (r: seq<real>)
    requires d != 0.0
    ensures |r| == |s|
  {
    seq(|s|, i requires 0 <= i < |s| => s[i] / d)
  }

  /** `total += value * batch_size`: one batch's contribution to a running total. */
  function AddWeighted(total: real, x: real, n: nat): real
  {
    total + x * (n as real)
  }

  /** `Σ xs[i] * ns[i]`: each per-batch value weighted by the size of its batch. */
  function SizeWeightedSum(xs: seq<real>, ns: seq<nat>): real
    requires |xs| == |ns|
  {
    if xs == [] then 0.0
    else AddWeighted(SizeWeightedSum(xs[..|xs| - 1], ns[..|ns| - 1]), xs[|xs| - 1], ns[|ns| - 1])
  }

  /** A sum of non-negative terms is non-negative, and it is zero exactly when every term is. */
  lemma {:induction false} SumNonNegative(s: seq<real>)
    requires forall i :: 0 <= i < |s| ==> s[i] >= 0.0
    ensures Sum(s) >= 0.0
    ensures Sum(s) == 0.0 <==> forall i :: 0 <= i < |s| ==> s[i] == 0.0
  {
    if s != [] {
      var p := s[..|s| - 1];
      SumNonNegative(p);
      if Sum(s) == 0.0 {
        forall i | 0 <= i < |s| ensures s[i] == 0.0 {
          if i < |s| - 1 { assert p[i] == s[i]; }
        }
      }
      if forall i :: 0 <= i < |s| ==> s[i] == 0.0 {
        assert forall i :: 0 <= i < |p| ==> p[i] == s[i];
      }
    }
  }

  /** Multiplying an element of `Divided(s, d)` back by `d` gives the original element. */
  lemma {:induction false} DividedTimes(s: seq<real>, d: real, i: nat)
    requires d != 0.0 && i < |s|
    ensures Divided(s, d)[i] * d == s[i]
  {
    QuotientTimes(s[i], d);
  }

  lemma QuotientTimes(a: real, d: real)
    requires d != 0.0
    ensures (a / d) * d == a
  {
  }

  /** Dividing every element by `d` divides the sum by `d`. */
  lemma {:induction false} SumDivided(s: seq<real>, d: real)
    requires d != 0.0
    ensures Sum(Divided(s, d)) == Sum(s) / d
  {
    if s != [] {
      var n := |s| - 1;
      var p, x := s[..n], s[n];
      var r := Divided(s, d);
      assert r[..n] == Divided(p, d);
      assert r[n] == x / d;
      assert Sum(r) == Sum(Divided(p, d)) + x / d;
      SumDivided(p, d);
      assert Sum(s) == Sum(p) + x;
      AddQuotients(Sum(p), x, d);
    }
  }

  /** Quotients by a common divisor add up. */
  lemma AddQuotients(a: real, b: real, d: real)
    requires d != 0.0
    ensures a / d + b / d == (a + b) / d
  {
    var q, r := a / d, b / d;
    assert q * d == a && r * d == b;
    assert (q + r) * d == a + b;
  }

  /** When every batch holds `k` examples, the size-weighted sum is `k` times the plain sum. */
  lemma {:induction false} EqualSizesScaleSum(xs: seq<real>, ns: seq<nat>, k: nat)
    requires |xs| == |ns|
    requires forall i :: 0 <= i < |ns| ==> ns[i] == k
    ensures SizeWeightedSum(xs, ns) == (k as real) * Sum(xs)
    ensures NatSum(ns) == k * |ns|
  {
    if xs != [] {
      EqualSizesScaleSum(xs[..|xs| - 1], ns[..|ns| - 1], k);
    }
  }

  /**
   * With equal batch sizes, dividing the size-weighted sum by the number of
   * examples reproduces the unweighted mean of the per-batch values.
   */
  lemma {:induction false} EqualSizesGiveMean(xs: seq<real>, ns: seq<nat>, k: nat)
    requires |xs| == |ns| > 0 && k > 0
    requires forall i :: 0 <= i < |ns| ==> ns[i] == k
    ensures NatSum(ns) > 0
    ensures SizeWeightedSum(xs, ns) / (NatSum(ns) as real) == Sum(xs) / (|xs| as real)
  {
    EqualSizesScaleSum(xs, ns, k);
    var w, total := SizeWeightedSum(xs, ns), NatSum(ns);
    MeanOfScaled(w, Sum(xs), k, |xs|, total);
  }

  lemma {:induction false} MeanOfScaled(w: real, sum: real, k: nat, n: nat, total: nat)
    requires k > 0 && n > 0
    requires w == (k as real) * sum && total == k * n
    ensures total > 0
    ensures w / (total as real) == sum / (n as real)
  {
    IntProductAsReal(k, n);
    CancelFactor(sum, k as real, n as real);
  }

  lemma {:induction false} IntProductAsReal(a: nat, b: nat)
    ensures (a * b) as real == (a as real) * (b as real)
  {
  }

  lemma CancelFactor(a: real, k: real, n: real)
    requires k > 0.0 && n > 0.0
    ensures (k * a) / (k * n) == a / n
  {
    var q := a / n;
    assert q * n == a;
    assert (k * n) * q == k * a;
  }

  /** Per-batch values in [0, 1] weighted by batch size stay within [0, number of examples]. */
  lemma {:induction false} SizeWeightedSumBounds(xs: seq<real>, ns: seq<nat>)
    requires |xs| == |ns|
    requires forall i :: 0 <= i < |xs| ==> 0.0 <= xs[i] <= 1.0
    ensures 0.0 <= SizeWeightedSum(xs, ns) <= NatSum(ns) as real
  {
    if xs != [] {
      var k := |xs| - 1;
      var p, q := xs[..k], ns[..k];
      assert forall i :: 0 <= i < |p| ==> p[i] == xs[i];
      SizeWeightedSumBounds(p, q);
      assert SizeWeightedSum(xs, ns) == AddWeighted(SizeWeightedSum(p, q), xs[k], ns[k]);
      assert NatSum(ns) == NatSum(q) + ns[k];
      AddWeightedBounds(SizeWeightedSum(p, q), NatSum(q), xs[k], ns[k]);
    }
  }

  /** Adding a value in [0, 1] times `n` to a total in [0, t] gives a total in [0, t + n]. */
  lemma AddWeightedBounds(total: real, bound: nat, x: real, n: nat)
    requires 0.0 <= total <= bound as real && 0.0 <= x <= 1.0
    ensures 0.0 <= AddWeighted(total, x, n) <= (bound + n) as real
  {
    var m := n as real;
    assert 0.0 <= x * m <= m by { assert m - x * m == (1.0 - x) * m; }
  }
}
