/**
 * The imbalance-aware sampler: a draw weight per training example, inversely
 * proportional to the size of its class (lesion-spot set) or of its
 * (disease, severity) cell smoothed by a balance factor of 20 (entire-leaf
 * set), normalised to sum to 1.
 */
module Sampling {
  import opened Wrappers
  import opened RealSums

  /** The smoothing constant added to every cell count in the joint case. */
  const BalanceFactor: nat := 20

  /** Classes per label dimension: disease and severity labels both range over 0..4. */
  const Classes: nat := 5

  /** The number of positions of `s` holding `t`. */
  function Count<T(==)>(s: seq<T>, t: T): (n: nat)
    ensures n <= |s|
    ensures n > 0 <==> t in s
  {
    if s == [] then 0
    else
      assert s == s[..|s| - 1] + [s[|s| - 1]];
      Count(s[..|s| - 1], t) + (if s[|s| - 1] == t then 1 else 0)
  }

  /** The indices of `s` holding `t` (`np.where(s == t)[0]`). */
  function IndicesOf<T(==)>(s: seq<T>, t: T): set<int>
  {
    set i | 0 <= i < |s| && s[i] == t
  }

  /** `Count` is the number of indices `np.where` returns. */
  lemma {:induction false} CountIsIndexSetSize<T>(s: seq<T>, t: T)
    ensures Count(s, t) == |IndicesOf(s, t)|
  {
    if s != [] {
      var n := |s| - 1;
      CountIsIndexSetSize(s[..n], t);
      if s[n] == t {
        assert IndicesOf(s, t) == IndicesOf(s[..n], t) + {n};
      } else {
        assert IndicesOf(s, t) == IndicesOf(s[..n], t);
      }
    }
  }

  /** The distinct labels of `s` (`np.unique`). */
  function Labels(s: seq<int>): set<int>
  {
    set x | x in s
  }

  /** `s` with every occurrence of `t` removed; other labels keep their counts. */
  function Without(s: seq<int>, t: int): (r: seq<int>)
    ensures |r| == |s| - Count(s, t)
    ensures forall x :: x in r <==> x in s && x != t
    ensures forall x :: x != t ==> Count(r, x) == Count(s, x)
  {
    if s == [] then []
    else
      var p, last := s[..|s| - 1], s[|s| - 1];
      assert s == p + [last];
      var rest := Without(p, t);
      if last == t then rest
      else
        assert (rest + [last])[..|rest|] == rest;
        rest + [last]
  }

  /**
   * Each element `x` of `s` weighted `c / Count(r, x)`: the mass `c` shared
   * out equally among the occurrences of `x` in the reference sequence `r`.
   */
  function InverseFrequency(s: seq<int>, r: seq<int>, c: real): (w: seq<real>)
    requires forall x :: x in s ==> x in r
    ensures |w| == |s|
  {
    seq(|s|, i requires 0 <= i < |s| => c / (Count(r, s[i]) as real))
  }

  /**
   * The lesion-spot weights before normalisation: example `i` of class `t`
   * gets `1 / (count(t) / total)`, that is `total / count(t)`.
   */
  function SingleLabelWeights(targets: seq<int>): (w: seq<real>)
    ensures |w| == |targets|
  {
    InverseFrequency(targets, targets, |targets| as real)
  }

  /**
   * Every lesion-spot example gets a positive weight; two examples of one class
   * get the same weight, and an example of a smaller class a strictly larger one.
   */
  lemma {:induction false} SingleLabelWeightOrder(targets: seq<int>, i: nat, j: nat)
    requires i < |targets| && j < |targets|
    ensures SingleLabelWeights(targets)[i] > 0.0
    ensures targets[i] == targets[j] ==> SingleLabelWeights(targets)[i] == SingleLabelWeights(targets)[j]
    ensures Count(targets, targets[i]) < Count(targets, targets[j]) ==>
      SingleLabelWeights(targets)[i] > SingleLabelWeights(targets)[j]
  {
    SingleLabelWeightPositive(targets, i);
    SingleLabelWeightDecreasing(targets, i, j);
  }

  lemma {:induction false} SingleLabelWeightPositive(targets: seq<int>, i: nat)
    requires i < |targets|
    ensures SingleLabelWeights(targets)[i] > 0.0
  {
    var w := SingleLabelWeights(targets);
    assert w[i] == (|targets| as real) / (Count(targets, targets[i]) as real);
  }

  lemma {:induction false} SingleLabelWeightDecreasing(targets: seq<int>, i: nat, j: nat)
    requires i < |targets| && j < |targets|
    ensures Count(targets, targets[i]) < Count(targets, targets[j]) ==>
      SingleLabelWeights(targets)[i] > SingleLabelWeights(targets)[j]
  {
    var w := SingleLabelWeights(targets);
    var total := |targets| as real;
    var ci, cj := Count(targets, targets[i]), Count(targets, targets[j]);
    if ci < cj {
      assert w[i] == total / (ci as real);
      assert w[j] == total / (cj as real);
      SmallerDivisorLargerShare(total, ci as real, cj as real);
    }
  }

  lemma SmallerDivisorLargerShare(c: real, a: real, b: real)
    requires c > 0.0 && 0.0 < a < b
    ensures 0.0 < c / b < c / a
  {
    var x, y := c / a, c / b;
    assert x * a == c && y * b == c;
    assert y > 0.0;
    assert y * a < y * b;
    if x <= y {
      assert false;
    }
  }

  /** Appending one element adds its share to the sum. */
  lemma {:induction false} InverseFrequencySnoc(p: seq<int>, x: int, r: seq<int>, c: real)
    requires forall y :: y in p ==> y in r
    requires x in r
    ensures Sum(InverseFrequency(p + [x], r, c)) == Sum(InverseFrequency(p, r, c)) + c / (Count(r, x) as real)
  {
    assert InverseFrequency(p + [x], r, c)[..|p|] == InverseFrequency(p, r, c);
  }

  /** `n` equal shares `x` added one by one. */
  function Times(n: nat, x: real): (r: real)
  {
    if n == 0 then 0.0 else Times(n - 1, x) + x
  }

  /** `n` shares of `c / n` make up `c`. */
  lemma {:induction false} TimesShares(n: nat, c: real)
    requires n > 0
    ensures Times(n, c / (n as real)) == c
  {
    TimesIsProduct(n, c / (n as real));
  }

  /** One more group of mass `x` on top of `n` groups makes `n + 1` of them. */
  lemma {:induction false} TimesSucc(whole: real, rest: real, x: real, n: nat, m: nat)
    requires whole == x + rest && rest == Times(n, x) && m == n + 1
    ensures whole == Times(m, x)
  {
  }

  lemma {:induction false} TimesIsProduct(n: nat, x: real)
    ensures Times(n, x) == (n as real) * x
  {
    if n > 0 {
      TimesIsProduct(n - 1, x);
      assert (n as real) * x == ((n - 1) as real) * x + x;
    }
  }

  /** Splitting off every occurrence of `t`: they contribute `Count(s, t)` equal shares. */
  lemma {:induction false} InverseFrequencySplit(s: seq<int>, r: seq<int>, c: real, t: int)
    requires forall x :: x in s ==> x in r
    requires t in r
    ensures Sum(InverseFrequency(s, r, c))
         == Times(Count(s, t), c / (Count(r, t) as real)) + Sum(InverseFrequency(Without(s, t), r, c))
  {
    if s != [] {
      var p, x := s[..|s| - 1], s[|s| - 1];
      assert s == p + [x];
      var rest := Without(p, t);
      InverseFrequencySplit(p, r, c, t);
      InverseFrequencySnoc(p, x, r, c);
      if x == t {
        assert Without(s, t) == rest;
        assert Count(s, t) == Count(p, t) + 1;
      } else {
        assert Without(s, t) == rest + [x];
        assert Count(s, t) == Count(p, t);
        InverseFrequencySnoc(rest, x, r, c);
      }
    }
  }

  /**
   * When `r` counts every label of `s` as `s` itself does, the inverse
   * frequencies add up to `c` per distinct label.
   */
  lemma {:induction false} InverseFrequencySum(s: seq<int>, r: seq<int>, c: real)
    requires forall x :: x in s ==> x in r && Count(r, x) == Count(s, x)
    ensures Sum(InverseFrequency(s, r, c)) == Times(|Labels(s)|, c)
    decreases |s|
  {
    if s != [] {
      var t := s[|s| - 1];
      assert Count(r, t) == Count(s, t);
      InverseFrequencySplit(s, r, c, t);
      TimesShares(Count(s, t), c);
      var rest := Without(s, t);
      InverseFrequencySum(rest, r, c);
      assert Labels(s) == Labels(rest) + {t};
      assert t !in Labels(rest);
      assert |Labels(s)| == |Labels(rest)| + 1;
      assert Sum(InverseFrequency(s, r, c)) == c + Sum(InverseFrequency(rest, r, c));
      TimesSucc(Sum(InverseFrequency(s, r, c)), Sum(InverseFrequency(rest, r, c)), c, |Labels(rest)|, |Labels(s)|);
    } else {
      assert Labels(s) == {};
    }
  }

  /** The lesion-spot weights sum to `total` times the number of distinct classes. */
  lemma {:induction false} SingleLabelWeightsSum(targets: seq<int>)
    ensures Sum(SingleLabelWeights(targets)) == (|Labels(targets)| as real) * (|targets| as real)
  {
    InverseFrequencySum(targets, targets, |targets| as real);
    TimesIsProduct(|Labels(targets)|, |targets| as real);
  }

  /** Both labels of an entire-leaf example lie on the 5 x 5 grid the sampler visits. */
  predicate InGrid(d: int, s: int)
  {
    0 <= d < Classes && 0 <= s < Classes
  }

  /** The (disease, severity) cell of every example. */
  function Cells(dis: seq<int>, sev: seq<int>): (c: seq<(int, int)>)
    requires |dis| == |sev|
    ensures |c| == |dis|
  {
    seq(|dis|, i requires 0 <= i < |dis| => (dis[i], sev[i]))
  }

  /** `targets_sum`: the number of examples in cell `(d, s)`. */
  function CellCount(dis: seq<int>, sev: seq<int>, d: int, s: int): nat
    requires |dis| == |sev|
  {
    Count(Cells(dis, sev), (d, s))
  }

  /**
   * The entire-leaf weights before normalisation: an example in cell `(d, s)`
   * on the grid gets `1 / ((n + 20) / total)`, that is `total / (n + 20)`, with
   * `n` the size of its cell; an example with a label outside 0..4 keeps the
   * initial 0.
   */
  function JointWeights(dis: seq<int>, sev: seq<int>): (w: seq<real>)
    requires |dis| == |sev|
    ensures |w| == |dis|
  {
    seq(|dis|, i requires 0 <= i < |dis| =>
      if InGrid(dis[i], sev[i])
      then (|dis| as real) / ((CellCount(dis, sev, dis[i], sev[i]) + BalanceFactor) as real)
      else 0.0)
  }

  /**
   * An example off the grid has weight 0; one on the grid a positive weight
   * below `total / 20` (the smoothing keeps sparse cells from near-infinite
   * weight); examples of one cell share a weight, and a smaller cell gets a
   * strictly larger one.
   */
  lemma {:induction false} JointWeightOrder(dis: seq<int>, sev: seq<int>, i: nat, j: nat)
    requires |dis| == |sev| && i < |dis| && j < |dis|
    ensures !InGrid(dis[i], sev[i]) ==> JointWeights(dis, sev)[i] == 0.0
    ensures InGrid(dis[i], sev[i]) ==>
      0.0 < JointWeights(dis, sev)[i] < (|dis| as real) / (BalanceFactor as real)
    ensures dis[i] == dis[j] && sev[i] == sev[j] ==> JointWeights(dis, sev)[i] == JointWeights(dis, sev)[j]
    ensures InGrid(dis[i], sev[i]) && InGrid(dis[j], sev[j])
      && CellCount(dis, sev, dis[i], sev[i]) < CellCount(dis, sev, dis[j], sev[j])
      ==> JointWeights(dis, sev)[i] > JointWeights(dis, sev)[j]
  {
    var total := |dis| as real;
    var ni := (CellCount(dis, sev, dis[i], sev[i]) + BalanceFactor) as real;
    var nj := (CellCount(dis, sev, dis[j], sev[j]) + BalanceFactor) as real;
    if InGrid(dis[i], sev[i]) {
      assert Cells(dis, sev)[i] == (dis[i], sev[i]);
      SmallerDivisorLargerShare(total, BalanceFactor as real, ni);
      if InGrid(dis[j], sev[j]) && ni < nj {
        SmallerDivisorLargerShare(total, ni, nj);
      }
    }
  }

  /** The joint weights have positive mass exactly when some example lies on the grid. */
  lemma {:induction false} JointWeightsMass(dis: seq<int>, sev: seq<int>)
    requires |dis| == |sev|
    ensures Sum(JointWeights(dis, sev)) >= 0.0
    ensures Sum(JointWeights(dis, sev)) > 0.0 <==> exists i :: 0 <= i < |dis| && InGrid(dis[i], sev[i])
  {
    var w := JointWeights(dis, sev);
    forall i | 0 <= i < |w| ensures w[i] >= 0.0 {
      JointWeightOrder(dis, sev, i, i);
    }
    SumNonNegative(w);
    if exists i :: 0 <= i < |dis| && InGrid(dis[i], sev[i]) {
      var i :| 0 <= i < |dis| && InGrid(dis[i], sev[i]);
      JointWeightOrder(dis, sev, i, i);
    }
  }

  /** `samplesWeight / sum(samplesWeight)`. */
  function Normalised(w: seq<real>): (r: seq<real>)
    requires Sum(w) != 0.0
    ensures |r| == |w|
  {
    Divided(w, Sum(w))
  }

  /** Normalising non-negative weights of positive mass gives a probability distribution. */
  lemma {:induction false} NormalisedIsDistribution(w: seq<real>)
    requires forall i :: 0 <= i < |w| ==> w[i] >= 0.0
    requires Sum(w) > 0.0
    ensures forall i :: 0 <= i < |w| ==> Normalised(w)[i] >= 0.0
    ensures Sum(Normalised(w)) == 1.0
  {
    NormalisedSumsToOne(w);
    forall i | 0 <= i < |w| ensures Normalised(w)[i] >= 0.0 {
      NormalisedEntry(w, i);
    }
  }

  /** A normalised weight times the total mass is the raw weight. */
  lemma {:induction false} NormalisedTimesMass(w: seq<real>, i: nat)
    requires Sum(w) != 0.0 && i < |w|
    ensures Normalised(w)[i] * Sum(w) == w[i]
  {
    DividedTimes(w, Sum(w), i);
  }

  /** A non-negative raw weight stays non-negative once normalised. */
  lemma {:induction false} NormalisedEntry(w: seq<real>, i: nat)
    requires Sum(w) > 0.0 && i < |w| && w[i] >= 0.0
    ensures Normalised(w)[i] >= 0.0
  {
    NormalisedTimesMass(w, i);
    QuotientSign(Normalised(w)[i], Sum(w), w[i]);
  }

  lemma {:induction false} NormalisedSumsToOne(w: seq<real>)
    requires Sum(w) > 0.0
    ensures Sum(Normalised(w)) == 1.0
  {
    SumDivided(w, Sum(w));
    SelfQuotient(Sum(w));
  }

  /** A quotient of a non-negative number by a positive one is non-negative. */
  lemma QuotientSign(x: real, m: real, a: real)
    requires m > 0.0 && x * m == a && a >= 0.0
    ensures x >= 0.0
  {
    if x < 0.0 {
      assert false;
    }
  }

  lemma SelfQuotient(m: real)
    requires m > 0.0
    ensures m / m == 1.0
  {
  }

  /**
   * The normalised weight of one example of a class of `n` examples among `k`
   * classes: the class's share `1 / k` split `n` ways.
   */
  function ClassShare(k: nat, n: nat): (r: real)
    requires k > 0 && n > 0
    ensures r > 0.0
  {
    (1.0 / (k as real)) / (n as real)
  }

  /** The `n` examples of a class together get `1 / k` of the draws, whatever `n` is. */
  lemma {:induction false} ClassMass(k: nat, n: nat)
    requires k > 0 && n > 0
    ensures ClassShare(k, n) * (n as real) == 1.0 / (k as real)
  {
    QuotientTimes(1.0 / (k as real), n as real);
  }

  /** An example of a smaller class gets a strictly larger normalised weight. */
  lemma {:induction false} ClassShareOrder(k: nat, a: nat, b: nat)
    requires k > 0 && 0 < a < b
    ensures ClassShare(k, a) > ClassShare(k, b)
  {
    SmallerDivisorLargerShare(1.0 / (k as real), a as real, b as real);
  }

  /**
   * After normalisation an example of class `t` is drawn with weight
   * `(1 / K) / count(t)`, `K` the number of distinct classes: every class gets
   * the same total mass `1 / K` (`ClassMass`), shared equally by its examples.
   */
  lemma {:induction false} SingleLabelNormalised(targets: seq<int>)
    requires |targets| > 0
    ensures |Labels(targets)| > 0
    ensures Sum(SingleLabelWeights(targets)) > 0.0
    ensures Normalised(SingleLabelWeights(targets))
         == InverseFrequency(targets, targets, 1.0 / (|Labels(targets)| as real))
    ensures forall i :: 0 <= i < |targets| ==>
      Normalised(SingleLabelWeights(targets))[i] == ClassShare(|Labels(targets)|, Count(targets, targets[i]))
  {
    SingleLabelMass(targets);
    NormalisedInverseFrequency(targets, |targets| as real);
  }

  /** The lesion-spot mass is `K * total`, positive for a non-empty set. */
  lemma {:induction false} SingleLabelMass(targets: seq<int>)
    requires |targets| > 0
    ensures |Labels(targets)| > 0
    ensures Sum(SingleLabelWeights(targets)) > 0.0
    ensures Sum(SingleLabelWeights(targets)) == (|Labels(targets)| as real) * (|targets| as real)
  {
    SingleLabelWeightsSum(targets);
    assert targets[0] in Labels(targets);
    PositiveProduct(|Labels(targets)| as real, |targets| as real);
  }

  lemma PositiveProduct(a: real, b: real)
    requires a > 0.0 && b > 0.0
    ensures a * b > 0.0
  {
  }

  /**
   * Normalising inverse frequencies of mass `c` per label rescales that mass
   * to `1 / K`, `K` the number of distinct labels.
   */
  lemma {:induction false} NormalisedInverseFrequency(s: seq<int>, c: real)
    requires |s| > 0 && c > 0.0
    ensures |Labels(s)| > 0
    ensures Sum(InverseFrequency(s, s, c)) > 0.0
    ensures Normalised(InverseFrequency(s, s, c)) == InverseFrequency(s, s, 1.0 / (|Labels(s)| as real))
  {
    assert s[0] in Labels(s);
    var k := |Labels(s)|;
    InverseFrequencySum(s, s, c);
    TimesIsProduct(k, c);
    var mass := Sum(InverseFrequency(s, s, c));
    MassShare(c, mass, k as real);
    DividedInverseFrequency(s, s, c, mass);
  }

  /** Dividing inverse frequencies of mass `c` by `d` gives those of mass `c / d`. */
  lemma {:induction false} DividedInverseFrequency(s: seq<int>, r: seq<int>, c: real, d: real)
    requires forall x :: x in s ==> x in r
    requires d != 0.0
    ensures Divided(InverseFrequency(s, r, c), d) == InverseFrequency(s, r, c / d)
  {
    var w := InverseFrequency(s, r, c);
    forall i | 0 <= i < |s|
      ensures Divided(w, d)[i] == InverseFrequency(s, r, c / d)[i]
    {
      assert s[i] in s;
      var n := Count(r, s[i]) as real;
      QuotientSwap(c, n, d);
    }
  }

  /** `(c / n) / d == (c / d) / n`. */
  lemma QuotientSwap(c: real, n: real, d: real)
    requires n != 0.0 && d != 0.0
    ensures (c / n) / d == (c / d) / n
  {
    var x, y := (c / n) / d, (c / d) / n;
    assert x * d == c / n;
    assert (x * d) * n == c;
    assert (y * n) * d == c;
    Cancel2(x, y, d * n);
  }

  /** A common non-zero factor cancels. */
  lemma Cancel2(a: real, b: real, x: real)
    requires x != 0.0 && a * x == b * x
    ensures a == b
  {
    if a != b {
      assert false;
    }
  }

  /** A mass of `k * c` divides `c` into `1 / k`. */
  lemma MassShare(c: real, mass: real, k: real)
    requires c > 0.0 && k > 0.0 && mass == k * c
    ensures mass > 0.0
    ensures c / mass == 1.0 / k
  {
    PositiveProduct(k, c);
    CancelFactor(1.0, c, k);
    assert c * 1.0 == c && c * k == mass;
  }

  /** `1 / (a / b)` as the source writes it is `b / a`. */
  lemma InverseOfRatio(a: real, b: real)
    requires a > 0.0 && b > 0.0
    ensures 1.0 / (a / b) == b / a
  {
    var q := a / b;
    assert q * b == a;
    var r := b / a;
    assert r * a == b;
    assert r * q == 1.0;
  }

  /**
   * The joint fill of `sampler` (classifier/classifiers-backup.py, lines 63-70): a zeroed array, then for every cell
   * `(d, s)` of the 5 x 5 grid the weight `1 / ((targets_sum + 20) / total)`
   * written at the indices of that cell.
   */
  method FillJointWeights(w: array<real>, dis: seq<int>, sev: seq<int>)
    requires w.Length == |dis| == |sev| > 0
    requires forall i :: 0 <= i < w.Length ==> w[i] == 0.0
    modifies w
    ensures w[..] == JointWeights(dis, sev)
  {
    var total := |dis|;
    ghost var spec := JointWeights(dis, sev);
    for d := 0 to Classes
      invariant forall i :: 0 <= i < total ==>
        w[i] == if InGrid(dis[i], sev[i]) && dis[i] < d then spec[i] else 0.0
    {
      for s := 0 to Classes
        invariant forall i :: 0 <= i < total ==>
          w[i] == if InGrid(dis[i], sev[i]) && (dis[i] < d || (dis[i] == d && sev[i] < s)) then spec[i] else 0.0
      {
        var idx := set i | 0 <= i < total && dis[i] == d && sev[i] == s;
        ghost var cells := Cells(dis, sev);
        assert idx == IndicesOf(cells, (d, s));
        CountIsIndexSetSize(cells, (d, s));
        var targetsSum := |idx|;
        InverseOfRatio((targetsSum + BalanceFactor) as real, total as real);
        var weight := 1.0 / (((targetsSum + BalanceFactor) as real) / (total as real));
        forall i | i in idx {
          w[i] := weight;
        }
      }
    }
    assert forall i :: 0 <= i < total ==> w[..][i] == spec[i];
  }

  /**
   * The single-label fill of `sampler` (classifier/classifiers-backup.py, lines 77-82): a zeroed array, then for every
   * distinct label `t` the weight `1 / (len(idx) / total)` written at its indices.
   */
  method FillSingleLabelWeights(w: array<real>, targets: seq<int>)
    requires w.Length == |targets|
    requires forall i :: 0 <= i < w.Length ==> w[i] == 0.0
    modifies w
    ensures w[..] == SingleLabelWeights(targets)
  {
    var total := |targets|;
    ghost var spec := SingleLabelWeights(targets);
    var remaining := Labels(targets);
    while remaining != {}
      invariant remaining <= Labels(targets)
      invariant forall i :: 0 <= i < total ==> w[i] == if targets[i] in remaining then 0.0 else spec[i]
      decreases remaining
    {
      var next := LeastRemaining(targets, remaining);
      assert next.Some? by {
        var u :| u in remaining;
        assert u in Labels(targets);
      }
      var t := next.value;
      var idx := set i | 0 <= i < total && targets[i] == t;
      assert idx == IndicesOf(targets, t);
      CountIsIndexSetSize(targets, t);
      assert t in targets;
      InverseOfRatio(|idx| as real, total as real);
      var weight := 1.0 / ((|idx| as real) / (total as real));
      forall i | i in idx {
        w[i] := weight;
      }
      remaining := remaining - {t};
    }
    assert forall i :: 0 <= i < total ==> w[..][i] == spec[i];
  }

  /**
   * The smallest element of `s` still in `remaining`, if any: `np.unique`
   * hands out the labels in ascending order.
   */
  function LeastRemaining(s: seq<int>, remaining: set<int>): (m: Option<int>)
    ensures m.None? <==> forall k :: 0 <= k < |s| ==> s[k] !in remaining
    ensures m.Some? ==> m.value in remaining && m.value in s
    ensures m.Some? ==> forall k :: 0 <= k < |s| && s[k] in remaining ==> m.value <= s[k]
  {
    if s == [] then None
    else
      var p, x := s[..|s| - 1], s[|s| - 1];
      assert s == p + [x];
      var m := LeastRemaining(p, remaining);
      if x !in remaining then m
      else if m.Some? && m.value < x then m
      else Some(x)
  }

  /** The training set as the sampler reads it. */
  datatype Dataset =
    | CoffeeLeaves(disease: seq<int>, severity: seq<int>)  // `dataset.data`: columns 1 and -1
    | ImageFolder(targets: seq<int>)                        // `dataset.samples`: the class of each image

  function Size(ds: Dataset): nat
  {
    match ds
    case CoffeeLeaves(dis, _) => |dis|
    case ImageFolder(targets) => |targets|
  }

  predicate WellFormed(ds: Dataset)
  {
    ds.CoffeeLeaves? ==> |ds.disease| == |ds.severity|
  }

  /** The weights the sampler fills in before normalising. */
  function RawWeights(ds: Dataset): seq<real>
    requires WellFormed(ds)
  {
    match ds
    case CoffeeLeaves(dis, sev) => JointWeights(dis, sev)
    case ImageFolder(targets) => SingleLabelWeights(targets)
  }

  /** The exceptions (or invalid values) the sampler can produce. */
  datatype SamplerError =
    | ZeroDivisionError   // `(targets_sum + 20) / total` with an empty entire-leaf set
    | NotANumberWeights   // `0 / 0` in numpy when no entire-leaf example lies on the grid

  /** What `WeightedRandomSampler(samplesWeight, len(samplesWeight))` is built from. */
  datatype WeightedDraw = WeightedDraw(weights: seq<real>, numSamples: nat)

  /**
   * `sampler(dataset, opt)`: the normalised draw weights and the number of
   * draws, which is the size of the training set.
   */
  method Sampler(selectClassifier: int, ds: Dataset) returns (r: Result<WeightedDraw, SamplerError>)
    requires selectClassifier == 1 <==> ds.CoffeeLeaves?
    requires WellFormed(ds)
    ensures r == Err(ZeroDivisionError) <==> ds.CoffeeLeaves? && Size(ds) == 0
    ensures r == Err(NotANumberWeights) <==> Size(ds) > 0 && Sum(RawWeights(ds)) == 0.0
    ensures r.Ok? ==> r.value.numSamples == |r.value.weights| == Size(ds)
    ensures r.Ok? && Size(ds) > 0 ==> Sum(RawWeights(ds)) > 0.0 && r.value.weights == Normalised(RawWeights(ds))
    ensures r.Ok? ==> forall i :: 0 <= i < |r.value.weights| ==> r.value.weights[i] >= 0.0
    ensures r.Ok? && Size(ds) > 0 ==> Sum(r.value.weights) == 1.0
  {
    var total := Size(ds);
    var samplesWeight := new real[total](_ => 0.0);
    if selectClassifier == 1 {
      if total == 0 {
        return Err(ZeroDivisionError);
      }
      FillJointWeights(samplesWeight, ds.disease, ds.severity);
    } else {
      FillSingleLabelWeights(samplesWeight, ds.targets);
    }
    var raw := samplesWeight[..];
    assert raw == RawWeights(ds);
    RawWeightsMass(ds);
    var mass := Sum(raw);
    if mass == 0.0 {
      if total > 0 {
        return Err(NotANumberWeights);
      }
      return Ok(WeightedDraw([], 0));
    }
    NormalisedIsDistribution(raw);
    var weights := Divided(raw, mass);
    r := Ok(WeightedDraw(weights, |weights|));
  }

  /**
   * The raw weights are non-negative, one per example; their mass is zero
   * only for an empty set or an entire-leaf set with no example on the grid.
   */
  lemma {:induction false} RawWeightsMass(ds: Dataset)
    requires WellFormed(ds)
    ensures |RawWeights(ds)| == Size(ds)
    ensures forall i :: 0 <= i < |RawWeights(ds)| ==> RawWeights(ds)[i] >= 0.0
    ensures Sum(RawWeights(ds)) >= 0.0
    ensures Sum(RawWeights(ds)) == 0.0 <==>
      Size(ds) == 0 || (ds.CoffeeLeaves? && forall i :: 0 <= i < Size(ds) ==> !InGrid(ds.disease[i], ds.severity[i]))
  {
    var w := RawWeights(ds);
    match ds
    case CoffeeLeaves(dis, sev) =>
      JointWeightsMass(dis, sev);
      forall i | 0 <= i < |w| ensures w[i] >= 0.0 {
        JointWeightOrder(dis, sev, i, i);
      }
    case ImageFolder(targets) =>
      forall i | 0 <= i < |w| ensures w[i] >= 0.0 {
        SingleLabelWeightOrder(targets, i, i);
      }
      SumNonNegative(w);
      if |targets| > 0 {
        SingleLabelMass(targets);
      }
  }
}
