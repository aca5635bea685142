/**
 * `get_n_params`: the number of parameter values of a model, the sum over its
 * parameter tensors of the product of each tensor's dimensions. The model is
 * reduced to the list of its parameters' shapes (`p.size()`).
 */
module Parameters {

  /** The number of elements of a tensor of shape `shape`: the product of its dimensions, 1 for a scalar. */
  function Numel(shape: seq<nat>): nat
  {
    if shape == [] then 1 else Numel(shape[..|shape| - 1]) * shape[|shape| - 1]
  }

  /** The number of elements of all the tensors, taken in order. */
  function TotalParams(shapes: seq<seq<nat>>): nat
  {
    if shapes == [] then 0 else TotalParams(shapes[..|shapes| - 1]) + Numel(shapes[|shapes| - 1])
  }

  /**
   * `get_n_params` once the shapes are loaded: `pp` sums, over the parameters,
   * the product `nn` of each one's dimensions.
   */
  method GetNParams(shapes: seq<seq<nat>>) returns (pp: nat)
    ensures pp == TotalParams(shapes)
  {
    pp := 0;
    for i := 0 to |shapes|
      invariant pp == TotalParams(shapes[..i])
    {
      var shape := shapes[i];
      var nn := 1;
      for j := 0 to |shape|
        invariant nn == Numel(shape[..j])
      {
        assert shape[..j + 1][..j] == shape[..j];
        nn := nn * shape[j];
      }
      assert shape[..|shape|] == shape;
      assert shapes[..i + 1][..i] == shapes[..i];
      pp := pp + nn;
    }
    assert shapes[..|shapes|] == shapes;
  }

  /** A tensor has no elements exactly when one of its dimensions is zero. */
  lemma {:induction false} NumelZeroIff(shape: seq<nat>)
    ensures Numel(shape) == 0 <==> 0 in shape
  {
    if shape != [] {
      var p := shape[..|shape| - 1];
      NumelZeroIff(p);
      assert shape == p + [shape[|shape| - 1]];
    }
  }

  /** Joining two shapes multiplies their element counts. */
  lemma {:induction false} NumelAppend(a: seq<nat>, b: seq<nat>)
    ensures Numel(a + b) == Numel(a) * Numel(b)
  {
    if b != [] {
      var n := |b| - 1;
      NumelAppend(a, b[..n]);
      assert (a + b)[..|a| + n] == a + b[..n];
      assert Numel(a + b) == Numel(a + b[..n]) * b[n];
      assert Numel(a + b[..n]) * b[n] == Numel(a) * (Numel(b[..n]) * b[n]);
    } else {
      assert a + b == a;
    }
  }

  /** The count over two lists of parameters is the sum of their counts. */
  lemma {:induction false} TotalParamsAppend(a: seq<seq<nat>>, b: seq<seq<nat>>)
    ensures TotalParams(a + b) == TotalParams(a) + TotalParams(b)
  {
    if b != [] {
      var n := |b| - 1;
      TotalParamsAppend(a, b[..n]);
      assert (a + b)[..|a| + n] == a + b[..n];
    } else {
      assert a + b == a;
    }
  }

  /**
   * Every tensor contributes its own count: the total is at least each
   * tensor's count, and it is zero exactly when every tensor has a zero
   * dimension.
   */
  lemma {:induction false} TotalParamsBounds(shapes: seq<seq<nat>>)
    ensures forall i :: 0 <= i < |shapes| ==> Numel(shapes[i]) <= TotalParams(shapes)
    ensures TotalParams(shapes) == 0 <==> forall i :: 0 <= i < |shapes| ==> 0 in shapes[i]
  {
    if shapes != [] {
      var n := |shapes| - 1;
      var p := shapes[..n];
      TotalParamsBounds(p);
      assert forall i :: 0 <= i < n ==> p[i] == shapes[i];
      NumelZeroIff(shapes[n]);
      forall i | 0 <= i < n ensures 0 in shapes[i] <==> Numel(shapes[i]) == 0 {
        NumelZeroIff(shapes[i]);
      }
    }
  }

  /** With no zero dimension anywhere, every tensor holds at least one value. */
  lemma {:induction false} TotalParamsAtLeastCount(shapes: seq<seq<nat>>)
    requires forall i :: 0 <= i < |shapes| ==> 0 !in shapes[i]
    ensures TotalParams(shapes) >= |shapes|
  {
    if shapes != [] {
      var n := |shapes| - 1;
      var p := shapes[..n];
      assert forall i :: 0 <= i < n ==> p[i] == shapes[i];
      TotalParamsAtLeastCount(p);
      NumelZeroIff(shapes[n]);
    }
  }
}
