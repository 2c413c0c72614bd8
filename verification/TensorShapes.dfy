/** Shapes of tensors. */
module TensorShapes {

  function Numel(shape: seq<nat>): nat {
    if shape == [] then 1 else shape[0] * Numel(shape[1..])
  }

  /** The number of elements is the product of the dimensions, however they are grouped. */
  lemma {:induction false} NumelProduct(a: seq<nat>, b: seq<nat>, n: nat)
    ensures Numel(a + b) == Numel(a) * Numel(b)
    ensures Numel([n]) == n && Numel([]) == 1
  {
    assert Numel([n]) == n * Numel([n][1..]) && [n][1..] == [];
    if a == [] {
      assert a + b == b;
    } else {
      NumelProduct(a[1..], b, n);
      assert (a + b)[1..] == a[1..] + b;
      assert a[0] * (Numel(a[1..]) * Numel(b)) == a[0] * Numel(a[1..]) * Numel(b);
    }
  }
}
