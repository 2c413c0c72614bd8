/**
 The grid of ranks. A tensor of ranks is reshaped, two axes are exchanged, and the result is cut into
 rows; each row is a communication group. For every shape and every pair of axes the rows split the
 world into disjoint groups, and ranks share a group exactly when they agree on the kept axes.
 */
module RankGrid {
  import opened DivMod

  function Product(dims: seq<nat>): nat {
    if dims == [] then 1 else Product(dims[..|dims| - 1]) * dims[|dims| - 1]
  }

  ghost predicate InShape(dims: seq<nat>, c: seq<nat>) {
    |c| == |dims| && forall a | 0 <= a < |dims| :: c[a] < dims[a]
  }

  /** Row-major position of a coordinate. */
  function Encode(dims: seq<nat>, c: seq<nat>): nat
    requires |c| == |dims|
  {
    if dims == [] then 0
    else var n := |dims| - 1; Encode(dims[..n], c[..n]) * dims[n] + c[n]
  }

  /** Coordinate of a row-major position. */
  function Decode(dims: seq<nat>, x: nat): (c: seq<nat>)
    requires x < Product(dims)
    ensures |c| == |dims|
  {
    if dims == [] then []
    else
      var n := |dims| - 1;
      LastAxis(Product(dims[..n]), dims[n], x);
      Decode(dims[..n], x / dims[n]) + [x % dims[n]]
  }

  lemma LastAxis(rest: nat, size: nat, x: nat)
    requires x < rest * size
    ensures size > 0 && x / size < rest
  {
    if size > 0 {
      DivAtLeast(x, size, rest);
    }
  }

  lemma {:induction false} EncodeInRange(dims: seq<nat>, c: seq<nat>)
    requires InShape(dims, c)
    ensures Encode(dims, c) < Product(dims)
  {
    if dims != [] {
      var n := |dims| - 1;
      EncodeInRange(dims[..n], c[..n]);
      MulGe(Product(dims[..n]), Encode(dims[..n], c[..n]) + 1, dims[n]);
      assert (Encode(dims[..n], c[..n]) + 1) * dims[n] == Encode(dims[..n], c[..n]) * dims[n] + dims[n];
    }
  }

  /** A rank is determined by its coordinates ... */
  lemma {:induction false} EncodeDecode(dims: seq<nat>, x: nat)
    requires x < Product(dims)
    ensures InShape(dims, Decode(dims, x)) && Encode(dims, Decode(dims, x)) == x
  {
    if dims != [] {
      var n := |dims| - 1;
      LastAxis(Product(dims[..n]), dims[n], x);
      EncodeDecode(dims[..n], x / dims[n]);
      assert Decode(dims, x)[..n] == Decode(dims[..n], x / dims[n]);
    }
  }

  /** ... and determines them. */
  lemma {:induction false} DecodeEncode(dims: seq<nat>, c: seq<nat>)
    requires InShape(dims, c)
    ensures Encode(dims, c) < Product(dims) && Decode(dims, Encode(dims, c)) == c
  {
    EncodeInRange(dims, c);
    if dims != [] {
      var n := |dims| - 1;
      DecodeEncode(dims[..n], c[..n]);
      DivUnique(Encode(dims, c), dims[n], Encode(dims[..n], c[..n]), c[n]);
      assert c == c[..n] + [c[n]];
    }
  }

  // ---------------------------------------------------------------- exchanging two axes

  function Swap<T>(s: seq<T>, i: nat, j: nat): (r: seq<T>)
    requires i < |s| && j < |s|
    ensures |r| == |s|
  {
    s[i := s[j]][j := s[i]]
  }

  lemma {:induction false} ProductUpdate(dims: seq<nat>, i: nat, x: nat)
    requires i < |dims|
    ensures Product(dims[i := x]) * dims[i] == Product(dims) * x
  {
    var n := |dims| - 1;
    var d := dims[i := x];
    if i == n {
      assert d[..n] == dims[..n];
      SwapFactors(Product(dims[..n]), x, dims[n]);
    } else {
      assert d[..n] == dims[..n][i := x];
      ProductUpdate(dims[..n], i, x);
      SwapFactors(Product(d[..n]), dims[n], dims[i]);
      SwapFactors(Product(dims[..n]), x, dims[n]);
    }
  }

  lemma SwapFactors(a: nat, b: nat, c: nat)
    ensures a * b * c == a * c * b
  {
  }

  lemma {:induction false} ProductPositive(dims: seq<nat>)
    requires forall a | 0 <= a < |dims| :: dims[a] > 0
    ensures Product(dims) > 0
  {
    if dims != [] {
      ProductPositive(dims[..|dims| - 1]);
    }
  }

  lemma SwapProduct(dims: seq<nat>, i: nat, j: nat)
    requires i < |dims| && j < |dims| && forall a | 0 <= a < |dims| :: dims[a] > 0
    ensures Product(Swap(dims, i, j)) == Product(dims)
  {
    if i == j {
      assert Swap(dims, i, j) == dims;
    } else {
      var mid := dims[i := dims[j]];
      ProductUpdate(dims, i, dims[j]);
      ProductUpdate(mid, j, dims[i]);
      CancelBoth(Product(Swap(dims, i, j)), Product(dims), Product(mid), dims[i], dims[j]);
    }
  }

  lemma CancelBoth(a: int, b: int, mid: int, x: int, y: int)
    requires x > 0 && y > 0 && mid * x == b * y && a * y == mid * x
    ensures a == b
  {
    assert (a - b) * y == 0;
  }

  lemma SwapInShape(dims: seq<nat>, c: seq<nat>, i: nat, j: nat)
    requires i < |dims| && j < |dims| && InShape(dims, c)
    ensures InShape(Swap(dims, i, j), Swap(c, i, j)) && Swap(Swap(c, i, j), i, j) == c
    ensures Swap(Swap(dims, i, j), i, j) == dims
  {
  }

  /** The positive axes of a grid, and the pair that is exchanged. */
  ghost predicate ValidGrid(dims: seq<nat>, i: nat, j: nat) {
    i < |dims| && j < |dims| && forall a | 0 <= a < |dims| :: dims[a] > 0
  }

  /** Rank at position `f` of the exchanged, flattened tensor. */
  function RankAt(dims: seq<nat>, i: nat, j: nat, f: nat): nat
    requires i < |dims| && j < |dims| && f < Product(Swap(dims, i, j))
  {
    Encode(dims, Swap(Decode(Swap(dims, i, j), f), i, j))
  }

  /** Position of a rank in the exchanged, flattened tensor. */
  function PositionOf(dims: seq<nat>, i: nat, j: nat, rank: nat): nat
    requires i < |dims| && j < |dims| && rank < Product(dims)
  {
    Encode(Swap(dims, i, j), Swap(Decode(dims, rank), i, j))
  }

  lemma RankAtInverse(dims: seq<nat>, i: nat, j: nat, f: nat)
    requires ValidGrid(dims, i, j) && f < Product(dims)
    ensures f < Product(Swap(dims, i, j)) && RankAt(dims, i, j, f) < Product(dims)
    ensures PositionOf(dims, i, j, RankAt(dims, i, j, f)) == f
  {
    SwapProduct(dims, i, j);
    var dims' := Swap(dims, i, j);
    EncodeDecode(dims', f);
    SwapInShape(dims', Decode(dims', f), i, j);
    DecodeEncode(dims, Swap(Decode(dims', f), i, j));
  }

  lemma PositionOfInverse(dims: seq<nat>, i: nat, j: nat, rank: nat)
    requires ValidGrid(dims, i, j) && rank < Product(dims)
    ensures PositionOf(dims, i, j, rank) < Product(dims) == Product(Swap(dims, i, j))
    ensures RankAt(dims, i, j, PositionOf(dims, i, j, rank)) == rank
  {
    SwapProduct(dims, i, j);
    EncodeDecode(dims, rank);
    SwapInShape(dims, Decode(dims, rank), i, j);
    DecodeEncode(Swap(dims, i, j), Swap(Decode(dims, rank), i, j));
  }

  // ---------------------------------------------------------------- groups

  ghost predicate ValidFamily(dims: seq<nat>, i: nat, j: nat, size: nat) {
    ValidGrid(dims, i, j) && size > 0 && Product(dims) % size == 0
  }

  lemma FamilyIndex(dims: seq<nat>, i: nat, j: nat, size: nat, g: nat, k: nat)
    requires ValidFamily(dims, i, j, size) && g < Product(dims) / size && k < size
    ensures g * size + k < Product(dims) == Product(Swap(dims, i, j))
  {
    SwapProduct(dims, i, j);
    MulGe(Product(dims) / size, g + 1, size);
    assert (g + 1) * size == g * size + size;
  }

  /** Member `k` of group `g`: row g, column k of the exchanged tensor reshaped to rows of `size`. */
  function Member(dims: seq<nat>, i: nat, j: nat, size: nat, g: nat, k: nat): nat
    requires ValidFamily(dims, i, j, size) && g < Product(dims) / size && k < size
  {
    FamilyIndex(dims, i, j, size, g, k);
    RankAt(dims, i, j, g * size + k)
  }

  function Group(dims: seq<nat>, i: nat, j: nat, size: nat, g: nat): (ranks: seq<nat>)
    requires ValidFamily(dims, i, j, size) && g < Product(dims) / size
    ensures |ranks| == size
  {
    seq(size, k requires 0 <= k < size => Member(dims, i, j, size, g, k))
  }

  function GroupOf(dims: seq<nat>, i: nat, j: nat, size: nat, rank: nat): nat
    requires ValidFamily(dims, i, j, size) && rank < Product(dims)
  {
    PositionOf(dims, i, j, rank) / size
  }

  function IndexIn(dims: seq<nat>, i: nat, j: nat, size: nat, rank: nat): nat
    requires ValidFamily(dims, i, j, size) && rank < Product(dims)
  {
    PositionOf(dims, i, j, rank) % size
  }

  /** Every rank is in its group, at its index ... */
  lemma RankInItsGroup(dims: seq<nat>, i: nat, j: nat, size: nat, rank: nat)
    requires ValidFamily(dims, i, j, size) && rank < Product(dims)
    ensures GroupOf(dims, i, j, size, rank) < Product(dims) / size && IndexIn(dims, i, j, size, rank) < size
    ensures Member(dims, i, j, size, GroupOf(dims, i, j, size, rank), IndexIn(dims, i, j, size, rank)) == rank
  {
    PositionOfInverse(dims, i, j, rank);
    Cut(PositionOf(dims, i, j, rank), Product(dims), size);
  }

  lemma Cut(f: nat, n: nat, size: nat)
    requires size > 0 && n % size == 0 && f < n
    ensures f / size < n / size && f / size * size + f % size == f
  {
    DivAtLeast(f, size, n / size);
  }

  /** ... and in no other group or place. */
  lemma MemberDetermined(dims: seq<nat>, i: nat, j: nat, size: nat, g: nat, k: nat)
    requires ValidFamily(dims, i, j, size) && g < Product(dims) / size && k < size
    ensures Member(dims, i, j, size, g, k) < Product(dims)
    ensures GroupOf(dims, i, j, size, Member(dims, i, j, size, g, k)) == g
    ensures IndexIn(dims, i, j, size, Member(dims, i, j, size, g, k)) == k
  {
    FamilyIndex(dims, i, j, size, g, k);
    RankAtInverse(dims, i, j, g * size + k);
    DivUnique(g * size + k, size, g, k);
  }

  // ---------------------------------------------------------------- who shares a group

  /** A row-major position splits at any axis. */
  lemma {:induction false} EncodeSplit(dims: seq<nat>, c: seq<nat>, m: nat)
    requires InShape(dims, c) && m <= |dims|
    ensures Encode(dims, c) == Encode(dims[..m], c[..m]) * Product(dims[m..]) + Encode(dims[m..], c[m..])
    ensures Encode(dims[m..], c[m..]) < Product(dims[m..])
  {
    EncodeInRange(dims[m..], c[m..]);
    if m == |dims| {
      assert dims[..m] == dims && c[..m] == c && dims[m..] == [];
    } else {
      var n := |dims| - 1;
      EncodeSplit(dims[..n], c[..n], m);
      assert dims[..n][..m] == dims[..m] && c[..n][..m] == c[..m];
      assert dims[m..][..|dims[m..]| - 1] == dims[..n][m..] && c[m..][..|c[m..]| - 1] == c[..n][m..];
      assert dims[m..][|dims[m..]| - 1] == dims[n] && c[m..][|c[m..]| - 1] == c[n];
      SplitStep(Encode(dims[..m], c[..m]), Product(dims[..n][m..]), Encode(dims[..n][m..], c[..n][m..]), dims[n], c[n]);
    }
  }

  lemma SplitStep(a: int, p: int, b: int, d: int, x: int)
    ensures (a * p + b) * d + x == a * (p * d) + (b * d + x)
  {
  }

  lemma EncodeInjective(dims: seq<nat>, c: seq<nat>, c': seq<nat>)
    requires InShape(dims, c) && InShape(dims, c') && Encode(dims, c) == Encode(dims, c')
    ensures c == c'
  {
    DecodeEncode(dims, c);
    DecodeEncode(dims, c');
  }

  /**
   When a row holds all positions of the trailing axes m.. of the exchanged tensor, two ranks share a
   group exactly when their exchanged coordinates agree on the leading axes.
   */
  lemma SharesGroup(dims: seq<nat>, i: nat, j: nat, size: nat, m: nat, a: nat, b: nat)
    requires ValidFamily(dims, i, j, size) && m <= |dims| && size == Product(Swap(dims, i, j)[m..])
    requires a < Product(dims) && b < Product(dims)
    ensures GroupOf(dims, i, j, size, a) == GroupOf(dims, i, j, size, b)
       <==> Swap(Decode(dims, a), i, j)[..m] == Swap(Decode(dims, b), i, j)[..m]
  {
    var lead := Swap(dims, i, j)[..m];
    var ca := LeadingAxes(dims, i, j, size, m, a);
    var cb := LeadingAxes(dims, i, j, size, m, b);
    if GroupOf(dims, i, j, size, a) == GroupOf(dims, i, j, size, b) {
      EncodeInjective(lead, ca, cb);
    }
  }

  /** The group number of a rank is the position of its leading exchanged coordinates, its index that of the others. */
  lemma LeadingAxes(dims: seq<nat>, i: nat, j: nat, size: nat, m: nat, a: nat) returns (lead: seq<nat>)
    requires ValidFamily(dims, i, j, size) && m <= |dims| && size == Product(Swap(dims, i, j)[m..])
    requires a < Product(dims)
    ensures lead == Swap(Decode(dims, a), i, j)[..m] && InShape(Swap(dims, i, j)[..m], lead)
    ensures GroupOf(dims, i, j, size, a) == Encode(Swap(dims, i, j)[..m], lead)
    ensures IndexIn(dims, i, j, size, a) == Encode(Swap(dims, i, j)[m..], Swap(Decode(dims, a), i, j)[m..])
  {
    EncodeDecode(dims, a);
    SwapInShape(dims, Decode(dims, a), i, j);
    var dims', c := Swap(dims, i, j), Swap(Decode(dims, a), i, j);
    EncodeSplit(dims', c, m);
    lead := c[..m];
    DivUnique(Encode(dims', c), size, Encode(dims'[..m], lead), Encode(dims'[m..], c[m..]));
  }
}
