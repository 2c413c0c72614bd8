/**
 The tensor-, context-, pipeline-, data- and expert-parallel groups of a world laid out as
 external data x data x pipeline x prefill-context x tensor, and how a rank finds its own group.
 */
module ParallelGroups {
  import opened DivMod
  import opened RankGrid

  datatype Sizes = Sizes(ext: nat, dp: nat, pp: nat, pcp: nat, tp: nat)

  predicate AllPositive(z: Sizes) {
    z.ext > 0 && z.dp > 0 && z.pp > 0 && z.pcp > 0 && z.tp > 0
  }

  function Dims(z: Sizes): seq<nat> { [z.ext, z.dp, z.pp, z.pcp, z.tp] }

  function World(z: Sizes): nat { Product(Dims(z)) }

  datatype Family = TP | PCP | PP | DP | EP

  /** The axes each family exchanges, and the length of its groups. */
  function Axes(f: Family): (nat, nat) {
    match f
    case TP => (4, 4)
    case PCP => (3, 4)
    case PP => (2, 4)
    case DP => (1, 4)
    case EP => (1, 2)
  }

  function GroupSize(z: Sizes, f: Family): nat {
    match f
    case TP => z.tp
    case PCP => z.pcp
    case PP => z.pp
    case DP => z.dp
    case EP => z.dp * z.pcp * z.tp
  }

  /** Leading axes of the exchanged grid that are constant within a group. */
  function Kept(f: Family): nat { if f.EP? then 2 else 4 }

  lemma ProductAppend(s: seq<nat>, x: nat)
    ensures Product(s + [x]) == Product(s) * x
  {
    assert (s + [x])[..|s|] == s;
  }

  lemma TrailingSize(z: Sizes, f: Family)
    ensures GroupSize(z, f) == Product(Swap(Dims(z), Axes(f).0, Axes(f).1)[Kept(f)..])
  {
    var d := Swap(Dims(z), Axes(f).0, Axes(f).1);
    if f.EP? {
      assert d[2..] == [z.dp, z.pcp, z.tp];
      assert [z.dp] == [] + [z.dp] && [z.dp, z.pcp] == [z.dp] + [z.pcp] && [z.dp, z.pcp, z.tp] == [z.dp, z.pcp] + [z.tp];
      ProductAppend([], z.dp);
      ProductAppend([z.dp], z.pcp);
      ProductAppend([z.dp, z.pcp], z.tp);
    } else {
      assert d[4..] == [] + [GroupSize(z, f)];
      ProductAppend([], GroupSize(z, f));
    }
  }

  lemma {:induction false} ProductSplit(s: seq<nat>, m: nat)
    requires m <= |s|
    ensures Product(s) == Product(s[..m]) * Product(s[m..])
  {
    if m == |s| {
      assert s[..m] == s && s[m..] == [];
    } else {
      var n := |s| - 1;
      ProductSplit(s[..n], m);
      assert s[..n][..m] == s[..m] && s[m..][..|s[m..]| - 1] == s[..n][m..];
      assert Product(s[..m]) * Product(s[..n][m..]) * s[n] == Product(s[..m]) * (Product(s[..n][m..]) * s[n]);
    }
  }

  /** Every family of a positive grid cuts the world into whole groups. */
  lemma FamilyValid(z: Sizes, f: Family)
    requires AllPositive(z)
    ensures ValidFamily(Dims(z), Axes(f).0, Axes(f).1, GroupSize(z, f))
  {
    var d := Swap(Dims(z), Axes(f).0, Axes(f).1);
    TrailingSize(z, f);
    SwapProduct(Dims(z), Axes(f).0, Axes(f).1);
    ProductSplit(d, Kept(f));
    ProductPositive(d[Kept(f)..]);
    DivUnique(Product(d), GroupSize(z, f), Product(d[..Kept(f)]), 0);
  }

  function Coordinate(z: Sizes, rank: nat, axis: nat): nat
    requires rank < World(z) && axis < 5
  {
    Decode(Dims(z), rank)[axis]
  }

  /** The axes on which the members of a group agree. */
  predicate Fixed(f: Family, axis: nat) {
    match f
    case TP => axis != 4
    case PCP => axis != 3
    case PP => axis != 2
    case DP => axis != 1
    case EP => axis == 0 || axis == 2
  }

  function GroupNumber(z: Sizes, f: Family, rank: nat): nat
    requires AllPositive(z) && rank < World(z)
  {
    FamilyValid(z, f);
    GroupOf(Dims(z), Axes(f).0, Axes(f).1, GroupSize(z, f), rank)
  }

  /** Two ranks share a group exactly when they agree on the family's fixed coordinates. */
  lemma SameGroup(z: Sizes, f: Family, a: nat, b: nat)
    requires AllPositive(z) && a < World(z) && b < World(z)
    ensures GroupNumber(z, f, a) == GroupNumber(z, f, b)
       <==> forall axis | 0 <= axis < 5 && Fixed(f, axis) :: Coordinate(z, a, axis) == Coordinate(z, b, axis)
  {
    FamilyValid(z, f);
    TrailingSize(z, f);
    SharesGroup(Dims(z), Axes(f).0, Axes(f).1, GroupSize(z, f), Kept(f), a, b);
    var ca, cb := Decode(Dims(z), a), Decode(Dims(z), b);
    var sa, sb := Swap(ca, Axes(f).0, Axes(f).1)[..Kept(f)], Swap(cb, Axes(f).0, Axes(f).1)[..Kept(f)];
    assert forall axis | 0 <= axis < 5 :: Coordinate(z, a, axis) == ca[axis] && Coordinate(z, b, axis) == cb[axis];
    AgreeOnFixed(f, ca, cb);
  }

  lemma AgreeOnFixed(f: Family, ca: seq<nat>, cb: seq<nat>)
    requires |ca| == |cb| == 5
    ensures Swap(ca, Axes(f).0, Axes(f).1)[..Kept(f)] == Swap(cb, Axes(f).0, Axes(f).1)[..Kept(f)]
       <==> forall axis | 0 <= axis < 5 && Fixed(f, axis) :: ca[axis] == cb[axis]
  {
    var sa, sb := Swap(ca, Axes(f).0, Axes(f).1), Swap(cb, Axes(f).0, Axes(f).1);
    if f.EP? {
      assert sa[..2] == [ca[0], ca[2]] && sb[..2] == [cb[0], cb[2]];
    } else {
      assert sa[..4] == [sa[0], sa[1], sa[2], sa[3]] && sb[..4] == [sb[0], sb[1], sb[2], sb[3]];
    }
    assert (forall axis | 0 <= axis < 5 && Fixed(f, axis) :: ca[axis] == cb[axis]) <==>
      (Fixed(f, 0) ==> ca[0] == cb[0]) && (Fixed(f, 1) ==> ca[1] == cb[1]) && (Fixed(f, 2) ==> ca[2] == cb[2])
      && (Fixed(f, 3) ==> ca[3] == cb[3]) && (Fixed(f, 4) ==> ca[4] == cb[4]);
  }

  // ---------------------------------------------------------------- places in a group

  /** The world is laid out external data x data x pipeline x prefill-context x tensor, the last fastest. */
  lemma RankFormula(z: Sizes, rank: nat)
    requires AllPositive(z) && rank < World(z)
    ensures Coordinate(z, rank, 0) < z.ext && Coordinate(z, rank, 1) < z.dp && Coordinate(z, rank, 2) < z.pp
    ensures Coordinate(z, rank, 3) < z.pcp && Coordinate(z, rank, 4) < z.tp
    ensures rank == (((Coordinate(z, rank, 0) * z.dp + Coordinate(z, rank, 1)) * z.pp + Coordinate(z, rank, 2)) * z.pcp
                     + Coordinate(z, rank, 3)) * z.tp + Coordinate(z, rank, 4)
  {
    var d, c := Dims(z), Decode(Dims(z), rank);
    EncodeDecode(d, rank);
    assert c == [c[0], c[1], c[2], c[3], c[4]];
    EncodeFive(z.ext, z.dp, z.pp, z.pcp, z.tp, c[0], c[1], c[2], c[3], c[4]);
    hide Encode, Decode, Product;
  }

  lemma EncodeOne(a: nat, x: nat)
    ensures Encode([a], [x]) == x
  {
    assert [] + [a] == [a] && [] + [x] == [x];
    EncodeAppend([], [], a, x);
  }

  lemma EncodeThree(a: nat, b: nat, c: nat, x: nat, y: nat, w: nat)
    ensures Encode([a, b, c], [x, y, w]) == (x * b + y) * c + w
  {
    EncodeOne(a, x);
    assert [a] + [b] == [a, b] && [x] + [y] == [x, y] && [a, b] + [c] == [a, b, c] && [x, y] + [w] == [x, y, w];
    EncodeAppend([a], [x], b, y);
    EncodeAppend([a, b], [x, y], c, w);
    hide Encode;
  }

  lemma EncodeFive(a: nat, b: nat, c: nat, d: nat, e: nat, x: nat, y: nat, w: nat, u: nat, v: nat)
    ensures Encode([a, b, c, d, e], [x, y, w, u, v]) == (((x * b + y) * c + w) * d + u) * e + v
  {
    EncodeThree(a, b, c, x, y, w);
    assert [a, b, c] + [d] == [a, b, c, d] && [x, y, w] + [u] == [x, y, w, u];
    assert [a, b, c, d] + [e] == [a, b, c, d, e] && [x, y, w, u] + [v] == [x, y, w, u, v];
    EncodeAppend([a, b, c], [x, y, w], d, u);
    EncodeAppend([a, b, c, d], [x, y, w, u], e, v);
    hide Encode;
  }

  lemma EncodeAppend(dims: seq<nat>, c: seq<nat>, size: nat, x: nat)
    requires |dims| == |c|
    ensures Encode(dims + [size], c + [x]) == Encode(dims, c) * size + x
  {
    assert (dims + [size])[..|dims|] == dims && (c + [x])[..|c|] == c;
  }

  /** A rank's place in its group: its own coordinate on the family's free axis, or on EP's three in row-major order. */
  function Place(z: Sizes, f: Family, rank: nat): nat
    requires rank < World(z)
  {
    match f
    case TP => Coordinate(z, rank, 4)
    case PCP => Coordinate(z, rank, 3)
    case PP => Coordinate(z, rank, 2)
    case DP => Coordinate(z, rank, 1)
    case EP => (Coordinate(z, rank, 1) * z.pcp + Coordinate(z, rank, 3)) * z.tp + Coordinate(z, rank, 4)
  }

  lemma IndexIsPlace(z: Sizes, f: Family, rank: nat)
    requires AllPositive(z) && rank < World(z)
    ensures ValidFamily(Dims(z), Axes(f).0, Axes(f).1, GroupSize(z, f))
    ensures IndexIn(Dims(z), Axes(f).0, Axes(f).1, GroupSize(z, f), rank) == Place(z, f, rank)
  {
    FamilyValid(z, f);
    TrailingSize(z, f);
    var (i, j) := Axes(f);
    var lead := LeadingAxes(Dims(z), i, j, GroupSize(z, f), Kept(f), rank);
    var c := Decode(Dims(z), rank);
    TrailingPlace(z, f, c);
  }

  lemma TrailingPlace(z: Sizes, f: Family, c: seq<nat>)
    requires |c| == 5
    ensures Encode(Swap(Dims(z), Axes(f).0, Axes(f).1)[Kept(f)..], Swap(c, Axes(f).0, Axes(f).1)[Kept(f)..])
         == match f
            case TP => c[4]
            case PCP => c[3]
            case PP => c[2]
            case DP => c[1]
            case EP => (c[1] * z.pcp + c[3]) * z.tp + c[4]
  {
    var d, s := Swap(Dims(z), Axes(f).0, Axes(f).1), Swap(c, Axes(f).0, Axes(f).1);
    if f.EP? {
      EncodeThree(z.dp, z.pcp, z.tp, c[1], c[3], c[4]);
      assert [z.dp, z.pcp, z.tp] == d[2..] && [c[1], c[3], c[4]] == s[2..];
    } else {
      EncodeOne(d[4], s[4]);
      assert d[4..] == [d[4]] && s[4..] == [s[4]];
    }
    hide Encode;
  }

  // ---------------------------------------------------------------- decode context parallel

  /** DCP groups are consecutive ranks; each lies inside one TP group exactly when dcp divides tp. */
  lemma DcpInsideTp(world: nat, tp: nat, dcp: nat)
    requires tp > 0 && dcp > 0 && world % tp == 0 && world % dcp == 0 && world > 0
    ensures (forall a, b | 0 <= a < world && 0 <= b < world && a / dcp == b / dcp :: a / tp == b / tp) <==> tp % dcp == 0
  {
    if tp % dcp == 0 {
      forall a, b | 0 <= a < world && 0 <= b < world && a / dcp == b / dcp
        ensures a / tp == b / tp
      {
        NestedDiv(a, dcp, tp);
        NestedDiv(b, dcp, tp);
      }
    } else {
      Straddle(world, tp, dcp);
    }
  }

  lemma NestedDiv(a: nat, dcp: nat, tp: nat)
    requires dcp > 0 && tp > 0 && tp % dcp == 0
    ensures tp / dcp > 0 && a / tp == (a / dcp) / (tp / dcp)
  {
    var n := tp / dcp;
    assert n * dcp == tp;
    var q, x, r := (a / dcp) / n, (a / dcp) % n, a % dcp;
    assert a == (q * n + x) * dcp + r;
    MulGe(n, x + 1, dcp);
    assert (x + 1) * dcp == x * dcp + dcp;
    assert (q * n + x) * dcp == q * (n * dcp) + x * dcp;
    DivUnique(a, tp, q, x * dcp + r);
  }

  /** If dcp does not divide tp, the first tensor-parallel boundary cuts a DCP group. */
  lemma Straddle(world: nat, tp: nat, dcp: nat)
    requires tp > 0 && dcp > 0 && world % tp == 0 && world % dcp == 0 && world > 0 && tp % dcp != 0
    ensures tp < world && (tp - 1) / dcp == tp / dcp && (tp - 1) / tp != tp / tp
  {
    DivAtLeast(world, tp, 1);
    DivUnique(tp - 1, dcp, tp / dcp, tp % dcp - 1);
    DivUnique(tp - 1, tp, 0, tp - 1);
    DivUnique(tp, tp, 1, 0);
  }

  // ---------------------------------------------------------------- finding one's group

  /** A rank's handle on one family: the loop keeps the group that contains it. */
  class GroupCoordinator {
    const rank: nat
    var ranks: seq<nat>
    var worldSize: nat
    var rankInGroup: nat

    constructor (z: Sizes, f: Family, rank: nat)
      requires AllPositive(z) && rank < World(z)
      ensures this.rank == rank && worldSize == |ranks| == GroupSize(z, f)
      ensures rankInGroup < worldSize && ranks[rankInGroup] == rank
      ensures forall other | 0 <= other < World(z) ::
                other in ranks <==> GroupNumber(z, f, other) == GroupNumber(z, f, rank)
      ensures rankInGroup == Place(z, f, rank)
      ensures forall k | 0 <= k < |ranks| :: ranks[k] < World(z) && Place(z, f, ranks[k]) == k
    {
      this.rank := rank;
      FamilyValid(z, f);
      var dims, i, j, size := Dims(z), Axes(f).0, Axes(f).1, GroupSize(z, f);
      var mine, index := PickGroup(dims, i, j, size, rank);
      ranks, worldSize, rankInGroup := mine, |mine|, index;
      forall other | 0 <= other < World(z)
        ensures other in mine <==> GroupNumber(z, f, other) == GroupNumber(z, f, rank)
      {
        OnlyInItsGroup(dims, i, j, size, GroupOf(dims, i, j, size, rank), other);
      }
      forall k | 0 <= k < |mine|
        ensures mine[k] < World(z) && Place(z, f, mine[k]) == k
      {
        MemberDetermined(dims, i, j, size, GroupOf(dims, i, j, size, rank), k);
        IndexIsPlace(z, f, mine[k]);
      }
    }
  }

  method PickGroup(dims: seq<nat>, i: nat, j: nat, size: nat, rank: nat) returns (mine: seq<nat>, index: nat)
    requires ValidFamily(dims, i, j, size) && rank < Product(dims)
    ensures GroupOf(dims, i, j, size, rank) < Product(dims) / size
    ensures mine == Group(dims, i, j, size, GroupOf(dims, i, j, size, rank))
    ensures index < |mine| && mine[index] == rank
  {
    hide Group, GroupOf, Product;
    mine, index := [], 0;
    ghost var home := GroupOf(dims, i, j, size, rank);
    RankInItsGroup(dims, i, j, size, rank);
    for g := 0 to Product(dims) / size
      invariant g > home ==> mine == Group(dims, i, j, size, home) && index < |mine| && mine[index] == rank
    {
      var group := Group(dims, i, j, size, g);
      OnlyInItsGroup(dims, i, j, size, g, rank);
      if rank in group {
        mine := group;
        index := IndexOf(group, rank);
      }
    }
  }

  function IndexOf(s: seq<nat>, x: nat): (i: nat)
    requires x in s
    ensures i < |s| && s[i] == x
  {
    if s[0] == x then 0 else 1 + IndexOf(s[1..], x)
  }

  /** The group list contains a rank in exactly one of its rows. */
  lemma OnlyInItsGroup(dims: seq<nat>, i: nat, j: nat, size: nat, g: nat, rank: nat)
    requires ValidFamily(dims, i, j, size) && g < Product(dims) / size && rank < Product(dims)
    ensures rank in Group(dims, i, j, size, g) <==> GroupOf(dims, i, j, size, rank) == g
  {
    var group := Group(dims, i, j, size, g);
    if rank in group {
      var k :| 0 <= k < |group| && group[k] == rank;
      MemberDetermined(dims, i, j, size, g, k);
    }
    if GroupOf(dims, i, j, size, rank) == g {
      RankInItsGroup(dims, i, j, size, rank);
      assert group[IndexIn(dims, i, j, size, rank)] == rank;
    }
  }
}
