/**
 Loading a merged column-parallel weight: several matrices stacked in one parameter, each cut into
 equal row slices over the tensor-parallel ranks. A fused checkpoint and separate shards, in any
 order, leave the same parameter.
 */
module ColumnLoader {
  import opened DivMod

  datatype LoadResult = Loaded | InvalidShardId | ShapeMismatch

  datatype MergedColumn = MergedColumn(outputSizes: seq<nat>, tpSize: nat, tpRank: nat)

  /** What the layer's constructor asserts. */
  ghost predicate ValidMerged(layer: MergedColumn) {
    && layer.tpRank < layer.tpSize
    && forall i | 0 <= i < |layer.outputSizes| :: layer.outputSizes[i] % layer.tpSize == 0
  }

  function Total(sizes: seq<nat>): nat {
    if sizes == [] then 0 else Total(sizes[..|sizes| - 1]) + sizes[|sizes| - 1]
  }

  lemma {:induction false} TotalSplit(sizes: seq<nat>, i: nat)
    requires i < |sizes|
    ensures Total(sizes[..i + 1]) == Total(sizes[..i]) + sizes[i]
    ensures Total(sizes[..i + 1]) <= Total(sizes)
    decreases |sizes|
  {
    assert sizes[..i + 1][..i] == sizes[..i];
    if i + 1 < |sizes| {
      var front := sizes[..|sizes| - 1];
      TotalSplit(front, i);
      assert front[..i + 1] == sizes[..i + 1];
    } else {
      assert sizes[..i + 1] == sizes;
    }
  }

  /** Rows of shard `i` on one rank, and where they start in the parameter. */
  function ShardSize(layer: MergedColumn, i: nat): nat
    requires layer.tpSize > 0 && i < |layer.outputSizes|
  {
    layer.outputSizes[i] / layer.tpSize
  }

  function ShardOffset(layer: MergedColumn, i: nat): nat
    requires layer.tpSize > 0 && i <= |layer.outputSizes|
  {
    Total(layer.outputSizes[..i]) / layer.tpSize
  }

  function ParamRows(layer: MergedColumn): nat
    requires layer.tpSize > 0
  {
    ShardOffset(layer, |layer.outputSizes|)
  }

  lemma {:induction false} TotalDivides(sizes: seq<nat>, tp: nat)
    requires tp > 0 && forall i | 0 <= i < |sizes| :: sizes[i] % tp == 0
    ensures Total(sizes) % tp == 0
  {
    if sizes != [] {
      var front, size := sizes[..|sizes| - 1], sizes[|sizes| - 1];
      forall i | 0 <= i < |front|
        ensures front[i] % tp == 0
      {
        assert front[i] == sizes[i];
      }
      TotalDivides(front, tp);
      assert Total(sizes) == Total(front) + size;
      AddMultiples(Total(front), size, tp);
    }
  }

  lemma AddMultiples(a: nat, b: nat, tp: nat)
    requires tp > 0 && a % tp == 0 && b % tp == 0
    ensures (a + b) % tp == 0 && (a + b) / tp == a / tp + b / tp
  {
    assert (a / tp + b / tp) * tp == a / tp * tp + b / tp * tp;
    DivUnique(a + b, tp, a / tp + b / tp, 0);
  }

  /** Shards tile the parameter: each starts where the one before it ends. */
  lemma ShardsAdjacent(layer: MergedColumn, i: nat)
    requires ValidMerged(layer) && i < |layer.outputSizes|
    ensures ShardOffset(layer, i + 1) == ShardOffset(layer, i) + ShardSize(layer, i)
    ensures ShardOffset(layer, i + 1) <= ParamRows(layer)
  {
    var sizes := layer.outputSizes;
    TotalSplit(sizes, i);
    TotalDivides(sizes[..i], layer.tpSize);
    AddMultiples(Total(sizes[..i]), sizes[i], layer.tpSize);
    assert sizes[..|sizes|] == sizes;
    DivMonotone(Total(sizes[..i + 1]), Total(sizes), layer.tpSize);
  }

  lemma {:induction false} OffsetsIncrease(layer: MergedColumn, i: nat, j: nat)
    requires ValidMerged(layer) && i <= j <= |layer.outputSizes|
    ensures ShardOffset(layer, i) <= ShardOffset(layer, j)
    decreases j - i
  {
    if i < j {
      OffsetsIncrease(layer, i, j - 1);
      ShardsAdjacent(layer, j - 1);
    }
  }

  /** The rows of a full shard that belong to one rank. */
  function RankRows<T>(w: seq<T>, rank: nat, size: nat): (rows: seq<T>)
    requires rank * size + size <= |w|
    ensures |rows| == size
  {
    w[rank * size..rank * size + size]
  }

  /** Shard `i` of the parameter holds this rank's slice of `w`. */
  ghost predicate ShardHolds<T>(layer: MergedColumn, data: seq<T>, i: nat, w: seq<T>)
    requires layer.tpSize > 0 && i < |layer.outputSizes|
  {
    var offset, size := ShardOffset(layer, i), ShardSize(layer, i);
    && offset + size <= |data| && layer.tpRank * size + size <= |w|
    && data[offset..offset + size] == RankRows(w, layer.tpRank, size)
  }

  /** Loads one shard: copies this rank's rows into their place. */
  method LoadShard<T>(layer: MergedColumn, data: array<T>, loaded: seq<T>, shardId: int) returns (r: LoadResult)
    requires ValidMerged(layer) && data.Length == ParamRows(layer)
    modifies data
    ensures r == InvalidShardId <==> !(0 <= shardId < |layer.outputSizes|)
    ensures 0 <= shardId < |layer.outputSizes| ==>
      (r == ShapeMismatch <==> |loaded| < layer.tpRank * ShardSize(layer, shardId) + ShardSize(layer, shardId))
    ensures r != Loaded ==> data[..] == old(data[..])
    ensures r == Loaded ==> ShardHolds(layer, data[..], shardId, loaded)
    ensures r == Loaded ==> SameOutside(old(data[..]), data[..], ShardOffset(layer, shardId), ShardSize(layer, shardId))
  {
    if shardId < 0 || shardId >= |layer.outputSizes| {
      return InvalidShardId;
    }
    hide ShardOffset, ShardSize;
    ShardsAdjacent(layer, shardId);
    var offset, size := ShardOffset(layer, shardId), ShardSize(layer, shardId);
    var start := layer.tpRank * size;
    if start + size > |loaded| {
      return ShapeMismatch;
    }
    CopyInto(data, offset, loaded[start..start + size]);
    return Loaded;
  }

  method CopyInto<T>(data: array<T>, offset: nat, rows: seq<T>)
    requires offset + |rows| <= data.Length
    modifies data
    ensures SameOutside(old(data[..]), data[..], offset, |rows|)
    ensures data[..][offset..offset + |rows|] == rows
  {
    forall x | 0 <= x < |rows| {
      data[offset + x] := rows[x];
    }
    assert data[..][..offset] == old(data[..])[..offset];
    assert data[..][offset + |rows|..] == old(data[..])[offset + |rows|..];
  }

  ghost predicate SameOutside<T>(before: seq<T>, after: seq<T>, offset: nat, size: nat) {
    && |before| == |after| && offset + size <= |after|
    && after[..offset] == before[..offset] && after[offset + size..] == before[offset + size..]
  }

  lemma SliceKept<T>(before: seq<T>, after: seq<T>, lo: nat, hi: nat, offset: nat, size: nat)
    requires SameOutside(before, after, offset, size)
    requires lo <= hi <= |after| && (hi <= offset || offset + size <= lo)
    ensures before[lo..hi] == after[lo..hi]
  {
    forall x | lo <= x < hi
      ensures before[x] == after[x]
    {
      if hi <= offset {
        assert before[x] == before[..offset][x] && after[x] == after[..offset][x];
      } else {
        var end := offset + size;
        assert before[x] == before[end..][x - end] && after[x] == after[end..][x - end];
      }
    }
  }

  /** Shard `i` holds the same rows in both parameters. */
  ghost predicate SameShard<T>(layer: MergedColumn, a: seq<T>, b: seq<T>, i: nat)
    requires layer.tpSize > 0 && i < |layer.outputSizes|
  {
    var offset, size := ShardOffset(layer, i), ShardSize(layer, i);
    && offset + size <= |a| && offset + size <= |b|
    && a[offset..offset + size] == b[offset..offset + size]
  }

  /** Loading one shard does not disturb another. */
  lemma OtherShardKept<T>(layer: MergedColumn, before: seq<T>, after: seq<T>, i: nat, j: nat)
    requires ValidMerged(layer) && i < |layer.outputSizes| && j < |layer.outputSizes| && i != j
    requires |before| == ParamRows(layer)
    requires SameOutside(before, after, ShardOffset(layer, j), ShardSize(layer, j))
    ensures SameShard(layer, before, after, i)
  {
    hide ShardOffset, ShardSize;
    ShardsAdjacent(layer, i);
    ShardsAdjacent(layer, j);
    if i < j {
      OffsetsIncrease(layer, i + 1, j);
    } else {
      OffsetsIncrease(layer, j + 1, i);
    }
    var offset, size := ShardOffset(layer, i), ShardSize(layer, i);
    SliceKept(before, after, offset, offset + size, ShardOffset(layer, j), ShardSize(layer, j));
  }

  /** The piece of a fused checkpoint that belongs to its `j`-th shard, when it covers shards first.. */
  function Piece<T>(sizes: seq<nat>, loaded: seq<T>, j: nat): (piece: seq<T>)
    requires j < |sizes| && Total(sizes) <= |loaded|
    ensures |piece| == sizes[j]
  {
    TotalSplit(sizes, j);
    loaded[Total(sizes[..j])..Total(sizes[..j + 1])]
  }

  function FusedSizes(layer: MergedColumn, first: nat, last: nat): (sizes: seq<nat>)
    requires first <= last < |layer.outputSizes|
    ensures |sizes| == last - first + 1
  {
    layer.outputSizes[first..last + 1]
  }

  /** Shard `i` of the parameter holds this rank's slice of piece `i` of the fused checkpoint. */
  ghost predicate PieceHolds<T>(layer: MergedColumn, data: seq<T>, sizes: seq<nat>, loaded: seq<T>, i: nat)
    requires layer.tpSize > 0
  {
    && i < |layer.outputSizes| && i < |sizes| && Total(sizes[..i + 1]) <= |loaded|
    && (TotalSplit(sizes, i);
        ShardHolds(layer, data, i, loaded[Total(sizes[..i])..Total(sizes[..i + 1])]))
  }

  /**
   Loads a checkpoint that fuses consecutive shards first..last (all of them when no id is given).
   The pieces are cut by the sizes of those shards but stored from shard 0 on.
   */
  method LoadFused<T>(layer: MergedColumn, data: array<T>, loaded: seq<T>, first: nat, last: nat)
    returns (r: LoadResult)
    requires ValidMerged(layer) && data.Length == ParamRows(layer)
    requires first <= last < |layer.outputSizes|
    modifies data
    ensures r == Loaded ==> forall j | 0 <= j <= last - first ::
              PieceHolds(layer, data[..], FusedSizes(layer, first, last), loaded, j)
    ensures r == Loaded ==> ShardOffset(layer, last - first + 1) <= data.Length
    ensures r == Loaded ==>
      data[ShardOffset(layer, last - first + 1)..] == old(data[ShardOffset(layer, last - first + 1)..])
    ensures first == 0 && Total(FusedSizes(layer, first, last)) <= |loaded| ==> r == Loaded
  {
    hide ShardOffset, ShardSize, PieceHolds;
    var sizes := FusedSizes(layer, first, last);
    var offset := 0;
    StartsAtZero(layer);
    for j := 0 to |sizes|
      invariant offset == Total(sizes[..j]) && ShardOffset(layer, j) <= data.Length
      invariant forall i | 0 <= i < j :: PieceHolds(layer, data[..], sizes, loaded, i)
      invariant data[ShardOffset(layer, j)..] == old(data[ShardOffset(layer, j)..])
    {
      TotalSplit(sizes, j);
      if offset + sizes[j] > |loaded| {
        return ShapeMismatch;
      }
      SliceFits(layer, first, last, j);
      r := LoadPiece(layer, data, sizes, loaded, j, old(data[..]));
      if r != Loaded {
        return r;
      }
      offset := offset + sizes[j];
    }
    return Loaded;
  }

  method LoadPiece<T>(layer: MergedColumn, data: array<T>, sizes: seq<nat>, loaded: seq<T>, j: nat, ghost start: seq<T>)
    returns (r: LoadResult)
    requires ValidMerged(layer) && data.Length == ParamRows(layer) && j < |sizes| && j < |layer.outputSizes|
    requires Total(sizes[..j + 1]) <= |loaded|
    requires |start| == data.Length && ShardOffset(layer, j) <= data.Length
    requires data[ShardOffset(layer, j)..] == start[ShardOffset(layer, j)..]
    requires forall i | 0 <= i < j :: PieceHolds(layer, data[..], sizes, loaded, i)
    modifies data
    ensures r != Loaded ==> sizes[j] < layer.tpRank * ShardSize(layer, j) + ShardSize(layer, j)
    ensures r == Loaded ==> forall i | 0 <= i < j + 1 :: PieceHolds(layer, data[..], sizes, loaded, i)
    ensures ShardOffset(layer, j + 1) <= data.Length
    ensures r == Loaded ==> data[ShardOffset(layer, j + 1)..] == start[ShardOffset(layer, j + 1)..]
  {
    hide ShardOffset, ShardSize, ShardHolds, Total;
    TotalSplit(sizes, j);
    ShardsAdjacent(layer, j);
    ghost var before := data[..];
    r := LoadShard(layer, data, loaded[Total(sizes[..j])..Total(sizes[..j + 1])], j);
    if r == Loaded {
      forall i | 0 <= i < j
        ensures PieceHolds(layer, data[..], sizes, loaded, i)
      {
        assert PieceHolds(layer, before, sizes, loaded, i);
        TotalSplit(sizes, i);
        OtherShardKept(layer, before, data[..], i, j);
        StillHolds(layer, before, data[..], i, loaded[Total(sizes[..i])..Total(sizes[..i + 1])]);
      }
      TailKept(before, data[..], ShardOffset(layer, j), ShardSize(layer, j), start);
    }
  }

  lemma StartsAtZero(layer: MergedColumn)
    requires layer.tpSize > 0
    ensures ShardOffset(layer, 0) == 0
  {
  }

  lemma TailKept<T>(before: seq<T>, after: seq<T>, offset: nat, size: nat, start: seq<T>)
    requires SameOutside(before, after, offset, size) && |start| == |before|
    requires before[offset..] == start[offset..]
    ensures after[offset + size..] == start[offset + size..]
  {
    assert before[offset + size..] == before[offset..][size..];
    assert start[offset + size..] == start[offset..][size..];
  }

  /** When the fused shards start at 0, every piece is as long as its shard. */
  lemma SliceFits(layer: MergedColumn, first: nat, last: nat, j: nat)
    requires ValidMerged(layer) && first <= last < |layer.outputSizes| && j <= last - first
    ensures first == 0 ==> layer.tpRank * ShardSize(layer, j) + ShardSize(layer, j) <= FusedSizes(layer, first, last)[j]
  {
    var size := ShardSize(layer, j);
    MulGe(layer.tpSize, layer.tpRank + 1, size);
    assert (layer.tpRank + 1) * size == layer.tpRank * size + size;
    assert layer.tpSize * size == layer.outputSizes[j];
  }

  /** Loads the named shards one by one, in the given order; the others keep their rows. */
  method LoadSeparately<T>(layer: MergedColumn, data: array<T>, weights: seq<seq<T>>, order: seq<nat>)
    requires ValidMerged(layer) && data.Length == ParamRows(layer) && |weights| <= |layer.outputSizes|
    requires forall i | 0 <= i < |weights| :: |weights[i]| == layer.outputSizes[i]
    requires forall n | 0 <= n < |order| :: order[n] < |weights|
    modifies data
    ensures forall i | 0 <= i < |weights| && i in order :: ShardHolds(layer, data[..], i, weights[i])
    ensures forall i | 0 <= i < |layer.outputSizes| && i !in order :: SameShard(layer, old(data[..]), data[..], i)
  {
    hide ShardOffset, ShardSize, ShardHolds, SameShard;
    WholeShards(layer, data[..]);
    for n := 0 to |order|
      invariant forall i | 0 <= i < |weights| && i in order[..n] :: ShardHolds(layer, data[..], i, weights[i])
      invariant forall i | 0 <= i < |layer.outputSizes| && i !in order[..n] :: SameShard(layer, old(data[..]), data[..], i)
    {
      ghost var before := data[..];
      var j := order[n];
      SliceFits(layer, 0, |weights| - 1, j);
      var r := LoadShard(layer, data, weights[j], j);
      forall i | 0 <= i < |layer.outputSizes| && i != j
        ensures i < |weights| && i in order[..n + 1] ==> ShardHolds(layer, data[..], i, weights[i])
        ensures i !in order[..n + 1] ==> SameShard(layer, old(data[..]), data[..], i)
      {
        assert order[..n + 1] == order[..n] + [j];
        OtherShardKept(layer, before, data[..], i, j);
        if i in order[..n] {
          StillHolds(layer, before, data[..], i, weights[i]);
        } else {
          SameStays(layer, old(data[..]), before, data[..], i);
        }
      }
    }
    assert order[..|order|] == order;
  }

  lemma WholeShards<T>(layer: MergedColumn, data: seq<T>)
    requires ValidMerged(layer) && |data| == ParamRows(layer)
    ensures forall i | 0 <= i < |layer.outputSizes| :: SameShard(layer, data, data, i)
  {
    forall i | 0 <= i < |layer.outputSizes|
      ensures SameShard(layer, data, data, i)
    {
      ShardsAdjacent(layer, i);
    }
  }

  lemma StillHolds<T>(layer: MergedColumn, before: seq<T>, after: seq<T>, i: nat, w: seq<T>)
    requires layer.tpSize > 0 && i < |layer.outputSizes|
    requires ShardHolds(layer, before, i, w) && SameShard(layer, before, after, i)
    ensures ShardHolds(layer, after, i, w)
  {
  }

  lemma SameStays<T>(layer: MergedColumn, a: seq<T>, b: seq<T>, c: seq<T>, i: nat)
    requires layer.tpSize > 0 && i < |layer.outputSizes|
    requires SameShard(layer, a, b, i) && SameShard(layer, b, c, i)
    ensures SameShard(layer, a, c, i)
  {
  }

  /** The shard that holds a parameter row. */
  lemma {:induction false} RowHasShard(layer: MergedColumn, x: nat, n: nat) returns (i: nat)
    requires ValidMerged(layer) && n <= |layer.outputSizes| && x < ShardOffset(layer, n)
    ensures i < n && ShardOffset(layer, i) <= x < ShardOffset(layer, i) + ShardSize(layer, i)
  {
    ShardsAdjacent(layer, n - 1);
    if x < ShardOffset(layer, n - 1) {
      i := RowHasShard(layer, x, n - 1);
    } else {
      i := n - 1;
    }
  }

  /** A parameter is determined by what its shards hold, so every way of loading them agrees. */
  lemma ShardsDetermineParam<T>(layer: MergedColumn, a: seq<T>, b: seq<T>)
    requires ValidMerged(layer) && |a| == |b| == ParamRows(layer)
    requires forall i | 0 <= i < |layer.outputSizes| :: SameShard(layer, a, b, i)
    ensures a == b
  {
    hide ShardOffset, ShardSize;
    forall x | 0 <= x < |a|
      ensures a[x] == b[x]
    {
      var i := RowHasShard(layer, x, |layer.outputSizes|);
      var offset, size := ShardOffset(layer, i), ShardSize(layer, i);
      assert SameShard(layer, a, b, i);
      assert a[x] == a[offset..offset + size][x - offset] && b[x] == b[offset..offset + size][x - offset];
    }
  }

  function Concat<T>(parts: seq<seq<T>>): seq<T> {
    if parts == [] then [] else Concat(parts[..|parts| - 1]) + parts[|parts| - 1]
  }

  lemma EqualPartFits(length: nat, tp: nat, rank: nat)
    requires rank < tp
    ensures 0 <= rank * (length / tp) && rank * (length / tp) + length / tp <= length
  {
    var size := length / tp;
    DivAtLeast(length, tp, 0);
    MulGe(rank, 0, size);
    MulGe(tp, rank + 1, size);
    assert (rank + 1) * size == rank * size + size;
    assert tp * size == size * tp <= length;
  }

  /** Shard `i` of the parameter is `rows`. */
  ghost predicate IsShard<T>(layer: MergedColumn, data: seq<T>, i: nat, rows: seq<T>)
    requires layer.tpSize > 0 && i < |layer.outputSizes|
  {
    && ShardOffset(layer, i) + ShardSize(layer, i) <= |data|
    && data[ShardOffset(layer, i)..ShardOffset(layer, i) + ShardSize(layer, i)] == rows
  }

  lemma {:induction false} ShardsConcat<T>(layer: MergedColumn, data: seq<T>, slices: seq<seq<T>>)
    requires ValidMerged(layer) && |data| == ParamRows(layer) && |slices| <= |layer.outputSizes|
    requires forall i | 0 <= i < |slices| :: IsShard(layer, data, i, slices[i])
    ensures ShardOffset(layer, |slices|) <= |data|
    ensures Concat(slices) == data[..ShardOffset(layer, |slices|)]
  {
    hide ShardOffset, ShardSize;
    if slices == [] {
      StartsAtZero(layer);
      OffsetsIncrease(layer, 0, |layer.outputSizes|);
    } else {
      var n := |slices| - 1;
      ShardsConcat(layer, data, slices[..n]);
      ShardsAdjacent(layer, n);
      assert IsShard(layer, data, n, slices[n]);
      var lo, hi := ShardOffset(layer, n), ShardOffset(layer, n + 1);
      assert data[..hi] == data[..lo] + data[lo..hi];
    }
  }

  /** A rank's equal part of a matrix, and of each of several. */
  function OwnPart<T>(w: seq<T>, rank: nat, tp: nat): seq<T>
    requires rank < tp
  {
    EqualPartFits(|w|, tp, rank);
    w[rank * (|w| / tp)..rank * (|w| / tp) + |w| / tp]
  }

  function OwnParts<T>(ws: seq<seq<T>>, rank: nat, tp: nat): (own: seq<seq<T>>)
    requires rank < tp
    ensures |own| == |ws| && forall i | 0 <= i < |ws| :: own[i] == OwnPart(ws[i], rank, tp)
  {
    seq(|ws|, i requires 0 <= i < |ws| => OwnPart(ws[i], rank, tp))
  }

  lemma HeldIsShard<T>(layer: MergedColumn, data: seq<T>, i: nat, w: seq<T>)
    requires ValidMerged(layer) && i < |layer.outputSizes| && |w| == layer.outputSizes[i] && ShardHolds(layer, data, i, w)
    ensures IsShard(layer, data, i, OwnPart(w, layer.tpRank, layer.tpSize))
  {
    hide ShardOffset;
  }

  /** A parameter whose leading shards hold the rank's parts of `weights` starts with those parts, one after the other. */
  lemma PartsInFront<T>(layer: MergedColumn, data: seq<T>, weights: seq<seq<T>>)
    requires ValidMerged(layer) && |data| == ParamRows(layer) && |weights| <= |layer.outputSizes|
    requires forall i | 0 <= i < |weights| :: |weights[i]| == layer.outputSizes[i] && ShardHolds(layer, data, i, weights[i])
    ensures Concat(OwnParts(weights, layer.tpRank, layer.tpSize)) <= data
    ensures |weights| == |layer.outputSizes| ==> data == Concat(OwnParts(weights, layer.tpRank, layer.tpSize))
  {
    hide ShardOffset, ShardSize, ShardHolds, Concat, IsShard, OwnPart;
    var own := OwnParts(weights, layer.tpRank, layer.tpSize);
    forall i | 0 <= i < |own|
      ensures IsShard(layer, data, i, own[i])
    {
      HeldIsShard(layer, data, i, weights[i]);
    }
    ShardsConcat(layer, data, own);
  }

  /**
   A checkpoint that fuses shards 0..last (all of them when no id is given) against those shards one by
   one, in any order: from equal parameters they leave equal parameters. A whole checkpoint leaves
   nothing of what was there before.
   */
  method LoadBothWays<T>(layer: MergedColumn, fused: array<T>, separate: array<T>, loaded: seq<T>, last: nat,
                         order: seq<nat>)
    returns (weights: seq<seq<T>>)
    requires ValidMerged(layer) && last < |layer.outputSizes| && fused != separate
    requires fused.Length == separate.Length == ParamRows(layer)
    requires Total(FusedSizes(layer, 0, last)) <= |loaded|
    requires last + 1 < |layer.outputSizes| ==> fused[..] == separate[..]
    requires forall n | 0 <= n < |order| :: order[n] <= last
    requires forall i | 0 <= i <= last :: i in order
    modifies fused, separate
    ensures fused[..] == separate[..]
    ensures |weights| == last + 1
    ensures forall i | 0 <= i <= last :: |weights[i]| == layer.outputSizes[i] && ShardHolds(layer, fused[..], i, weights[i])
    ensures Concat(weights) == loaded[..Total(FusedSizes(layer, 0, last))]
    ensures Concat(OwnParts(weights, layer.tpRank, layer.tpSize)) <= fused[..]
    ensures last + 1 == |layer.outputSizes| ==> fused[..] == Concat(OwnParts(weights, layer.tpRank, layer.tpSize))
    ensures forall i | last < i < |layer.outputSizes| :: SameShard(layer, old(fused[..]), fused[..], i)
  {
    hide ShardOffset, ShardSize, ShardHolds, SameShard, Total, Concat;
    var sizes := FusedSizes(layer, 0, last);
    weights := seq(last + 1, i requires 0 <= i <= last => Piece(sizes, loaded, i));
    PiecesConcat(sizes, loaded, weights);
    assert sizes[..last + 1] == sizes;
    ghost var start := fused[..];
    var r := LoadFused(layer, fused, loaded, 0, last);
    forall i | last < i < |layer.outputSizes|
      ensures SameShard(layer, start, fused[..], i)
    {
      TailShardKept(layer, start, fused[..], last + 1, i);
    }
    LoadSeparately(layer, separate, weights, order);
    forall i | 0 <= i < |layer.outputSizes|
      ensures SameShard(layer, fused[..], separate[..], i)
    {
      if i <= last {
        assert i in order;
        assert PieceHolds(layer, fused[..], sizes, loaded, i);
        BothHold(layer, fused[..], separate[..], i, weights[i]);
      } else {
        assert i !in order;
        SameFlips(layer, start, fused[..], i);
        SameStays(layer, fused[..], start, separate[..], i);
      }
    }
    ShardsDetermineParam(layer, fused[..], separate[..]);
    forall i | 0 <= i <= last
      ensures |weights[i]| == layer.outputSizes[i] && ShardHolds(layer, fused[..], i, weights[i])
    {
      assert PieceHolds(layer, fused[..], sizes, loaded, i);
    }
    PartsInFront(layer, fused[..], weights);
  }

  /** The pieces cut from a fused checkpoint make it up again. */
  lemma {:induction false} PiecesConcat<T>(sizes: seq<nat>, loaded: seq<T>, parts: seq<seq<T>>)
    requires |parts| <= |sizes| && Total(sizes) <= |loaded|
    requires forall i | 0 <= i < |parts| :: parts[i] == Piece(sizes, loaded, i)
    ensures Total(sizes[..|parts|]) <= |loaded|
    ensures Concat(parts) == loaded[..Total(sizes[..|parts|])]
  {
    if parts == [] {
      assert sizes[..0] == [];
    } else {
      hide Total;
      var n := |parts| - 1;
      PiecesConcat(sizes, loaded, parts[..n]);
      TotalSplit(sizes, n);
      var lo, hi := Total(sizes[..n]), Total(sizes[..n + 1]);
      assert loaded[..hi] == loaded[..lo] + loaded[lo..hi];
    }
  }

  lemma TailShardKept<T>(layer: MergedColumn, before: seq<T>, after: seq<T>, first: nat, i: nat)
    requires ValidMerged(layer) && first <= i < |layer.outputSizes| && |before| == |after| == ParamRows(layer)
    requires ShardOffset(layer, first) <= |after|
    requires after[ShardOffset(layer, first)..] == before[ShardOffset(layer, first)..]
    ensures SameShard(layer, before, after, i)
  {
    hide ShardOffset, ShardSize;
    OffsetsIncrease(layer, first, i);
    ShardsAdjacent(layer, i);
    var lo, hi := ShardOffset(layer, i), ShardOffset(layer, i) + ShardSize(layer, i);
    var from := ShardOffset(layer, first);
    assert before[lo..hi] == before[from..][lo - from..hi - from];
    assert after[lo..hi] == after[from..][lo - from..hi - from];
  }

  lemma BothHold<T>(layer: MergedColumn, a: seq<T>, b: seq<T>, i: nat, w: seq<T>)
    requires layer.tpSize > 0 && i < |layer.outputSizes|
    requires ShardHolds(layer, a, i, w) && ShardHolds(layer, b, i, w)
    ensures SameShard(layer, a, b, i)
  {
  }

  lemma SameFlips<T>(layer: MergedColumn, a: seq<T>, b: seq<T>, i: nat)
    requires layer.tpSize > 0 && i < |layer.outputSizes| && SameShard(layer, a, b, i)
    ensures SameShard(layer, b, a, i)
  {
  }

  /** Over all ranks the slices of a shard are the whole shard: each row is on one rank, at one place. */
  lemma RanksReassemble<T>(w: seq<T>, tp: nat, row: nat)
    requires tp > 0 && |w| % tp == 0 && row < |w|
    ensures var per := |w| / tp;
            per > 0 && row / per < tp && (row / per) * per + per <= |w|
            && RankRows(w, row / per, per)[row % per] == w[row]
  {
    SliceRows(|w|, tp, row);
    RowInSlice(w, |w| / tp, row);
  }

  lemma RowInSlice<T>(w: seq<T>, per: nat, row: nat)
    requires per > 0 && (row / per) * per + per <= |w| && row < |w|
    ensures RankRows(w, row / per, per)[row % per] == w[row]
  {
    assert row == row / per * per + row % per;
  }

  lemma SliceRows(size: nat, tp: nat, row: nat)
    requires tp > 0 && size % tp == 0 && row < size
    ensures var per := size / tp; per > 0 && row / per < tp && (row / per) * per + per <= size
  {
    var per := size / tp;
    assert per * tp == size;
    PositiveSlice(per, tp, row);
    DivAtLeast(row, per, tp);
    MulGe(tp, row / per + 1, per);
    assert (row / per + 1) * per == row / per * per + per;
  }

  lemma PositiveSlice(per: nat, tp: nat, row: nat)
    requires row < per * tp
    ensures per > 0
  {
  }

  /** ... and nowhere else. */
  lemma RowOnOneRank(per: nat, rank: nat, x: nat, row: nat)
    requires x < per && rank * per + x == row
    ensures rank == row / per && x == row % per
  {
    DivUnique(row, per, rank, x);
  }
}
