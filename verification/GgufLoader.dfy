/**
 GGUF weights keep their shards apart, in arrival order, instead of copying them in place. A tuple of
 shard ids is cut by the shards' sizes and appended piece by piece, and holds what the ordinary loader
 would have copied.
 */
module GgufLoader {
  import opened ColumnLoader

  /** A GGUF parameter: its shards' slices, and where each shard id's slice is. */
  class GgufParam<K(==), T> {
    var shardIds: seq<K>
    var shardIdMap: map<K, nat>
    var container: seq<seq<T>>

    constructor ()
      ensures shardIds == [] && shardIdMap == map[] && container == []
    {
      shardIds, shardIdMap, container := [], map[], [];
    }

    /** Appends one shard's slice. */
    method Append(id: K, rows: seq<T>)
      modifies this
      ensures shardIds == old(shardIds) + [id]
      ensures shardIdMap == old(shardIdMap)[id := |old(container)|]
      ensures container == old(container) + [rows]
    {
      shardIds := shardIds + [id];
      shardIdMap := shardIdMap[id := |container|];
      container := container + [rows];
    }
  }

  /** Loads one shard: an equal part of what is given. */
  method LoadGgufShard<T>(layer: MergedColumn, param: GgufParam<nat, T>, loaded: seq<T>, shardId: nat)
    requires ValidMerged(layer)
    modifies param
    ensures layer.tpRank * (|loaded| / layer.tpSize) + |loaded| / layer.tpSize <= |loaded|
    ensures param.container == old(param.container) + [RankRows(loaded, layer.tpRank, |loaded| / layer.tpSize)]
    ensures param.shardIds == old(param.shardIds) + [shardId]
    ensures param.shardIdMap == old(param.shardIdMap)[shardId := |old(param.container)|]
  {
    EqualPartFits(|loaded|, layer.tpSize, layer.tpRank);
    var size := |loaded| / layer.tpSize;
    var start := layer.tpRank * size;
    param.Append(shardId, loaded[start..start + size]);
  }

  /** The sizes of the shards a tuple names. */
  function SizesOf(layer: MergedColumn, ids: seq<nat>): (sizes: seq<nat>)
    requires forall j | 0 <= j < |ids| :: ids[j] < |layer.outputSizes|
    ensures |sizes| == |ids|
  {
    seq(|ids|, j requires 0 <= j < |ids| => layer.outputSizes[ids[j]])
  }

  /** This rank's part of the `j`-th piece of a fused checkpoint whose pieces have the given sizes. */
  function SliceOf<T>(layer: MergedColumn, sizes: seq<nat>, loaded: seq<T>, j: nat): seq<T>
    requires layer.tpRank < layer.tpSize && j < |sizes| && Total(sizes) <= |loaded|
  {
    EqualPartFits(sizes[j], layer.tpSize, layer.tpRank);
    RankRows(Piece(sizes, loaded, j), layer.tpRank, sizes[j] / layer.tpSize)
  }

  function SlicesOf<T>(layer: MergedColumn, sizes: seq<nat>, loaded: seq<T>): (slices: seq<seq<T>>)
    requires layer.tpRank < layer.tpSize && Total(sizes) <= |loaded|
    ensures |slices| == |sizes| && forall j | 0 <= j < |sizes| :: slices[j] == SliceOf(layer, sizes, loaded, j)
  {
    seq(|sizes|, j requires 0 <= j < |sizes| => SliceOf(layer, sizes, loaded, j))
  }

  ghost predicate DistinctIds(ids: seq<nat>) {
    forall i, j | 0 <= i < j < |ids| :: ids[i] != ids[j]
  }

  /** Loads the shards a tuple names from a checkpoint that fuses them in that order, whatever the ids are. */
  method LoadGgufTuple<T>(layer: MergedColumn, param: GgufParam<nat, T>, loaded: seq<T>, ids: seq<nat>)
    returns (r: LoadResult)
    requires ValidMerged(layer) && forall j | 0 <= j < |ids| :: ids[j] < |layer.outputSizes|
    modifies param
    ensures r == Loaded <==> Total(SizesOf(layer, ids)) <= |loaded|
    ensures r == Loaded ==> param.shardIds == old(param.shardIds) + ids
    ensures r == Loaded ==> param.container == old(param.container) + SlicesOf(layer, SizesOf(layer, ids), loaded)
    ensures r == Loaded && DistinctIds(ids) ==> forall j | 0 <= j < |ids| ::
              ids[j] in param.shardIdMap && param.shardIdMap[ids[j]] == |old(param.container)| + j
  {
    hide Total;
    var sizes := SizesOf(layer, ids);
    ghost var slices: seq<seq<T>> := [];
    var offset := 0;
    NoSizes(sizes);
    for j := 0 to |ids|
      invariant offset == Total(sizes[..j]) <= |loaded|
      invariant |slices| == j && param.container == old(param.container) + slices
      invariant forall i | 0 <= i < j :: IsSlice(layer, sizes, loaded, i, slices[i])
      invariant param.shardIds == old(param.shardIds) + ids[..j]
      invariant DistinctIds(ids) ==> forall i | 0 <= i < j ::
                  ids[i] in param.shardIdMap && param.shardIdMap[ids[i]] == |old(param.container)| + i
    {
      TotalSplit(sizes, j);
      if offset + sizes[j] > |loaded| {
        return ShapeMismatch;
      }
      var piece := loaded[offset..offset + sizes[j]];
      LoadGgufShard(layer, param, piece, ids[j]);
      slices := slices + [RankRows(piece, layer.tpRank, |piece| / layer.tpSize)];
      offset := offset + sizes[j];
    }
    assert sizes[..|ids|] == sizes && ids[..|ids|] == ids;
    forall i | 0 <= i < |ids|
      ensures slices[i] == SlicesOf(layer, sizes, loaded)[i]
    {
      assert IsSlice(layer, sizes, loaded, i, slices[i]);
    }
    assert slices == SlicesOf(layer, sizes, loaded);
    return Loaded;
  }

  lemma NoSizes(sizes: seq<nat>)
    ensures Total(sizes[..0]) == 0
  {
  }

  /** `slice` is this rank's part of piece `j`, if the checkpoint reaches that far. */
  ghost predicate IsSlice<T>(layer: MergedColumn, sizes: seq<nat>, loaded: seq<T>, j: nat, slice: seq<T>) {
    && layer.tpRank < layer.tpSize && j < |sizes| && Total(sizes[..j + 1]) <= |loaded|
    && (TotalSplit(sizes, j);
        EqualPartFits(sizes[j], layer.tpSize, layer.tpRank);
        slice == RankRows(loaded[Total(sizes[..j])..Total(sizes[..j + 1])], layer.tpRank, sizes[j] / layer.tpSize))
  }

  function FirstIds(n: nat): (ids: seq<nat>)
    ensures |ids| == n && forall j | 0 <= j < n :: ids[j] == j
  {
    seq(n, j => j)
  }

  /**
   A tuple of leading shards, loaded into an empty container and by the ordinary loader into a
   parameter: each shard's rows are its slice in the container, and the slices in order are the front of
   the parameter.
   */
  method LoadTupleBothWays<T>(layer: MergedColumn, data: array<T>, param: GgufParam<nat, T>, loaded: seq<T>, last: nat)
    requires ValidMerged(layer) && data.Length == ParamRows(layer) && last < |layer.outputSizes|
    requires Total(FusedSizes(layer, 0, last)) <= |loaded| && param.container == []
    modifies data, param
    ensures |param.container| == last + 1 && ShardOffset(layer, last + 1) <= data.Length
    ensures forall i | 0 <= i <= last :: i in param.shardIdMap && param.shardIdMap[i] == i
    ensures forall i | 0 <= i <= last :: IsShard(layer, data[..], i, param.container[i])
    ensures Concat(param.container) == data[..ShardOffset(layer, last + 1)]
  {
    hide ShardOffset, ShardSize, Total, PieceHolds, Concat;
    var sizes, ids := FusedSizes(layer, 0, last), FirstIds(last + 1);
    assert SizesOf(layer, ids) == sizes;
    var r := LoadFused(layer, data, loaded, 0, last);
    r := LoadGgufTuple(layer, param, loaded, ids);
    assert param.container == SlicesOf(layer, sizes, loaded);
    forall i | 0 <= i <= last
      ensures i in param.shardIdMap && param.shardIdMap[i] == i
      ensures IsShard(layer, data[..], i, param.container[i])
    {
      assert ids[i] == i;
      SliceIsShard(layer, data[..], sizes, loaded, i);
    }
    ShardsConcat(layer, data[..], param.container);
  }

  lemma SliceIsShard<T>(layer: MergedColumn, data: seq<T>, sizes: seq<nat>, loaded: seq<T>, i: nat)
    requires ValidMerged(layer) && PieceHolds(layer, data, sizes, loaded, i) && Total(sizes) <= |loaded|
    requires sizes[i] == layer.outputSizes[i]
    ensures IsShard(layer, data, i, SliceOf(layer, sizes, loaded, i))
  {
    hide Total, ShardOffset;
    EqualPartFits(sizes[i], layer.tpSize, layer.tpRank);
  }
}
