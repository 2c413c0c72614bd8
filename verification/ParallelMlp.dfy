/**
 The tensor-parallel MLP: a merged (or interleaved) gate/up projection, a row-parallel down
 projection, and an all-reduce. For any split of the intermediate size over the ranks the result is
 the unsharded MLP, with the bias counted once.
 */
module ParallelMlp {
  import opened Options
  import opened Sums
  import opened DivMod
  import opened Gemm
  import opened ColumnLoader

  datatype Mlp = Mlp(gate: seq<seq<real>>, up: seq<seq<real>>, down: seq<seq<real>>, bias: Option<seq<real>>,
                     hidden: nat, inter: nat, silu: real -> real)

  ghost predicate ValidMlp(m: Mlp, tp: nat) {
    && tp > 0 && m.inter % tp == 0
    && IsMatrix(m.gate, m.inter, m.hidden) && IsMatrix(m.up, m.inter, m.hidden)
    && IsMatrix(m.down, |m.down|, m.inter)
    && (m.bias.Some? ==> |m.bias.value| == |m.down|)
  }

  function Per(m: Mlp, tp: nat): nat
    requires tp > 0
  {
    m.inter / tp
  }

  lemma SliceFitsRank(size: nat, tp: nat, rank: nat)
    requires tp > 0 && size % tp == 0 && rank < tp
    ensures rank * (size / tp) + size / tp <= size && size / tp * tp == size
  {
    var per := size / tp;
    MulGe(tp, rank + 1, per);
    assert (rank + 1) * per == rank * per + per;
    assert tp * per == per * tp == size;
  }

  // ---------------------------------------------------------------- the unsharded layer

  function Act(m: Mlp, x: seq<real>, j: int): real
    requires IsMatrix(m.gate, m.inter, m.hidden) && IsMatrix(m.up, m.inter, m.hidden)
    requires |x| == m.hidden && 0 <= j < m.inter
  {
    Times(m.silu(RowDot(x, m.gate[j])), RowDot(x, m.up[j]))
  }

  function DownTerm(m: Mlp, x: seq<real>, o: int): int -> real
    requires IsMatrix(m.gate, m.inter, m.hidden) && IsMatrix(m.up, m.inter, m.hidden)
    requires IsMatrix(m.down, |m.down|, m.inter) && |x| == m.hidden && 0 <= o < |m.down|
  {
    j => if 0 <= j < m.inter then Times(m.down[o][j], Act(m, x, j)) else 0.0
  }

  function BiasAt(m: Mlp, o: int): real
    requires 0 <= o < |m.down| && (m.bias.Some? ==> |m.bias.value| == |m.down|)
  {
    if m.bias.Some? then m.bias.value[o] else 0.0
  }

  function Plain(m: Mlp, x: seq<real>, o: int): real
    requires ValidMlp(m, 1) && |x| == m.hidden && 0 <= o < |m.down|
  {
    Sum(DownTerm(m, x, o), 0, m.inter) + BiasAt(m, o)
  }

  function HiddenTerm(m: Mlp, x: seq<real>, o: int): int -> real
    requires IsMatrix(m.gate, m.inter, m.hidden) && IsMatrix(m.up, m.inter, m.hidden)
    requires IsMatrix(m.down, |m.down|, m.inter) && 0 <= o < |m.down|
  {
    j => if 0 <= j < m.inter then m.down[o][j] * (m.silu(Inner(x, m.gate[j])) * Inner(x, m.up[j])) else 0.0
  }

  /** The unsharded layer, multiplied out: the down projection of silu(gate) * up, plus the bias if there is one. */
  lemma PlainIs(m: Mlp, x: seq<real>, o: int)
    requires ValidMlp(m, 1) && |x| == m.hidden && 0 <= o < |m.down|
    ensures Plain(m, x, o) == Sum(HiddenTerm(m, x, o), 0, m.inter) + if m.bias.None? then 0.0 else m.bias.value[o]
  {
    forall j | 0 <= j < m.inter
      ensures DownTerm(m, x, o)(j) == HiddenTerm(m, x, o)(j)
    {
      DotIsInner(x, m.gate[j]);
      DotIsInner(x, m.up[j]);
      hide RowDot, Inner;
    }
    SumEq(DownTerm(m, x, o), HiddenTerm(m, x, o), 0, m.inter);
  }

  // ---------------------------------------------------------------- loading one rank

  /**
   Stores this rank's gate or up rows in every second row of the parameter. The slice is sized by the
   layer's output size; a checkpoint too short for it, or a parameter of another height, is an error.
   */
  method LoadInterleaved<T>(data: array<T>, loaded: seq<T>, outputSize: nat, tp: nat, rank: nat, shardId: int)
    returns (r: LoadResult)
    requires tp > 0 && rank < tp && shardId in {0, 1}
    modifies data
    ensures r == Loaded <==> rank * (outputSize / tp) + outputSize / tp <= |loaded|
                             && (data.Length - shardId + 1) / 2 == outputSize / tp
    ensures r == Loaded ==> EverySecond(data[..], shardId, RankRows(loaded, rank, outputSize / tp))
    ensures r == Loaded ==> OthersKept(old(data[..]), data[..], shardId)
    ensures r != Loaded ==> data[..] == old(data[..])
  {
    var size := outputSize / tp;
    if rank * size + size > |loaded| {
      return ShapeMismatch;
    }
    var rows := RankRows(loaded, rank, size);
    // the strided target data[shardId::2]
    var target := (data.Length - shardId + 1) / 2;
    if target != size {
      return ShapeMismatch;
    }
    StoreStrided(data, rows, shardId);
    return Loaded;
  }

  method StoreStrided<T>(data: array<T>, rows: seq<T>, shardId: int)
    requires shardId in {0, 1} && (data.Length - shardId + 1) / 2 == |rows|
    modifies data
    ensures EverySecond(data[..], shardId, rows)
    ensures OthersKept(old(data[..]), data[..], shardId)
  {
    for j := 0 to |rows|
      invariant forall j' | 0 <= j' < j :: data[2 * j' + shardId] == rows[j']
      invariant forall x | 0 <= x < data.Length && x % 2 != shardId :: data[x] == old(data[x])
    {
      data[2 * j + shardId] := rows[j];
    }
  }

  /** Rows stored at every second place from `first` on. */
  ghost predicate EverySecond<T>(s: seq<T>, first: int, rows: seq<T>)
    requires first in {0, 1}
  {
    forall j | 0 <= j < |rows| :: 2 * j + first < |s| && s[2 * j + first] == rows[j]
  }

  ghost predicate OthersKept<T>(before: seq<T>, after: seq<T>, first: int)
    requires first in {0, 1} && |before| == |after|
  {
    forall x | 0 <= x < |after| && x % 2 != first :: after[x] == before[x]
  }

  lemma KeptStays<T>(before: seq<T>, after: seq<T>, first: int, rows: seq<T>)
    requires first in {0, 1} && |before| == |after|
    requires EverySecond(before, first, rows) && OthersKept(before, after, 1 - first)
    ensures EverySecond(after, first, rows)
  {
    forall j | 0 <= j < |rows|
      ensures 2 * j + first < |after| && after[2 * j + first] == rows[j]
    {
      assert before[2 * j + first] == rows[j];
      assert (2 * j + first) % 2 == first;
    }
  }

  lemma Alternates<T>(s: seq<T>, a: seq<T>, b: seq<T>)
    requires |a| == |b| && |s| == 2 * |a|
    requires EverySecond(s, 0, a) && EverySecond(s, 1, b)
    ensures s == Interleave(a, b)
  {
    forall x | 0 <= x < |s|
      ensures s[x] == Interleave(a, b)[x]
    {
      var j := x / 2;
      assert x == 2 * j + 0 || x == 2 * j + 1;
    }
  }

  function Interleave<T>(a: seq<T>, b: seq<T>): (s: seq<T>)
    requires |a| == |b|
    ensures |s| == 2 * |a|
  {
    seq(2 * |a|, x requires 0 <= x < 2 * |a| => if x % 2 == 0 then a[x / 2] else b[x / 2])
  }

  /**
   The interleaved MLP's loader: shard ids 0 and 1 go to every second row, but a checkpoint that fuses
   gate and up (no id) goes to the original loader, which stacks the two halves.
   */
  method LoadGateUp<T>(layer: MergedColumn, data: array<T>, loaded: seq<T>, shardId: Option<int>) returns (r: LoadResult)
    requires IsGateUp(layer) && data.Length == ParamRows(layer)
    requires shardId.None? ==> |loaded| == 2 * layer.outputSizes[0]
    modifies data
    ensures shardId.Some? && shardId.value !in {0, 1} ==> r == InvalidShardId && data[..] == old(data[..])
    ensures shardId.Some? && shardId.value in {0, 1} ==> (r == Loaded <==> RankFits(layer, |loaded|))
    ensures shardId.Some? && shardId.value in {0, 1} && r == Loaded ==>
              EverySecond(data[..], shardId.value, RankRows(loaded, layer.tpRank, HalfRows(layer)))
    ensures shardId.Some? && shardId.value in {0, 1} ==> OthersKept(old(data[..]), data[..], shardId.value)
    ensures shardId.None? ==> r == Loaded && RankFits(layer, layer.outputSizes[0])
    ensures shardId.None? ==> IsStacked(layer, data[..], loaded[..layer.outputSizes[0]], loaded[layer.outputSizes[0]..])
  {
    TwoHalves(layer);
    if shardId.None? {
      TwoSizes(layer);
      r := LoadFused(layer, data, loaded, 0, 1);
      PiecesStacked(layer, data[..], loaded);
    } else if shardId.value in {0, 1} {
      r := LoadInterleaved(data, loaded, layer.outputSizes[shardId.value], layer.tpSize, layer.tpRank, shardId.value);
    } else {
      r := LoadShard(layer, data, loaded, shardId.value);
    }
  }

  /** Both halves loaded, in either order: gate rows on even places, up rows on odd ones. */
  method LoadInterleavedPair<T>(layer: MergedColumn, data: array<T>, gate: seq<T>, up: seq<T>, gateFirst: bool)
    requires IsGateUp(layer) && data.Length == ParamRows(layer) && |gate| == |up| == layer.outputSizes[0]
    modifies data
    ensures RankFits(layer, layer.outputSizes[0])
    ensures data[..] == Interleave(RankRows(gate, layer.tpRank, HalfRows(layer)), RankRows(up, layer.tpRank, HalfRows(layer)))
  {
    TwoHalves(layer);
    ghost var a, b := RankRows(gate, layer.tpRank, HalfRows(layer)), RankRows(up, layer.tpRank, HalfRows(layer));
    hide RankRows, Interleave, EverySecond, OthersKept, HalfRows, ParamRows, IsGateUp;
    if gateFirst {
      var r := LoadGateUp(layer, data, gate, Some(0));
      ghost var mid := data[..];
      r := LoadGateUp(layer, data, up, Some(1));
      KeptStays(mid, data[..], 0, a);
    } else {
      var r := LoadGateUp(layer, data, up, Some(1));
      ghost var mid := data[..];
      r := LoadGateUp(layer, data, gate, Some(0));
      KeptStays(mid, data[..], 1, b);
    }
    Alternates(data[..], a, b);
  }

  /** The merged layer of an MLP: a gate half and an up half of the same size. */
  ghost predicate IsGateUp(layer: MergedColumn) {
    ValidMerged(layer) && |layer.outputSizes| == 2 && layer.outputSizes[0] == layer.outputSizes[1]
  }

  function HalfRows(layer: MergedColumn): nat
    requires layer.tpSize > 0 && |layer.outputSizes| > 0
  {
    layer.outputSizes[0] / layer.tpSize
  }

  predicate RankFits(layer: MergedColumn, length: nat)
    requires layer.tpSize > 0 && |layer.outputSizes| > 0
  {
    layer.tpRank * HalfRows(layer) + HalfRows(layer) <= length
  }

  lemma TwoHalves(layer: MergedColumn)
    requires IsGateUp(layer)
    ensures ShardOffset(layer, 0) == 0 && ShardOffset(layer, 1) == HalfRows(layer)
    ensures ShardSize(layer, 0) == ShardSize(layer, 1) == HalfRows(layer)
    ensures ParamRows(layer) == 2 * HalfRows(layer)
    ensures RankFits(layer, layer.outputSizes[0])
  {
    StartsAtZero(layer);
    ShardsAdjacent(layer, 0);
    ShardsAdjacent(layer, 1);
    SliceFitsRank(layer.outputSizes[0], layer.tpSize, layer.tpRank);
  }

  lemma TwoSizes(layer: MergedColumn)
    requires IsGateUp(layer)
    ensures var n := layer.outputSizes[0];
            var sizes := FusedSizes(layer, 0, 1);
            Total(sizes) == 2 * n && Total(sizes[..0]) == 0 && Total(sizes[..1]) == n && Total(sizes[..2]) == 2 * n
  {
    var sizes := FusedSizes(layer, 0, 1);
    assert sizes == layer.outputSizes && sizes[..2] == sizes && sizes[..0] == [];
    TotalSplit(sizes, 0);
    TotalSplit(sizes, 1);
  }

  /** This rank's gate rows above its up rows. */
  ghost predicate IsStacked<T>(layer: MergedColumn, data: seq<T>, gate: seq<T>, up: seq<T>)
    requires layer.tpSize > 0 && |layer.outputSizes| > 0 && RankFits(layer, |gate|) && RankFits(layer, |up|)
  {
    data == RankRows(gate, layer.tpRank, HalfRows(layer)) + RankRows(up, layer.tpRank, HalfRows(layer))
  }

  lemma ShardsStacked<T>(layer: MergedColumn, data: seq<T>, gate: seq<T>, up: seq<T>)
    requires IsGateUp(layer) && |data| == ParamRows(layer) && |gate| == |up| == layer.outputSizes[0]
    requires ShardHolds(layer, data, 0, gate) && ShardHolds(layer, data, 1, up)
    ensures RankFits(layer, layer.outputSizes[0])
    ensures IsStacked(layer, data, gate, up)
  {
    TwoHalves(layer);
    var size := HalfRows(layer);
    assert data == data[0..size] + data[size..size + size];
  }

  lemma PiecesStacked<T>(layer: MergedColumn, data: seq<T>, loaded: seq<T>)
    requires IsGateUp(layer) && |data| == ParamRows(layer) && |loaded| == 2 * layer.outputSizes[0]
    requires PieceHolds(layer, data, FusedSizes(layer, 0, 1), loaded, 0) && PieceHolds(layer, data, FusedSizes(layer, 0, 1), loaded, 1)
    ensures RankFits(layer, layer.outputSizes[0])
    ensures IsStacked(layer, data, loaded[..layer.outputSizes[0]], loaded[layer.outputSizes[0]..])
  {
    hide Total, FusedSizes, ShardHolds;
    var n := layer.outputSizes[0];
    TwoSizes(layer);
    assert loaded[0..n] == loaded[..n] && loaded[n..2 * n] == loaded[n..];
    ShardsStacked(layer, data, loaded[..n], loaded[n..]);
  }

  /** Copies this rank's columns of a row-parallel weight. */
  method LoadRowParallel(data: array2<real>, loaded: seq<seq<real>>, cols: nat, rank: nat) returns (r: LoadResult)
    requires IsMatrix(loaded, |loaded|, cols)
    modifies data
    ensures r == Loaded <==> |loaded| == data.Length0 && rank * data.Length1 + data.Length1 <= cols
    ensures r == Loaded ==> forall o, j | 0 <= o < data.Length0 && 0 <= j < data.Length1 ::
              data[o, j] == loaded[o][rank * data.Length1..rank * data.Length1 + data.Length1][j]
  {
    var size := data.Length1;
    if |loaded| != data.Length0 || rank * size + size > cols {
      return ShapeMismatch;
    }
    forall o, j | 0 <= o < data.Length0 && 0 <= j < size {
      data[o, j] := loaded[o][rank * size + j];
    }
    return Loaded;
  }

  // ---------------------------------------------------------------- what a rank holds

  /** The parameter a rank holds: its gate rows above its up rows ... */
  function MergedParam(m: Mlp, tp: nat, rank: nat): (param: seq<seq<real>>)
    requires ValidMlp(m, tp) && rank < tp
    ensures |param| == 2 * Per(m, tp) && forall n | 0 <= n < |param| :: |param[n]| == m.hidden
  {
    SliceFitsRank(m.inter, tp, rank);
    RankRows(m.gate, rank, Per(m, tp)) + RankRows(m.up, rank, Per(m, tp))
  }

  /** ... or the two alternating. */
  function InterleavedParam(m: Mlp, tp: nat, rank: nat): (param: seq<seq<real>>)
    requires ValidMlp(m, tp) && rank < tp
    ensures |param| == 2 * Per(m, tp) && forall n | 0 <= n < |param| :: |param[n]| == m.hidden
  {
    SliceFitsRank(m.inter, tp, rank);
    Interleave(RankRows(m.gate, rank, Per(m, tp)), RankRows(m.up, rank, Per(m, tp)))
  }

  datatype RankWeights = RankWeights(gateUp: seq<seq<real>>, down: seq<seq<real>>)

  ghost predicate Fits(w: RankWeights, m: Mlp) {
    && |w.gateUp| % 2 == 0 && (forall n | 0 <= n < |w.gateUp| :: |w.gateUp[n]| == m.hidden)
    && |w.down| == |m.down| && (forall o | 0 <= o < |w.down| :: |w.down[o]| == |w.gateUp| / 2)
  }

  /** Rank `rank`'s weights: the gate/up parameter in one of the two layouts, and its columns of the down projection. */
  ghost predicate HoldsMlp(w: RankWeights, m: Mlp, tp: nat, rank: nat, interleaved: bool)
    requires ValidMlp(m, tp) && rank < tp
  {
    && w.gateUp == (if interleaved then InterleavedParam(m, tp, rank) else MergedParam(m, tp, rank))
    && |w.down| == |m.down|
    && (SliceFitsRank(m.inter, tp, rank);
        forall o | 0 <= o < |w.down| :: w.down[o] == m.down[o][rank * Per(m, tp)..rank * Per(m, tp) + Per(m, tp)])
  }

  function RowsOf(data: array2<real>): (rows: seq<seq<real>>)
    reads data
    ensures |rows| == data.Length0
    ensures forall o | 0 <= o < |rows| :: |rows[o]| == data.Length1
    ensures forall o, j | 0 <= o < |rows| && 0 <= j < |rows[o]| :: rows[o][j] == data[o, j]
  {
    seq(data.Length0, o requires 0 <= o < data.Length0 reads data =>
      seq(data.Length1, j requires 0 <= j < data.Length1 reads data => data[o, j]))
  }

  datatype Checkpoint = Fused | Separate(gateFirst: bool)

  /**
   Loads one rank's MLP from a checkpoint that holds gate and up fused or apart, for the stacked or
   the interleaved forward. All but one pairing leave the layout the forward reads.
   */
  method LoadRank(m: Mlp, tp: nat, rank: nat, interleaved: bool, checkpoint: Checkpoint) returns (w: RankWeights)
    requires ValidMlp(m, tp) && rank < tp
    ensures HoldsMlp(w, m, tp, rank, interleaved && checkpoint.Separate?)
  {
    var layer := MergedColumn([m.inter, m.inter], tp, rank);
    TwoHalves(layer);
    SliceFitsRank(m.inter, tp, rank);
    var gateUp := new seq<real>[2 * Per(m, tp)];
    if interleaved {
      if checkpoint.Fused? {
        var r := LoadGateUp(layer, gateUp, m.gate + m.up, None);
        assert (m.gate + m.up)[..m.inter] == m.gate && (m.gate + m.up)[m.inter..] == m.up;
      } else {
        LoadInterleavedPair(layer, gateUp, m.gate, m.up, checkpoint.gateFirst);
      }
    } else {
      LoadMerged(layer, gateUp, m.gate, m.up, checkpoint);
    }
    var down := LoadDown(m, tp, rank);
    w := RankWeights(gateUp[..], down);
  }

  method LoadDown(m: Mlp, tp: nat, rank: nat) returns (rows: seq<seq<real>>)
    requires ValidMlp(m, tp) && rank < tp
    ensures 0 <= rank * Per(m, tp) && rank * Per(m, tp) + Per(m, tp) <= m.inter && |rows| == |m.down|
    ensures forall o | 0 <= o < |rows| :: rows[o] == m.down[o][rank * Per(m, tp)..rank * Per(m, tp) + Per(m, tp)]
  {
    hide Per;
    PerIs(m, tp);
    SliceFitsRank(m.inter, tp, rank);
    var down := new real[|m.down|, Per(m, tp)];
    var r := LoadRowParallel(down, m.down, m.inter, rank);
    rows := RowsOf(down);
  }

  /** The original loader, on a fused checkpoint or shard by shard. */
  method LoadMerged<T>(layer: MergedColumn, data: array<T>, gate: seq<T>, up: seq<T>, checkpoint: Checkpoint)
    requires IsGateUp(layer) && data.Length == ParamRows(layer) && |gate| == |up| == layer.outputSizes[0]
    modifies data
    ensures RankFits(layer, layer.outputSizes[0])
    ensures IsStacked(layer, data[..], gate, up)
  {
    if checkpoint.Fused? {
      TwoSizes(layer);
      var r := LoadFused(layer, data, gate + up, 0, 1);
      assert (gate + up)[..|gate|] == gate && (gate + up)[|gate|..] == up;
      PiecesStacked(layer, data[..], gate + up);
    } else {
      var order := if checkpoint.gateFirst then [0, 1] else [1, 0];
      assert 0 in order && 1 in order by {
        assert order[0] == 0 || order[1] == 0;
      }
      LoadSeparately(layer, data, [gate, up], order);
      assert [gate, up][0] == gate && [gate, up][1] == up;
      ShardsStacked(layer, data[..], gate, up);
    }
  }

  /** Every rank loads; then, unless the layouts are mixed, the sharded MLP is the unsharded one. */
  method LoadRanks(m: Mlp, tp: nat, interleaved: bool, checkpoint: Checkpoint) returns (ws: seq<RankWeights>)
    requires ValidMlp(m, tp)
    ensures |ws| == tp
    ensures forall rank | 0 <= rank < tp :: HoldsMlp(ws[rank], m, tp, rank, interleaved && checkpoint.Separate?)
    ensures !interleaved || checkpoint.Separate? ==> ComputesPlain(m, tp, ws, interleaved)
  {
    ws := [];
    for rank := 0 to tp
      invariant |ws| == rank
      invariant forall r | 0 <= r < rank :: HoldsMlp(ws[r], m, tp, r, interleaved && checkpoint.Separate?)
    {
      hide HoldsMlp, ValidMlp;
      var w := LoadRank(m, tp, rank, interleaved, checkpoint);
      ws := ws + [w];
    }
    if !interleaved || checkpoint.Separate? {
      HeldComputesPlain(m, tp, ws, interleaved);
    }
  }

  // ---------------------------------------------------------------- one rank's forward

  /** silu(gate) * up with the halves stacked ... */
  function StackedAct(silu: real -> real, x: seq<real>, param: seq<seq<real>>, j: int): real
    requires |param| % 2 == 0 && 0 <= j < |param| / 2 && forall n | 0 <= n < |param| :: |param[n]| == |x|
  {
    Times(silu(RowDot(x, param[j])), RowDot(x, param[|param| / 2 + j]))
  }

  /** ... or interleaved. */
  function InterleavedAct(silu: real -> real, x: seq<real>, param: seq<seq<real>>, j: int): real
    requires |param| % 2 == 0 && 0 <= j < |param| / 2 && forall n | 0 <= n < |param| :: |param[n]| == |x|
  {
    Times(silu(RowDot(x, param[2 * j])), RowDot(x, param[2 * j + 1]))
  }

  /** Where a rank's gate and up rows are in each layout. */
  lemma ParamHolds(m: Mlp, tp: nat, rank: nat, j: nat)
    requires ValidMlp(m, tp) && rank < tp && j < Per(m, tp)
    ensures 0 <= rank * Per(m, tp) + j < m.inter
    ensures var row := rank * Per(m, tp) + j;
            && MergedParam(m, tp, rank)[j] == m.gate[row] == InterleavedParam(m, tp, rank)[2 * j]
            && MergedParam(m, tp, rank)[Per(m, tp) + j] == m.up[row] == InterleavedParam(m, tp, rank)[2 * j + 1]
  {
    hide Per, RankRows, Interleave;
    PerIs(m, tp);
    SliceFitsRank(m.inter, tp, rank);
    var per := Per(m, tp);
    RankRowAt(m.gate, rank, per, j);
    RankRowAt(m.up, rank, per, j);
    InterleaveAt(RankRows(m.gate, rank, per), RankRows(m.up, rank, per), j);
  }

  lemma RankRowAt<T>(w: seq<T>, rank: nat, size: nat, j: nat)
    requires rank * size + size <= |w| && j < size
    ensures 0 <= rank * size + j < |w| && RankRows(w, rank, size)[j] == w[rank * size + j]
  {
  }

  lemma InterleaveAt<T>(a: seq<T>, b: seq<T>, j: nat)
    requires |a| == |b| && j < |a|
    ensures Interleave(a, b)[2 * j] == a[j] && Interleave(a, b)[2 * j + 1] == b[j]
  {
    assert 2 * j / 2 == j && (2 * j + 1) / 2 == j;
  }

  /** Both layouts give this rank's stretch of the unsharded activations. */
  lemma RankActivations(m: Mlp, tp: nat, rank: nat, x: seq<real>, j: nat)
    requires ValidMlp(m, tp) && rank < tp && |x| == m.hidden && j < Per(m, tp)
    ensures rank * Per(m, tp) + j < m.inter
    ensures StackedAct(m.silu, x, MergedParam(m, tp, rank), j) == Act(m, x, rank * Per(m, tp) + j)
    ensures InterleavedAct(m.silu, x, InterleavedParam(m, tp, rank), j) == Act(m, x, rank * Per(m, tp) + j)
  {
    hide RowDot, MergedParam, InterleavedParam, Per;
    ParamHolds(m, tp, rank, j);
  }

  /** A rank's partial output: its columns of the down projection, plus the bias on rank 0 only. */
  function Partial(m: Mlp, w: RankWeights, rank: nat, x: seq<real>, interleaved: bool, o: int): real
    requires Fits(w, m) && |x| == m.hidden && 0 <= o < |m.down| && (m.bias.Some? ==> |m.bias.value| == |m.down|)
  {
    Sum(PartialTerm(m, w, x, interleaved, o), 0, |w.gateUp| / 2) + if rank > 0 then 0.0 else BiasAt(m, o)
  }

  function PartialTerm(m: Mlp, w: RankWeights, x: seq<real>, interleaved: bool, o: int): int -> real
    requires Fits(w, m) && |x| == m.hidden && 0 <= o < |m.down|
  {
    j => if 0 <= j < |w.gateUp| / 2
      then Times(w.down[o][j],
                 if interleaved then InterleavedAct(m.silu, x, w.gateUp, j) else StackedAct(m.silu, x, w.gateUp, j))
      else 0.0
  }

  ghost predicate AllFit(ws: seq<RankWeights>, m: Mlp) {
    forall r | 0 <= r < |ws| :: Fits(ws[r], m)
  }

  /** The all-reduced output: every rank holds the sum of the partials. */
  function Reduced(m: Mlp, ws: seq<RankWeights>, x: seq<real>, interleaved: bool, o: int): real
    requires AllFit(ws, m) && |x| == m.hidden && 0 <= o < |m.down| && (m.bias.Some? ==> |m.bias.value| == |m.down|)
  {
    Sum(r => if 0 <= r < |ws| then Partial(m, ws[r], r, x, interleaved, o) else 0.0, 0, |ws|)
  }

  lemma HeldFits(w: RankWeights, m: Mlp, tp: nat, rank: nat, interleaved: bool)
    requires ValidMlp(m, tp) && rank < tp && HoldsMlp(w, m, tp, rank, interleaved)
    ensures Fits(w, m) && |w.gateUp| / 2 == Per(m, tp)
  {
    hide MergedParam, InterleavedParam, Per;
    SliceFitsRank(m.inter, tp, rank);
    var per := Per(m, tp);
    assert |w.gateUp| == 2 * per;
    forall o | 0 <= o < |w.down|
      ensures |w.down[o]| == per
    {
      PerIs(m, tp);
      assert w.down[o] == RankRows(m.down[o], rank, per);
    }
  }

  lemma PerIs(m: Mlp, tp: nat)
    requires tp > 0
    ensures Per(m, tp) == m.inter / tp
  {
  }

  lemma PartialIsStretch(m: Mlp, tp: nat, rank: nat, w: RankWeights, x: seq<real>, interleaved: bool, o: int)
    requires ValidMlp(m, tp) && rank < tp && |x| == m.hidden && 0 <= o < |m.down|
    requires HoldsMlp(w, m, tp, rank, interleaved)
    ensures Fits(w, m)
    ensures Partial(m, w, rank, x, interleaved, o)
         == Sum(DownTerm(m, x, o), rank * Per(m, tp), rank * Per(m, tp) + Per(m, tp))
            + if rank > 0 then 0.0 else BiasAt(m, o)
  {
    hide RowDot, Act, InterleavedAct, StackedAct, InterleavedParam, MergedParam;
    HeldFits(w, m, tp, rank, interleaved);
    SliceFitsRank(m.inter, tp, rank);
    var per := Per(m, tp);
    var f, g := PartialTerm(m, w, x, interleaved, o), DownTerm(m, x, o);
    forall j | 0 <= j < per
      ensures f(j) == g(j + rank * per)
    {
      RankActivations(m, tp, rank, x, j);
      assert m.down[o][rank * per..rank * per + per][j] == m.down[o][rank * per + j];
    }
    SumShift(g, f, rank * per, 0, per);
  }

  /** Sharded and reduced equals unsharded, for every tensor-parallel size and both weight layouts. */
  lemma ReducedIsPlain(m: Mlp, tp: nat, ws: seq<RankWeights>, x: seq<real>, interleaved: bool, o: int)
    requires ValidMlp(m, tp) && |x| == m.hidden && 0 <= o < |m.down|
    requires |ws| == tp && forall r | 0 <= r < tp :: HoldsMlp(ws[r], m, tp, r, interleaved)
    ensures AllFit(ws, m)
    ensures Reduced(m, ws, x, interleaved, o) == Plain(m, x, o)
  {
    hide Partial, DownTerm, BiasAt, HoldsMlp, Fits;
    forall r | 0 <= r < tp
      ensures Fits(ws[r], m)
    {
      HeldFits(ws[r], m, tp, r, interleaved);
    }
    var per := Per(m, tp);
    var part := (r: int) => if 0 <= r < |ws| then Partial(m, ws[r], r, x, interleaved, o) else 0.0;
    var stretch := (r: int) => Sum(DownTerm(m, x, o), r * per, r * per + per);
    var bias := (r: int) => if r == 0 then BiasAt(m, o) else 0.0;
    forall r | 0 <= r < tp
      ensures part(r) == stretch(r) + bias(r)
    {
      PartialIsStretch(m, tp, r, ws[r], x, interleaved, o);
    }
    SumAdd(stretch, bias, part, 0, tp);
    SumBlocks(DownTerm(m, x, o), stretch, per, tp);
    SliceFitsRank(m.inter, tp, 0);
    SumSplit(bias, 0, 1, tp);
    assert Sum(bias, 0, 1) == Sum(bias, 0, 0) + bias(0);
    SumZero(bias, 1, tp);
    assert tp * per == per * tp;
  }

  /** The whole sharded layer on these weights, for every input: the unsharded layer. */
  ghost predicate ComputesPlain(m: Mlp, tp: nat, ws: seq<RankWeights>, interleaved: bool)
    requires ValidMlp(m, tp)
  {
    && AllFit(ws, m)
    && forall x: seq<real>, o | |x| == m.hidden && 0 <= o < |m.down| :: Reduced(m, ws, x, interleaved, o) == Plain(m, x, o)
  }

  lemma HeldComputesPlain(m: Mlp, tp: nat, ws: seq<RankWeights>, interleaved: bool)
    requires ValidMlp(m, tp)
    requires |ws| == tp && forall r | 0 <= r < tp :: HoldsMlp(ws[r], m, tp, r, interleaved)
    ensures ComputesPlain(m, tp, ws, interleaved)
  {
    hide HoldsMlp, Plain, Reduced, Fits;
    forall r | 0 <= r < tp
      ensures Fits(ws[r], m)
    {
      HeldFits(ws[r], m, tp, r, interleaved);
    }
    forall x: seq<real>, o | |x| == m.hidden && 0 <= o < |m.down|
      ensures Reduced(m, ws, x, interleaved, o) == Plain(m, x, o)
    {
      ReducedIsPlain(m, tp, ws, x, interleaved, o);
    }
  }

  // ---------------------------------------------------------------- the mixed pairing

  /** On parameter `param` the interleaved forward computes the rank's stretch of the activations. */
  ghost predicate ReadsRight(m: Mlp, tp: nat, rank: nat, x: seq<real>, param: seq<seq<real>>)
    requires ValidMlp(m, tp) && rank < tp && |x| == m.hidden
    requires |param| == 2 * Per(m, tp) && forall n | 0 <= n < |param| :: |param[n]| == m.hidden
  {
    SliceFitsRank(m.inter, tp, rank);
    forall j | 0 <= j < Per(m, tp) :: InterleavedAct(m.silu, x, param, j) == Act(m, x, rank * Per(m, tp) + j)
  }

  ghost predicate IsShaped(m: Mlp, hidden: nat, inter: nat, silu: real -> real, tp: nat) {
    ValidMlp(m, tp) && m.hidden == hidden && m.inter == inter && m.silu == silu
  }

  /**
   What a fused checkpoint leaves under the interleaved loader is `MergedParam` (`LoadRank`). The
   interleaved forward reads it right, whatever the weights and the input, exactly when each half has
   at most one row (or there is nothing to compute).
   */
  lemma StackedReadsAsInterleaved(hidden: nat, inter: nat, tp: nat, rank: nat, silu: real -> real)
    requires rank < tp && inter % tp == 0
    ensures (forall m: Mlp, x: seq<real> | IsShaped(m, hidden, inter, silu, tp) && |x| == hidden ::
               ReadsRight(m, tp, rank, x, MergedParam(m, tp, rank)))
       <==> (inter / tp <= 1 || hidden == 0 || forall v :: silu(v) == 0.0)
  {
    if inter / tp <= 1 || hidden == 0 || forall v :: silu(v) == 0.0 {
      forall m: Mlp, x: seq<real> | IsShaped(m, hidden, inter, silu, tp) && |x| == hidden
        ensures ReadsRight(m, tp, rank, x, MergedParam(m, tp, rank))
      {
        SmallReadsRight(m, tp, rank, x);
      }
    } else {
      var v :| silu(v) != 0.0;
      var m := Skewed(hidden, inter, rank * (inter / tp), v, silu);
      SkewedReadsWrong(hidden, inter, tp, rank, v, silu);
      SkewedValid(hidden, inter, rank * (inter / tp), v, silu, tp);
    }
  }

  lemma SmallReadsRight(m: Mlp, tp: nat, rank: nat, x: seq<real>)
    requires ValidMlp(m, tp) && rank < tp && |x| == m.hidden
    requires Per(m, tp) <= 1 || m.hidden == 0 || forall v :: m.silu(v) == 0.0
    ensures ReadsRight(m, tp, rank, x, MergedParam(m, tp, rank))
  {
    hide RowDot, MergedParam, Per, Act, InterleavedAct;
    PerIs(m, tp);
    SliceFitsRank(m.inter, tp, rank);
    var param := MergedParam(m, tp, rank);
    forall j | 0 <= j < Per(m, tp)
      ensures InterleavedAct(m.silu, x, param, j) == Act(m, x, rank * Per(m, tp) + j)
    {
      ParamHolds(m, tp, rank, j);
      SmallAct(m, x, param, j, rank * Per(m, tp) + j);
    }
  }

  lemma SmallAct(m: Mlp, x: seq<real>, param: seq<seq<real>>, j: nat, row: nat)
    requires IsMatrix(m.gate, m.inter, m.hidden) && IsMatrix(m.up, m.inter, m.hidden) && |x| == m.hidden && row < m.inter
    requires |param| % 2 == 0 && j < |param| / 2 && forall n | 0 <= n < |param| :: |param[n]| == m.hidden
    requires param[j] == m.gate[row] && param[|param| / 2 + j] == m.up[row]
    requires |param| / 2 <= 1 || m.hidden == 0 || forall v :: m.silu(v) == 0.0
    ensures InterleavedAct(m.silu, x, param, j) == Act(m, x, row)
  {
    hide RowDot;
    if m.hidden == 0 {
      EmptyDot(x, param[2 * j + 1]);
      EmptyDot(x, m.up[row]);
    }
  }

  lemma EmptyDot(a: seq<real>, b: seq<real>)
    requires |a| == |b| == 0
    ensures RowDot(a, b) == 0.0
  {
  }

  /** Gate row `first` is `v` along the first axis, the other gate rows 1, the up rows 0. */
  function Skewed(hidden: nat, inter: nat, first: nat, v: real, silu: real -> real): Mlp
    requires hidden > 0
  {
    Mlp(seq(inter, k => Along(hidden, if k == first then v else 1.0)), seq(inter, _ => Along(hidden, 0.0)), [], None,
        hidden, inter, silu)
  }

  lemma SkewedValid(hidden: nat, inter: nat, first: nat, v: real, silu: real -> real, tp: nat)
    requires hidden > 0 && tp > 0 && inter % tp == 0
    ensures IsShaped(Skewed(hidden, inter, first, v, silu), hidden, inter, silu, tp)
  {
    var m := Skewed(hidden, inter, first, v, silu);
    forall i | 0 <= i < inter
      ensures |m.gate[i]| == hidden && |m.up[i]| == hidden
    {
      assert m.gate[i] == Along(hidden, if i == first then v else 1.0) && m.up[i] == Along(hidden, 0.0);
    }
  }

  lemma SkewedReadsWrong(hidden: nat, inter: nat, tp: nat, rank: nat, v: real, silu: real -> real)
    requires rank < tp && inter % tp == 0 && inter / tp > 1 && hidden > 0 && silu(v) != 0.0
    ensures var m := Skewed(hidden, inter, rank * (inter / tp), v, silu);
            ValidMlp(m, tp) && !ReadsRight(m, tp, rank, Along(hidden, 1.0), MergedParam(m, tp, rank))
  {
    hide RowDot, Along;
    var per := inter / tp;
    var m, x := Skewed(hidden, inter, rank * per, v, silu), Along(hidden, 1.0);
    SliceFitsRank(inter, tp, rank);
    SkewedValid(hidden, inter, rank * per, v, silu, tp);
    var param := MergedParam(m, tp, rank);
    assert param[0] == m.gate[rank * per] == Along(hidden, v);
    assert param[1] == m.gate[rank * per + 1] == Along(hidden, 1.0);
    AlongDot(Along(hidden, v));
    AlongDot(Along(hidden, 1.0));
    AlongDot(Along(hidden, 0.0));
    assert InterleavedAct(silu, x, param, 0) == Times(silu(v), 1.0);
    assert Act(m, x, rank * per + 0) == Times(silu(v), 0.0);
  }
}
