/**
 Choosing between the two attention paths. The metadata builder sizes the scratch buffers by the
 same threshold the dispatcher guards with, so the split-KV path never stores outside them, and
 the output does not depend on which path was taken.
 */
module AttentionDispatch {
  import opened Options
  import opened Scores
  import opened AttentionProblem
  import opened DivMod
  import opened QBlockSchedule
  import opened Attention2D
  import opened AttentionSegments
  import opened Attention3D
  import opened AttentionMeaning

  const MIN_LAUNCH_GRID_SIZE_2D := 128
  const NUM_PAR_SOFTMAX_SEGMENTS := 64
  const TILE_SIZE_DECODE := 8

  function Distance(a: int, b: int): nat { if a <= b then b - a else a - b }

  /** The first of the sizes nearest to the target. */
  function Closest(sizes: seq<nat>, target: int): nat
    requires sizes != []
  {
    if |sizes| == 1 then sizes[0]
    else
      var best := Closest(sizes[..|sizes| - 1], target);
      var last := sizes[|sizes| - 1];
      if Distance(last, target) < Distance(best, target) then last else best
  }

  /** No size is nearer to the target than the `i`-th, and none before it is as near. */
  ghost predicate FirstNearest(sizes: seq<nat>, target: int, i: nat)
    requires i < |sizes|
  {
    forall j | 0 <= j < |sizes| ::
      var here := if sizes[i] < target then target - sizes[i] else sizes[i] - target;
      var there := if sizes[j] < target then target - sizes[j] else sizes[j] - target;
      here <= there && (j < i ==> here < there)
  }

  lemma OneMoreSize(sizes: seq<nat>, target: int, i: nat)
    requires i < |sizes| - 1 && FirstNearest(sizes[..|sizes| - 1], target, i)
    ensures FirstNearest(sizes, target, if Distance(sizes[|sizes| - 1], target) < Distance(sizes[i], target) then |sizes| - 1 else i)
  {
    var n := |sizes| - 1;
    forall j | 0 <= j < n
      ensures sizes[..n][j] == sizes[j]
    {
    }
  }

  lemma {:induction false} ClosestIsNearest(sizes: seq<nat>, target: int) returns (i: nat)
    requires sizes != []
    ensures i < |sizes| && FirstNearest(sizes, target, i) && Closest(sizes, target) == sizes[i]
  {
    i := 0;
    if |sizes| > 1 {
      hide FirstNearest;
      var n := |sizes| - 1;
      i := ClosestIsNearest(sizes[..n], target);
      OneMoreSize(sizes, target, i);
      assert sizes[..n][i] == sizes[i];
      i := if Distance(sizes[n], target) < Distance(sizes[i], target) then n else i;
    }
  }

  /** The builder's threshold and the scratch buffers it allocates for the split-KV path. */
  class MetadataBuilder {
    var seqThreshold3D: nat
    const numParSoftmaxSegments: nat := NUM_PAR_SOFTMAX_SEGMENTS
    var segmOut: array4<real>
    var segmMax: array3<Score>
    var segmSum: array3<real>

    ghost predicate Sized(numHeadsQ: nat, headPadded: nat)
      reads this
    {
      && segmOut.Length0 == segmMax.Length0 == segmSum.Length0 == seqThreshold3D
      && segmOut.Length1 == segmMax.Length1 == segmSum.Length1 == numHeadsQ
      && segmOut.Length2 == segmMax.Length2 == segmSum.Length2 == numParSoftmaxSegments
      && segmOut.Length3 == headPadded
      && segmSum as object != segmMax
    }

    constructor (numHeadsQ: nat, numHeadsKv: nat, headPadded: nat, captureSizes: Option<seq<nat>>)
      requires numHeadsKv > 0 && (captureSizes.Some? ==> captureSizes.value != [])
      ensures Sized(numHeadsQ, headPadded)
      ensures fresh(segmOut) && fresh(segmMax) && fresh(segmSum)
      ensures captureSizes.None? ==> seqThreshold3D == 128 / numHeadsKv
      ensures captureSizes.Some? ==> exists i | 0 <= i < |captureSizes.value| ::
                FirstNearest(captureSizes.value, 128 / numHeadsKv, i) && seqThreshold3D == captureSizes.value[i]
    {
      var threshold := MIN_LAUNCH_GRID_SIZE_2D / numHeadsKv;
      if captureSizes.Some? {
        ghost var i := ClosestIsNearest(captureSizes.value, threshold);
        threshold := Closest(captureSizes.value, threshold);
      }
      seqThreshold3D := threshold;
      segmOut := new real[threshold, numHeadsQ, NUM_PAR_SOFTMAX_SEGMENTS, headPadded];
      segmMax := new Score[threshold, numHeadsQ, NUM_PAR_SOFTMAX_SEGMENTS];
      segmSum := new real[threshold, numHeadsQ, NUM_PAR_SOFTMAX_SEGMENTS];
    }
  }

  /** The dispatch guard bounds the token count by the buffers' first dimension. */
  lemma {:induction false} TokensFitSequences(p: Problem, n: nat)
    requires ValidBatch(p) && n <= p.numSeqs
    requires forall s | 0 <= s < p.numSeqs :: QueryLen(p, s) <= 1
    ensures p.queryStart[n] <= n
  {
    if n > 0 {
      TokensFitSequences(p, n - 1);
      assert QueryLen(p, n - 1) <= 1;
    }
  }

  ghost predicate CoversSegments(p: Problem, c: Config, segments: nat, order: seq<(int, int, int)>)
    requires ValidGrid(p, c)
  {
    forall q, kvh, i | 0 <= q < TotalQBlocks(p, c) && 0 <= kvh < p.numKvHeads && 0 <= i < segments :: (q, kvh, i) in order
  }

  lemma LaunchedSegment(p: Problem, c: Config, segments: nat, order: seq<(int, int, int)>, t: int, h: int, i: int)
    requires ValidGrid(p, c) && CoversSegments(p, c, segments, order)
    requires 0 <= t < NumTokens(p) && 0 <= h < p.numHeads && 0 <= i < segments
    ensures exists n | 0 <= n < |order| :: IsHome(p, c, order[n].0, order[n].1, t, h) && order[n].2 == i
  {
    hide QueriesPerKv, HomeProgram, TotalQBlocks;
    var q, kvh := HomeProgram(p, c, SeqOf(p, t), t), h / QueriesPerKv(p);
    HomeComputes(p, c, SeqOf(p, t), t, h);
    assert (q, kvh, i) in order;
    var n :| 0 <= n < |order| && order[n] == (q, kvh, i);
    assert IsHome(p, c, order[n].0, order[n].1, t, h);
  }

  method Launch3D(p: Problem, c: Config, e: real -> real, segments: nat, order: seq<(int, int, int)>,
                  reduceOrder: seq<(int, int)>,
                  segmOut: array4<real>, segmMax: array3<Score>, segmSum: array3<real>, out: array3<real>)
    requires ValidGrid(p, c) && IsExp(e) && c.tile > 0 && segments > 0 && OutputShape(p, out)
    requires ScratchShape(p, segments, segmOut, segmMax, segmSum)
    requires segmSum as object != segmMax && out as object !in {segmMax, segmSum}
    requires forall n | 0 <= n < |order| ::
               0 <= order[n].0 < TotalQBlocks(p, c) && 0 <= order[n].1 < p.numKvHeads && 0 <= order[n].2 < segments
    requires CoversSegments(p, c, segments, order) && CoversRows(p, reduceOrder)
    modifies segmOut, segmMax, segmSum, out
    ensures forall t, h, d | InOutput(p, t, h, d) :: out[t, h, d] == Answer(p, e, t, h, d)
  {
    hide Answer, QueriesPerKv, HomeProgram, TotalQBlocks, IsHome, FirstBlock, ActiveOf, CellReady;
    for n := 0 to |order|
      invariant forall n', t, h | 0 <= n' < n && 0 <= t < NumTokens(p) && 0 <= h < p.numHeads
                  && IsHome(p, c, order[n'].0, order[n'].1, t, h) && order[n'].2 < ActiveOf(p, c, segments, t) ::
                  CellReady(p, c, e, segments, t, h, order[n'].2, segmOut, segmMax, segmSum)
    {
      Kernel3D(p, c, e, segments, order[n].0, order[n].1, order[n].2, segmOut, segmMax, segmSum);
    }
    forall t, h | 0 <= t < NumTokens(p) && 0 <= h < p.numHeads
      ensures AllReady(p, c, e, segments, t, h, segmOut, segmMax, segmSum)
    {
      forall i | 0 <= i < ActiveOf(p, c, segments, t)
        ensures CellReady(p, c, e, segments, t, h, i, segmOut, segmMax, segmSum)
      {
        ActiveWithin(p, c, segments, t);
        LaunchedSegment(p, c, segments, order, t, h, i);
      }
    }
    ReduceAll(p, c, e, segments, reduceOrder, segmOut, segmMax, segmSum, out);
  }

  lemma ActiveWithin(p: Problem, c: Config, segments: nat, t: int)
    requires ValidGrid(p, c) && c.tile > 0 && segments > 0 && 0 <= t < NumTokens(p)
    ensures ActiveOf(p, c, segments, t) <= segments
  {
    OwnedSequenceNonempty(p, t);
    EarlyReturnIsMasked(c, p.seqLens[SeqOf(p, t)], segments, 0);
  }

  /** The reduction runs one program a token and head. */
  ghost predicate CoversRows(p: Problem, order: seq<(int, int)>)
    requires |p.queryStart| == p.numSeqs + 1
  {
    && (forall n | 0 <= n < |order| :: 0 <= order[n].0 < NumTokens(p) && 0 <= order[n].1 < p.numHeads)
    && (forall t, h | 0 <= t < NumTokens(p) && 0 <= h < p.numHeads :: (t, h) in order)
  }

  method ReduceAll(p: Problem, c: Config, e: real -> real, segments: nat, order: seq<(int, int)>,
                   segmOut: array4<real>, segmMax: array3<Score>, segmSum: array3<real>, out: array3<real>)
    requires ValidGrid(p, c) && IsExp(e) && c.tile > 0 && segments > 0 && OutputShape(p, out)
    requires ScratchShape(p, segments, segmOut, segmMax, segmSum) && out as object !in {segmMax, segmSum}
    requires forall t, h | 0 <= t < NumTokens(p) && 0 <= h < p.numHeads ::
               AllReady(p, c, e, segments, t, h, segmOut, segmMax, segmSum)
    requires CoversRows(p, order)
    modifies out
    ensures forall t, h, d | InOutput(p, t, h, d) :: out[t, h, d] == Answer(p, e, t, h, d)
  {
    hide Answer, QueriesPerKv, ActiveOf, CellReady;
    for n := 0 to |order|
      invariant forall i, d | 0 <= i < n && 0 <= d < p.headSize ::
                  out[order[i].0, order[i].1, d] == Answer(p, e, order[i].0, order[i].1, d)
    {
      var (t, h) := order[n];
      assert AllReady(p, c, e, segments, t, h, segmOut, segmMax, segmSum);
      label Before:
      ReduceSegments(p, c, e, segments, t, h, segmOut, segmMax, segmSum, out);
      forall i, d | 0 <= i < n + 1 && 0 <= d < p.headSize
        ensures out[order[i].0, order[i].1, d] == Answer(p, e, order[i].0, order[i].1, d)
      {
        if order[i] == (t, h) {
          assert CellDone(p, e, t, h, d, out);
        } else {
          assert InOutput(p, order[i].0, order[i].1, d);
        }
      }
    }
    forall t, h, d | InOutput(p, t, h, d)
      ensures out[t, h, d] == Answer(p, e, t, h, d)
    {
      assert (t, h) in order;
      var i :| 0 <= i < |order| && order[i] == (t, h);
    }
  }

  /** Rows per block: at least sixteen, and at least one row per query head of a group. */
  function BlockM(queriesPerKv: nat): nat {
    if queriesPerKv <= 16 then 16 else NextPowerOf2(queriesPerKv)
  }

  function NextPowerOf2(x: nat): nat
    requires x > 0
  {
    PowerAtLeast(x, 1)
  }

  function PowerAtLeast(x: nat, power: nat): (r: nat)
    requires power > 0
    ensures r >= x && r >= power
    decreases x - power
  {
    if power >= x then power else PowerAtLeast(x, 2 * power)
  }

  /** The whole call: any grid order, either path, one answer. */
  method UnifiedAttention(p: Problem, e: real -> real, tilePrefill: nat, maxSeqlenQ: nat, batchInvariant: bool,
                          builder: MetadataBuilder?, order2D: seq<(int, int)>, order3D: seq<(int, int, int)>,
                          reduceOrder: seq<(int, int)>, out: array3<real>)
    requires Valid(p) && QueriesPerKv(p) > 0 && IsExp(e) && tilePrefill > 0 && OutputShape(p, out)
    requires forall s | 0 <= s < p.numSeqs :: QueryLen(p, s) <= maxSeqlenQ
    requires builder != null ==> builder.Sized(p.numHeads, p.headPadded)
    requires builder != null ==> out as object !in {builder.segmMax, builder.segmSum}
    requires var c := LaunchConfig(p, tilePrefill);
             (forall i | 0 <= i < |order2D| :: 0 <= order2D[i].0 < TotalQBlocks(p, c) && 0 <= order2D[i].1 < p.numKvHeads)
             && Covers(p, c, order2D)
    requires var c := LaunchConfig(p, TILE_SIZE_DECODE);
             (forall i | 0 <= i < |order3D| :: 0 <= order3D[i].0 < TotalQBlocks(p, c)
                && 0 <= order3D[i].1 < p.numKvHeads && 0 <= order3D[i].2 < NUM_PAR_SOFTMAX_SEGMENTS)
             && CoversSegments(p, c, NUM_PAR_SOFTMAX_SEGMENTS, order3D)
    requires CoversRows(p, reduceOrder)
    modifies out
    modifies if builder == null then {} else {builder.segmOut as object, builder.segmMax, builder.segmSum}
    ensures forall t, h, d | InOutput(p, t, h, d) :: out[t, h, d] == Answer(p, e, t, h, d)
    ensures IsAttention(p, e, out)
  {
    hide Answer, TotalQBlocks, IsAttention;
    if builder == null || maxSeqlenQ > 1 || p.numSeqs > builder.seqThreshold3D || batchInvariant {
      Launch2D(p, LaunchConfig(p, tilePrefill), e, order2D, out);
    } else {
      TokensFitSequences(p, p.numSeqs);
      Launch3D(p, LaunchConfig(p, TILE_SIZE_DECODE), e, builder.numParSoftmaxSegments, order3D, reduceOrder,
               builder.segmOut, builder.segmMax, builder.segmSum, out);
    }
    AnswersAreAttention(p, e, out);
  }

  function LaunchConfig(p: Problem, tile: nat): (c: Config)
    requires p.numKvHeads > 0 && QueriesPerKv(p) > 0
    ensures c.blockM >= QueriesPerKv(p) && c.blockQ == c.blockM / QueriesPerKv(p) && c.blockQ > 0 && c.tile == tile
  {
    var blockM := BlockM(QueriesPerKv(p));
    DivAtLeast(blockM, QueriesPerKv(p), 1);
    Config(blockM, blockM / QueriesPerKv(p), tile)
  }
}
