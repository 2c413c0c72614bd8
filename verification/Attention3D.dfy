/**
 The split-KV (3D) kernel, which fills one scratch cell per segment, and the reduction that merges the
 segments of a row into plain softmax attention.
 */
module Attention3D {
  import opened Sums
  import opened Scores
  import opened AttentionProblem
  import opened AttentionTile
  import opened DivMod
  import opened QBlockSchedule
  import opened AttentionKernels
  import opened Attention2D
  import opened AttentionSegments

  // ---------------------------------------------------------------- one segment program

  method Kernel3D(p: Problem, c: Config, e: real -> real, segments: nat, q: int, kvh: int, i: int,
                  segmOut: array4<real>, segmMax: array3<Score>, segmSum: array3<real>)
    requires ValidGrid(p, c) && IsExp(e) && c.tile > 0 && segments > 0
    requires ScratchShape(p, segments, segmOut, segmMax, segmSum) && segmSum as object != segmMax
    requires 0 <= q < TotalQBlocks(p, c) && 0 <= kvh < p.numKvHeads && 0 <= i < segments
    modifies segmOut, segmMax, segmSum
    ensures forall t, h | 0 <= t < NumTokens(p) && 0 <= h < p.numHeads && IsHome(p, c, q, kvh, t, h)
              && i < ActiveOf(p, c, segments, t) :: CellReady(p, c, e, segments, t, h, i, segmOut, segmMax, segmSum)
    ensures forall t', h', i' | old(CellReady(p, c, e, segments, t', h', i', segmOut, segmMax, segmSum)) ::
              CellReady(p, c, e, segments, t', h', i', segmOut, segmMax, segmSum)
  {
    hide QPos, HeadOf, Stored, QueriesPerKv, RowState, TileRange, SegmentDone, ActiveSegments, TilesPerSegment;
    var s := FindSeqIdx(p.queryStart, q, p.numSeqs, c.blockQ, true);
    ProgramFound(p, c, q, s);
    var b := q - (p.queryStart[s] / c.blockQ + s);
    forall t, h | 0 <= t < NumTokens(p) && 0 <= h < p.numHeads && IsHome(p, c, q, kvh, t, h)
      ensures b * c.blockQ < QueryLen(p, s) && SeqOf(p, t) == s
      ensures var m := HomeRow(p, c, s, t, h);
              0 <= m < c.blockM && Stored(p, c, Block(s, b, kvh), m)
              && p.queryStart[s] + QPos(p, c, Block(s, b, kvh), m) == t && HeadOf(p, Block(s, b, kvh), m) == h
    {
      HomeRowStored(p, c, q, kvh, s, t, h);
      HomeSequence(p, c, q, kvh, s, t, h);
    }
    if b * c.blockQ >= QueryLen(p, s) {
      return;
    }
    var blk := Block(s, b, kvh);
    var seqLen := p.seqLens[s];
    assert seqLen > 0 by { MulGe(b, 0, c.blockQ); }
    var tps := TilesPerSegment(c, seqLen, segments);
    EarlyReturnIsMasked(c, seqLen, segments, i);
    if i * tps * c.tile >= seqLen {
      return;
    }
    SegmentsCover(c, seqLen, segments);
    MulGe(i, 0, tps);
    var (lo, hi) := TileRange(p, c, blk);
    TileRangeNonneg(p, c, blk);
    var M0 := seq(c.blockM, m => if i == 0 then InitialMax(p, blk, m) else NegInf);
    var M, L, acc := TileLoop(p, c, e, blk, MaxInt(i * tps, lo), Min((i + 1) * tps, hi), M0);
    StoreSegmentBlock(p, c, e, segments, blk, i, M, L, acc, segmOut, segmMax, segmSum) by {
      forall m | 0 <= m < c.blockM && Stored(p, c, blk, m)
        ensures SegmentRowReady(p, c, e, segments, blk, m, i, M[m], L[m], acc[m])
      {
        StoredPosition(p, c, blk, m);
        RowStateIsSegment(p, c, e, blk, m, segments, i, M[m], L[m], acc[m]);
      }
    }
  }

  lemma HomeSequence(p: Problem, c: Config, q: int, kvh: int, s: int, t: int, h: int)
    requires ValidGrid(p, c) && Decodes(p, c, q, s) && 0 <= t < NumTokens(p) && 0 <= h < p.numHeads
    requires IsHome(p, c, q, kvh, t, h)
    ensures SeqOf(p, t) == s
  {
    HomeComputes(p, c, SeqOf(p, t), t, h);
    DecodesUnique(p, c, q, s, SeqOf(p, t));
  }

  ghost function ActiveOf(p: Problem, c: Config, segments: nat, t: int): int
    requires ValidGrid(p, c) && c.tile > 0 && segments > 0 && 0 <= t < NumTokens(p)
  {
    OwnedSequenceNonempty(p, t);
    ActiveSegments(c, p.seqLens[SeqOf(p, t)], segments)
  }

  lemma OwnedSequenceNonempty(p: Problem, t: int)
    requires ValidBatch(p) && 0 <= t < NumTokens(p)
    ensures p.seqLens[SeqOf(p, t)] > 0
  {
    assert QueryLen(p, SeqOf(p, t)) > 0;
  }

  ghost predicate SegmentRowReady(p: Problem, c: Config, e: real -> real, segments: nat, blk: Block, m: int, i: int,
                                  M: Score, L: real, acc: seq<real>)
    requires ValidLaunch(p, c, blk) && IsExp(e) && segments > 0 && 0 <= m < c.blockM && |acc| == p.headPadded
  {
    var t, h := p.queryStart[blk.s] + QPos(p, c, blk, m), HeadOf(p, blk, m);
    0 <= t < NumTokens(p) && 0 <= h < p.numHeads && SegmentDone(p, c, e, segments, t, h, i, M, L, acc)
  }

  method StoreSegmentBlock(p: Problem, c: Config, e: real -> real, segments: nat, blk: Block, i: int,
                           M: seq<Score>, L: seq<real>, acc: seq<seq<real>>,
                           segmOut: array4<real>, segmMax: array3<Score>, segmSum: array3<real>)
    requires ValidLaunch(p, c, blk) && IsExp(e) && segments > 0 && 0 <= i < segments && Shaped(p, c, M, L, acc)
    requires ScratchShape(p, segments, segmOut, segmMax, segmSum) && segmSum as object != segmMax
    requires forall m | 0 <= m < c.blockM && Stored(p, c, blk, m) ::
               SegmentRowReady(p, c, e, segments, blk, m, i, M[m], L[m], acc[m])
    modifies segmOut, segmMax, segmSum
    ensures forall m | 0 <= m < c.blockM && Stored(p, c, blk, m) ::
              CellReady(p, c, e, segments, p.queryStart[blk.s] + QPos(p, c, blk, m), HeadOf(p, blk, m), i,
                        segmOut, segmMax, segmSum)
    ensures forall t', h', i' | old(CellReady(p, c, e, segments, t', h', i', segmOut, segmMax, segmSum)) ::
              CellReady(p, c, e, segments, t', h', i', segmOut, segmMax, segmSum)
  {
    hide QPos, HeadOf, Stored, QueriesPerKv, SegmentDone, CellReady;
    for m := 0 to c.blockM
      invariant forall m' | 0 <= m' < m && Stored(p, c, blk, m') ::
                  CellReady(p, c, e, segments, p.queryStart[blk.s] + QPos(p, c, blk, m'), HeadOf(p, blk, m'), i,
                            segmOut, segmMax, segmSum)
      invariant forall t', h', i' | old(CellReady(p, c, e, segments, t', h', i', segmOut, segmMax, segmSum)) ::
                  CellReady(p, c, e, segments, t', h', i', segmOut, segmMax, segmSum)
    {
      if Stored(p, c, blk, m) {
        assert SegmentRowReady(p, c, e, segments, blk, m, i, M[m], L[m], acc[m]);
        StoreSegment(p, c, e, segments, p.queryStart[blk.s] + QPos(p, c, blk, m), HeadOf(p, blk, m), i,
                     M[m], L[m], acc[m], segmOut, segmMax, segmSum);
      }
    }
  }

  // ---------------------------------------------------------------- merging the segments

  /** In token mode the binary search finds the sequence that owns the token. */
  lemma TokenFound(p: Problem, c: Config, t: int, s: int)
    requires ValidGrid(p, c) && 0 <= t < NumTokens(p) && -1 <= s < p.numSeqs
    requires forall i | 0 <= i < p.numSeqs :: SearchKey(p.queryStart, i, c.blockQ, false) <= t <==> i <= s
    ensures s == SeqOf(p, t)
  {
    var s' := SeqOf(p, t);
    assert SearchKey(p.queryStart, s', c.blockQ, false) <= t;
    if s > s' {
      SearchKeySorted(p.queryStart, s' + 1, s, c.blockQ, false);
    }
  }

  /** If every lane is still at minus infinity the lanes stand for nothing. */
  lemma SomeLaneFinite(e: real -> real, ms: seq<Score>, xs: seq<real>, g: int -> real)
    requires |ms| == |xs| && Sum(g, 0, |ms|) != 0.0
    requires forall i | 0 <= i < |ms| :: g(i) == Mass(e, ms[i], xs[i])
    ensures MaxOf(ms).Fin?
  {
    MaxOfBounds(ms);
    if MaxOf(ms).NegInf? {
      forall i | 0 <= i < |ms|
        ensures g(i) == 0.0
      {
        assert Le(ms[i], MaxOf(ms));
      }
      SumZero(g, 0, |ms|);
    }
  }

  /** Segment by segment, the keys of a sequence add up to the whole row. */
  lemma SegmentsAddUp(f: int -> real, first: real, g: int -> real, keys: nat, segments: nat, n: nat)
    requires segments > 0 && n <= segments * keys
    requires forall k | k >= n :: f(k) == 0.0
    requires forall i | 0 <= i < segments :: g(i) == (if i == 0 then first else 0.0) + Sum(f, i * keys, i * keys + keys)
    ensures Sum(g, 0, segments) == first + Sum(f, 0, n)
  {
    var sink := (i: int) => if i == 0 then first else 0.0;
    var part := (i: int) => Sum(f, i * keys, i * keys + keys);
    SumAdd(sink, part, g, 0, segments);
    SumSplit(sink, 0, 1, segments);
    assert Sum(sink, 0, 1) == Sum(sink, 0, 0) + sink(0);
    SumZero(sink, 1, segments);
    SumBlocks(f, part, keys, segments);
    SumTrim(f, 0, 0, n, segments * keys);
  }

  /** Masked loads of the scratch cells of (t, h). */
  function LoadMax(act: int, segMax: array3<Score>, t: int, h: int): (ms: seq<Score>)
    requires 0 <= t < segMax.Length0 && 0 <= h < segMax.Length1
    reads segMax
    ensures |ms| == segMax.Length2
  {
    seq(segMax.Length2, i requires 0 <= i < segMax.Length2 reads segMax => if i < act then segMax[t, h, i] else NegInf)
  }

  function LoadSum(act: int, segSum: array3<real>, t: int, h: int): (xs: seq<real>)
    requires 0 <= t < segSum.Length0 && 0 <= h < segSum.Length1
    reads segSum
    ensures |xs| == segSum.Length2
  {
    seq(segSum.Length2, i requires 0 <= i < segSum.Length2 reads segSum => if i < act then segSum[t, h, i] else 0.0)
  }

  function LoadOut(act: int, segOut: array4<real>, t: int, h: int, d: int): (xs: seq<real>)
    requires 0 <= t < segOut.Length0 && 0 <= h < segOut.Length1 && 0 <= d < segOut.Length3
    reads segOut
    ensures |xs| == segOut.Length2
  {
    seq(segOut.Length2, i requires 0 <= i < segOut.Length2 reads segOut => if i < act then segOut[t, h, i, d] else 0.0)
  }

  ghost predicate AllReady(p: Problem, c: Config, e: real -> real, segments: nat, t: int, h: int,
                           segmOut: array4<real>, segmMax: array3<Score>, segmSum: array3<real>)
    requires ValidGrid(p, c) && IsExp(e) && segments > 0 && c.tile > 0
    requires ScratchShape(p, segments, segmOut, segmMax, segmSum)
    requires 0 <= t < NumTokens(p) && 0 <= h < p.numHeads
    reads segmOut, segmMax, segmSum
  {
    forall i | 0 <= i < ActiveOf(p, c, segments, t) ::
      CellReady(p, c, e, segments, t, h, i, segmOut, segmMax, segmSum)
  }

  /** A masked lane stands for its segment too: the segment never ran because it has no keys. */
  lemma MaskedLane(p: Problem, c: Config, e: real -> real, segments: nat, t: int, h: int, i: int, L: real, acc: seq<real>)
    requires ValidGrid(p, c) && IsExp(e) && segments > 0 && c.tile > 0
    requires 0 <= t < NumTokens(p) && 0 <= i && ActiveOf(p, c, segments, t) <= i && p.headSize <= |acc|
    ensures SegmentDone(p, c, e, segments, t, h, i, NegInf, L, acc)
  {
    hide RowScore, ActiveSegments, TilesPerSegment, QueriesPerKv;
    var s := SeqOf(p, t);
    var qpos, keys := t - p.queryStart[s], SegmentKeys(c, p.seqLens[s], segments);
    OwnedSequenceNonempty(p, t);
    EarlyReturnIsMasked(c, p.seqLens[s], segments, i);
    SegmentsCover(c, p.seqLens[s], segments);
    SegmentEdges(i, TilesPerSegment(c, p.seqLens[s], segments), c.tile);
    BeyondSequence(p, e, s, qpos, h);
    SumZero(KeyWeight(p, e, s, qpos, h), i * keys, i * keys + keys);
    forall d | 0 <= d < p.headSize
      ensures Sum(KeyValue(p, e, s, qpos, h, d), i * keys, i * keys + keys) == 0.0
    {
      SumZero(KeyValue(p, e, s, qpos, h, d), i * keys, i * keys + keys);
    }
  }

  /** No query sees past the end of its sequence. */
  lemma BeyondSequence(p: Problem, e: real -> real, s: int, qpos: int, h: int)
    requires Valid(p) && IsExp(e) && 0 <= s < p.numSeqs && qpos < QueryLen(p, s)
    ensures forall k | k >= p.seqLens[s] :: KeyWeight(p, e, s, qpos, h)(k) == 0.0
    ensures forall d, k {:trigger KeyValue(p, e, s, qpos, h, d)(k)} | k >= p.seqLens[s] ::
              KeyValue(p, e, s, qpos, h, d)(k) == 0.0
  {
    MaskedKeysWeighNothing(p, e, s, qpos, h);
  }

  // ---------------------------------------------------------------- the reduction

  lemma MergedDenominator(p: Problem, c: Config, e: real -> real, segments: nat, t: int, h: int,
                          ms: seq<Score>, xs: seq<real>, accs: seq<seq<real>>)
    requires ValidGrid(p, c) && IsExp(e) && segments > 0 && c.tile > 0
    requires 0 <= t < NumTokens(p) && |ms| == |xs| == |accs| == segments
    requires forall i | 0 <= i < segments :: p.headSize <= |accs[i]|
    requires forall i | 0 <= i < segments :: SegmentDone(p, c, e, segments, t, h, i, ms[i], xs[i], accs[i])
    ensures var s := SeqOf(p, t); var den := Denominator(p, e, s, t - p.queryStart[s], h);
            MaxOf(ms).Fin? && den > 0.0 && Mass(e, MaxOf(ms), Tot(Scaled(e, ms, xs, MaxOf(ms).v))) == den
  {
    hide RowScore, KeyWeight, KeyValue, Mass, TilesPerSegment, QueriesPerKv, Tot, Sum, MaxOf, Scaled, Weight;
    var s := SeqOf(p, t);
    var qpos, keys, n := t - p.queryStart[s], SegmentKeys(c, p.seqLens[s], segments), p.seqLens[s];
    SegmentKeysCover(c, n, segments);
    BeyondSequence(p, e, s, qpos, h);
    DenominatorPositive(p, e, s, qpos, h);
    var g := (i: int) => if 0 <= i < segments then Mass(e, ms[i], xs[i]) else 0.0;
    forall i | 0 <= i < segments
      ensures g(i) == (if i == 0 then Weight(e, SinkScore(p, h)) else 0.0)
        + Sum(KeyWeight(p, e, s, qpos, h), i * keys, i * keys + keys)
    {
      assert SegmentDone(p, c, e, segments, t, h, i, ms[i], xs[i], accs[i]);
      SinkWeight(p, e, h, i);
    }
    SegmentsAddUp(KeyWeight(p, e, s, qpos, h), Weight(e, SinkScore(p, h)), g, keys, segments, n);
    SomeLaneFinite(e, ms, xs, g);
    ScaledMass(e, ms, xs, MaxOf(ms).v, g);
  }

  lemma SinkWeight(p: Problem, e: real -> real, h: int, i: int)
    ensures Weight(e, SegmentSink(p, h, i)) == if i == 0 then Weight(e, SinkScore(p, h)) else 0.0
  {
  }

  lemma SegmentKeysCover(c: Config, n: nat, segments: nat)
    requires segments > 0 && c.tile > 0
    ensures SegmentKeys(c, n, segments) >= 0 && n <= segments * SegmentKeys(c, n, segments)
  {
    SegmentsCover(c, n, segments);
    MulGe(TilesPerSegment(c, n, segments), 0, c.tile);
  }

  lemma MergedNumerator(p: Problem, c: Config, e: real -> real, segments: nat, t: int, h: int, d: int, top: real,
                        ms: seq<Score>, xs: seq<real>, vs: seq<real>, accs: seq<seq<real>>)
    requires ValidGrid(p, c) && IsExp(e) && segments > 0 && c.tile > 0
    requires 0 <= t < NumTokens(p) && 0 <= d < p.headSize
    requires |ms| == |xs| == |vs| == |accs| == segments
    requires forall i | 0 <= i < segments :: p.headSize <= |accs[i]| && accs[i][d] == vs[i]
    requires forall i | 0 <= i < segments :: SegmentDone(p, c, e, segments, t, h, i, ms[i], xs[i], accs[i])
    ensures Mass(e, Fin(top), Tot(Scaled(e, ms, vs, top)))
         == Sum(KeyValue(p, e, SeqOf(p, t), t - p.queryStart[SeqOf(p, t)], h, d), 0, p.seqLens[SeqOf(p, t)])
  {
    hide RowScore, KeyWeight, KeyValue, Mass, TilesPerSegment, QueriesPerKv, Tot, Sum, Scaled;
    var s := SeqOf(p, t);
    var qpos, keys, n := t - p.queryStart[s], SegmentKeys(c, p.seqLens[s], segments), p.seqLens[s];
    SegmentKeysCover(c, n, segments);
    BeyondSequence(p, e, s, qpos, h);
    var f := KeyValue(p, e, s, qpos, h, d);
    var g := (i: int) => if 0 <= i < segments then Mass(e, ms[i], vs[i]) else 0.0;
    forall i | 0 <= i < segments
      ensures g(i) == (if i == 0 then 0.0 else 0.0) + Sum(f, i * keys, i * keys + keys)
    {
      assert SegmentDone(p, c, e, segments, t, h, i, ms[i], xs[i], accs[i]);
    }
    assert forall k | k >= n :: f(k) == 0.0;
    SegmentsAddUp(f, 0.0, g, keys, segments, n);
    ScaledMass(e, ms, vs, top, g);
  }

  /** Scaled, summed and divided, the lanes give the softmax attention of the row. */
  lemma MergedRow(p: Problem, c: Config, e: real -> real, segments: nat, t: int, h: int, d: int,
                  ms: seq<Score>, xs: seq<real>, vs: seq<real>, accs: seq<seq<real>>)
    requires ValidGrid(p, c) && IsExp(e) && segments > 0 && c.tile > 0
    requires 0 <= t < NumTokens(p) && 0 <= d < p.headSize
    requires |ms| == |xs| == |vs| == |accs| == segments
    requires forall i | 0 <= i < segments :: p.headSize <= |accs[i]| && accs[i][d] == vs[i]
    requires forall i | 0 <= i < segments :: SegmentDone(p, c, e, segments, t, h, i, ms[i], xs[i], accs[i])
    ensures MaxOf(ms).Fin?
    ensures var top := MaxOf(ms).v;
            Ratio(Tot(Scaled(e, ms, vs, top)), Tot(Scaled(e, ms, xs, top))) == Answer(p, e, t, h, d)
  {
    hide SegmentDone, Mass, Tot, MaxOf, Scaled, KeyValue, Denominator;
    MergedDenominator(p, c, e, segments, t, h, ms, xs, accs);
    var top := MaxOf(ms).v;
    MergedNumerator(p, c, e, segments, t, h, d, top, ms, xs, vs, accs);
    var s := SeqOf(p, t);
    var qpos := t - p.queryStart[s];
    Unscale(e, Fin(top), Tot(Scaled(e, ms, xs, top)), Tot(Scaled(e, ms, vs, top)),
            Denominator(p, e, s, qpos, h), Sum(KeyValue(p, e, s, qpos, h, d), 0, p.seqLens[s]));
  }

  /** Lanes rescaled to a common maximum stand for the sum of what they stood for. */
  lemma ScaledMass(e: real -> real, ms: seq<Score>, xs: seq<real>, top: real, g: int -> real)
    requires IsExp(e) && |ms| == |xs|
    requires forall i | 0 <= i < |ms| :: g(i) == Mass(e, ms[i], xs[i])
    ensures Mass(e, Fin(top), Tot(Scaled(e, ms, xs, top))) == Sum(g, 0, |ms|)
  {
    hide Rescaled, Mass, Tot, Sum;
    var lanes := Scaled(e, ms, xs, top);
    forall i | 0 <= i < |ms|
      ensures Mass(e, Fin(top), lanes[i]) == g(0 + i)
    {
      RescaleMass(e, ms[i], xs[i], top);
    }
    TotMass(e, Fin(top), lanes, g, 0);
  }

  function Scaled(e: real -> real, ms: seq<Score>, xs: seq<real>, top: real): (lanes: seq<real>)
    requires |ms| == |xs|
    ensures |lanes| == |ms|
  {
    seq(|ms|, i requires 0 <= i < |ms| => Rescaled(e, xs[i], ms[i], top))
  }

  ghost function LaneRows(act: int, segmOut: array4<real>, t: int, h: int): (rows: seq<seq<real>>)
    requires 0 <= t < segmOut.Length0 && 0 <= h < segmOut.Length1
    reads segmOut
    ensures |rows| == segmOut.Length2
  {
    seq(segmOut.Length2, i requires 0 <= i < segmOut.Length2 reads segmOut =>
      if i < act then StoredRow(segmOut, t, h, i) else seq(segmOut.Length3, d => 0.0))
  }

  method ReduceSegments(p: Problem, c: Config, e: real -> real, segments: nat, t: int, h: int,
                        segmOut: array4<real>, segmMax: array3<Score>, segmSum: array3<real>, out: array3<real>)
    requires ValidGrid(p, c) && IsExp(e) && segments > 0 && c.tile > 0 && OutputShape(p, out)
    requires ScratchShape(p, segments, segmOut, segmMax, segmSum) && out as object !in {segmMax, segmSum}
    requires 0 <= t < NumTokens(p) && 0 <= h < p.numHeads
    requires AllReady(p, c, e, segments, t, h, segmOut, segmMax, segmSum)
    modifies out
    ensures RowDone(p, e, t, h, out)
    ensures forall t', h', d' | InOutput(p, t', h', d') && (t', h') != (t, h) :: out[t', h', d'] == old(out[t', h', d'])
  {
    hide SegmentDone, Tot, MaxOf, Answer, Scaled, Ratio, QueriesPerKv, ActiveSegments, TilesPerSegment;
    var s := FindSeqIdx(p.queryStart, t, p.numSeqs, c.blockQ, false);
    TokenFound(p, c, t, s);
    OwnedSequenceNonempty(p, t);
    var act := ActiveSegments(c, p.seqLens[s], segments);
    var ms, xs := LoadMax(act, segmMax, t, h), LoadSum(act, segmSum, t, h);
    var row := ReduceRow(p, c, e, segments, t, h, act, ms, xs, segmOut, segmMax, segmSum);
    hide SegmentDone, Valid, IsExp, ValidGrid, AllReady, ScratchShape;
    for d := 0 to p.headSize
      invariant forall d' | 0 <= d' < d :: out[t, h, d'] == row[d']
      invariant forall t', h', d' | InOutput(p, t', h', d') && (t', h') != (t, h) ::
                  out[t', h', d'] == old(out[t', h', d'])
    {
      out[t, h, d] := row[d];
    }
    assert forall d | 0 <= d < p.headSize :: CellDone(p, e, t, h, d, out);
  }

  /** The row of quotients of the rescaled segment outputs and sums. */
  method ReduceRow(p: Problem, c: Config, e: real -> real, segments: nat, t: int, h: int, act: int,
                   ms: seq<Score>, xs: seq<real>, segmOut: array4<real>, segmMax: array3<Score>, segmSum: array3<real>)
    returns (row: seq<real>)
    requires ValidGrid(p, c) && IsExp(e) && segments > 0 && c.tile > 0
    requires ScratchShape(p, segments, segmOut, segmMax, segmSum)
    requires 0 <= t < NumTokens(p) && 0 <= h < p.numHeads && act == ActiveOf(p, c, segments, t)
    requires ms == LoadMax(act, segmMax, t, h) && xs == LoadSum(act, segmSum, t, h)
    requires AllReady(p, c, e, segments, t, h, segmOut, segmMax, segmSum)
    ensures |row| == p.headSize && forall d | 0 <= d < p.headSize :: row[d] == Answer(p, e, t, h, d)
  {
    hide SegmentDone, Tot, MaxOf, Answer, Scaled, Ratio, QueriesPerKv, ActiveSegments, TilesPerSegment;
    row := [];
    for d := 0 to p.headSize
      invariant |row| == d && forall d' | 0 <= d' < d :: row[d'] == Answer(p, e, t, h, d')
    {
      var vs := LoadOut(act, segmOut, t, h, d);
      ghost var accs := LaneRows(act, segmOut, t, h);
      forall i | 0 <= i < segments
        ensures SegmentDone(p, c, e, segments, t, h, i, ms[i], xs[i], accs[i])
      {
        if i < act {
          assert CellReady(p, c, e, segments, t, h, i, segmOut, segmMax, segmSum);
        } else {
          MaskedLane(p, c, e, segments, t, h, i, xs[i], accs[i]);
        }
      }
      MergedRow(p, c, e, segments, t, h, d, ms, xs, vs, accs);
      var top := MaxOf(ms).v;
      row := row + [Ratio(Tot(Scaled(e, ms, vs, top)), Tot(Scaled(e, ms, xs, top)))];
    }
  }
}
