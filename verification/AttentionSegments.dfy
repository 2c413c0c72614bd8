/**
 Split-KV attention, segment side: each program folds one segment of the keys of its rows and
 stores the unnormalised triple (accumulator, maximum, total) in scratch buffers.
 */
module AttentionSegments {
  import opened Sums
  import opened Scores
  import opened AttentionProblem
  import opened AttentionTile
  import opened DivMod
  import opened QBlockSchedule
  import opened AttentionKernels
  import opened Attention2D

  function TilesPerSegment(c: Config, seqLen: int, segments: nat): int
    requires segments > 0 && c.tile > 0
  {
    SegmentDivisorPositive(c.tile, segments);
    CeilDiv(seqLen, segments * c.tile)
  }

  lemma SegmentDivisorPositive(tile: int, segments: int)
    requires tile > 0 && segments > 0
    ensures segments * tile > 0
  {
  }

  /** Keys per segment of a sequence. */
  function SegmentKeys(c: Config, seqLen: int, segments: nat): int
    requires segments > 0 && c.tile > 0
  {
    TilesPerSegment(c, seqLen, segments) * c.tile
  }

  lemma SegmentsCover(c: Config, seqLen: int, segments: nat)
    requires segments > 0 && c.tile > 0 && seqLen >= 0
    ensures TilesPerSegment(c, seqLen, segments) >= 0
    ensures seqLen > 0 ==> TilesPerSegment(c, seqLen, segments) > 0
    ensures seqLen <= segments * SegmentKeys(c, seqLen, segments)
  {
    SegmentDivisorPositive(c.tile, segments);
    var tps := TilesPerSegment(c, seqLen, segments);
    CeilAtMost(seqLen, segments * c.tile, tps);
    CeilAtMost(seqLen, segments * c.tile, 0);
    DivAtLeast(seqLen + segments * c.tile - 1, segments * c.tile, 0);
    assert tps * (segments * c.tile) == segments * (tps * c.tile);
  }

  function ActiveSegments(c: Config, seqLen: int, segments: nat): int
    requires segments > 0 && c.tile > 0 && seqLen > 0
  {
    SegmentsCover(c, seqLen, segments);
    SegmentDivisorPositive(c.tile, TilesPerSegment(c, seqLen, segments));
    CeilDiv(seqLen, TilesPerSegment(c, seqLen, segments) * c.tile)
  }

  /** The segments that return early are exactly those the reducer masks. */
  lemma EarlyReturnIsMasked(c: Config, seqLen: int, segments: nat, i: nat)
    requires segments > 0 && c.tile > 0 && seqLen > 0
    ensures i * TilesPerSegment(c, seqLen, segments) * c.tile >= seqLen <==> i >= ActiveSegments(c, seqLen, segments)
    ensures 0 < ActiveSegments(c, seqLen, segments) <= segments
  {
    SegmentsCover(c, seqLen, segments);
    var keys := SegmentKeys(c, seqLen, segments);
    SegmentDivisorPositive(c.tile, TilesPerSegment(c, seqLen, segments));
    CeilAtMost(seqLen, keys, i);
    CeilAtMost(seqLen, keys, 0);
    CeilAtMost(seqLen, keys, segments);
    assert i * TilesPerSegment(c, seqLen, segments) * c.tile == i * keys;
  }

  // ---------------------------------------------------------------- what a stored segment means

  function SegmentSink(p: Problem, h: int, i: int): Score {
    if i == 0 then SinkScore(p, h) else NegInf
  }

  /** Scratch cell (t, h, i) holds exactly the keys of segment i, plus the sink in segment 0. */
  ghost predicate SegmentDone(p: Problem, c: Config, e: real -> real, segments: nat, t: int, h: int, i: int,
                              M: Score, L: real, acc: seq<real>)
    requires Valid(p) && IsExp(e) && segments > 0 && c.tile > 0 && 0 <= t < NumTokens(p) && p.headSize <= |acc|
  {
    var s := SeqOf(p, t);
    var qpos := t - p.queryStart[s];
    var keys := SegmentKeys(c, p.seqLens[s], segments);
    && Mass(e, M, L) == Weight(e, SegmentSink(p, h, i)) + Sum(KeyWeight(p, e, s, qpos, h), i * keys, i * keys + keys)
    && forall d | 0 <= d < p.headSize ::
         Mass(e, M, acc[d]) == Sum(KeyValue(p, e, s, qpos, h, d), i * keys, i * keys + keys)
  }

  /** The tiles visited between tile `a` and tile `b` carry all the visible keys of that stretch. */
  lemma StretchSum(p: Problem, c: Config, blk: Block, m: int, f: int -> real, a: int, b: int)
    requires ValidLaunch(p, c, blk) && 0 <= m < c.blockM && Stored(p, c, blk, m) && a <= b
    requires forall k | !Sees(p, blk.s, QPos(p, c, blk, m), k) :: f(k) == 0.0
    ensures Sum(f, VisitFirst(p, c, blk, a) * c.tile, VisitEnd(p, c, blk, a, b) * c.tile) == Sum(f, a * c.tile, b * c.tile)
  {
    hide HeadOf, QueriesPerKv, Stored, TileRange, QPos;
    var (lo, hi) := TileRange(p, c, blk);
    forall k | a * c.tile <= k < b * c.tile && !(lo * c.tile <= k < hi * c.tile)
      ensures f(k) == 0.0
    {
      if Sees(p, blk.s, QPos(p, c, blk, m), k) {
        VisibleKeyIsVisited(p, c, blk, m, k);
        DivAtLeast(k, c.tile, lo);
        DivAtLeast(k, c.tile, hi);
      }
    }
    ClampedSum(f, c.tile, a, b, lo, hi);
  }

  function VisitFirst(p: Problem, c: Config, blk: Block, a: int): int
    requires ValidLaunch(p, c, blk)
  {
    MaxInt(a, TileRange(p, c, blk).0)
  }

  function VisitEnd(p: Problem, c: Config, blk: Block, a: int, b: int): int
    requires ValidLaunch(p, c, blk)
  {
    MaxInt(VisitFirst(p, c, blk, a), Min(b, TileRange(p, c, blk).1))
  }

  lemma ClampedSum(f: int -> real, tile: int, a: int, b: int, lo: int, hi: int)
    requires tile > 0 && a <= b
    requires forall k | a * tile <= k < b * tile && !(lo * tile <= k < hi * tile) :: f(k) == 0.0
    ensures var first, last := MaxInt(a, lo), Min(b, hi);
            Sum(f, first * tile, MaxInt(first, last) * tile) == Sum(f, a * tile, b * tile)
  {
    var first, last := MaxInt(a, lo), Min(b, hi);
    MulGe(b, a, tile);
    if first < last {
      MulGe(first, a, tile);
      MulGe(last, first, tile);
      MulGe(b, last, tile);
      MulGe(first, lo, tile);
      MulGe(hi, last, tile);
      SumTrim(f, a * tile, first * tile, last * tile, b * tile);
    } else {
      if lo >= b {
        MulGe(lo, b, tile);
      } else if hi <= a {
        MulGe(a, hi, tile);
      } else {
        EmptyOverlap(f, tile, a, b, lo, hi);
      }
      SumZero(f, a * tile, b * tile);
    }
  }

  lemma EmptyOverlap(f: int -> real, tile: int, a: int, b: int, lo: int, hi: int)
    requires tile > 0 && MaxInt(a, lo) >= Min(b, hi) && lo < b && a < hi
    requires forall k | a * tile <= k < b * tile && !(lo * tile <= k < hi * tile) :: f(k) == 0.0
    ensures forall k | a * tile <= k < b * tile :: f(k) == 0.0
  {
    if a < b {
      MulGe(lo, hi, tile);
    } else {
      MulGe(a, b, tile);
    }
  }

  lemma RowStateIsSegment(p: Problem, c: Config, e: real -> real, blk: Block, m: int, segments: nat, i: nat,
                          M: Score, L: real, acc: seq<real>)
    requires ValidLaunch(p, c, blk) && IsExp(e) && 0 <= m < c.blockM && Stored(p, c, blk, m) && segments > 0
    requires |acc| == p.headPadded
    requires var tps := TilesPerSegment(c, p.seqLens[blk.s], segments);
             RowState(p, c, e, blk, m, SegmentSink(p, HeadOf(p, blk, m), i),
                      VisitFirst(p, c, blk, i * tps) * c.tile,
                      VisitEnd(p, c, blk, i * tps, (i + 1) * tps) * c.tile, M, L, acc)
    ensures var t, h := p.queryStart[blk.s] + QPos(p, c, blk, m), HeadOf(p, blk, m);
            0 <= t < NumTokens(p) && 0 <= h < p.numHeads && Owns(p, blk.s, t)
            && SegmentDone(p, c, e, segments, t, h, i, M, L, acc)
  {
    hide QPos, HeadOf, Stored, RowScore, TileRange, QueriesPerKv, KeyWeight, KeyValue, VisitFirst, VisitEnd, Mass, TilesPerSegment;
    StoredPosition(p, c, blk, m);
    var qpos, h := QPos(p, c, blk, m), HeadOf(p, blk, m);
    var t := p.queryStart[blk.s] + qpos;
    assert Owns(p, blk.s, t);
    AnswerIs(p, e, blk.s, t, h, 0);
    OwnerUnique(p, blk.s, SeqOf(p, t), t);
    SegmentsCover(c, p.seqLens[blk.s], segments);
    var tps := TilesPerSegment(c, p.seqLens[blk.s], segments);
    SegmentEdges(i, tps, c.tile);
    MaskedKeysWeighNothing(p, e, blk.s, qpos, h);
    StretchSum(p, c, blk, m, KeyWeight(p, e, blk.s, qpos, h), i * tps, (i + 1) * tps);
    forall d | 0 <= d < p.headSize
      ensures Mass(e, M, acc[d])
           == Sum(KeyValue(p, e, blk.s, qpos, h, d), i * (tps * c.tile), i * (tps * c.tile) + tps * c.tile)
    {
      StretchSum(p, c, blk, m, KeyValue(p, e, blk.s, qpos, h, d), i * tps, (i + 1) * tps);
    }
  }

  lemma SegmentEdges(i: int, tps: int, tile: int)
    requires tps >= 0
    ensures i * tps <= (i + 1) * tps
    ensures i * tps * tile == i * (tps * tile)
    ensures (i + 1) * tps * tile == i * (tps * tile) + tps * tile
  {
    assert (i + 1) * tps == i * tps + tps;
    assert (i * tps + tps) * tile == i * tps * tile + tps * tile;
  }

  // ---------------------------------------------------------------- the scratch buffers

  /** Scratch buffers [tokens, heads, segments (, padded head size)]. */
  predicate ScratchShape(p: Problem, segments: nat, segmOut: array4<real>, segmMax: array3<Score>, segmSum: array3<real>)
    requires |p.queryStart| == p.numSeqs + 1
  {
    && NumTokens(p) <= segmOut.Length0 && NumTokens(p) <= segmMax.Length0 && NumTokens(p) <= segmSum.Length0
    && segmOut.Length1 == segmMax.Length1 == segmSum.Length1 == p.numHeads
    && segmOut.Length2 == segmMax.Length2 == segmSum.Length2 == segments
    && segmOut.Length3 == p.headPadded
  }

  function StoredRow(segmOut: array4<real>, t: int, h: int, i: int): (row: seq<real>)
    requires 0 <= t < segmOut.Length0 && 0 <= h < segmOut.Length1 && 0 <= i < segmOut.Length2
    reads segmOut
    ensures |row| == segmOut.Length3
  {
    seq(segmOut.Length3, d requires 0 <= d < segmOut.Length3 reads segmOut => segmOut[t, h, i, d])
  }

  ghost predicate CellReady(p: Problem, c: Config, e: real -> real, segments: nat, t: int, h: int, i: int,
                            segmOut: array4<real>, segmMax: array3<Score>, segmSum: array3<real>)
    requires Valid(p) && IsExp(e) && segments > 0 && c.tile > 0
    requires ScratchShape(p, segments, segmOut, segmMax, segmSum)
    reads segmOut, segmMax, segmSum
  {
    && 0 <= t < NumTokens(p) && 0 <= h < p.numHeads && 0 <= i < segments
    && SegmentDone(p, c, e, segments, t, h, i, segmMax[t, h, i], segmSum[t, h, i],
                   StoredRow(segmOut, t, h, i))
  }

  method StoreSegment(p: Problem, c: Config, e: real -> real, segments: nat, t: int, h: int, i: int,
                      M: Score, L: real, acc: seq<real>,
                      segmOut: array4<real>, segmMax: array3<Score>, segmSum: array3<real>)
    requires Valid(p) && IsExp(e) && segments > 0 && c.tile > 0
    requires ScratchShape(p, segments, segmOut, segmMax, segmSum) && segmSum as object != segmMax
    requires 0 <= t < NumTokens(p) && 0 <= h < p.numHeads && 0 <= i < segments && |acc| == p.headPadded
    requires SegmentDone(p, c, e, segments, t, h, i, M, L, acc)
    modifies segmOut, segmMax, segmSum
    ensures CellReady(p, c, e, segments, t, h, i, segmOut, segmMax, segmSum)
    ensures forall t', h', i' | old(CellReady(p, c, e, segments, t', h', i', segmOut, segmMax, segmSum)) ::
              CellReady(p, c, e, segments, t', h', i', segmOut, segmMax, segmSum)
  {
    segmMax[t, h, i] := M;
    segmSum[t, h, i] := L;
    for d := 0 to p.headSize
      invariant segmMax[t, h, i] == M && segmSum[t, h, i] == L
      invariant forall d' | 0 <= d' < d :: segmOut[t, h, i, d'] == acc[d']
      invariant forall t', h', i' | 0 <= t' < NumTokens(p) && 0 <= h' < p.numHeads && 0 <= i' < segments
                  && (t', h', i') != (t, h, i) ::
                  segmMax[t', h', i'] == old(segmMax[t', h', i']) && segmSum[t', h', i'] == old(segmSum[t', h', i'])
      invariant forall t', h', i', d' | 0 <= t' < NumTokens(p) && 0 <= h' < p.numHeads && 0 <= i' < segments
                  && 0 <= d' < p.headSize && (t', h', i') != (t, h, i) ::
                  segmOut[t', h', i', d'] == old(segmOut[t', h', i', d'])
    {
      segmOut[t, h, i, d] := acc[d];
    }
  }
}
