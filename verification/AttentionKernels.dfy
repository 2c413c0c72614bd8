/**
 The tile loop shared by the two attention kernels: what a row holds after any stretch of tiles, why
 pruning loses no visible key, and why the final quotient is softmax attention.
 */
module AttentionKernels {
  import opened Sums
  import opened Scores
  import opened AttentionProblem
  import opened AttentionTile
  import opened DivMod

  // ---------------------------------------------------------------- the tile loop

  /** A stored row after keys lo..hi have been folded into the initial maximum `M0` and total 1. */
  ghost predicate RowState(p: Problem, c: Config, e: real -> real, blk: Block, m: int, M0: Score, lo: int, hi: int,
                           M: Score, L: real, acc: seq<real>)
    requires ValidLaunch(p, c, blk) && IsExp(e) && 0 <= m < c.blockM && |acc| == p.headPadded
  {
    var qpos, h := QPos(p, c, blk, m), HeadOf(p, blk, m);
    && Mass(e, M, L) == Weight(e, M0) + Sum(KeyWeight(p, e, blk.s, qpos, h), lo, hi)
    && (forall d | 0 <= d < p.headSize :: Mass(e, M, acc[d]) == Sum(KeyValue(p, e, blk.s, qpos, h, d), lo, hi))
    && Dominates(p, c, e, blk, m, lo, hi, M0, M)
  }

  lemma RowStateStep(p: Problem, c: Config, e: real -> real, blk: Block, m: int, M0: Score,
                     lo: int, mid: int, hi: int,
                     M: Score, L: real, acc: seq<real>, M': Score, L': real, acc': seq<real>)
    requires ValidLaunch(p, c, blk) && IsExp(e) && 0 <= m < c.blockM && |acc| == |acc'| == p.headPadded
    requires lo <= mid <= hi
    requires RowState(p, c, e, blk, m, M0, lo, mid, M, L, acc)
    requires Added(p, c, e, blk, m, mid, hi, M, L, acc, M', L', acc')
    requires Dominates(p, c, e, blk, m, mid, hi, M, M')
    ensures RowState(p, c, e, blk, m, M0, lo, hi, M', L', acc')
  {
    hide QPos, HeadOf, KeyWeight, KeyValue, RowScore, Mass;
    var qpos, h := QPos(p, c, blk, m), HeadOf(p, blk, m);
    SumSplit(KeyWeight(p, e, blk.s, qpos, h), lo, mid, hi);
    forall d | 0 <= d < p.headSize
      ensures Mass(e, M', acc'[d]) == Sum(KeyValue(p, e, blk.s, qpos, h, d), lo, hi)
    {
      SumSplit(KeyValue(p, e, blk.s, qpos, h, d), lo, mid, hi);
    }
  }

  method TileLoop(p: Problem, c: Config, e: real -> real, blk: Block, first: nat, last: int, M0: seq<Score>)
    returns (M: seq<Score>, L: seq<real>, acc: seq<seq<real>>)
    requires ValidLaunch(p, c, blk) && IsExp(e) && |M0| == c.blockM
    ensures Shaped(p, c, M, L, acc)
    ensures forall m | 0 <= m < c.blockM && Stored(p, c, blk, m) ::
              RowState(p, c, e, blk, m, M0[m], first * c.tile, MaxInt(first, last) * c.tile, M[m], L[m], acc[m])
  {
    hide QPos, HeadOf, Stored, KeyValue, KeyWeight, RowScore;
    M, L := M0, seq(c.blockM, m => 1.0);
    acc := seq(c.blockM, m => seq(p.headPadded, d => 0.0));
    var j := first;
    while j < last
      invariant first <= j <= MaxInt(first, last)
      invariant Shaped(p, c, M, L, acc)
      invariant forall m | 0 <= m < c.blockM && Stored(p, c, blk, m) ::
                  RowState(p, c, e, blk, m, M0[m], first * c.tile, j * c.tile, M[m], L[m], acc[m])
    {
      var M', L', acc' := TileStep(p, c, e, blk, j * c.tile, M, L, acc);
      assert (j + 1) * c.tile == j * c.tile + c.tile;
      MulGe(j, first, c.tile);
      forall m | 0 <= m < c.blockM && Stored(p, c, blk, m)
        ensures RowState(p, c, e, blk, m, M0[m], first * c.tile, (j + 1) * c.tile, M'[m], L'[m], acc'[m])
      {
        RowStateStep(p, c, e, blk, m, M0[m], first * c.tile, j * c.tile, (j + 1) * c.tile,
                     M[m], L[m], acc[m], M'[m], L'[m], acc'[m]);
      }
      M, L, acc := M', L', acc';
      j := j + 1;
    }
  }

  // ---------------------------------------------------------------- pruning loses nothing

  /** Every key a stored row may see lies in one of the tiles the kernel visits. */
  lemma VisibleKeyIsVisited(p: Problem, c: Config, blk: Block, m: int, k: int)
    requires ValidLaunch(p, c, blk) && 0 <= m < c.blockM && Stored(p, c, blk, m)
    requires Sees(p, blk.s, QPos(p, c, blk, m), k)
    ensures var (lo, hi) := TileRange(p, c, blk); 0 <= lo <= k / c.tile < hi
  {
    hide HeadOf, QueriesPerKv, MaxPrefix, CeilDiv, TruncDiv;
    VisibleKeyIsLoaded(p, c, blk, m, k);
    RowHead(p, c, blk, m);
    var lo := blk.b * c.blockQ;
    var hi := Min(lo + (c.blockM - 1) / QueriesPerKv(p), QueryLen(p, blk.s) - 1);
    var context := ContextLen(p, blk.s);
    if p.window > 0 {
      TileBounds(context + lo - p.window + 1, context + hi, MaxPrefix(p, c, blk), c.tile, k);
    } else {
      TileBounds(0, k, MaxPrefix(p, c, blk), c.tile, k);
    }
  }

  lemma TileBounds(firstKey: int, lastKey: int, n: int, tile: int, k: int)
    requires tile > 0 && firstKey <= k <= lastKey && 0 <= k < n
    ensures MaxInt(0, TruncDiv(firstKey, tile)) <= k / tile < Min(TruncDiv(lastKey, tile) + 1, CeilDiv(n, tile))
  {
    CeilAbove(k, n, tile);
    DivAtLeast(k, tile, 0);
    DivMonotone(k, lastKey, tile);
    if firstKey >= 0 {
      DivMonotone(firstKey, k, tile);
    } else {
      DivAtLeast(-firstKey, tile, 0);
    }
  }

  lemma CeilAbove(k: int, n: int, y: int)
    requires y > 0 && 0 <= k < n
    ensures k / y < CeilDiv(n, y)
  {
    if CeilDiv(n, y) <= k / y {
      CeilAtMost(n, y, k / y);
    }
  }

  /** Weights vanish outside the visited tiles, so the pruned sum is the whole sum. */
  lemma VisitedSum(p: Problem, c: Config, blk: Block, m: int, f: int -> real)
    requires ValidLaunch(p, c, blk) && 0 <= m < c.blockM && Stored(p, c, blk, m)
    requires forall k | !Sees(p, blk.s, QPos(p, c, blk, m), k) :: f(k) == 0.0
    ensures var (lo, hi) := TileRange(p, c, blk);
            0 <= lo < hi && Sum(f, lo * c.tile, hi * c.tile) == Sum(f, 0, p.seqLens[blk.s])
  {
    hide HeadOf, QueriesPerKv, Stored;
    var (lo, hi) := TileRange(p, c, blk);
    var self := ContextLen(p, blk.s) + QPos(p, c, blk, m);
    StoredPosition(p, c, blk, m);
    VisibleKeyIsVisited(p, c, blk, m, self);
    var n := p.seqLens[blk.s];
    var top := MaxInt(n, hi * c.tile);
    MulGe(hi, lo, c.tile);
    forall k | 0 <= k < lo * c.tile || hi * c.tile <= k < top
      ensures f(k) == 0.0
    {
      if Sees(p, blk.s, QPos(p, c, blk, m), k) {
        VisibleKeyIsVisited(p, c, blk, m, k);
        DivAtLeast(k, c.tile, lo);
        DivAtLeast(k, c.tile, hi);
      }
    }
    SumTrim(f, 0, lo * c.tile, hi * c.tile, top);
    SumTrim(f, 0, 0, n, top);
  }

  lemma StoredPosition(p: Problem, c: Config, blk: Block, m: int)
    requires ValidLaunch(p, c, blk) && 0 <= m < c.blockM && Stored(p, c, blk, m)
    ensures 0 <= QPos(p, c, blk, m) < QueryLen(p, blk.s)
    ensures 0 <= HeadOf(p, blk, m) < p.numHeads
    ensures Sees(p, blk.s, QPos(p, c, blk, m), ContextLen(p, blk.s) + QPos(p, c, blk, m))
    ensures ContextLen(p, blk.s) + QPos(p, c, blk, m) < p.seqLens[blk.s]
  {
    RowHead(p, c, blk, m);
    MulGe(blk.b, 0, c.blockQ);
    MulGe(blk.kvh, 0, QueriesPerKv(p));
  }

  /** A row whose keys are exactly the visited tiles holds softmax attention, undivided. */
  lemma RowStateIsAttention(p: Problem, c: Config, e: real -> real, blk: Block, m: int,
                            M: Score, L: real, acc: seq<real>, d: int)
    requires ValidLaunch(p, c, blk) && IsExp(e) && 0 <= m < c.blockM && Stored(p, c, blk, m)
    requires |acc| == p.headPadded && 0 <= d < p.headSize
    requires var (lo, hi) := TileRange(p, c, blk);
             RowState(p, c, e, blk, m, SinkScore(p, HeadOf(p, blk, m)), lo * c.tile, hi * c.tile, M, L, acc)
    ensures L > 0.0 && 0 <= QPos(p, c, blk, m) < QueryLen(p, blk.s)
    ensures acc[d] / L == Attention(p, e, blk.s, QPos(p, c, blk, m), HeadOf(p, blk, m), d)
  {
    hide QPos, HeadOf, Stored, RowScore, TileRange;
    var qpos, h := QPos(p, c, blk, m), HeadOf(p, blk, m);
    StoredPosition(p, c, blk, m);
    VisitedSum(p, c, blk, m, KeyWeight(p, e, blk.s, qpos, h)) by { MaskedKeysWeighNothing(p, e, blk.s, qpos, h); }
    VisitedSum(p, c, blk, m, KeyValue(p, e, blk.s, qpos, h, d)) by { MaskedKeysWeighNothing(p, e, blk.s, qpos, h); }
    DenominatorPositive(p, e, blk.s, qpos, h);
    Unscale(e, M, L, acc[d], Denominator(p, e, blk.s, qpos, h),
            Sum(KeyValue(p, e, blk.s, qpos, h, d), 0, p.seqLens[blk.s]));
  }

  lemma MaskedKeysWeighNothing(p: Problem, e: real -> real, s: int, qpos: int, h: int)
    requires Valid(p) && IsExp(e) && 0 <= s < p.numSeqs
    ensures forall k | !Sees(p, s, qpos, k) :: KeyWeight(p, e, s, qpos, h)(k) == 0.0
    ensures forall d, k {:trigger KeyValue(p, e, s, qpos, h, d)(k)} | !Sees(p, s, qpos, k) ::
              KeyValue(p, e, s, qpos, h, d)(k) == 0.0
  {
  }

  lemma Unscale(e: real -> real, M: Score, L: real, a: real, den: real, num: real)
    requires IsExp(e) && den > 0.0 && Mass(e, M, L) == den && Mass(e, M, a) == num
    ensures L > 0.0 && a / L == num / den
  {
    var s := e(M.v);
    PositiveFactor(L, s);
    CancelScale(a, L, s);
  }

  lemma PositiveFactor(a: real, s: real)
    requires s > 0.0 && a * s > 0.0
    ensures a > 0.0
  {
  }

  lemma CancelScale(a: real, l: real, s: real)
    requires l > 0.0 && s > 0.0
    ensures l * s > 0.0 && a / l == (a * s) / (l * s)
  {
    var q := a / l;
    assert q * (l * s) == (q * l) * s == a * s;
    assert (q * (l * s)) / (l * s) == q;
  }
}
