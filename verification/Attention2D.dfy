/** The single-pass attention kernel and its launch: every output cell ends as plain softmax attention. */
module Attention2D {
  import opened Scores
  import opened AttentionProblem
  import opened AttentionTile
  import opened DivMod
  import opened QBlockSchedule
  import opened AttentionKernels

  // ---------------------------------------------------------------- the answer, cell by cell

  ghost function SeqOf(p: Problem, t: int): (s: int)
    requires ValidBatch(p) && 0 <= t < NumTokens(p)
    ensures Owns(p, s, t)
  {
    OwnerExists(p, t, p.numSeqs);
    var s :| Owns(p, s, t);
    s
  }

  lemma {:induction false} OwnerExists(p: Problem, t: int, n: nat)
    requires ValidBatch(p) && n <= p.numSeqs && 0 <= t < p.queryStart[n]
    ensures exists s :: Owns(p, s, t)
  {
    if n > 0 {
      if p.queryStart[n - 1] <= t {
        assert Owns(p, n - 1, t);
      } else {
        OwnerExists(p, t, n - 1);
      }
    }
  }

  /** The reference output for a cell of the [tokens, heads, head size] output. */
  ghost function Answer(p: Problem, e: real -> real, t: int, h: int, d: int): real
    requires Valid(p) && IsExp(e) && 0 <= t < NumTokens(p)
  {
    var s := SeqOf(p, t);
    Attention(p, e, s, t - p.queryStart[s], h, d)
  }

  lemma AnswerIs(p: Problem, e: real -> real, s: int, t: int, h: int, d: int)
    requires Valid(p) && IsExp(e) && Owns(p, s, t)
    ensures t < NumTokens(p) && Answer(p, e, t, h, d) == Attention(p, e, s, t - p.queryStart[s], h, d)
  {
    OwnerUnique(p, s, SeqOf(p, t), t);
  }

  predicate OutputShape(p: Problem, out: array3<real>)
    requires |p.queryStart| == p.numSeqs + 1
  {
    out.Length0 == NumTokens(p) && out.Length1 == p.numHeads && out.Length2 == p.headSize
  }

  predicate InOutput(p: Problem, t: int, h: int, d: int)
    requires |p.queryStart| == p.numSeqs + 1
  {
    0 <= t < NumTokens(p) && 0 <= h < p.numHeads && 0 <= d < p.headSize
  }

  // ---------------------------------------------------------------- storing a block

  ghost predicate RowReady(p: Problem, c: Config, e: real -> real, blk: Block, m: int, L: real, acc: seq<real>)
    requires ValidLaunch(p, c, blk) && IsExp(e) && 0 <= m < c.blockM && |acc| == p.headPadded
  {
    var t, h := p.queryStart[blk.s] + QPos(p, c, blk, m), HeadOf(p, blk, m);
    && 0 <= t < NumTokens(p) && 0 <= h < p.numHeads
    && (p.headSize > 0 ==> L > 0.0)
    && forall d | 0 <= d < p.headSize :: acc[d] / L == Answer(p, e, t, h, d)
  }

  lemma RowIsReady(p: Problem, c: Config, e: real -> real, blk: Block, m: int, M: Score, L: real, acc: seq<real>)
    requires ValidLaunch(p, c, blk) && IsExp(e) && 0 <= m < c.blockM && Stored(p, c, blk, m) && |acc| == p.headPadded
    requires var (lo, hi) := TileRange(p, c, blk);
             RowState(p, c, e, blk, m, SinkScore(p, HeadOf(p, blk, m)), lo * c.tile, hi * c.tile, M, L, acc)
    ensures RowReady(p, c, e, blk, m, L, acc)
  {
    hide QPos, HeadOf, Stored, TileRange, RowState, Attention;
    StoredPosition(p, c, blk, m);
    var t, h := p.queryStart[blk.s] + QPos(p, c, blk, m), HeadOf(p, blk, m);
    assert Owns(p, blk.s, t);
    AnswerIs(p, e, blk.s, t, h, 0);
    forall d | 0 <= d < p.headSize
      ensures L > 0.0 && acc[d] / L == Answer(p, e, t, h, d)
    {
      RowStateIsAttention(p, c, e, blk, m, M, L, acc, d);
      AnswerIs(p, e, blk.s, t, h, d);
    }
  }

  ghost predicate CellDone(p: Problem, e: real -> real, t: int, h: int, d: int, out: array3<real>)
    requires Valid(p) && IsExp(e) && OutputShape(p, out) && InOutput(p, t, h, d)
    reads out
  {
    out[t, h, d] == Answer(p, e, t, h, d)
  }

  ghost predicate RowDone(p: Problem, e: real -> real, t: int, h: int, out: array3<real>)
    requires Valid(p) && IsExp(e) && OutputShape(p, out)
    reads out
  {
    && 0 <= t < NumTokens(p) && 0 <= h < p.numHeads
    && forall d | 0 <= d < p.headSize :: CellDone(p, e, t, h, d, out)
  }

  /** Every cell either keeps its content or holds the answer; so finished rows stay finished. */
  twostate predicate OnlyAnswers(p: Problem, e: real -> real, out: array3<real>)
    requires Valid(p) && IsExp(e) && OutputShape(p, out)
    reads out
  {
    && (forall t, h, d | InOutput(p, t, h, d) :: out[t, h, d] == old(out[t, h, d]) || CellDone(p, e, t, h, d, out))
    && (forall t, h | old(RowDone(p, e, t, h, out)) :: RowDone(p, e, t, h, out))
  }

  method StoreRow(p: Problem, e: real -> real, t: int, h: int, L: real, acc: seq<real>, out: array3<real>)
    requires Valid(p) && IsExp(e) && OutputShape(p, out) && |acc| == p.headPadded
    requires 0 <= t < NumTokens(p) && 0 <= h < p.numHeads && (p.headSize > 0 ==> L > 0.0)
    requires forall d | 0 <= d < p.headSize :: acc[d] / L == Answer(p, e, t, h, d)
    modifies out
    ensures OnlyAnswers(p, e, out) && RowDone(p, e, t, h, out)
  {
    for d := 0 to p.headSize
      invariant forall i, j, k | InOutput(p, i, j, k) ::
                  out[i, j, k] == old(out[i, j, k]) || CellDone(p, e, i, j, k, out)
      invariant forall k | 0 <= k < d :: CellDone(p, e, t, h, k, out)
    {
      out[t, h, d] := acc[d] / L;
    }
    forall i, j | old(RowDone(p, e, i, j, out))
      ensures RowDone(p, e, i, j, out)
    {
      forall k | 0 <= k < p.headSize
        ensures CellDone(p, e, i, j, k, out)
      {
        assert old(CellDone(p, e, i, j, k, out));
      }
    }
  }

  method StoreBlock(p: Problem, c: Config, e: real -> real, blk: Block, L: seq<real>, acc: seq<seq<real>>,
                    out: array3<real>)
    requires ValidLaunch(p, c, blk) && IsExp(e) && OutputShape(p, out)
    requires |L| == |acc| == c.blockM && forall m | 0 <= m < c.blockM :: |acc[m]| == p.headPadded
    requires forall m | 0 <= m < c.blockM && Stored(p, c, blk, m) :: RowReady(p, c, e, blk, m, L[m], acc[m])
    modifies out
    ensures OnlyAnswers(p, e, out)
    ensures forall m | 0 <= m < c.blockM && Stored(p, c, blk, m) ::
              RowDone(p, e, p.queryStart[blk.s] + QPos(p, c, blk, m), HeadOf(p, blk, m), out)
  {
    hide QPos, HeadOf, Stored, Answer, QueriesPerKv;
    for m := 0 to c.blockM
      invariant OnlyAnswers(p, e, out)
      invariant forall m' | 0 <= m' < m && Stored(p, c, blk, m') ::
                  RowDone(p, e, p.queryStart[blk.s] + QPos(p, c, blk, m'), HeadOf(p, blk, m'), out)
    {
      if Stored(p, c, blk, m) {
        assert RowReady(p, c, e, blk, m, L[m], acc[m]);
        StoreRow(p, e, p.queryStart[blk.s] + QPos(p, c, blk, m), HeadOf(p, blk, m), L[m], acc[m], out);
      }
    }
  }

  // ---------------------------------------------------------------- one program

  function InitialMax(p: Problem, blk: Block, m: int): Score
    requires p.numKvHeads > 0 && QueriesPerKv(p) > 0
  {
    if HeadOf(p, blk, m) < p.numHeads then SinkScore(p, HeadOf(p, blk, m)) else NegInf
  }

  method Kernel2D(p: Problem, c: Config, e: real -> real, q: int, kvh: int, out: array3<real>)
    requires ValidGrid(p, c) && IsExp(e) && c.tile > 0 && OutputShape(p, out)
    requires 0 <= q < TotalQBlocks(p, c) && 0 <= kvh < p.numKvHeads
    modifies out
    ensures OnlyAnswers(p, e, out)
    ensures forall t, h | 0 <= t < NumTokens(p) && 0 <= h < p.numHeads && IsHome(p, c, q, kvh, t, h) ::
              RowDone(p, e, t, h, out)
  {
    hide QPos, HeadOf, Stored, Answer, QueriesPerKv, RowState, TileRange;
    var s := FindSeqIdx(p.queryStart, q, p.numSeqs, c.blockQ, true);
    ProgramFound(p, c, q, s);
    var b := q - (p.queryStart[s] / c.blockQ + s);
    if b * c.blockQ >= QueryLen(p, s) {
      forall t, h | 0 <= t < NumTokens(p) && 0 <= h < p.numHeads
        ensures !IsHome(p, c, q, kvh, t, h)
      {
        if IsHome(p, c, q, kvh, t, h) {
          HomeRowStored(p, c, q, kvh, s, t, h);
        }
      }
      return;
    }
    var blk := Block(s, b, kvh);
    var (lo, hi) := TileRange(p, c, blk);
    TileRangeNonneg(p, c, blk);
    var M0 := seq(c.blockM, m => InitialMax(p, blk, m));
    var M, L, acc := TileLoop(p, c, e, blk, lo, hi, M0);
    forall m | 0 <= m < c.blockM && Stored(p, c, blk, m)
      ensures RowReady(p, c, e, blk, m, L[m], acc[m])
    {
      StoredPosition(p, c, blk, m);
      VisibleKeyIsVisited(p, c, blk, m, ContextLen(p, s) + QPos(p, c, blk, m));
      RowIsReady(p, c, e, blk, m, M[m], L[m], acc[m]);
    }
    StoreBlock(p, c, e, blk, L, acc, out);
    forall t, h | 0 <= t < NumTokens(p) && 0 <= h < p.numHeads && IsHome(p, c, q, kvh, t, h)
      ensures RowDone(p, e, t, h, out)
    {
      HomeRowStored(p, c, q, kvh, s, t, h);
    }
  }

  lemma TileRangeNonneg(p: Problem, c: Config, blk: Block)
    requires ValidLaunch(p, c, blk)
    ensures TileRange(p, c, blk).0 >= 0
  {
    hide CeilDiv, TruncDiv, MaxPrefix;
  }

  /** Program (q, kvh) is the home of (t, h). */
  ghost predicate IsHome(p: Problem, c: Config, q: int, kvh: int, t: int, h: int)
    requires ValidGrid(p, c) && 0 <= t < NumTokens(p)
  {
    q == HomeProgram(p, c, SeqOf(p, t), t) && kvh == h / QueriesPerKv(p)
  }

  lemma ProgramFound(p: Problem, c: Config, q: int, s: int)
    requires ValidGrid(p, c) && 0 <= q < TotalQBlocks(p, c) && -1 <= s < p.numSeqs
    requires forall i | 0 <= i < p.numSeqs :: SearchKey(p.queryStart, i, c.blockQ, true) <= q <==> i <= s
    ensures Decodes(p, c, q, s)
    ensures q >= p.queryStart[s] / c.blockQ + s
  {
    EveryProgramDecodes(p, c, q);
    var s' :| Decodes(p, c, q, s');
    assert SearchKey(p.queryStart, s', c.blockQ, true) <= q;
    assert SearchKey(p.queryStart, s, c.blockQ, true) <= q;
  }

  /** The home row of (t, h) is one of the rows its program stores, at exactly that cell. */
  lemma HomeRowStored(p: Problem, c: Config, q: int, kvh: int, s: int, t: int, h: int)
    requires ValidGrid(p, c) && Decodes(p, c, q, s) && 0 <= t < NumTokens(p) && 0 <= h < p.numHeads
    requires IsHome(p, c, q, kvh, t, h)
    ensures var b := q - FirstBlock(p, c, s); var m := HomeRow(p, c, s, t, h);
            && b >= 0 && b * c.blockQ < QueryLen(p, s) && 0 <= m < c.blockM
            && Stored(p, c, Block(s, b, kvh), m)
            && p.queryStart[s] + QPos(p, c, Block(s, b, kvh), m) == t
            && HeadOf(p, Block(s, b, kvh), m) == h
  {
    hide QueriesPerKv, HomeRow;
    var s' := SeqOf(p, t);
    HomeComputes(p, c, s', t, h);
    DecodesUnique(p, c, q, s, s');
    HomeRowComputes(p, c, s, t, h);
    KvHeadInRange(p, h);
  }

  // ---------------------------------------------------------------- the launch

  ghost predicate Covers(p: Problem, c: Config, order: seq<(int, int)>)
    requires ValidGrid(p, c)
  {
    forall q, kvh | 0 <= q < TotalQBlocks(p, c) && 0 <= kvh < p.numKvHeads :: (q, kvh) in order
  }

  lemma LaunchedHome(p: Problem, c: Config, order: seq<(int, int)>, t: int, h: int)
    requires ValidGrid(p, c) && Covers(p, c, order) && 0 <= t < NumTokens(p) && 0 <= h < p.numHeads
    ensures exists i | 0 <= i < |order| :: IsHome(p, c, order[i].0, order[i].1, t, h)
  {
    hide QueriesPerKv, HomeProgram, TotalQBlocks;
    var q, kvh := HomeProgram(p, c, SeqOf(p, t), t), h / QueriesPerKv(p);
    HomeComputes(p, c, SeqOf(p, t), t, h);
    assert (q, kvh) in order;
    var i :| 0 <= i < |order| && order[i] == (q, kvh);
    assert IsHome(p, c, order[i].0, order[i].1, t, h);
  }

  /** Any schedule of the grid, with programs repeated or reordered, produces the reference output. */
  method Launch2D(p: Problem, c: Config, e: real -> real, order: seq<(int, int)>, out: array3<real>)
    requires ValidGrid(p, c) && IsExp(e) && c.tile > 0 && OutputShape(p, out)
    requires forall i | 0 <= i < |order| :: 0 <= order[i].0 < TotalQBlocks(p, c) && 0 <= order[i].1 < p.numKvHeads
    requires Covers(p, c, order)
    modifies out
    ensures forall t, h, d | InOutput(p, t, h, d) :: out[t, h, d] == Answer(p, e, t, h, d)
  {
    hide Answer, QueriesPerKv, HomeProgram, TotalQBlocks, IsHome, FirstBlock;
    for i := 0 to |order|
      invariant forall i', t, h | 0 <= i' < i && 0 <= t < NumTokens(p) && 0 <= h < p.numHeads
                  && IsHome(p, c, order[i'].0, order[i'].1, t, h) :: RowDone(p, e, t, h, out)
    {
      Kernel2D(p, c, e, order[i].0, order[i].1, out);
    }
    forall t, h, d | InOutput(p, t, h, d)
      ensures CellDone(p, e, t, h, d, out)
    {
      LaunchedHome(p, c, order, t, h);
      assert RowDone(p, e, t, h, out);
    }
  }
}
