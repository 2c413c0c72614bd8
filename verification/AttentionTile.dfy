/**
 One iteration of the attention kernels' tile loop, over a block of query rows.
 The block tensors of the kernel (M, L, acc, S, P, ...) are vectors rebound at every step.
 */
module AttentionTile {
  import opened Sums
  import opened Scores
  import opened AttentionProblem
  import opened DivMod
  import opened OnlineSoftmax

  /** A block of query rows: its sequence, its index within the sequence, its key/value head. */
  datatype Block = Block(s: int, b: nat, kvh: nat)

  ghost predicate ValidLaunch(p: Problem, c: Config, blk: Block) {
    && Valid(p)
    && 0 <= blk.s < p.numSeqs && blk.kvh < p.numKvHeads
    && QueriesPerKv(p) > 0
    && c.blockM >= QueriesPerKv(p)
    && c.blockQ == c.blockM / QueriesPerKv(p)
    && c.tile > 0
  }

  function QPos(p: Problem, c: Config, blk: Block, m: int): int
    requires p.numKvHeads > 0 && QueriesPerKv(p) > 0
  {
    blk.b * c.blockQ + m / QueriesPerKv(p)
  }

  function HeadOf(p: Problem, blk: Block, m: int): int
    requires p.numKvHeads > 0 && QueriesPerKv(p) > 0
  {
    blk.kvh * QueriesPerKv(p) + m % QueriesPerKv(p)
  }

  /** query_mask_0 and query_mask_1: the rows of the block whose results are stored. */
  predicate Stored(p: Problem, c: Config, blk: Block, m: int)
    requires p.numKvHeads > 0 && QueriesPerKv(p) > 0
    requires 0 <= blk.s < p.numSeqs && |p.queryStart| == p.numSeqs + 1
  {
    QPos(p, c, blk, m) < QueryLen(p, blk.s) && HeadOf(p, blk, m) < p.numHeads
  }

  function MaxInt(a: int, b: int): int { if a <= b then b else a }

  /** Integer division on the device rounds toward zero. */
  function TruncDiv(x: int, y: int): int
    requires y > 0
  {
    if x >= 0 then x / y else -((-x) / y)
  }

  function MaxPrefix(p: Problem, c: Config, blk: Block): int
    requires ValidLaunch(p, c, blk)
  {
    Min(ContextLen(p, blk.s) + blk.b * c.blockQ + (c.blockM - 1) / QueriesPerKv(p) + 1, p.seqLens[blk.s])
  }

  /** The half-open range of tiles the kernel visits, after causal and window pruning. */
  function TileRange(p: Problem, c: Config, blk: Block): (int, int)
    requires ValidLaunch(p, c, blk)
  {
    var numTiles := CeilDiv(MaxPrefix(p, c, blk), c.tile);
    if p.window == 0 then (0, numTiles)
    else
      var lo := blk.b * c.blockQ;
      var hi := Min(lo + (c.blockM - 1) / QueriesPerKv(p), QueryLen(p, blk.s) - 1);
      var firstKey := ContextLen(p, blk.s) + lo - p.window + 1;
      var lastKey := ContextLen(p, blk.s) + hi;
      (MaxInt(0, TruncDiv(firstKey, c.tile)), Min(TruncDiv(lastKey, c.tile) + 1, numTiles))
  }

  // ---------------------------------------------------------------- masked loads

  function LoadQ(p: Problem, c: Config, blk: Block, m: int): (q: seq<real>)
    requires ValidLaunch(p, c, blk)
    ensures |q| == p.headPadded
  {
    seq(p.headPadded, d =>
      if d < p.headSize && Stored(p, c, blk, m)
      then p.query(p.queryStart[blk.s] + QPos(p, c, blk, m), HeadOf(p, blk, m), d) else 0.0)
  }

  function LoadK(p: Problem, c: Config, blk: Block, k: int): (kk: seq<real>)
    requires ValidLaunch(p, c, blk)
    ensures |kk| == p.headPadded
  {
    seq(p.headPadded, d =>
      if d < p.headSize && k < MaxPrefix(p, c, blk) then Key(p, blk.s, k, blk.kvh, d) else 0.0)
  }

  function LoadV(p: Problem, c: Config, blk: Block, k: int, d: int): real
    requires ValidLaunch(p, c, blk)
  {
    if d < p.headSize && k < MaxPrefix(p, c, blk) then Value(p, blk.s, k, blk.kvh, d) else 0.0
  }

  /** Lane (m, k) of S: scaled dot product, softcap, mask, then the position biases. */
  function LaneScore(p: Problem, c: Config, e: real -> real, blk: Block, m: int, k: int): Score
    requires ValidLaunch(p, c, blk) && IsExp(e)
  {
    var x := Logit(p, e, DotLanes(LoadQ(p, c, blk, m), LoadK(p, c, blk, k)));
    if Stored(p, c, blk, m) && Sees(p, blk.s, QPos(p, c, blk, m), k)
    then Fin(x + Bias(p, blk.s, QPos(p, c, blk, m), HeadOf(p, blk, m), k))
    else NegInf
  }

  /** V with the rows every query of the block has slid past replaced by zero. */
  function WindowedV(p: Problem, c: Config, blk: Block, k: int, d: int): real
    requires ValidLaunch(p, c, blk)
  {
    if p.window > 0 && !(ContextLen(p, blk.s) + blk.b * c.blockQ - k < p.window) then 0.0
    else LoadV(p, c, blk, k, d)
  }

  // ---------------------------------------------------------------- lanes against the reference

  lemma RowHead(p: Problem, c: Config, blk: Block, m: int)
    requires ValidLaunch(p, c, blk) && 0 <= m < c.blockM
    ensures HeadOf(p, blk, m) / QueriesPerKv(p) == blk.kvh
    ensures QPos(p, c, blk, m) >= blk.b * c.blockQ
    ensures QPos(p, c, blk, m) <= blk.b * c.blockQ + (c.blockM - 1) / QueriesPerKv(p)
  {
    var g := QueriesPerKv(p);
    DivUnique(blk.kvh * g + m % g, g, blk.kvh, m % g);
    DivMonotone(m, c.blockM - 1, g);
  }

  /** A key visible to a stored row lies inside the loaded prefix and survives the V window. */
  lemma VisibleKeyIsLoaded(p: Problem, c: Config, blk: Block, m: int, k: int)
    requires ValidLaunch(p, c, blk) && 0 <= m < c.blockM && Stored(p, c, blk, m)
    requires Sees(p, blk.s, QPos(p, c, blk, m), k)
    ensures 0 <= k < MaxPrefix(p, c, blk)
    ensures p.window > 0 ==> ContextLen(p, blk.s) + blk.b * c.blockQ - k < p.window
  {
    RowHead(p, c, blk, m);
  }

  lemma LaneDot(p: Problem, c: Config, blk: Block, m: int, k: int)
    requires ValidLaunch(p, c, blk) && 0 <= m < c.blockM && Stored(p, c, blk, m)
    requires 0 <= k < MaxPrefix(p, c, blk)
    ensures DotLanes(LoadQ(p, c, blk, m), LoadK(p, c, blk, k))
         == Dot(p, blk.s, p.queryStart[blk.s] + QPos(p, c, blk, m), HeadOf(p, blk, m), k)
  {
    var t, h := p.queryStart[blk.s] + QPos(p, c, blk, m), HeadOf(p, blk, m);
    var q, kk := LoadQ(p, c, blk, m), LoadK(p, c, blk, k);
    RowHead(p, c, blk, m);
    var f := (d: int) => p.query(t, h, d) * Key(p, blk.s, k, h / QueriesPerKv(p), d);
    forall d | 0 <= d < p.headSize
      ensures Times(q[d], kk[d]) == f(d)
    {
    }
    PaddedDot(q, kk, f, p.headSize);
    SumEq(f, d => p.query(t, h, d) * Key(p, blk.s, k, h / QueriesPerKv(p), d), 0, p.headSize);
  }

  lemma LaneIsRowScore(p: Problem, c: Config, e: real -> real, blk: Block, m: int, k: int)
    requires ValidLaunch(p, c, blk) && IsExp(e) && 0 <= m < c.blockM && Stored(p, c, blk, m)
    ensures LaneScore(p, c, e, blk, m, k)
         == RowScore(p, e, blk.s, QPos(p, c, blk, m), HeadOf(p, blk, m), k)
  {
    if Sees(p, blk.s, QPos(p, c, blk, m), k) {
      VisibleKeyIsLoaded(p, c, blk, m, k);
      LaneDot(p, c, blk, m, k);
    }
  }

  lemma LaneTimesValue(p: Problem, c: Config, e: real -> real, blk: Block, m: int, d: int, k: int)
    requires ValidLaunch(p, c, blk) && IsExp(e) && 0 <= m < c.blockM && Stored(p, c, blk, m)
    requires 0 <= d < p.headSize
    ensures Weighted(e, LaneScore(p, c, e, blk, m, k), WindowedV(p, c, blk, k, d))
         == KeyValue(p, e, blk.s, QPos(p, c, blk, m), HeadOf(p, blk, m), d)(k)
  {
    LaneIsRowScore(p, c, e, blk, m, k);
    RowHead(p, c, blk, m);
    if Sees(p, blk.s, QPos(p, c, blk, m), k) {
      VisibleKeyIsLoaded(p, c, blk, m, k);
      assert WindowedV(p, c, blk, k, d) == Value(p, blk.s, k, blk.kvh, d);
    }
  }

  // ---------------------------------------------------------------- the loop body

  /** Shapes of the running block tensors. */
  predicate Shaped(p: Problem, c: Config, M: seq<Score>, L: seq<real>, acc: seq<seq<real>>) {
    && |M| == |L| == |acc| == c.blockM
    && forall m | 0 <= m < c.blockM :: |acc[m]| == p.headPadded
  }

  /** Between two states of one stored row, exactly the weights of keys lo..hi have been added. */
  ghost predicate Added(p: Problem, c: Config, e: real -> real, blk: Block, m: int, lo: int, hi: int,
                        M: Score, L: real, acc: seq<real>, M': Score, L': real, acc': seq<real>)
    requires ValidLaunch(p, c, blk) && IsExp(e) && 0 <= m < c.blockM && |acc| == |acc'| == p.headPadded
  {
    var qpos, h := QPos(p, c, blk, m), HeadOf(p, blk, m);
    && Mass(e, M', L') == Mass(e, M, L) + Sum(KeyWeight(p, e, blk.s, qpos, h), lo, hi)
    && forall d | 0 <= d < p.headSize ::
         Mass(e, M', acc'[d]) == Mass(e, M, acc[d]) + Sum(KeyValue(p, e, blk.s, qpos, h, d), lo, hi)
  }

  /** The running maximum dominates everything folded in: no exponent is ever positive. */
  ghost predicate Dominates(p: Problem, c: Config, e: real -> real, blk: Block, m: int, lo: int, hi: int,
                            M: Score, M': Score)
    requires ValidLaunch(p, c, blk) && IsExp(e) && 0 <= m < c.blockM
  {
    && Le(M, M')
    && forall k | lo <= k < hi :: Le(RowScore(p, e, blk.s, QPos(p, c, blk, m), HeadOf(p, blk, m), k), M')
  }

  lemma RowDenominator(p: Problem, c: Config, e: real -> real, blk: Block, m: int, lo: int,
                       row: seq<Score>, mj: real, P: seq<real>, M: Score, L: real)
    requires ValidLaunch(p, c, blk) && IsExp(e) && 0 <= m < c.blockM && Stored(p, c, blk, m)
    requires |row| == |P| == c.tile
    requires forall t | 0 <= t < c.tile :: row[t] == LaneScore(p, c, e, blk, m, lo + t)
    requires forall t | 0 <= t < c.tile :: P[t] == ExpAt(e, row[t], mj)
    ensures Mass(e, Fin(mj), Fold(e, L, M, mj, Tot(P))) == Mass(e, M, L)
      + Sum(KeyWeight(p, e, blk.s, QPos(p, c, blk, m), HeadOf(p, blk, m)), lo, lo + c.tile)
  {
    hide RowScore, LaneScore, QPos, HeadOf, Weight, ExpAt, Fold, Mass, Tot, Stored;
    var f := KeyWeight(p, e, blk.s, QPos(p, c, blk, m), HeadOf(p, blk, m));
    forall t | 0 <= t < c.tile
      ensures f(lo + t) == Weight(e, row[t])
    {
      LaneIsRowScore(p, c, e, blk, m, lo + t);
    }
    DenominatorStep(e, row, mj, P, M, L, f, lo);
  }

  lemma RowNumerator(p: Problem, c: Config, e: real -> real, blk: Block, m: int, d: int, lo: int,
                     row: seq<Score>, mj: real, P: seq<real>, V: seq<real>, M: Score, a: real)
    requires ValidLaunch(p, c, blk) && IsExp(e) && 0 <= m < c.blockM && Stored(p, c, blk, m)
    requires |row| == |P| == |V| == c.tile && 0 <= d < p.headSize
    requires forall t | 0 <= t < c.tile :: row[t] == LaneScore(p, c, e, blk, m, lo + t)
    requires forall t | 0 <= t < c.tile :: P[t] == ExpAt(e, row[t], mj)
    requires forall t | 0 <= t < c.tile :: V[t] == WindowedV(p, c, blk, lo + t, d)
    ensures Mass(e, Fin(mj), Fold(e, a, M, mj, DotLanes(P, V))) == Mass(e, M, a)
      + Sum(KeyValue(p, e, blk.s, QPos(p, c, blk, m), HeadOf(p, blk, m), d), lo, lo + c.tile)
  {
    hide RowScore, LaneScore, QPos, HeadOf, Weighted, ExpAt, Fold, Mass, WindowedV, Stored, DotLanes, Value, KeyValue;
    var f := KeyValue(p, e, blk.s, QPos(p, c, blk, m), HeadOf(p, blk, m), d);
    forall t | 0 <= t < c.tile
      ensures f(lo + t) == Weighted(e, row[t], V[t])
    {
      LaneTimesValue(p, c, e, blk, m, d, lo + t);
    }
    NumeratorStep(e, row, mj, P, V, M, a, f, lo);
  }

  lemma RowDominated(p: Problem, c: Config, e: real -> real, blk: Block, m: int, lo: int, row: seq<Score>, M: Score)
    requires ValidLaunch(p, c, blk) && IsExp(e) && 0 <= m < c.blockM && Stored(p, c, blk, m)
    requires |row| == c.tile
    requires forall t | 0 <= t < c.tile :: row[t] == LaneScore(p, c, e, blk, m, lo + t)
    ensures Dominates(p, c, e, blk, m, lo, lo + c.tile, M, Fin(NewMax(M, row)))
  {
    NewMaxBounds(M, row);
    forall k | lo <= k < lo + c.tile
      ensures Le(RowScore(p, e, blk.s, QPos(p, c, blk, m), HeadOf(p, blk, m), k), Fin(NewMax(M, row)))
    {
      LaneIsRowScore(p, c, e, blk, m, k);
      assert row[k - lo] == LaneScore(p, c, e, blk, m, k);
    }
  }

  /** One row of a tile step: rescaling and adding the tile's weights adds exactly the tile's keys. */
  lemma RowAdded(p: Problem, c: Config, e: real -> real, blk: Block, m: int, lo: int,
                 row: seq<Score>, mj: real, P: seq<real>, V: seq<seq<real>>, M: Score, L: real, acc: seq<real>,
                 L': real, acc': seq<real>)
    requires ValidLaunch(p, c, blk) && IsExp(e) && 0 <= m < c.blockM && Stored(p, c, blk, m)
    requires |row| == |P| == c.tile && |V| == |acc| == |acc'| == p.headPadded
    requires forall t | 0 <= t < c.tile :: row[t] == LaneScore(p, c, e, blk, m, lo + t)
    requires forall t | 0 <= t < c.tile :: P[t] == ExpAt(e, row[t], mj)
    requires forall d | 0 <= d < p.headPadded :: |V[d]| == c.tile
    requires forall d, t | 0 <= d < p.headPadded && 0 <= t < c.tile :: V[d][t] == WindowedV(p, c, blk, lo + t, d)
    requires L' == Fold(e, L, M, mj, Tot(P))
    requires forall d | 0 <= d < p.headPadded :: acc'[d] == Fold(e, acc[d], M, mj, DotLanes(P, V[d]))
    ensures Added(p, c, e, blk, m, lo, lo + c.tile, M, L, acc, Fin(mj), L', acc')
  {
    hide QPos, HeadOf, Stored, Fold, Mass, DotLanes, LaneScore, WindowedV, KeyValue, KeyWeight, RowScore, ExpAt, Tot;
    RowDenominator(p, c, e, blk, m, lo, row, mj, P, M, L);
    forall d | 0 <= d < p.headSize
      ensures Mass(e, Fin(mj), acc'[d]) == Mass(e, M, acc[d])
        + Sum(KeyValue(p, e, blk.s, QPos(p, c, blk, m), HeadOf(p, blk, m), d), lo, lo + c.tile)
    {
      RowNumerator(p, c, e, blk, m, d, lo, row, mj, P, V[d], M, acc[d]);
    }
  }

  method TileStep(p: Problem, c: Config, e: real -> real, blk: Block, lo: nat,
                  M: seq<Score>, L: seq<real>, acc: seq<seq<real>>)
    returns (M': seq<Score>, L': seq<real>, acc': seq<seq<real>>)
    requires ValidLaunch(p, c, blk) && IsExp(e) && Shaped(p, c, M, L, acc)
    ensures Shaped(p, c, M', L', acc')
    ensures forall m | 0 <= m < c.blockM && Stored(p, c, blk, m) ::
              && M'[m].Fin?
              && Added(p, c, e, blk, m, lo, lo + c.tile, M[m], L[m], acc[m], M'[m], L'[m], acc'[m])
              && Dominates(p, c, e, blk, m, lo, lo + c.tile, M[m], M'[m])
  {
    hide QPos, HeadOf, Stored, Fold, Mass, DotLanes, LaneScore, WindowedV, KeyValue, KeyWeight, RowScore, NewMax, ExpAt, Tot, Dominates, Added;
    var S := seq(c.blockM, m => seq(c.tile, t => LaneScore(p, c, e, blk, m, lo + t)));
    var mj := seq(c.blockM, m requires 0 <= m < c.blockM => NewMax(M[m], S[m]));
    var P := seq(c.blockM, m requires 0 <= m < c.blockM =>
      seq(c.tile, t requires 0 <= t < c.tile => ExpAt(e, S[m][t], mj[m])));
    var V := seq(p.headPadded, d => seq(c.tile, t => WindowedV(p, c, blk, lo + t, d)));
    L' := seq(c.blockM, m requires 0 <= m < c.blockM => Fold(e, L[m], M[m], mj[m], Tot(P[m])));
    M' := seq(c.blockM, m requires 0 <= m < c.blockM => Fin(mj[m]));
    acc' := seq(c.blockM, m requires 0 <= m < c.blockM =>
      seq(p.headPadded, d requires 0 <= d < p.headPadded => Fold(e, acc[m][d], M[m], mj[m], DotLanes(P[m], V[d]))));
    forall m | 0 <= m < c.blockM && Stored(p, c, blk, m)
      ensures Added(p, c, e, blk, m, lo, lo + c.tile, M[m], L[m], acc[m], M'[m], L'[m], acc'[m])
      ensures Dominates(p, c, e, blk, m, lo, lo + c.tile, M[m], M'[m])
    {
      RowDominated(p, c, e, blk, m, lo, S[m], M[m]);
      RowAdded(p, c, e, blk, m, lo, S[m], mj[m], P[m], V, M[m], L[m], acc[m], L'[m], acc'[m]);
    }
  }
}
