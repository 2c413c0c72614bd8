/**
 What a token's routed sum is, multiplied out, and expert parallelism: when maps split the experts over
 ranks, the ranks' routed sums add up to the unsplit layer's.
 */
module ExpertLaws {
  import opened Sums
  import opened DivMod
  import opened FlatMatrix
  import opened Gemm
  import opened FusedExperts
  import opened ExpertChunks

  // ---------------------------------------------------------------- the routed sum, multiplied out

  /** Row `n` of the first matrix: gates first, then ups; the weight goes here if it goes on the input. */
  function FirstLayer(m: Moe, x: seq<real>, e: int, n: int, weight: real): real
    requires ValidMoe(m) && 0 <= e < |m.w1| && 0 <= n < 2 * m.inter
  {
    (Inner(x, m.w1[e][n]) + if m.bias1.Some? then m.bias1.value[e][n] else 0.0) * if m.weightOnInput then weight else 1.0
  }

  /** silu(gate) * up, times the second matrix. */
  function SecondTerm(m: Moe, x: seq<real>, e: int, weight: real, d: int): int -> real
    requires ValidMoe(m) && 0 <= e < |m.w1| && 0 <= d < m.hidden
  {
    i => if 0 <= i < m.inter
      then m.silu(FirstLayer(m, x, e, i, weight)) * FirstLayer(m, x, e, m.inter + i, weight) * m.w2[e][d][i]
      else 0.0
  }

  function SecondLayer(m: Moe, x: seq<real>, e: int, weight: real, d: int): real
    requires ValidMoe(m) && 0 <= e < |m.w1| && 0 <= d < m.hidden
  {
    (Sum(SecondTerm(m, x, e, weight, d), 0, m.inter) + if m.bias2.Some? then m.bias2.value[e][d] else 0.0)
    * if m.weightOnInput then 1.0 else weight
  }

  /** The routes from `first` on, those of experts elsewhere or nowhere left out. */
  function RouteTerm(m: Moe, x: seq<real>, ids: seq<int>, weights: seq<real>, first: nat, d: int): int -> real
    requires ValidMoe(m) && |weights| == |ids| && 0 <= d < m.hidden
  {
    k => if 0 <= k && first + k < |ids| then RouteShare(m, x, ids[first + k], weights[first + k], d) else 0.0
  }

  /** The weighted output of the expert that this rank holds for an id, if it holds one. */
  function RouteShare(m: Moe, x: seq<real>, id: int, weight: real, d: int): real
    requires ValidMoe(m) && 0 <= d < m.hidden
  {
    var e := if m.expertMap.Some? then m.expertMap.value(id) else id;
    if 0 <= e < |m.w1| then SecondLayer(m, x, e, weight, d) else 0.0
  }

  lemma UpIsFirst(m: Moe, x: seq<real>, e: int, n: int, weight: real)
    requires ValidMoe(m) && 0 <= e < |m.w1| && 0 <= n < 2 * m.inter && |x| == m.hidden
    ensures UpRow(m, x, e, weight)[n] == FirstLayer(m, x, e, n, weight)
  {
    DotIsInner(x, m.w1[e][n]);
    hide RowDot, Inner;
  }

  lemma GatedIsTerm(m: Moe, x: seq<real>, e: int, weight: real, d: int)
    requires ValidMoe(m) && 0 <= e < |m.w1| && 0 <= d < m.hidden && |x| == m.hidden
    ensures RowDot(Gated(m.silu, m.inter, UpRow(m, x, e, weight)), m.w2[e][d]) == Sum(SecondTerm(m, x, e, weight, d), 0, m.inter)
  {
    hide Times, Gated, UpRow, FirstLayer, Sum;
    var act := Gated(m.silu, m.inter, UpRow(m, x, e, weight));
    forall i | 0 <= i < m.inter
      ensures Term(act, m.w2[e][d])(i) == SecondTerm(m, x, e, weight, d)(i)
    {
      TermIs(m, x, e, weight, d, i);
    }
    SumEq(Term(act, m.w2[e][d]), SecondTerm(m, x, e, weight, d), 0, m.inter);
  }

  lemma ActIs(m: Moe, x: seq<real>, e: int, weight: real, i: int)
    requires ValidMoe(m) && 0 <= e < |m.w1| && 0 <= i < m.inter && |x| == m.hidden
    ensures Gated(m.silu, m.inter, UpRow(m, x, e, weight))[i]
         == Times(m.silu(FirstLayer(m, x, e, i, weight)), FirstLayer(m, x, e, m.inter + i, weight))
  {
    UpIsFirst(m, x, e, i, weight);
    UpIsFirst(m, x, e, m.inter + i, weight);
    hide Times, UpRow, FirstLayer;
  }

  lemma TermIs(m: Moe, x: seq<real>, e: int, weight: real, d: int, i: int)
    requires ValidMoe(m) && 0 <= e < |m.w1| && 0 <= d < m.hidden && 0 <= i < m.inter && |x| == m.hidden
    ensures Term(Gated(m.silu, m.inter, UpRow(m, x, e, weight)), m.w2[e][d])(i) == SecondTerm(m, x, e, weight, d)(i)
  {
    hide Times, Gated, UpRow, FirstLayer;
    ActIs(m, x, e, weight, i);
    ThreeFactors(m.silu(FirstLayer(m, x, e, i, weight)), FirstLayer(m, x, e, m.inter + i, weight), m.w2[e][d][i]);
  }

  lemma ThreeFactors(a: real, b: real, c: real)
    ensures Times(Times(a, b), c) == a * b * c
  {
  }

  lemma ExpertIsSecond(m: Moe, x: seq<real>, e: int, weight: real, d: int)
    requires ValidMoe(m) && 0 <= e < |m.w1| && 0 <= d < m.hidden && |x| == m.hidden
    ensures ExpertOut(m, x, e, weight, d) == SecondLayer(m, x, e, weight, d)
  {
    GatedIsTerm(m, x, e, weight, d);
    hide RowDot, Gated, UpRow, SecondTerm, Sum;
  }

  /** The routed sum is the gated two-layer formula summed over the token's routes. */
  lemma TokenOutIs(m: Moe, x: seq<real>, ids: seq<int>, weights: seq<real>, t: nat, d: int)
    requires ValidMoe(m) && ValidIds(m, ids) && |weights| == |ids| && |x| == m.hidden && 0 <= d < m.hidden
    requires (t + 1) * m.topK <= |ids|
    ensures TokenOut(m, x, ids, weights, t, d) == Sum(RouteTerm(m, x, ids, weights, t * m.topK, d), 0, m.topK)
  {
    var first := t * m.topK;
    forall k | 0 <= k < m.topK
      ensures RouteOuts(m, x, ids, weights, first, d)(k) == RouteTerm(m, x, ids, weights, first, d)(k)
    {
      RouteIsShare(m, x, ids, weights, first + k, d);
    }
    SumEq(RouteOuts(m, x, ids, weights, first, d), RouteTerm(m, x, ids, weights, first, d), 0, m.topK);
  }

  lemma RouteIsShare(m: Moe, x: seq<real>, ids: seq<int>, weights: seq<real>, r: nat, d: int)
    requires ValidMoe(m) && ValidIds(m, ids) && |weights| == |ids| && |x| == m.hidden && 0 <= d < m.hidden
    ensures RouteOut(m, x, ids, weights, r, d) == if r < |ids| then RouteShare(m, x, ids[r], weights[r], d) else 0.0
  {
    if r < |ids| && Local(m, ids[r]) != -1 {
      ExpertIsSecond(m, x, Local(m, ids[r]), weights[r], d);
    }
    hide SecondLayer;
  }

  function InputRow(input: seq<real>, t: nat, cols: nat): seq<real> {
    if t * cols + cols <= |input| then input[t * cols..t * cols + cols] else []
  }

  /** Row `t` of a flat output is the routed sum of row `t` of the flat input, multiplied out. */
  ghost predicate RoutedRow(m: Moe, input: seq<real>, ids: seq<int>, weights: seq<real>, output: seq<real>, t: nat)
    requires ValidMoe(m) && |weights| == |ids|
  {
    forall x, d | 0 <= d < m.hidden && x == t * m.hidden + d ::
      && 0 <= x < |output|
      && output[x] == Sum(RouteTerm(m, InputRow(input, t, m.hidden), ids, weights, t * m.topK, d), 0, m.topK)
  }

  lemma RowIsInput(c: array<real>, rows: nat, cols: nat, t: nat)
    requires Fits(c.Length, rows, cols) && t < rows
    ensures Row(c, rows, cols, t) == InputRow(c[..], t, cols)
  {
    MulGe(rows, t + 1, cols);
    assert (t + 1) * cols == t * cols + cols;
  }

  lemma DoneIsRouted(m: Moe, xs: seq<seq<real>>, input: seq<real>, ids: seq<int>, weights: seq<real>, out: array<real>, t: nat)
    requires ValidMoe(m) && ValidIds(m, ids) && |ids| == |weights| == |xs| * m.topK && IsMatrix(xs, |xs|, m.hidden)
    requires Fits(out.Length, |xs|, m.hidden) && t < |xs|
    requires TokenDone(m, xs, ids, weights, out, t) && xs[t] == InputRow(input, t, m.hidden)
    ensures RoutedRow(m, input, ids, weights, out[..], t)
  {
    forall x, d | 0 <= d < m.hidden && x == t * m.hidden + d
      ensures 0 <= x < out.Length
      ensures out[..][x] == Sum(RouteTerm(m, xs[t], ids, weights, t * m.topK, d), 0, m.topK)
    {
      CellAt(out, |xs|, m.hidden, t, d);
      TokenOutIs(m, xs[t], ids, weights, t, d);
      hide Cell, TokenOut, Sum, RouteTerm, ValidMoe, ValidIds;
    }
    hide Cell, TokenOut, Sum, RouteTerm, TokenDone;
  }

  // ---------------------------------------------------------------- expert parallelism

  /** Rank `w` holds expert `e` of the whole layer as its expert `local`. */
  ghost predicate HoldsExpert(m: Moe, w: Moe, e: int, local: int)
    requires ValidMoe(m) && ValidMoe(w) && 0 <= e < |m.w1|
  {
    && 0 <= local < |w.w1| && w.w1[local] == m.w1[e] && w.w2[local] == m.w2[e]
    && (m.bias1.Some? ==> w.bias1.Some? && w.bias1.value[local] == m.bias1.value[e])
    && (m.bias2.Some? ==> w.bias2.Some? && w.bias2.value[local] == m.bias2.value[e])
  }

  /** The ranks split the experts of `m`: each expert is held by its owner, and the other ranks map it to -1. */
  ghost predicate SplitsExperts(m: Moe, ranks: seq<Moe>, owner: int -> int) {
    && ValidMoe(m) && m.expertMap.None?
    && (forall r | 0 <= r < |ranks| :: IsRank(m, ranks[r]))
    && (forall e | 0 <= e < |m.w1| :: 0 <= owner(e) < |ranks|)
    && (forall e, r | 0 <= e < |m.w1| && 0 <= r < |ranks| ::
          if r == owner(e) then HoldsExpert(m, ranks[r], e, ranks[r].expertMap.value(e)) else ranks[r].expertMap.value(e) == -1)
  }

  ghost predicate IsRank(m: Moe, w: Moe) {
    && ValidMoe(w) && w.expertMap.Some? && w.expertMap.value(-1) == -1
    && w.hidden == m.hidden && w.inter == m.inter && w.topK == m.topK && w.weightOnInput == m.weightOnInput && w.silu == m.silu
    && w.bias1.Some? == m.bias1.Some? && w.bias2.Some? == m.bias2.Some?
  }

  lemma RankIds(m: Moe, ranks: seq<Moe>, owner: int -> int, ids: seq<int>, r: nat)
    requires SplitsExperts(m, ranks, owner) && ValidIds(m, ids) && r < |ranks|
    ensures ValidMoe(ranks[r]) && ValidIds(ranks[r], ids)
  {
    forall i | 0 <= i < |ids|
      ensures -1 <= Local(ranks[r], ids[i]) < |ranks[r].w1|
    {
      if ids[i] != -1 {
        assert if r == owner(ids[i]) then HoldsExpert(m, ranks[r], ids[i], ranks[r].expertMap.value(ids[i]))
          else ranks[r].expertMap.value(ids[i]) == -1;
      }
    }
  }

  /** A route's output is whole on its expert's owner and zero elsewhere. */
  lemma RouteOnOwner(m: Moe, ranks: seq<Moe>, owner: int -> int, x: seq<real>, ids: seq<int>, weights: seq<real>, i: int, d: int, r: nat)
    requires SplitsExperts(m, ranks, owner) && ValidIds(m, ids) && |weights| == |ids| && |x| == m.hidden && 0 <= d < m.hidden
    requires r < |ranks|
    ensures ValidMoe(ranks[r]) && ValidIds(ranks[r], ids) && ranks[r].hidden == m.hidden
    ensures RouteOut(ranks[r], x, ids, weights, i, d)
         == if 0 <= i < |ids| && ids[i] != -1 && r == owner(ids[i]) then RouteOut(m, x, ids, weights, i, d) else 0.0
  {
    RankIds(m, ranks, owner, ids, r);
    if 0 <= i < |ids| && ids[i] != -1 {
      assert if r == owner(ids[i]) then HoldsExpert(m, ranks[r], ids[i], ranks[r].expertMap.value(ids[i]))
        else ranks[r].expertMap.value(ids[i]) == -1;
      if r == owner(ids[i]) {
        SameExpert(m, ranks[r], x, ids[i], ranks[r].expertMap.value(ids[i]), weights[i], d);
      }
    }
    hide ExpertOut, HoldsExpert;
  }

  lemma SameExpert(m: Moe, w: Moe, x: seq<real>, e: int, local: int, weight: real, d: int)
    requires ValidMoe(m) && IsRank(m, w) && 0 <= e < |m.w1| && HoldsExpert(m, w, e, local) && |x| == m.hidden && 0 <= d < m.hidden
    ensures ExpertOut(w, x, local, weight, d) == ExpertOut(m, x, e, weight, d)
  {
    hide RowDot;
    assert UpRow(w, x, local, weight) == UpRow(m, x, e, weight);
  }

  ghost predicate AllReady(ranks: seq<Moe>, x: seq<real>, ids: seq<int>, weights: seq<real>, d: int) {
    && |weights| == |ids|
    && forall r | 0 <= r < |ranks| :: ValidMoe(ranks[r]) && ValidIds(ranks[r], ids) && |x| == ranks[r].hidden && 0 <= d < ranks[r].hidden
  }

  function OverRanks(ranks: seq<Moe>, x: seq<real>, ids: seq<int>, weights: seq<real>, i: int, d: int): int -> real
    requires AllReady(ranks, x, ids, weights, d)
  {
    r => if 0 <= r < |ranks| then RouteOut(ranks[r], x, ids, weights, i, d) else 0.0
  }

  lemma RouteSplits(m: Moe, ranks: seq<Moe>, owner: int -> int, x: seq<real>, ids: seq<int>, weights: seq<real>, i: int, d: int)
    requires SplitsExperts(m, ranks, owner) && ValidIds(m, ids) && |weights| == |ids| && |x| == m.hidden && 0 <= d < m.hidden
    ensures AllReady(ranks, x, ids, weights, d)
    ensures Sum(OverRanks(ranks, x, ids, weights, i, d), 0, |ranks|) == RouteOut(m, x, ids, weights, i, d)
  {
    forall r | 0 <= r < |ranks|
      ensures ValidMoe(ranks[r]) && ValidIds(ranks[r], ids) && ranks[r].hidden == m.hidden
    {
      RankIds(m, ranks, owner, ids, r);
    }
    var f := OverRanks(ranks, x, ids, weights, i, d);
    forall r | 0 <= r < |ranks|
      ensures f(r) == if 0 <= i < |ids| && ids[i] != -1 && r == owner(ids[i]) then RouteOut(m, x, ids, weights, i, d) else 0.0
    {
      RouteOnOwner(m, ranks, owner, x, ids, weights, i, d, r);
    }
    if 0 <= i < |ids| && ids[i] != -1 {
      var o := owner(ids[i]);
      SumTrim(f, 0, o, o + 1, |ranks|);
      SumLast(f, o, o + 1);
    } else {
      SumZero(f, 0, |ranks|);
    }
  }

  function RowOf(f: (int, int) -> real, r: int): int -> real { k => f(r, k) }

  function ColumnOf(f: (int, int) -> real, k: int): int -> real { r => f(r, k) }

  function RowSums(f: (int, int) -> real, n: int): int -> real { r => Sum(RowOf(f, r), 0, n) }

  function ColumnSums(f: (int, int) -> real, rows: int): int -> real { k => Sum(ColumnOf(f, k), 0, rows) }

  /** Sums over rows and columns exchange. */
  lemma {:induction false} Exchange(f: (int, int) -> real, rows: nat, n: nat)
    ensures Sum(RowSums(f, n), 0, rows) == Sum(ColumnSums(f, rows), 0, n)
  {
    if n == 0 {
      SumZero(RowSums(f, 0), 0, rows);
    } else {
      Exchange(f, rows, n - 1);
      SumAdd(RowSums(f, n - 1), ColumnOf(f, n - 1), RowSums(f, n), 0, rows);
    }
  }

  /** Route by route on every rank. */
  function Grid(ranks: seq<Moe>, x: seq<real>, ids: seq<int>, weights: seq<real>, first: int, d: int): (int, int) -> real
    requires AllReady(ranks, x, ids, weights, d)
  {
    (r, k) => if 0 <= r < |ranks| then RouteOut(ranks[r], x, ids, weights, first + k, d) else 0.0
  }

  /** A token's routed sum on each rank. */
  function RankTokens(ranks: seq<Moe>, x: seq<real>, ids: seq<int>, weights: seq<real>, t: nat, d: int): int -> real
    requires AllReady(ranks, x, ids, weights, d) && forall r | 0 <= r < |ranks| :: (t + 1) * ranks[r].topK <= |ids|
  {
    r => if 0 <= r < |ranks| then TokenOut(ranks[r], x, ids, weights, t, d) else 0.0
  }

  lemma RanksAre(m: Moe, ranks: seq<Moe>, owner: int -> int, x: seq<real>, ids: seq<int>, weights: seq<real>, d: int)
    requires SplitsExperts(m, ranks, owner) && ValidIds(m, ids) && |weights| == |ids| && |x| == m.hidden && 0 <= d < m.hidden
    ensures AllReady(ranks, x, ids, weights, d) && forall r | 0 <= r < |ranks| :: ranks[r].topK == m.topK
  {
    forall r | 0 <= r < |ranks|
      ensures ValidMoe(ranks[r]) && ValidIds(ranks[r], ids) && ranks[r].hidden == m.hidden && ranks[r].topK == m.topK
    {
      RankIds(m, ranks, owner, ids, r);
    }
  }

  lemma RowsAre(ranks: seq<Moe>, topK: nat, x: seq<real>, ids: seq<int>, weights: seq<real>, t: nat, d: int)
    requires AllReady(ranks, x, ids, weights, d) && (t + 1) * topK <= |ids| && forall r | 0 <= r < |ranks| :: ranks[r].topK == topK
    ensures Sum(RankTokens(ranks, x, ids, weights, t, d), 0, |ranks|) == Sum(RowSums(Grid(ranks, x, ids, weights, t * topK, d), topK), 0, |ranks|)
  {
    var f := Grid(ranks, x, ids, weights, t * topK, d);
    forall r | 0 <= r < |ranks|
      ensures RankTokens(ranks, x, ids, weights, t, d)(r) == RowSums(f, topK)(r)
    {
      SumEq(RouteOuts(ranks[r], x, ids, weights, t * topK, d), RowOf(f, r), 0, topK);
    }
    SumEq(RankTokens(ranks, x, ids, weights, t, d), RowSums(f, topK), 0, |ranks|);
  }

  lemma ColumnIs(m: Moe, ranks: seq<Moe>, owner: int -> int, x: seq<real>, ids: seq<int>, weights: seq<real>, first: nat, k: nat, d: int)
    requires SplitsExperts(m, ranks, owner) && ValidIds(m, ids) && |weights| == |ids| && |x| == m.hidden && 0 <= d < m.hidden
    ensures AllReady(ranks, x, ids, weights, d)
    ensures Sum(ColumnOf(Grid(ranks, x, ids, weights, first, d), k), 0, |ranks|) == RouteOut(m, x, ids, weights, first + k, d)
  {
    hide RouteOut, ValidMoe, ValidIds, SplitsExperts;
    RouteSplits(m, ranks, owner, x, ids, weights, first + k, d);
    SumEq(ColumnOf(Grid(ranks, x, ids, weights, first, d), k), OverRanks(ranks, x, ids, weights, first + k, d), 0, |ranks|);
  }

  lemma ColumnsAre(m: Moe, ranks: seq<Moe>, owner: int -> int, x: seq<real>, ids: seq<int>, weights: seq<real>, first: nat, d: int)
    requires SplitsExperts(m, ranks, owner) && ValidIds(m, ids) && |weights| == |ids| && |x| == m.hidden && 0 <= d < m.hidden
    ensures AllReady(ranks, x, ids, weights, d)
    ensures Sum(ColumnSums(Grid(ranks, x, ids, weights, first, d), |ranks|), 0, m.topK) == RoutesFrom(m, x, ids, weights, first, d)
  {
    RanksAre(m, ranks, owner, x, ids, weights, d);
    var f := Grid(ranks, x, ids, weights, first, d);
    hide RouteOut, ValidMoe, ValidIds, SplitsExperts;
    forall k | 0 <= k < m.topK
      ensures ColumnSums(f, |ranks|)(k) == RouteOuts(m, x, ids, weights, first, d)(k)
    {
      ColumnIs(m, ranks, owner, x, ids, weights, first, k, d);
    }
    SumEq(ColumnSums(f, |ranks|), RouteOuts(m, x, ids, weights, first, d), 0, m.topK);
  }

  /** When maps split the experts over ranks, the ranks' routed sums add up to the whole layer's. */
  lemma RanksAddUp(m: Moe, ranks: seq<Moe>, owner: int -> int, x: seq<real>, ids: seq<int>, weights: seq<real>, t: nat, d: int)
    requires SplitsExperts(m, ranks, owner) && ValidIds(m, ids) && |weights| == |ids| && |x| == m.hidden && 0 <= d < m.hidden
    requires (t + 1) * m.topK <= |ids|
    ensures AllReady(ranks, x, ids, weights, d) && forall r | 0 <= r < |ranks| :: ranks[r].topK == m.topK
    ensures Sum(RankTokens(ranks, x, ids, weights, t, d), 0, |ranks|) == TokenOut(m, x, ids, weights, t, d)
  {
    hide RankTokens, RowSums, ColumnSums, Sum, RoutesFrom, AllReady, SplitsExperts, ValidMoe, ValidIds, Grid;
    RanksAre(m, ranks, owner, x, ids, weights, d);
    RowsAre(ranks, m.topK, x, ids, weights, t, d);
    Exchange(Grid(ranks, x, ids, weights, t * m.topK, d), |ranks|, m.topK);
    ColumnsAre(m, ranks, owner, x, ids, weights, t * m.topK, d);
  }

  function CellOf(cells: seq<real>): int -> real { r => if 0 <= r < |cells| then cells[r] else 0.0 }

  /** Ranks that each ran the layer with their map hold cells that reduce to the whole layer's. */
  lemma OutputsReduce(m: Moe, ranks: seq<Moe>, owner: int -> int, xs: seq<seq<real>>, ids: seq<int>, weights: seq<real>,
                      outs: seq<array<real>>, cells: seq<real>, t: nat, d: int)
    requires SplitsExperts(m, ranks, owner) && ValidBatch(m, Batch(xs, ids, weights)) && t < |xs| && 0 <= d < m.hidden
    requires |outs| == |ranks| == |cells|
    requires forall r | 0 <= r < |ranks| ::
               && ValidBatch(ranks[r], Batch(xs, ids, weights)) && Fits(outs[r].Length, |xs|, ranks[r].hidden)
               && TokenDone(ranks[r], xs, ids, weights, outs[r], t)
               && d < ranks[r].hidden && cells[r] == Cell(outs[r], |xs|, ranks[r].hidden, t, d)
    ensures (t + 1) * m.topK <= |ids| && Sum(CellOf(cells), 0, |cells|) == TokenOut(m, xs[t], ids, weights, t, d)
  {
    RoutesEnd(m.topK, |xs|, t);
    RanksAddUp(m, ranks, owner, xs[t], ids, weights, t, d);
    hide Cell, TokenOut, ValidMoe, ValidIds;
    forall r | 0 <= r < |cells|
      ensures CellOf(cells)(r) == RankTokens(ranks, xs[t], ids, weights, t, d)(r)
    {
    }
    SumEq(CellOf(cells), RankTokens(ranks, xs[t], ids, weights, t, d), 0, |ranks|);
  }
}
