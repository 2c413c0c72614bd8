/**
 The fused mixture-of-experts layer: chunks of tokens, two grouped GEMMs around a gated activation,
 one scratch buffer shared by the first and third caches, and an output that may be the input.
 */
module FusedExperts {
  import opened Options
  import opened Sums
  import opened DivMod
  import opened FlatMatrix
  import opened Gemm
  import opened MoeAlignment
  import opened FusedMoeKernel

  // ---------------------------------------------------------------- the layer, token by token

  datatype Moe = Moe(
    w1: seq<seq<seq<real>>>, w2: seq<seq<seq<real>>>,
    bias1: Option<seq<seq<real>>>, bias2: Option<seq<seq<real>>>,
    hidden: nat, inter: nat, topK: nat, weightOnInput: bool, silu: real -> real,
    expertMap: Option<int -> int>)

  ghost predicate ValidMoe(m: Moe) {
    && |m.w1| == |m.w2| && m.topK > 0
    && (forall e | 0 <= e < |m.w1| :: IsMatrix(m.w1[e], 2 * m.inter, m.hidden))
    && (forall e | 0 <= e < |m.w2| :: IsMatrix(m.w2[e], m.hidden, m.inter))
    && (m.bias1.Some? ==> IsMatrix(m.bias1.value, |m.w1|, 2 * m.inter))
    && (m.bias2.Some? ==> IsMatrix(m.bias2.value, |m.w1|, m.hidden))
  }

  /** The expert of a route on this rank, or -1 when an expert map sends it elsewhere. */
  function Local(m: Moe, id: int): int {
    if m.expertMap.Some? then m.expertMap.value(id) else id
  }

  ghost predicate ValidIds(m: Moe, ids: seq<int>) {
    forall r | 0 <= r < |ids| :: -1 <= Local(m, ids[r]) < |m.w1|
  }

  function WithBias(bias: Option<seq<seq<real>>>, e: int, n: int, x: real): real
    requires bias.Some? ==> 0 <= e < |bias.value| && 0 <= n < |bias.value[e]|
  {
    if bias.Some? then x + bias.value[e][n] else x
  }

  /** Gate and up projections of one token by one expert. */
  function UpRow(m: Moe, x: seq<real>, e: int, weight: real): (row: seq<real>)
    requires ValidMoe(m) && 0 <= e < |m.w1| && |x| == m.hidden
    ensures |row| == 2 * m.inter
  {
    seq(2 * m.inter, n requires 0 <= n < 2 * m.inter =>
      var y := WithBias(m.bias1, e, n, RowDot(x, m.w1[e][n]));
      if m.weightOnInput then Times(y, weight) else y)
  }

  /** silu(gate) * up. */
  function Gated(silu: real -> real, inter: nat, up: seq<real>): (row: seq<real>)
    requires |up| == 2 * inter
    ensures |row| == inter
  {
    seq(inter, i requires 0 <= i < inter => Times(silu(up[i]), up[inter + i]))
  }

  /** One expert's contribution to one output coordinate of a token. */
  function ExpertOut(m: Moe, x: seq<real>, e: int, weight: real, d: int): real
    requires ValidMoe(m) && -1 <= e < |m.w1| && |x| == m.hidden && 0 <= d < m.hidden
  {
    if e == -1 then 0.0
    else
      var y := WithBias(m.bias2, e, d, RowDot(Gated(m.silu, m.inter, UpRow(m, x, e, weight)), m.w2[e][d]));
      if m.weightOnInput then y else Times(y, weight)
  }

  /** The routed sum of a token: its experts' contributions, added up. */
  function TokenOut(m: Moe, x: seq<real>, ids: seq<int>, weights: seq<real>, t: nat, d: int): real
    requires ValidMoe(m) && ValidIds(m, ids) && |weights| == |ids| && |x| == m.hidden && 0 <= d < m.hidden
    requires (t + 1) * m.topK <= |ids|
  {
    RoutesFrom(m, x, ids, weights, t * m.topK, d)
  }

  /** The contributions of the topK routes that start at route `first`. */
  function RoutesFrom(m: Moe, x: seq<real>, ids: seq<int>, weights: seq<real>, first: int, d: int): real
    requires ValidMoe(m) && ValidIds(m, ids) && |weights| == |ids| && |x| == m.hidden && 0 <= d < m.hidden
  {
    Sum(RouteOuts(m, x, ids, weights, first, d), 0, m.topK)
  }

  function RouteOuts(m: Moe, x: seq<real>, ids: seq<int>, weights: seq<real>, first: int, d: int): int -> real
    requires ValidMoe(m) && ValidIds(m, ids) && |weights| == |ids| && |x| == m.hidden && 0 <= d < m.hidden
  {
    k => if 0 <= k < m.topK then RouteOut(m, x, ids, weights, first + k, d) else 0.0
  }

  function RouteOut(m: Moe, x: seq<real>, ids: seq<int>, weights: seq<real>, r: int, d: int): real
    requires ValidMoe(m) && ValidIds(m, ids) && |weights| == |ids| && |x| == m.hidden && 0 <= d < m.hidden
  {
    if 0 <= r < |ids| then ExpertOut(m, x, Local(m, ids[r]), weights[r], d) else 0.0
  }

  // ---------------------------------------------------------------- the steps of a chunk

  /** A buffer's contents with the first `cells` cleared. */
  function ZerosFirst(cells: int, s: seq<real>): (r: seq<real>)
    ensures |r| == |s|
  {
    seq(|s|, x requires 0 <= x < |s| => if x < cells then 0.0 else s[x])
  }

  method ZeroFill(c: array<real>, rows: nat, cols: nat)
    requires Fits(c.Length, rows, cols)
    modifies c
    ensures forall r, n | 0 <= r < rows && 0 <= n < cols :: Cell(c, rows, cols, r, n) == 0.0
    ensures c[..] == ZerosFirst(rows * cols, old(c[..]))
  {
    for i := 0 to rows * cols
      invariant forall i' | 0 <= i' < i :: c[i'] == 0.0
      invariant forall i' | i <= i' < c.Length :: c[i'] == old(c[i'])
    {
      c[i] := 0.0;
    }
    forall r, n | 0 <= r < rows && 0 <= n < cols
      ensures Cell(c, rows, cols, r, n) == 0.0
    {
      FlatInRange(rows, cols, r, n);
    }
  }

  method Activate(silu: real -> real, cache1: array<real>, cache2: array<real>, rows: nat, inter: nat)
    requires Fits(cache1.Length, rows, 2 * inter) && Fits(cache2.Length, rows, inter) && cache1 != cache2
    modifies cache2
    ensures forall r, i | 0 <= r < rows && 0 <= i < inter ::
              Cell(cache2, rows, inter, r, i) == Gated(silu, inter, Row(cache1, rows, 2 * inter, r))[i]
  {
    hide Cell, Gated;
    for r := 0 to rows
      invariant forall r', i | 0 <= r' < r && 0 <= i < inter ::
                  Cell(cache2, rows, inter, r', i) == Gated(silu, inter, Row(cache1, rows, 2 * inter, r'))[i]
    {
      var lanes := Gated(silu, inter, Row(cache1, rows, 2 * inter, r));
      StoreLanes(cache2, rows, inter, r, 0, lanes, (r', i) => if 0 <= i < |lanes| then lanes[i] else 0.0);
      forall i | 0 <= i < inter
        ensures Cell(cache2, rows, inter, r, i) == lanes[i]
      {
        assert Holds(cache2, rows, inter, (r', i) => if 0 <= i < |lanes| then lanes[i] else 0.0, r, i);
      }
    }
  }

  /** Adds up each token's routes and stores the sums in rows begin.. of the output. */
  method MoeSum(cache3: array<real>, out: array<real>, tokens: nat, topK: nat, cols: nat, total: nat, begin: nat)
    requires begin + tokens <= total && Fits(out.Length, total, cols)
    requires Fits(cache3.Length, tokens * topK, cols) && cache3 != out
    modifies out
    ensures forall t, d | 0 <= t < tokens && 0 <= d < cols ::
              Cell(out, total, cols, begin + t, d) == RouteSum(cache3, tokens, topK, cols, t, d)
    ensures forall t, d | 0 <= t < total && !(begin <= t < begin + tokens) && 0 <= d < cols ::
              Cell(out, total, cols, t, d) == old(Cell(out, total, cols, t, d))
  {
    hide Cell, RouteSum;
    for t := 0 to tokens
      invariant forall t', d | 0 <= t' < t && 0 <= d < cols ::
                  Cell(out, total, cols, begin + t', d) == RouteSum(cache3, tokens, topK, cols, t', d)
      invariant forall t', d | 0 <= t' < total && !(begin <= t' < begin + t) && 0 <= d < cols ::
                  Cell(out, total, cols, t', d) == old(Cell(out, total, cols, t', d))
    {
      for d := 0 to cols
        invariant forall t', d | 0 <= t' < t && 0 <= d < cols ::
                    Cell(out, total, cols, begin + t', d) == RouteSum(cache3, tokens, topK, cols, t', d)
        invariant forall d' | 0 <= d' < d ::
                    Cell(out, total, cols, begin + t, d') == RouteSum(cache3, tokens, topK, cols, t, d')
        invariant forall t', d | 0 <= t' < total && !(begin <= t' < begin + t + 1) && 0 <= d < cols ::
                    Cell(out, total, cols, t', d) == old(Cell(out, total, cols, t', d))
      {
        Write(out, total, cols, begin + t, d, RouteSum(cache3, tokens, topK, cols, t, d));
      }
    }
  }

  function RouteSum(cache3: array<real>, tokens: nat, topK: nat, cols: nat, t: int, d: int): real
    requires Fits(cache3.Length, tokens * topK, cols) && 0 <= t < tokens && 0 <= d < cols
    reads cache3
  {
    Sum(RouteCells(Column(cache3, tokens * topK, cols, d), t, topK), 0, topK)
  }

  /** Column `d` of a flat matrix. */
  function Column(c: array<real>, rows: nat, cols: nat, d: int): (col: seq<real>)
    requires Fits(c.Length, rows, cols) && 0 <= d < cols
    reads c
    ensures |col| == rows && forall r | 0 <= r < rows :: col[r] == Cell(c, rows, cols, r, d)
  {
    seq(rows, r requires 0 <= r < rows reads c => Cell(c, rows, cols, r, d))
  }

  function RouteCells(col: seq<real>, t: int, topK: nat): int -> real {
    k => if 0 <= t * topK + k < |col| then col[t * topK + k] else 0.0
  }

  // ---------------------------------------------------------------- one chunk

  /** The routes of a chunk: their local experts, and the two grouped GEMMs over them. */
  function Experts(m: Moe, ids: seq<int>): (experts: seq<int>)
    ensures |experts| == |ids| && forall r | 0 <= r < |ids| :: experts[r] == Local(m, ids[r])
  {
    seq(|ids|, r requires 0 <= r < |ids| => Local(m, ids[r]))
  }

  ghost predicate ValidChunk(m: Moe, xs: seq<seq<real>>, ids: seq<int>, weights: seq<real>) {
    && ValidMoe(m) && ValidIds(m, ids) && IsMatrix(xs, |xs|, m.hidden)
    && |ids| == |weights| == |xs| * m.topK
  }

  function UpGemm(m: Moe, xs: seq<seq<real>>, ids: seq<int>, weights: seq<real>): Grouped {
    Grouped(xs, m.w1, m.bias1, if m.weightOnInput then Some(weights) else None, Experts(m, ids), m.topK,
            m.hidden, 2 * m.inter)
  }

  function DownGemm(m: Moe, acts: seq<seq<real>>, ids: seq<int>, weights: seq<real>): Grouped {
    Grouped(acts, m.w2, m.bias2, if m.weightOnInput then None else Some(weights), Experts(m, ids), 1,
            m.inter, m.hidden)
  }

  lemma UpIsUpRow(m: Moe, xs: seq<seq<real>>, ids: seq<int>, weights: seq<real>, r: int, n: int)
    requires ValidChunk(m, xs, ids, weights) && 0 <= r < |ids| && Local(m, ids[r]) != -1 && 0 <= n < 2 * m.inter
    ensures ValidGrouped(UpGemm(m, xs, ids, weights)) && 0 <= r / m.topK < |xs|
    ensures RouteValue(UpGemm(m, xs, ids, weights), r, n)
         == UpRow(m, xs[r / m.topK], Local(m, ids[r]), weights[r])[n]
  {
    hide RowDot;
    RouteToken(UpGemm(m, xs, ids, weights), r);
  }

  lemma DownIsExpertOut(m: Moe, xs: seq<seq<real>>, acts: seq<seq<real>>, ids: seq<int>, weights: seq<real>, r: int, d: int)
    requires ValidChunk(m, xs, ids, weights) && 0 <= r < |ids| && 0 <= d < m.hidden
    requires IsMatrix(acts, |ids|, m.inter) && 0 <= r / m.topK < |xs|
    requires Local(m, ids[r]) != -1 ==>
               acts[r] == Gated(m.silu, m.inter, UpRow(m, xs[r / m.topK], Local(m, ids[r]), weights[r]))
    ensures ValidGrouped(DownGemm(m, acts, ids, weights))
    ensures RouteValue(DownGemm(m, acts, ids, weights), r, d) == RouteOut(m, xs[r / m.topK], ids, weights, r, d)
  {
    hide RowDot, Gated, UpRow;
    RouteToken(DownGemm(m, acts, ids, weights), r);
    DivUnique(r, 1, r, 0);
  }

  /** A route's row of the third cache gets written: some block holds it, or the cache was cleared for an expert map. */
  predicate Written(m: Moe, al: Alignment, r: int)
    requires al.sorted.Some? ==> al.postPadded <= |al.sorted.value|
  {
    m.expertMap.Some? || Placed(al, r)
  }

  /**
   What the third cache holds for route `r` of token `t` when the sums are taken, from the buffer's
   contents `before` the chunk: the route's output, or, in a row nothing writes, what the first GEMM
   left in the shared buffer.
   */
  function RouteCell(m: Moe, xs: seq<seq<real>>, ids: seq<int>, weights: seq<real>, al: Alignment, before: seq<real>,
                     t: int, r: int, d: int): real
    requires ValidChunk(m, xs, ids, weights) && (al.sorted.Some? ==> al.postPadded <= |al.sorted.value|)
    requires 0 <= t < |xs| && 0 <= d < m.hidden
  {
    if Written(m, al, r) then RouteOut(m, xs[t], ids, weights, r, d)
    else AfterLaunch(UpGemm(m, xs, ids, weights), al, before, Flat(r, m.hidden, d))
  }

  function RowTerm(m: Moe, xs: seq<seq<real>>, ids: seq<int>, weights: seq<real>, al: Alignment, before: seq<real>,
                   t: int, d: int): int -> real
    requires ValidChunk(m, xs, ids, weights) && (al.sorted.Some? ==> al.postPadded <= |al.sorted.value|)
    requires 0 <= t < |xs| && 0 <= d < m.hidden
  {
    k => if 0 <= k < m.topK then RouteCell(m, xs, ids, weights, al, before, t, Flat(t, m.topK, k), d) else 0.0
  }

  /** The output row a chunk stores for token `t`, whatever its routes. */
  function ChunkRow(m: Moe, xs: seq<seq<real>>, ids: seq<int>, weights: seq<real>, al: Alignment, before: seq<real>,
                    t: int, d: int): real
    requires ValidChunk(m, xs, ids, weights) && (al.sorted.Some? ==> al.postPadded <= |al.sorted.value|)
    requires 0 <= t < |xs| && 0 <= d < m.hidden
  {
    Sum(RowTerm(m, xs, ids, weights, al, before, t, d), 0, m.topK)
  }

  /** Row `r` of a flat buffer's contents. */
  function ContentRow(s: seq<real>, cols: nat, r: int): (row: seq<real>)
    ensures |row| == cols
  {
    seq(cols, n requires 0 <= n < cols => if 0 <= Flat(r, cols, n) < |s| then s[Flat(r, cols, n)] else 0.0)
  }

  lemma RowIsContent(c: array<real>, rows: nat, cols: nat, r: int)
    requires Fits(c.Length, rows, cols) && 0 <= r < rows
    ensures Row(c, rows, cols, r) == ContentRow(c[..], cols, r)
  {
    forall n | 0 <= n < cols
      ensures Row(c, rows, cols, r)[n] == ContentRow(c[..], cols, r)[n]
    {
      FlatInRange(rows, cols, r, n);
    }
  }

  /** The buffer after the first GEMM, from the contents `before` the chunk ... */
  function AfterUp(m: Moe, xs: seq<seq<real>>, ids: seq<int>, weights: seq<real>, al: Alignment, before: seq<real>): (mid: seq<real>)
    requires ValidChunk(m, xs, ids, weights) && (al.sorted.Some? ==> al.postPadded <= |al.sorted.value|)
    ensures |mid| == |before|
  {
    seq(|before|, x requires 0 <= x < |before| => AfterLaunch(UpGemm(m, xs, ids, weights), al, before, x))
  }

  /** ... the activations taken from it ... */
  function ActRows(m: Moe, routes: nat, mid: seq<real>): (acts: seq<seq<real>>)
    ensures IsMatrix(acts, routes, m.inter)
  {
    seq(routes, r => Gated(m.silu, m.inter, ContentRow(mid, 2 * m.inter, r)))
  }

  /** ... and what the chunk leaves in it for the next one. */
  function ChunkCache(m: Moe, xs: seq<seq<real>>, ids: seq<int>, weights: seq<real>, al: Alignment, before: seq<real>): (after: seq<real>)
    requires ValidChunk(m, xs, ids, weights) && (al.sorted.Some? ==> al.postPadded <= |al.sorted.value|)
    ensures |after| == |before|
  {
    var mid := AfterUp(m, xs, ids, weights, al, before);
    var down := DownGemm(m, ActRows(m, |ids|, mid), ids, weights);
    seq(|before|, x requires 0 <= x < |before| => AfterLaunch(down, al, ForDown(m, |ids|, mid), x))
  }

  /** The third cache is cleared first when an expert map is set. */
  function ForDown(m: Moe, routes: nat, mid: seq<real>): (s: seq<real>)
    ensures |s| == |mid|
  {
    if m.expertMap.Some? then ZerosFirst(routes * m.hidden, mid) else mid
  }

  /** A launch's programs in some order, each at least once. */
  ghost predicate Schedules(order: seq<int>, n: int) {
    && (forall i | 0 <= i < |order| :: 0 <= order[i] < n)
    && (forall x | 0 <= x < n :: x in order)
  }

  ghost predicate IsSchedule(schedule: int -> seq<int>) {
    forall n :: Schedules(schedule(n), n)
  }

  /**
   Runs one chunk. The third cache overlays the first: it is written only after the activation has
   been taken from the first into the second.
   */
  method RunChunk(m: Moe, xs: seq<seq<real>>, ids: seq<int>, weights: seq<real>, al: Alignment, blk: Blocks,
                  upSchedule: int -> seq<int>, downSchedule: int -> seq<int>,
                  cache13: array<real>, cache2: array<real>, out: array<real>, total: nat, begin: nat)
    requires ValidChunk(m, xs, ids, weights) && Positive4(blk) && IsAligned(al, Experts(m, ids), blk.m)
    requires IsSchedule(upSchedule) && IsSchedule(downSchedule)
    requires cache13 != cache2 && out != cache13 && out != cache2
    requires Fits(cache13.Length, |ids|, 2 * m.inter) && Fits(cache13.Length, |ids|, m.hidden)
    requires Fits(cache2.Length, |ids|, m.inter) && Fits(out.Length, total, m.hidden) && begin + |xs| <= total
    modifies cache13, cache2, out
    ensures al.sorted.Some? ==> al.postPadded <= |al.sorted.value|
    ensures forall t, d | 0 <= t < |xs| && 0 <= d < m.hidden ::
              Cell(out, total, m.hidden, begin + t, d) == ChunkRow(m, xs, ids, weights, al, old(cache13[..]), t, d)
    ensures cache13[..] == ChunkCache(m, xs, ids, weights, al, old(cache13[..]))
    ensures forall t, d | 0 <= t < total && !(begin <= t < begin + |xs|) && 0 <= d < m.hidden ::
              Cell(out, total, m.hidden, t, d) == old(Cell(out, total, m.hidden, t, d))
  {
    assert al.sorted.Some? ==> al.postPadded <= |al.sorted.value|;
    hide Cell, ChunkRow, ChunkCache, RouteCells, IsAligned, ValidIds, ValidMoe, Sum, Experts, Placed, RouteSum, RouteCell, IsSchedule;
    ghost var before := cache13[..];
    RouteOutputs(m, xs, ids, weights, al, blk, upSchedule, downSchedule, cache13, cache2);
    MoeSum(cache13, out, |xs|, m.topK, m.hidden, total, begin);
    forall t, d | 0 <= t < |xs| && 0 <= d < m.hidden
      ensures Cell(out, total, m.hidden, begin + t, d) == ChunkRow(m, xs, ids, weights, al, before, t, d)
    {
      SummedToken(m, xs, ids, weights, al, before, cache13, t, d);
    }
  }

  /** Both GEMMs and the activation: what every row of the third cache, and the buffer under it, then holds. */
  method RouteOutputs(m: Moe, xs: seq<seq<real>>, ids: seq<int>, weights: seq<real>, al: Alignment, blk: Blocks,
                      upSchedule: int -> seq<int>, downSchedule: int -> seq<int>, cache13: array<real>, cache2: array<real>)
    requires ValidChunk(m, xs, ids, weights) && Positive4(blk) && IsAligned(al, Experts(m, ids), blk.m)
    requires IsSchedule(upSchedule) && IsSchedule(downSchedule)
    requires cache13 != cache2 && Fits(cache2.Length, |ids|, m.inter)
    requires Fits(cache13.Length, |ids|, 2 * m.inter) && Fits(cache13.Length, |ids|, m.hidden)
    modifies cache13, cache2
    ensures al.sorted.Some? ==> al.postPadded <= |al.sorted.value|
    ensures forall r, d | 0 <= r < |ids| && 0 <= d < m.hidden && 0 <= r / m.topK < |xs| ::
              Cell(cache13, |ids|, m.hidden, r, d) == RouteCell(m, xs, ids, weights, al, old(cache13[..]), r / m.topK, r, d)
    ensures cache13[..] == ChunkCache(m, xs, ids, weights, al, old(cache13[..]))
  {
    assert al.sorted.Some? ==> al.postPadded <= |al.sorted.value|;
    ghost var up := UpGemm(m, xs, ids, weights);
    assert ValidGrouped(up);
    hide Cell, RouteOut, UpRow, Gated, IsAligned, IsSchedule, UpGemm, DownGemm, AfterLaunch, ForDown;
    ghost var before := cache13[..];
    UpProject(m, xs, ids, weights, al, blk, upSchedule, cache13);
    Activate(m.silu, cache13, cache2, |ids|, m.inter);
    var acts := seq(|ids|, r requires 0 <= r < |ids| reads cache2 => Row(cache2, |ids|, m.inter, r));
    ghost var mid := cache13[..];
    assert forall x: nat | x < |mid| :: mid[x] == AfterLaunch(up, al, before, x);
    assert mid == AfterUp(m, xs, ids, weights, al, before);
    ActsAre(m, cache13, cache2, |ids|, acts);
    label Mid:
    DownProject(m, xs, acts, ids, weights, al, blk, downSchedule, cache13);
    forall r, d | 0 <= r < |ids| && 0 <= d < m.hidden && 0 <= r / m.topK < |xs| && !Written(m, al, r)
      ensures Cell(cache13, |ids|, m.hidden, r, d) == AfterLaunch(up, al, before, Flat(r, m.hidden, d))
    {
      FlatInRange(|ids|, m.hidden, r, d);
      assert Cell(cache13, |ids|, m.hidden, r, d) == old@Mid(Cell(cache13, |ids|, m.hidden, r, d));
      assert old@Mid(Cell(cache13, |ids|, m.hidden, r, d)) == mid[r * m.hidden + d];
    }
  }

  lemma ActsAre(m: Moe, cache1: array<real>, cache2: array<real>, routes: nat, acts: seq<seq<real>>)
    requires Fits(cache1.Length, routes, 2 * m.inter) && Fits(cache2.Length, routes, m.inter)
    requires forall r, i | 0 <= r < routes && 0 <= i < m.inter ::
               Cell(cache2, routes, m.inter, r, i) == Gated(m.silu, m.inter, Row(cache1, routes, 2 * m.inter, r))[i]
    requires |acts| == routes && forall r | 0 <= r < routes :: acts[r] == Row(cache2, routes, m.inter, r)
    ensures acts == ActRows(m, routes, cache1[..])
  {
    hide Cell, Gated, ContentRow, Row;
    forall r | 0 <= r < routes
      ensures acts[r] == ActRows(m, routes, cache1[..])[r]
    {
      RowIsContent(cache1, routes, 2 * m.inter, r);
      assert acts[r] == Gated(m.silu, m.inter, Row(cache1, routes, 2 * m.inter, r));
    }
  }

  /** A token's sum over its cache rows. */
  lemma SummedToken(m: Moe, xs: seq<seq<real>>, ids: seq<int>, weights: seq<real>, al: Alignment, before: seq<real>,
                    cache3: array<real>, t: nat, d: int)
    requires ValidChunk(m, xs, ids, weights) && t < |xs| && 0 <= d < m.hidden && Fits(cache3.Length, |ids|, m.hidden)
    requires al.sorted.Some? ==> al.postPadded <= |al.sorted.value|
    requires forall r | 0 <= r < |ids| && 0 <= r / m.topK < |xs| ::
               Cell(cache3, |ids|, m.hidden, r, d) == RouteCell(m, xs, ids, weights, al, before, r / m.topK, r, d)
    ensures |xs| * m.topK == |ids|
    ensures RouteSum(cache3, |xs|, m.topK, m.hidden, t, d) == ChunkRow(m, xs, ids, weights, al, before, t, d)
  {
    hide Cell, RouteCell, Sum;
    var col := Column(cache3, |ids|, m.hidden, d);
    forall k | 0 <= k < m.topK
      ensures RouteCells(col, t, m.topK)(k) == RowTerm(m, xs, ids, weights, al, before, t, d)(k)
    {
      var r := Flat(t, m.topK, k);
      TokenRoute(t, k, m.topK, |xs|);
      assert col[r] == Cell(cache3, |ids|, m.hidden, r, d);
    }
    SumEq(RouteCells(col, t, m.topK), RowTerm(m, xs, ids, weights, al, before, t, d), 0, m.topK);
  }

  lemma TokenRoute(t: nat, k: nat, topK: nat, tokens: nat)
    requires t < tokens && k < topK
    ensures 0 <= Flat(t, topK, k) < tokens * topK && Flat(t, topK, k) / topK == t
    ensures (t + 1) * topK <= tokens * topK
  {
    FlatInRange(tokens, topK, t, k);
    DivUnique(t * topK + k, topK, t, k);
    MulGe(tokens, t + 1, topK);
  }

  /** The first GEMM into the first cache. Rows of routes that are not local may hold anything. */
  method UpProject(m: Moe, xs: seq<seq<real>>, ids: seq<int>, weights: seq<real>, al: Alignment, blk: Blocks,
                   schedule: int -> seq<int>, cache1: array<real>)
    requires ValidChunk(m, xs, ids, weights) && Positive4(blk) && IsAligned(al, Experts(m, ids), blk.m)
    requires IsSchedule(schedule)
    requires Fits(cache1.Length, |ids|, 2 * m.inter)
    modifies cache1
    ensures forall r | 0 <= r < |ids| && Local(m, ids[r]) != -1 ::
              0 <= r / m.topK < |xs|
              && Row(cache1, |ids|, 2 * m.inter, r) == UpRow(m, xs[r / m.topK], Local(m, ids[r]), weights[r])
    ensures ValidGrouped(UpGemm(m, xs, ids, weights)) && (al.sorted.Some? ==> al.postPadded <= |al.sorted.value|)
    ensures forall x: nat | x < cache1.Length ::
              cache1[x] == AfterLaunch(UpGemm(m, xs, ids, weights), al, old(cache1[..]), x)
  {
    hide Cell, RouteValue, UpRow, LaunchM, LaunchN, Experts, AfterLaunch;
    var up := UpGemm(m, xs, ids, weights);
    assert ValidGrouped(up);
    assert Schedules(schedule(LaunchM(up, al, blk) * LaunchN(up, blk)), LaunchM(up, al, blk) * LaunchN(up, blk));
    LaunchFusedMoe(up, al, blk, schedule(LaunchM(up, al, blk) * LaunchN(up, blk)), cache1);
    forall r | 0 <= r < |ids| && Local(m, ids[r]) != -1
      ensures 0 <= r / m.topK < |xs|
      ensures Row(cache1, |ids|, 2 * m.inter, r) == UpRow(m, xs[r / m.topK], Local(m, ids[r]), weights[r])
    {
      RouteToken(up, r);
      LocalIsPlaced(m, ids, al, blk.m, r);
      forall n | 0 <= n < 2 * m.inter
        ensures Cell(cache1, |ids|, 2 * m.inter, r, n) == UpRow(m, xs[r / m.topK], Local(m, ids[r]), weights[r])[n]
      {
        UpIsUpRow(m, xs, ids, weights, r, n);
      }
    }
  }

  lemma LocalIsPlaced(m: Moe, ids: seq<int>, al: Alignment, bm: nat, r: int)
    requires bm > 0 && IsAligned(al, Experts(m, ids), bm) && 0 <= r < |ids| && Local(m, ids[r]) != -1
    ensures Placed(al, r)
  {
  }

  /** The second GEMM into the third cache, cleared first when some routes may be absent. */
  method DownProject(m: Moe, xs: seq<seq<real>>, acts: seq<seq<real>>, ids: seq<int>, weights: seq<real>,
                     al: Alignment, blk: Blocks, schedule: int -> seq<int>, cache3: array<real>)
    requires ValidChunk(m, xs, ids, weights) && Positive4(blk) && IsAligned(al, Experts(m, ids), blk.m)
    requires IsSchedule(schedule)
    requires Fits(cache3.Length, |ids|, m.hidden) && IsMatrix(acts, |ids|, m.inter)
    requires forall r | 0 <= r < |ids| && Local(m, ids[r]) != -1 ::
               0 <= r / m.topK < |xs|
               && acts[r] == Gated(m.silu, m.inter, UpRow(m, xs[r / m.topK], Local(m, ids[r]), weights[r]))
    modifies cache3
    ensures forall r, d | 0 <= r < |ids| && 0 <= d < m.hidden && 0 <= r / m.topK < |xs| ::
              Written(m, al, r) ==>
                Cell(cache3, |ids|, m.hidden, r, d) == RouteOut(m, xs[r / m.topK], ids, weights, r, d)
    ensures forall r, d | 0 <= r < |ids| && 0 <= d < m.hidden && !Written(m, al, r) ::
              Cell(cache3, |ids|, m.hidden, r, d) == old(Cell(cache3, |ids|, m.hidden, r, d))
    ensures ValidGrouped(DownGemm(m, acts, ids, weights)) && (al.sorted.Some? ==> al.postPadded <= |al.sorted.value|)
    ensures forall x: nat | x < cache3.Length ::
              cache3[x] == AfterLaunch(DownGemm(m, acts, ids, weights), al, ForDown(m, |ids|, old(cache3[..])), x)
  {
    hide Cell, RouteValue, RouteOut, UpRow, Gated, LaunchM, LaunchN, Experts, AfterLaunch;
    if m.expertMap.Some? {
      ZeroFill(cache3, |ids|, m.hidden);
    }
    var down := DownGemm(m, acts, ids, weights);
    assert ValidGrouped(down);
    assert Schedules(schedule(LaunchM(down, al, blk) * LaunchN(down, blk)), LaunchM(down, al, blk) * LaunchN(down, blk));
    LaunchFusedMoe(down, al, blk, schedule(LaunchM(down, al, blk) * LaunchN(down, blk)), cache3);
    forall r, d | 0 <= r < |ids| && 0 <= d < m.hidden && 0 <= r / m.topK < |xs| && Written(m, al, r)
      ensures Cell(cache3, |ids|, m.hidden, r, d) == RouteOut(m, xs[r / m.topK], ids, weights, r, d)
    {
      if Placed(al, r) {
        DownIsExpertOut(m, xs, acts, ids, weights, r, d);
      } else {
        if Local(m, ids[r]) != -1 {
          LocalIsPlaced(m, ids, al, blk.m, r);
        }
        AbsentRoute(m, xs[r / m.topK], ids, weights, r, d);
      }
    }
  }

  lemma AbsentRoute(m: Moe, x: seq<real>, ids: seq<int>, weights: seq<real>, r: int, d: int)
    requires ValidMoe(m) && ValidIds(m, ids) && |weights| == |ids| && |x| == m.hidden && 0 <= d < m.hidden
    requires 0 <= r < |ids| && Local(m, ids[r]) == -1
    ensures RouteOut(m, x, ids, weights, r, d) == 0.0
  {
  }
}
