/**
 The two-kernel fast path for at most four tokens and eight routes each, and the entry points that
 choose between it and the general chunked path. Both compute the routed sum.
 */
module FastPath {
  import opened Options
  import opened Sums
  import opened DivMod
  import opened FlatMatrix
  import opened Gemm
  import opened FusedExperts
  import opened StaleRows
  import opened ExpertChunks
  import opened ExpertLaws
  import opened ExpertsCall

  const TOP_K := 8
  const BLOCK_I := 8
  const W1_BLOCK_H := 128
  const W2_BLOCK_H := 64

  /** The call's settings that the fast path looks at besides the shapes. */
  datatype Settings = Settings(enabled: bool, activationIsSilu: bool, quantised: bool, scalesOrZeroPoints: bool,
                               halfPrecisionContiguous: bool, globalExperts: int)

  predicate Accepts(m: Moe, settings: Settings, T: nat) {
    && settings.enabled
    && settings.activationIsSilu && !m.weightOnInput
    && !settings.quantised && m.expertMap.None?
    && !settings.scalesOrZeroPoints && m.bias1.None? && m.bias2.None?
    && settings.halfPrecisionContiguous && 1 <= T <= 4 && m.topK == TOP_K && m.inter > 0
    && settings.globalExperts in {-1, |m.w1|}
  }

  /** The guards, one by one: at most four tokens of eight routes each, with nothing but plain half-precision experts. */
  predicate FastGuards(m: Moe, settings: Settings, T: nat) {
    && settings.enabled && settings.activationIsSilu && settings.halfPrecisionContiguous
    && !settings.quantised && !settings.scalesOrZeroPoints
    && (settings.globalExperts == -1 || settings.globalExperts == |m.w1|)
    && !m.weightOnInput && m.expertMap.None? && m.bias1.None? && m.bias2.None?
    && (T == 1 || T == 2 || T == 3 || T == 4) && m.topK == 8 && m.inter != 0
  }

  /** Rows `first..first+size` of a matrix, zero rows past `limit`. */
  function LoadRows(w: seq<seq<real>>, first: nat, size: nat, offset: nat, limit: nat, K: nat): (rows: seq<seq<real>>)
    requires offset + limit <= |w| && forall i | 0 <= i < |w| :: |w[i]| == K
    ensures |rows| == size
    ensures forall j | 0 <= j < size :: |rows[j]| == K
    ensures forall j | 0 <= j < size && first + j < limit :: rows[j] == w[offset + first + j]
  {
    seq(size, j requires 0 <= j => if first + j < limit then w[offset + first + j] else seq(K, k => 0.0))
  }

  ghost predicate ValidCall(m: Moe, xs: seq<seq<real>>, ids: seq<int>, weights: seq<real>) {
    && ValidChunk(m, xs, ids, weights) && !m.weightOnInput && m.expertMap.None?
    && m.bias1.None? && m.bias2.None? && AllNamed(ids)
  }

  /** The kernels index the experts by the ids as they are. */
  ghost predicate AllNamed(ids: seq<int>) {
    forall r | 0 <= r < |ids| :: ids[r] != -1
  }

  /** The activation row of route `r`. */
  function ActRow(m: Moe, xs: seq<seq<real>>, ids: seq<int>, weights: seq<real>, r: int): (row: seq<real>)
    requires ValidCall(m, xs, ids, weights) && 0 <= r < |ids|
    ensures |row| == m.inter
  {
    RouteInBatch(m, xs, ids, weights, r);
    Gated(m.silu, m.inter, UpRow(m, xs[r / m.topK], ids[r], weights[r]))
  }

  lemma RouteInBatch(m: Moe, xs: seq<seq<real>>, ids: seq<int>, weights: seq<real>, r: int)
    requires ValidChunk(m, xs, ids, weights) && 0 <= r < |ids|
    ensures 0 <= r / m.topK < |xs|
  {
    DivAtLeast(r, m.topK, 0);
    DivAtLeast(r, m.topK, |xs|);
  }

  function PrescribedAct(m: Moe, xs: seq<seq<real>>, ids: seq<int>, weights: seq<real>): (int, int) -> real
    requires ValidCall(m, xs, ids, weights)
  {
    (r, i) => if 0 <= r < |ids| && 0 <= i < m.inter then ActRow(m, xs, ids, weights, r)[i] else 0.0
  }

  /** The route of slot `k` of token `t`. */
  lemma SlotInBatch(m: Moe, xs: seq<seq<real>>, ids: seq<int>, weights: seq<real>, t: int, k: int)
    requires ValidChunk(m, xs, ids, weights) && 0 <= t < |xs| && 0 <= k < m.topK
    ensures 0 <= t * m.topK + k < |ids| && (t * m.topK + k) / m.topK == t
  {
    MulGe(|xs|, t + 1, m.topK);
    MulGe(t, 0, m.topK);
    assert (t + 1) * m.topK == t * m.topK + m.topK;
    DivUnique(t * m.topK + k, m.topK, t, k);
  }

  lemma GatedLane(m: Moe, x: seq<real>, e: int, i: int)
    requires ValidMoe(m) && !m.weightOnInput && m.bias1.None? && 0 <= e < |m.w1| && |x| == m.hidden && 0 <= i < m.inter
    ensures Gated(m.silu, m.inter, UpRow(m, x, e, 1.0))[i]
         == Times(m.silu(RowDot(x, m.w1[e][i])), RowDot(x, m.w1[e][m.inter + i]))
  {
    hide RowDot, Times;
  }

  /** Gate and up projections of eight activation lanes of one route, and their gated product. */
  method W1ActLanes(m: Moe, x: seq<real>, e: int, first: nat) returns (lanes: seq<real>)
    requires ValidMoe(m) && !m.weightOnInput && m.bias1.None? && 0 <= e < |m.w1| && |x| == m.hidden
    ensures |lanes| == BLOCK_I
    ensures forall j | 0 <= j < BLOCK_I && first + j < m.inter ::
              lanes[j] == Gated(m.silu, m.inter, UpRow(m, x, e, 1.0))[first + j]
  {
    hide RowDot, Times, Gated, UpRow;
    var wg := LoadRows(m.w1[e], first, BLOCK_I, 0, m.inter, m.hidden);
    var wu := LoadRows(m.w1[e], first, BLOCK_I, m.inter, m.inter, m.hidden);
    var gate := KLoop([x], wg, m.hidden, W1_BLOCK_H);
    var up := KLoop([x], wu, m.hidden, W1_BLOCK_H);
    lanes := seq(BLOCK_I, j requires 0 <= j < BLOCK_I => Times(m.silu(gate[0][j]), up[0][j]));
    forall j | 0 <= j < BLOCK_I && first + j < m.inter
      ensures lanes[j] == Gated(m.silu, m.inter, UpRow(m, x, e, 1.0))[first + j]
    {
      GatedLane(m, x, e, first + j);
      assert wg[j] == m.w1[e][first + j] && wu[j] == m.w1[e][m.inter + (first + j)];
    }
  }

  /** Without weights on the input the projections do not depend on the routed weight. */
  lemma UpRowUnweighted(m: Moe, x: seq<real>, e: int, weight: real)
    requires ValidMoe(m) && !m.weightOnInput && 0 <= e < |m.w1| && |x| == m.hidden
    ensures UpRow(m, x, e, weight) == UpRow(m, x, e, 1.0)
  {
  }

  /** The cells a program of the first kernel is the only one to store. */
  predicate InW1Tile(topK: nat, r: int, i: int, pid: (int, int, int))
    requires topK > 0
  {
    r / topK == pid.0 && r % topK == pid.1 && i / BLOCK_I == pid.2
  }

  ghost predicate InW1Grid(m: Moe, T: nat, pid: (int, int, int)) {
    0 <= pid.0 < T && 0 <= pid.1 < m.topK && 0 <= pid.2 < CeilDiv(m.inter, BLOCK_I)
  }

  ghost predicate CoversW1(m: Moe, T: nat, order: seq<(int, int, int)>) {
    && (forall n | 0 <= n < |order| :: InW1Grid(m, T, order[n]))
    && (forall pid | InW1Grid(m, T, pid) :: pid in order)
  }

  /** One program of the first kernel: token, route slot and block of eight activation lanes. */
  method W1ActProgram(m: Moe, xs: seq<seq<real>>, ids: seq<int>, weights: seq<real>, pid: (int, int, int), act: array<real>)
    requires ValidCall(m, xs, ids, weights) && Fits(act.Length, |ids|, m.inter) && InW1Grid(m, |xs|, pid)
    modifies act
    ensures OnlyPrescribed(act, |ids|, m.inter, PrescribedAct(m, xs, ids, weights))
    ensures forall r, i | 0 <= r < |ids| && 0 <= i < m.inter && InW1Tile(m.topK, r, i, pid) ::
              Holds(act, |ids|, m.inter, PrescribedAct(m, xs, ids, weights), r, i)
  {
    hide Cell, Gated, UpRow, CeilDiv;
    var (t, k, pidI) := pid;
    SlotInBatch(m, xs, ids, weights, t, k);
    var r := t * m.topK + k;
    assert Local(m, ids[r]) == ids[r];
    var first := pidI * BLOCK_I;
    UpRowUnweighted(m, xs[t], ids[r], weights[r]);
    var lanes := W1ActLanes(m, xs[t], ids[r], first);
    forall j | 0 <= j < |lanes| && first + j < m.inter
      ensures lanes[j] == PrescribedAct(m, xs, ids, weights)(r, first + j)
    {
      assert ActRow(m, xs, ids, weights, r) == Gated(m.silu, m.inter, UpRow(m, xs[t], ids[r], 1.0));
    }
    StoreLanes(act, |ids|, m.inter, r, first, lanes, PrescribedAct(m, xs, ids, weights));
    forall r', i | 0 <= r' < |ids| && 0 <= i < m.inter && InW1Tile(m.topK, r', i, pid)
      ensures r' == r && first <= i < first + |lanes|
    {
      SameSlot(r', m.topK, t, k);
    }
  }

  lemma SameSlot(r: int, topK: nat, t: int, k: int)
    requires topK > 0 && r / topK == t && r % topK == k
    ensures r == t * topK + k
  {
  }

  /** The first kernel, in any order of its programs. */
  method LaunchW1Act(m: Moe, xs: seq<seq<real>>, ids: seq<int>, weights: seq<real>, order: seq<(int, int, int)>, act: array<real>)
    requires ValidCall(m, xs, ids, weights) && Fits(act.Length, |ids|, m.inter) && CoversW1(m, |xs|, order)
    modifies act
    ensures forall r | 0 <= r < |ids| :: Row(act, |ids|, m.inter, r) == ActRow(m, xs, ids, weights, r)
  {
    hide Cell, ActRow, InW1Tile, CeilDiv;
    ghost var g := PrescribedAct(m, xs, ids, weights);
    for n := 0 to |order|
      invariant forall r, i, p | 0 <= r < |ids| && 0 <= i < m.inter && 0 <= p < n && InW1Tile(m.topK, r, i, order[p]) ::
                  Holds(act, |ids|, m.inter, g, r, i)
    {
      label Before:
      W1ActProgram(m, xs, ids, weights, order[n], act);
      forall r, i, p | 0 <= r < |ids| && 0 <= i < m.inter && 0 <= p < n && InW1Tile(m.topK, r, i, order[p])
        ensures Holds(act, |ids|, m.inter, g, r, i)
      {
        assert old@Before(Holds(act, |ids|, m.inter, g, r, i));
      }
    }
    forall r, i | 0 <= r < |ids| && 0 <= i < m.inter
      ensures Cell(act, |ids|, m.inter, r, i) == ActRow(m, xs, ids, weights, r)[i]
    {
      W1Home(m, xs, ids, weights, r, i);
      var pid := (r / m.topK, r % m.topK, i / BLOCK_I);
      assert pid in order;
      var p :| 0 <= p < |order| && order[p] == pid;
      assert InW1Tile(m.topK, r, i, order[p]);
      assert Holds(act, |ids|, m.inter, g, r, i);
    }
  }

  lemma W1Home(m: Moe, xs: seq<seq<real>>, ids: seq<int>, weights: seq<real>, r: int, i: int)
    requires ValidChunk(m, xs, ids, weights) && 0 <= r < |ids| && 0 <= i < m.inter
    ensures InW1Grid(m, |xs|, (r / m.topK, r % m.topK, i / BLOCK_I))
    ensures InW1Tile(m.topK, r, i, (r / m.topK, r % m.topK, i / BLOCK_I))
  {
    RouteInBatch(m, xs, ids, weights, r);
  }

  // ---------------------------------------------------------------- the reducing kernel

  /** Contributions of the first `k` routes of token `t` to output coordinate `d`. */
  function PartialOut(m: Moe, xs: seq<seq<real>>, ids: seq<int>, weights: seq<real>, t: int, k: int, d: int): real
    requires ValidChunk(m, xs, ids, weights) && 0 <= t < |xs| && 0 <= d < m.hidden
  {
    Sum(RouteOuts(m, xs[t], ids, weights, t * m.topK, d), 0, k)
  }

  function PrescribedOut(m: Moe, xs: seq<seq<real>>, ids: seq<int>, weights: seq<real>): (int, int) -> real
    requires ValidChunk(m, xs, ids, weights)
  {
    (t, d) => if 0 <= t < |xs| && 0 <= d < m.hidden then PartialOut(m, xs, ids, weights, t, m.topK, d) else 0.0
  }

  /** One weighted expert output, from the stored activation row. */
  lemma WeightedExpert(m: Moe, xs: seq<seq<real>>, ids: seq<int>, weights: seq<real>, t: int, k: int, d: int)
    requires ValidCall(m, xs, ids, weights) && 0 <= t < |xs| && 0 <= k < m.topK && 0 <= d < m.hidden
    ensures 0 <= t * m.topK + k < |ids|
    ensures Times(RowDot(ActRow(m, xs, ids, weights, t * m.topK + k), m.w2[ids[t * m.topK + k]][d]),
                  weights[t * m.topK + k])
         == RouteOut(m, xs[t], ids, weights, t * m.topK + k, d)
  {
    hide RowDot, Gated, UpRow;
    SlotInBatch(m, xs, ids, weights, t, k);
  }

  lemma PartialNone(m: Moe, xs: seq<seq<real>>, ids: seq<int>, weights: seq<real>, t: int)
    requires ValidChunk(m, xs, ids, weights) && 0 <= t < |xs|
    ensures forall d | 0 <= d < m.hidden :: PartialOut(m, xs, ids, weights, t, 0, d) == 0.0
  {
  }

  lemma PartialStep(m: Moe, xs: seq<seq<real>>, ids: seq<int>, weights: seq<real>, t: int, k: int, d: int)
    requires ValidChunk(m, xs, ids, weights) && 0 <= t < |xs| && 0 <= k < m.topK && 0 <= d < m.hidden
    ensures PartialOut(m, xs, ids, weights, t, k + 1, d)
         == PartialOut(m, xs, ids, weights, t, k, d) + RouteOut(m, xs[t], ids, weights, t * m.topK + k, d)
  {
    hide RouteOut;
    SumLast(RouteOuts(m, xs[t], ids, weights, t * m.topK, d), 0, k + 1);
  }

  /** 64 output lanes of one token: its routes' weighted expert outputs, added up in order. */
  method W2ReduceLanes(m: Moe, xs: seq<seq<real>>, ids: seq<int>, weights: seq<real>, t: int, first: nat,
                       acts: seq<seq<real>>) returns (acc: seq<real>)
    requires ValidCall(m, xs, ids, weights) && 0 <= t < |xs| && |acts| == |ids|
    requires forall r | 0 <= r < |ids| :: acts[r] == ActRow(m, xs, ids, weights, r)
    ensures |acc| == W2_BLOCK_H
    ensures forall j | 0 <= j < W2_BLOCK_H && first + j < m.hidden ::
              acc[j] == PartialOut(m, xs, ids, weights, t, m.topK, first + j)
  {
    hide RowDot, ActRow, RouteOut, PartialOut;
    acc := seq(W2_BLOCK_H, j => 0.0);
    PartialNone(m, xs, ids, weights, t);
    for k := 0 to m.topK
      invariant |acc| == W2_BLOCK_H
      invariant forall j | 0 <= j < W2_BLOCK_H && first + j < m.hidden ::
                  acc[j] == PartialOut(m, xs, ids, weights, t, k, first + j)
    {
      var expertAcc := ExpertLanes(m, xs, ids, weights, t, k, first, acts);
      forall j | 0 <= j < W2_BLOCK_H && first + j < m.hidden
        ensures acc[j] + expertAcc[j] == PartialOut(m, xs, ids, weights, t, k + 1, first + j)
      {
        PartialStep(m, xs, ids, weights, t, k, first + j);
      }
      acc := seq(W2_BLOCK_H, j requires 0 <= j < W2_BLOCK_H => acc[j] + expertAcc[j]);
    }
  }

  method ExpertLanes(m: Moe, xs: seq<seq<real>>, ids: seq<int>, weights: seq<real>, t: int, k: int, first: nat,
                     acts: seq<seq<real>>) returns (lanes: seq<real>)
    requires ValidCall(m, xs, ids, weights) && 0 <= t < |xs| && 0 <= k < m.topK && |acts| == |ids|
    requires forall r | 0 <= r < |ids| :: acts[r] == ActRow(m, xs, ids, weights, r)
    ensures |lanes| == W2_BLOCK_H
    ensures forall j | 0 <= j < W2_BLOCK_H && first + j < m.hidden ::
              lanes[j] == RouteOut(m, xs[t], ids, weights, t * m.topK + k, first + j)
  {
    hide RowDot, ActRow, RouteOut;
    SlotInBatch(m, xs, ids, weights, t, k);
    var r := t * m.topK + k;
    assert Local(m, ids[r]) == ids[r];
    var ww := LoadRows(m.w2[ids[r]], first, W2_BLOCK_H, 0, m.hidden, m.inter);
    var expertAcc := KLoop([acts[r]], ww, m.inter, BLOCK_I);
    lanes := seq(W2_BLOCK_H, j requires 0 <= j < W2_BLOCK_H => Times(expertAcc[0][j], weights[r]));
    forall j | 0 <= j < W2_BLOCK_H && first + j < m.hidden
      ensures lanes[j] == RouteOut(m, xs[t], ids, weights, r, first + j)
    {
      WeightedExpert(m, xs, ids, weights, t, k, first + j);
      assert ww[j] == m.w2[ids[r]][first + j];
      assert expertAcc[0][j] == RowDot(acts[r], ww[j]);
    }
  }

  ghost predicate InW2Grid(m: Moe, T: nat, pid: (int, int)) {
    0 <= pid.0 < T && 0 <= pid.1 < CeilDiv(m.hidden, W2_BLOCK_H)
  }

  ghost predicate CoversW2(m: Moe, T: nat, order: seq<(int, int)>) {
    && (forall n | 0 <= n < |order| :: InW2Grid(m, T, order[n]))
    && (forall pid | InW2Grid(m, T, pid) :: pid in order)
  }

  predicate InW2Tile(t: int, d: int, pid: (int, int)) {
    t == pid.0 && d / W2_BLOCK_H == pid.1
  }

  /** One program of the second kernel: token and block of 64 output lanes. */
  method W2ReduceProgram(m: Moe, xs: seq<seq<real>>, ids: seq<int>, weights: seq<real>, pid: (int, int),
                         acts: seq<seq<real>>, y: array<real>)
    requires ValidCall(m, xs, ids, weights) && Fits(y.Length, |xs|, m.hidden) && |acts| == |ids| && InW2Grid(m, |xs|, pid)
    requires forall r | 0 <= r < |ids| :: acts[r] == ActRow(m, xs, ids, weights, r)
    modifies y
    ensures OnlyPrescribed(y, |xs|, m.hidden, PrescribedOut(m, xs, ids, weights))
    ensures forall t, d | 0 <= t < |xs| && 0 <= d < m.hidden && InW2Tile(t, d, pid) ::
              Holds(y, |xs|, m.hidden, PrescribedOut(m, xs, ids, weights), t, d)
  {
    hide Cell, ActRow, PartialOut, CeilDiv;
    var acc := W2ReduceLanes(m, xs, ids, weights, pid.0, pid.1 * W2_BLOCK_H, acts);
    StoreLanes(y, |xs|, m.hidden, pid.0, pid.1 * W2_BLOCK_H, acc, PrescribedOut(m, xs, ids, weights));
  }

  /** The second kernel, in any order of its programs. */
  method LaunchW2Reduce(m: Moe, xs: seq<seq<real>>, ids: seq<int>, weights: seq<real>, order: seq<(int, int)>,
                        act: array<real>, y: array<real>)
    requires ValidCall(m, xs, ids, weights) && Fits(act.Length, |ids|, m.inter) && Fits(y.Length, |xs|, m.hidden)
    requires forall r | 0 <= r < |ids| :: Row(act, |ids|, m.inter, r) == ActRow(m, xs, ids, weights, r)
    requires y != act && CoversW2(m, |xs|, order)
    modifies y
    ensures forall t | 0 <= t < |xs| :: TokenDone(m, xs, ids, weights, y, t)
  {
    hide Cell, ActRow, PartialOut, InW2Tile, CeilDiv;
    var acts := Rows(act, |ids|, m.inter);
    ghost var g := PrescribedOut(m, xs, ids, weights);
    for n := 0 to |order|
      invariant forall t, d, p | 0 <= t < |xs| && 0 <= d < m.hidden && 0 <= p < n && InW2Tile(t, d, order[p]) ::
                  Holds(y, |xs|, m.hidden, g, t, d)
    {
      label Before:
      W2ReduceProgram(m, xs, ids, weights, order[n], acts, y);
      forall t, d, p | 0 <= t < |xs| && 0 <= d < m.hidden && 0 <= p < n && InW2Tile(t, d, order[p])
        ensures Holds(y, |xs|, m.hidden, g, t, d)
      {
        assert old@Before(Holds(y, |xs|, m.hidden, g, t, d));
      }
    }
    forall t | 0 <= t < |xs|
      ensures TokenDone(m, xs, ids, weights, y, t)
    {
      forall d | 0 <= d < m.hidden
        ensures (t + 1) * m.topK <= |ids|
        ensures Cell(y, |xs|, m.hidden, t, d) == TokenOut(m, xs[t], ids, weights, t, d)
      {
        W2Home(m, |xs|, t, d);
        assert (t, d / W2_BLOCK_H) in order;
        var p :| 0 <= p < |order| && order[p] == (t, d / W2_BLOCK_H);
        assert InW2Tile(t, d, order[p]);
        assert Holds(y, |xs|, m.hidden, g, t, d);
        AllRoutes(m, xs, ids, weights, t, d);
      }
      MulGe(|xs|, t + 1, m.topK);
    }
  }

  lemma W2Home(m: Moe, T: nat, t: int, d: int)
    requires 0 <= t < T && 0 <= d < m.hidden
    ensures InW2Grid(m, T, (t, d / W2_BLOCK_H)) && InW2Tile(t, d, (t, d / W2_BLOCK_H))
  {
  }

  lemma AllRoutes(m: Moe, xs: seq<seq<real>>, ids: seq<int>, weights: seq<real>, t: int, d: int)
    requires ValidChunk(m, xs, ids, weights) && 0 <= t < |xs| && 0 <= d < m.hidden
    ensures (t + 1) * m.topK <= |ids|
    ensures PartialOut(m, xs, ids, weights, t, m.topK, d) == TokenOut(m, xs[t], ids, weights, t, d)
  {
    hide RouteOut;
    MulGe(|xs|, t + 1, m.topK);
  }

  // ---------------------------------------------------------------- ids that name no expert

  /** What the memory in front of the first expert's matrices holds, read as two matrices. */
  datatype Stray = Stray(w1: seq<seq<real>>, w2: seq<seq<real>>)

  ghost predicate ValidStray(m: Moe, stray: Stray) {
    IsMatrix(stray.w1, 2 * m.inter, m.hidden) && IsMatrix(stray.w2, m.hidden, m.inter)
  }

  /** The experts as the kernels address them, from id -1 on: they do not check the id. */
  function Addressed(m: Moe, stray: Stray): Moe {
    m.(w1 := [stray.w1] + m.w1, w2 := [stray.w2] + m.w2)
  }

  function Shifted(ids: seq<int>): (s: seq<int>)
    ensures |s| == |ids| && forall r | 0 <= r < |ids| :: s[r] == ids[r] + 1
  {
    seq(|ids|, r requires 0 <= r < |ids| => ids[r] + 1)
  }

  ghost predicate FastCall(m: Moe, xs: seq<seq<real>>, ids: seq<int>, weights: seq<real>, stray: Stray) {
    && ValidChunk(m, xs, ids, weights) && !m.weightOnInput && m.expertMap.None?
    && m.bias1.None? && m.bias2.None? && ValidStray(m, stray)
  }

  lemma AddressedCall(m: Moe, xs: seq<seq<real>>, ids: seq<int>, weights: seq<real>, stray: Stray)
    requires FastCall(m, xs, ids, weights, stray)
    ensures ValidCall(Addressed(m, stray), xs, Shifted(ids), weights)
  {
  }

  /** The fast path's cell: the routed sum with the stray matrices in the place of a missing expert. */
  function FastCell(m: Moe, xs: seq<seq<real>>, ids: seq<int>, weights: seq<real>, stray: Stray, t: nat, d: int): real
    requires FastCall(m, xs, ids, weights, stray) && t < |xs| && 0 <= d < m.hidden
  {
    AddressedCall(m, xs, ids, weights, stray);
    TokenRoute(t, 0, m.topK, |xs|);
    TokenOut(Addressed(m, stray), xs[t], Shifted(ids), weights, t, d)
  }

  /** A route that names an expert gets that expert's output. */
  lemma AddressedRoute(m: Moe, xs: seq<seq<real>>, ids: seq<int>, weights: seq<real>, stray: Stray, t: nat, r: nat, d: int)
    requires FastCall(m, xs, ids, weights, stray) && t < |xs| && r < |ids| && 0 <= d < m.hidden && ids[r] != -1
    ensures ValidCall(Addressed(m, stray), xs, Shifted(ids), weights)
    ensures RouteOut(Addressed(m, stray), xs[t], Shifted(ids), weights, r, d) == RouteOut(m, xs[t], ids, weights, r, d)
  {
    AddressedCall(m, xs, ids, weights, stray);
    var a := Addressed(m, stray);
    hide RowDot;
    assert a.w1[ids[r] + 1] == m.w1[ids[r]] && a.w2[ids[r] + 1] == m.w2[ids[r]];
    assert UpRow(a, xs[t], ids[r] + 1, weights[r]) == UpRow(m, xs[t], ids[r], weights[r]);
  }

  /** A token that names an expert in every slot gets its routed sum on the fast path, as on the general one. */
  lemma FastCellRight(m: Moe, xs: seq<seq<real>>, ids: seq<int>, weights: seq<real>, stray: Stray, t: nat, d: int)
    requires FastCall(m, xs, ids, weights, stray) && t < |xs| && 0 <= d < m.hidden && NamesExperts(m.topK, ids, t)
    ensures (t + 1) * m.topK <= |ids|
    ensures FastCell(m, xs, ids, weights, stray, t, d) == TokenOut(m, xs[t], ids, weights, t, d)
  {
    AddressedCall(m, xs, ids, weights, stray);
    TokenRoute(t, 0, m.topK, |xs|);
    var a := Addressed(m, stray);
    hide RouteOut, ValidMoe;
    forall k | 0 <= k < m.topK
      ensures RouteOuts(a, xs[t], Shifted(ids), weights, t * m.topK, d)(k) == RouteOuts(m, xs[t], ids, weights, t * m.topK, d)(k)
    {
      TokenRoute(t, k, m.topK, |xs|);
      AddressedRoute(m, xs, ids, weights, stray, t, t * m.topK + k, d);
    }
    SumEq(RouteOuts(a, xs[t], Shifted(ids), weights, t * m.topK, d), RouteOuts(m, xs[t], ids, weights, t * m.topK, d), 0, m.topK);
  }

  // ---------------------------------------------------------------- the entry points

  /** The orders in which the fast path's programs run, and the memory in front of the experts. */
  datatype FastRun = FastRun(w1Order: seq<(int, int, int)>, w2Order: seq<(int, int)>, stray: Stray)

  ghost predicate ValidRun(m: Moe, T: nat, run: FastRun) {
    CoversW1(m, T, run.w1Order) && CoversW2(m, T, run.w2Order) && ValidStray(m, run.stray)
  }

  /**
   Returns the fast path's output when its guards hold, and nothing otherwise. The guards do not look
   at the ids: a token that names an expert in every slot gets its routed sum, and for any other token
   the missing expert's matrices are whatever memory holds there.
   */
  method TryFastPath(m: Moe, settings: Settings, hidden: array<real>, T: nat, ids: seq<int>, weights: seq<real>, run: FastRun)
    returns (out: array?<real>)
    requires ValidMoe(m) && ValidIds(m, ids) && |ids| == |weights| == T * m.topK && Fits(hidden.Length, T, m.hidden)
    requires ValidRun(m, T, run)
    ensures out != null <==> FastGuards(m, settings, T)
    ensures out != null ==> fresh(out) && out.Length == T * m.hidden && FastCall(m, Rows(hidden, T, m.hidden), ids, weights, run.stray)
    ensures out != null ==> forall t: nat, d | t < T && 0 <= d < m.hidden ::
              Cell(out, T, m.hidden, t, d) == FastCell(m, Rows(hidden, T, m.hidden), ids, weights, run.stray, t, d)
    ensures out != null ==> forall t: nat | t < T && NamesExperts(m.topK, ids, t) ::
              TokenDone(m, Rows(hidden, T, m.hidden), ids, weights, out, t)
  {
    if !Accepts(m, settings, T) {
      return null;
    }
    var xs := Rows(hidden, T, m.hidden);
    assert FastCall(m, xs, ids, weights, run.stray);
    AddressedCall(m, xs, ids, weights, run.stray);
    hide Cell, TokenOut, ValidMoe, CeilDiv;
    var seen, shifted := Addressed(m, run.stray), Shifted(ids);
    var act := new real[T * m.topK * m.inter];
    var y := new real[T * m.hidden];
    LaunchW1Act(seen, xs, shifted, weights, run.w1Order, act);
    LaunchW2Reduce(seen, xs, shifted, weights, run.w2Order, act, y);
    assert forall t: nat | t < T :: TokenDone(seen, xs, shifted, weights, y, t);
    forall t: nat, d | t < T && 0 <= d < m.hidden
      ensures Cell(y, T, m.hidden, t, d) == FastCell(m, xs, ids, weights, run.stray, t, d)
    {
      assert TokenDone(seen, xs, shifted, weights, y, t);
    }
    forall t: nat | t < T && NamesExperts(m.topK, ids, t)
      ensures TokenDone(m, xs, ids, weights, y, t)
    {
      TokenRoute(t, 0, m.topK, T);
      forall d | 0 <= d < m.hidden
        ensures Cell(y, T, m.hidden, t, d) == TokenOut(m, xs[t], ids, weights, t, d)
      {
        FastCellRight(m, xs, ids, weights, run.stray, t, d);
      }
    }
    out := y;
  }

  /** The tokens that an entry point is sure to get right: the naive layout helps only off the fast path. */
  ghost predicate SureRight(m: Moe, settings: Settings, T: nat, ids: seq<int>, plan: Plan, t: nat)
    requires m.topK > 0 && plan.chunkSize > 0 && t < T
  {
    Settles(m, ids, t) || (!Accepts(m, settings, T) && OwnNaive(m, T, plan, t))
  }

  /** What an entry point stores for token `t`: the fast path's cell if its guards hold, else the general path's. */
  function EntryCell(m: Moe, settings: Settings, b: Batch, plan: Plan, run: FastRun, memory: nat -> real, t: nat, d: int): real
    requires ValidBatch(m, b) && ValidPlan(plan) && ValidStray(m, run.stray) && t < |b.xs| && 0 <= d < m.hidden
  {
    if Accepts(m, settings, |b.xs|) then FastCell(m, b.xs, b.ids, b.weights, run.stray, t, d)
    else CallCell(m, b, plan, Scratch(m, |b.xs|, plan, memory), t, d)
  }

  /** Row `t` of the output is what the entry point stores. */
  ghost predicate EntryStored(m: Moe, settings: Settings, b: Batch, plan: Plan, run: FastRun, memory: nat -> real,
                              out: array<real>, t: nat)
    requires ValidBatch(m, b) && ValidPlan(plan) && ValidStray(m, run.stray) && t < |b.xs|
    requires Fits(out.Length, |b.xs|, m.hidden)
    reads out
  {
    forall d | 0 <= d < m.hidden :: Cell(out, |b.xs|, m.hidden, t, d) == EntryCell(m, settings, b, plan, run, memory, t, d)
  }

  /**
   The in-place entry point: afterwards every row is a function of the call and of the memory it meets,
   and it is its token's routed sum when that is sure, on either path.
   */
  method InplaceFusedExperts(m: Moe, settings: Settings, hidden: array<real>, T: nat, ids: seq<int>, weights: seq<real>,
                             plan: Plan, run: FastRun, memory: nat -> real)
    requires ValidMoe(m) && ValidIds(m, ids) && |ids| == |weights| == T * m.topK
    requires hidden.Length == T * m.hidden && ValidPlan(plan) && ValidRun(m, T, run)
    modifies hidden
    ensures forall t: nat | t < T ::
              EntryStored(m, settings, Batch(old(Rows(hidden, T, m.hidden)), ids, weights), plan, run, memory, hidden, t)
    ensures forall t: nat | t < T && SureRight(m, settings, T, ids, plan, t) ::
              TokenDone(m, old(Rows(hidden, T, m.hidden)), ids, weights, hidden, t)
    ensures forall t: nat | t < T && (m.expertMap.Some? || NamesExperts(m.topK, ids, t)
                                      || (!FastGuards(m, settings, T) && OwnNaive(m, T, plan, t))) ::
              RoutedRow(m, old(hidden[..]), ids, weights, hidden[..], t)
  {
    ghost var input := hidden[..];
    RowsAreInput(hidden, T, m.hidden);
    SureMeans(m, settings, T, ids, plan);
    assert m.topK > 0 && plan.chunkSize > 0;
    hide Cell, TokenOut, FastCell, CallCell, TokenDone, EntryStored, SureRight, ValidMoe, ValidIds, ValidPlan, NamesExperts,
      OwnNaive, FastGuards, Accepts, RoutedRow, InputRow;
    ghost var b := Batch(Rows(hidden, T, m.hidden), ids, weights);
    var fast := TryFastPath(m, settings, hidden, T, ids, weights, run);
    assert Rows(hidden, T, m.hidden) == b.xs;
    if fast != null {
      forall i | 0 <= i < hidden.Length {
        hidden[i] := fast[i];
      }
      assert hidden[..] == fast[..];
      forall t: nat | t < T
        ensures EntryStored(m, settings, b, plan, run, memory, hidden, t)
        ensures SureRight(m, settings, T, ids, plan, t) ==> TokenDone(m, b.xs, ids, weights, hidden, t)
        ensures SureRight(m, settings, T, ids, plan, t) ==> RoutedRow(m, input, ids, weights, hidden[..], t)
      {
        FastIsEntry(m, settings, b, plan, run, memory, fast, hidden, t);
        SureIsRouted(m, settings, b, plan, input, hidden, t);
      }
      return;
    }
    var out := FusedExpertsImpl(m, hidden, T, ids, weights, true, plan, memory);
    forall t: nat | t < T
      ensures EntryStored(m, settings, b, plan, run, memory, hidden, t)
      ensures SureRight(m, settings, T, ids, plan, t) ==> TokenDone(m, b.xs, ids, weights, hidden, t)
      ensures SureRight(m, settings, T, ids, plan, t) ==> RoutedRow(m, input, ids, weights, hidden[..], t)
    {
      GeneralIsEntry(m, settings, b, plan, run, memory, hidden, t);
      SureIsRouted(m, settings, b, plan, input, hidden, t);
    }
  }

  lemma SureMeans(m: Moe, settings: Settings, T: nat, ids: seq<int>, plan: Plan)
    requires m.topK > 0 && plan.chunkSize > 0
    ensures Accepts(m, settings, T) <==> FastGuards(m, settings, T)
    ensures forall t: nat | t < T :: SureRight(m, settings, T, ids, plan, t) <==>
              m.expertMap.Some? || NamesExperts(m.topK, ids, t) || (!FastGuards(m, settings, T) && OwnNaive(m, T, plan, t))
  {
    hide NamesExperts, OwnNaive;
  }

  lemma SureIsRouted(m: Moe, settings: Settings, b: Batch, plan: Plan, input: seq<real>, out: array<real>, t: nat)
    requires ValidBatch(m, b) && ValidPlan(plan) && t < |b.xs| && Fits(out.Length, |b.xs|, m.hidden)
    requires SureRight(m, settings, |b.xs|, b.ids, plan, t) ==> TokenDone(m, b.xs, b.ids, b.weights, out, t)
    requires b.xs[t] == InputRow(input, t, m.hidden)
    ensures SureRight(m, settings, |b.xs|, b.ids, plan, t) ==> RoutedRow(m, input, b.ids, b.weights, out[..], t)
  {
    if SureRight(m, settings, |b.xs|, b.ids, plan, t) {
      DoneIsRouted(m, b.xs, input, b.ids, b.weights, out, t);
    }
  }

  /** What the fast path left in `fast`, copied to `out`, is what the entry point promises. */
  lemma FastIsEntry(m: Moe, settings: Settings, b: Batch, plan: Plan, run: FastRun, memory: nat -> real,
                    fast: array<real>, out: array<real>, t: nat)
    requires ValidBatch(m, b) && ValidPlan(plan) && t < |b.xs| && Fits(out.Length, |b.xs|, m.hidden) && out[..] == fast[..]
    requires Accepts(m, settings, |b.xs|) && FastCall(m, b.xs, b.ids, b.weights, run.stray)
    requires forall d | 0 <= d < m.hidden ::
               Cell(fast, |b.xs|, m.hidden, t, d) == FastCell(m, b.xs, b.ids, b.weights, run.stray, t, d)
    ensures EntryStored(m, settings, b, plan, run, memory, out, t)
    ensures SureRight(m, settings, |b.xs|, b.ids, plan, t) ==> TokenDone(m, b.xs, b.ids, b.weights, out, t)
  {
    assert m.topK > 0 && plan.chunkSize > 0;
    hide TokenOut, FastCell, CallCell, ValidMoe, ValidIds, ValidPlan, NamesExperts, OwnNaive, Accepts;
    forall d | 0 <= d < m.hidden
      ensures Cell(out, |b.xs|, m.hidden, t, d) == Cell(fast, |b.xs|, m.hidden, t, d)
    {
      FlatInRange(|b.xs|, m.hidden, t, d);
      assert out[..][t * m.hidden + d] == fast[..][t * m.hidden + d];
    }
    hide Cell;
    if SureRight(m, settings, |b.xs|, b.ids, plan, t) {
      RoutesEnd(m.topK, |b.xs|, t);
      forall d | 0 <= d < m.hidden
        ensures Cell(out, |b.xs|, m.hidden, t, d) == TokenOut(m, b.xs[t], b.ids, b.weights, t, d)
      {
        FastCellRight(m, b.xs, b.ids, b.weights, run.stray, t, d);
      }
    }
  }

  lemma GeneralIsEntry(m: Moe, settings: Settings, b: Batch, plan: Plan, run: FastRun, memory: nat -> real, out: array<real>, t: nat)
    requires ValidBatch(m, b) && ValidPlan(plan) && ValidStray(m, run.stray) && t < |b.xs| && Fits(out.Length, |b.xs|, m.hidden)
    requires !Accepts(m, settings, |b.xs|) && RowStored(m, b, plan, Scratch(m, |b.xs|, plan, memory), out, t)
    ensures EntryStored(m, settings, b, plan, run, memory, out, t)
    ensures SureRight(m, settings, |b.xs|, b.ids, plan, t) ==> TokenDone(m, b.xs, b.ids, b.weights, out, t)
  {
    assert m.topK > 0 && plan.chunkSize > 0;
    hide Cell, TokenOut, CallCell, ValidMoe, ValidIds, ValidPlan, Settles, OwnNaive, Accepts, Scratch;
    if SureRight(m, settings, |b.xs|, b.ids, plan, t) {
      StoredIsDone(m, b, plan, Scratch(m, |b.xs|, plan, memory), out, t);
    }
  }

  /** The out-of-place entry point leaves its input alone. */
  method OutplaceFusedExperts(m: Moe, settings: Settings, hidden: array<real>, T: nat, ids: seq<int>, weights: seq<real>,
                              plan: Plan, run: FastRun, memory: nat -> real)
    returns (out: array<real>)
    requires ValidMoe(m) && ValidIds(m, ids) && |ids| == |weights| == T * m.topK
    requires Fits(hidden.Length, T, m.hidden) && ValidPlan(plan) && ValidRun(m, T, run)
    ensures fresh(out) && Fits(out.Length, T, m.hidden)
    ensures forall t: nat | t < T ::
              EntryStored(m, settings, Batch(Rows(hidden, T, m.hidden), ids, weights), plan, run, memory, out, t)
    ensures forall t: nat | t < T && SureRight(m, settings, T, ids, plan, t) ::
              TokenDone(m, Rows(hidden, T, m.hidden), ids, weights, out, t)
    ensures forall t: nat | t < T && (m.expertMap.Some? || NamesExperts(m.topK, ids, t)
                                      || (!FastGuards(m, settings, T) && OwnNaive(m, T, plan, t))) ::
              RoutedRow(m, hidden[..], ids, weights, out[..], t)
  {
    ghost var input := hidden[..];
    RowsAreInput(hidden, T, m.hidden);
    SureMeans(m, settings, T, ids, plan);
    assert m.topK > 0 && plan.chunkSize > 0;
    hide Cell, TokenOut, FastCell, CallCell, TokenDone, EntryStored, SureRight, ValidMoe, ValidIds, ValidPlan, NamesExperts,
      OwnNaive, FastGuards, Accepts, RoutedRow, InputRow;
    ghost var b := Batch(Rows(hidden, T, m.hidden), ids, weights);
    var fast := TryFastPath(m, settings, hidden, T, ids, weights, run);
    if fast != null {
      forall t: nat | t < T
        ensures EntryStored(m, settings, b, plan, run, memory, fast, t)
        ensures SureRight(m, settings, T, ids, plan, t) ==> TokenDone(m, b.xs, ids, weights, fast, t)
        ensures SureRight(m, settings, T, ids, plan, t) ==> RoutedRow(m, input, ids, weights, fast[..], t)
      {
        FastIsEntry(m, settings, b, plan, run, memory, fast, fast, t);
        SureIsRouted(m, settings, b, plan, input, fast, t);
      }
      return fast;
    }
    out := FusedExpertsImpl(m, hidden, T, ids, weights, false, plan, memory);
    assert Rows(hidden, T, m.hidden) == b.xs;
    forall t: nat | t < T
      ensures EntryStored(m, settings, b, plan, run, memory, out, t)
      ensures SureRight(m, settings, T, ids, plan, t) ==> TokenDone(m, b.xs, ids, weights, out, t)
      ensures SureRight(m, settings, T, ids, plan, t) ==> RoutedRow(m, input, ids, weights, out[..], t)
    {
      GeneralIsEntry(m, settings, b, plan, run, memory, out, t);
      SureIsRouted(m, settings, b, plan, input, out, t);
    }
  }

  // ---------------------------------------------------------------- exactly which tokens the fast path gets right

  ghost predicate FastRowRight(m: Moe, xs: seq<seq<real>>, ids: seq<int>, weights: seq<real>, stray: Stray, t: nat)
    requires FastCall(m, xs, ids, weights, stray) && t < |xs|
  {
    TokenRoute(t, 0, m.topK, |xs|);
    forall d | 0 <= d < m.hidden :: FastCell(m, xs, ids, weights, stray, t, d) == TokenOut(m, xs[t], ids, weights, t, d)
  }

  /** The fast path stores token `t` right for every layer of a shape, every input and every memory in front of the experts. */
  ghost predicate FastRight(s: Shape, T: nat, ids: seq<int>, t: nat)
    requires t < T
  {
    forall m, xs, weights, stray | HasShape(m, s) && |xs| == T && FastCall(m, xs, ids, weights, stray) ::
      FastRowRight(m, xs, ids, weights, stray, t)
  }

  /**
   On layers the fast path accepts, and for whatever activation, that is exactly when the token names an
   expert in every slot, unless there is nothing to compute.
   */
  lemma FastRightIff(s: Shape, T: nat, ids: seq<int>, t: nat)
    requires s.topK > 0 && s.inter > 0 && |ids| == T * s.topK && t < T && IdsInRange(s, ids)
    ensures FastRight(s, T, ids, t) <==> s.hidden == 0 || NamesExperts(s.topK, ids, t) || forall v :: s.silu(v) == 0.0
  {
    if s.hidden == 0 || NamesExperts(s.topK, ids, t) || forall v :: s.silu(v) == 0.0 {
      forall m, xs, weights, stray | HasShape(m, s) && |xs| == T && FastCall(m, xs, ids, weights, stray)
        ensures FastRowRight(m, xs, ids, weights, stray, t)
      {
        FastRowIsRight(m, xs, ids, weights, stray, t);
      }
    } else {
      var v :| s.silu(v) != 0.0;
      var r := MissingRoute(s.topK, ids, t);
      LoudWrong(s, v, T, ids, t, r);
      assert !FastRowRight(Bare(s), Units(s, T), ids, Constant(|ids|), LoudStray(s, v), t);
    }
  }

  lemma FastRowIsRight(m: Moe, xs: seq<seq<real>>, ids: seq<int>, weights: seq<real>, stray: Stray, t: nat)
    requires FastCall(m, xs, ids, weights, stray) && t < |xs|
    requires m.hidden == 0 || NamesExperts(m.topK, ids, t) || forall v :: m.silu(v) == 0.0
    ensures FastRowRight(m, xs, ids, weights, stray, t)
  {
    hide FastCell, TokenOut;
    forall d | 0 <= d < m.hidden
      ensures (t + 1) * m.topK <= |ids| && FastCell(m, xs, ids, weights, stray, t, d) == TokenOut(m, xs[t], ids, weights, t, d)
    {
      if NamesExperts(m.topK, ids, t) {
        FastCellRight(m, xs, ids, weights, stray, t, d);
      } else {
        SilentToken(m, xs, ids, weights, stray, t, d);
      }
    }
  }

  /** With an activation that is zero everywhere both sums are zero. */
  lemma SilentToken(m: Moe, xs: seq<seq<real>>, ids: seq<int>, weights: seq<real>, stray: Stray, t: nat, d: int)
    requires FastCall(m, xs, ids, weights, stray) && t < |xs| && 0 <= d < m.hidden && forall v :: m.silu(v) == 0.0
    ensures (t + 1) * m.topK <= |ids|
    ensures FastCell(m, xs, ids, weights, stray, t, d) == 0.0 == TokenOut(m, xs[t], ids, weights, t, d)
  {
    AddressedCall(m, xs, ids, weights, stray);
    TokenRoute(t, 0, m.topK, |xs|);
    SilentRoutes(m, xs[t], ids, weights, t * m.topK, d);
    SilentRoutes(Addressed(m, stray), xs[t], Shifted(ids), weights, t * m.topK, d);
  }

  lemma SilentRoutes(m: Moe, x: seq<real>, ids: seq<int>, weights: seq<real>, first: int, d: int)
    requires ValidMoe(m) && ValidIds(m, ids) && |weights| == |ids| && |x| == m.hidden && 0 <= d < m.hidden
    requires !m.weightOnInput && m.bias2.None? && forall v :: m.silu(v) == 0.0
    ensures RoutesFrom(m, x, ids, weights, first, d) == 0.0
  {
    forall k | 0 <= k < m.topK
      ensures RouteOuts(m, x, ids, weights, first, d)(k) == 0.0
    {
      SilentRoute(m, x, ids, weights, first + k, d);
    }
    SumZero(RouteOuts(m, x, ids, weights, first, d), 0, m.topK);
  }

  lemma SilentRoute(m: Moe, x: seq<real>, ids: seq<int>, weights: seq<real>, r: int, d: int)
    requires ValidMoe(m) && ValidIds(m, ids) && |weights| == |ids| && |x| == m.hidden && 0 <= d < m.hidden
    requires !m.weightOnInput && m.bias2.None? && forall v :: m.silu(v) == 0.0
    ensures RouteOut(m, x, ids, weights, r, d) == 0.0
  {
    if 0 <= r < |ids| && Local(m, ids[r]) != -1 {
      var e := Local(m, ids[r]);
      var act := Gated(m.silu, m.inter, UpRow(m, x, e, weights[r]));
      hide UpRow;
      forall i | 0 <= i < m.inter
        ensures act[i] == 0.0
      {
        assert act[i] == Times(0.0, UpRow(m, x, e, weights[r])[m.inter + i]);
      }
      SilentDot(act, m.w2[e][d]);
      hide RowDot, Gated;
      assert ExpertOut(m, x, e, weights[r], d) == Times(0.0, weights[r]);
    }
  }

  lemma SilentDot(a: seq<real>, b: seq<real>)
    requires |a| == |b| && forall i | 0 <= i < |a| :: a[i] == 0.0
    ensures RowDot(a, b) == 0.0
  {
    var f := Term(a, b);
    forall k | 0 <= k < |a|
      ensures f(k) == 0.0
    {
      assert f(k) == Times(0.0, b[k]);
    }
    SumZero(f, 0, |a|);
  }

  // The witness: a layer without biases and with zero matrices, and in front of it gate rows that the
  // activation maps to a number other than zero and down rows of that number's sign.

  function Bare(s: Shape): Moe {
    Moe(Repeated(s.experts, Repeated(2 * s.inter, Repeated(s.hidden, 0.0))),
        Repeated(s.experts, Repeated(s.hidden, Repeated(s.inter, 0.0))),
        None, None, s.hidden, s.inter, s.topK, false, s.silu, None)
  }

  function Sign(x: real): real { if x > 0.0 then 1.0 else -1.0 }

  function LoudStray(s: Shape, v: real): Stray {
    Stray(Repeated(s.inter, Along(s.hidden, v)) + Repeated(s.inter, Along(s.hidden, 1.0)),
          Repeated(s.hidden, Repeated(s.inter, Sign(s.silu(v)))))
  }

  lemma BareValid(s: Shape, v: real, T: nat, ids: seq<int>)
    requires s.topK > 0 && |ids| == T * s.topK && IdsInRange(s, ids)
    ensures HasShape(Bare(s), s) && FastCall(Bare(s), Units(s, T), ids, Constant(|ids|), LoudStray(s, v))
    ensures ValidCall(Addressed(Bare(s), LoudStray(s, v)), Units(s, T), Shifted(ids), Constant(|ids|))
    ensures ValidIds(Bare(s), ids) && Bare(s).topK == s.topK && Bare(s).hidden == s.hidden
  {
    AddressedCall(Bare(s), Units(s, T), ids, Constant(|ids|), LoudStray(s, v));
  }

  /** A missing expert adds the stray matrices' output, which the witness makes positive. */
  lemma LoudRoute(s: Shape, v: real, T: nat, ids: seq<int>, t: nat, r: nat)
    requires s.topK > 0 && s.inter > 0 && s.hidden > 0 && |ids| == T * s.topK && t < T && r < |ids| && IdsInRange(s, ids)
    requires s.silu(v) != 0.0
    ensures ValidCall(Addressed(Bare(s), LoudStray(s, v)), Units(s, T), Shifted(ids), Constant(|ids|)) && HasShape(Bare(s), s)
    ensures ValidIds(Bare(s), ids)
    ensures var fast := RouteOut(Addressed(Bare(s), LoudStray(s, v)), Unit(s.hidden), Shifted(ids), Constant(|ids|), r, 0);
            var plain := RouteOut(Bare(s), Unit(s.hidden), ids, Constant(|ids|), r, 0);
            if ids[r] == -1 then fast > plain else fast == plain
  {
    BareValid(s, v, T, ids);
    if ids[r] == -1 {
      LoudExpert(s, v, T, ids);
      AbsentRoute(Bare(s), Unit(s.hidden), ids, Constant(|ids|), r, 0);
    } else {
      AddressedRoute(Bare(s), Units(s, T), ids, Constant(|ids|), LoudStray(s, v), t, r, 0);
    }
  }

  lemma LoudExpert(s: Shape, v: real, T: nat, ids: seq<int>)
    requires s.topK > 0 && s.inter > 0 && s.hidden > 0 && |ids| == T * s.topK && IdsInRange(s, ids) && s.silu(v) != 0.0
    ensures ValidMoe(Addressed(Bare(s), LoudStray(s, v)))
    ensures ExpertOut(Addressed(Bare(s), LoudStray(s, v)), Unit(s.hidden), 0, 1.0, 0) > 0.0
  {
    BareValid(s, v, T, ids);
    var a := Addressed(Bare(s), LoudStray(s, v));
    AlongDot(Along(s.hidden, v));
    AlongDot(Along(s.hidden, 1.0));
    var up := UpRow(a, Unit(s.hidden), 0, 1.0);
    hide RowDot;
    forall i | 0 <= i < s.inter
      ensures Gated(a.silu, s.inter, up)[i] == s.silu(v)
    {
      assert a.w1[0][i] == Along(s.hidden, v) && a.w1[0][s.inter + i] == Along(s.hidden, 1.0);
      assert up[i] == v && up[s.inter + i] == 1.0;
    }
    assert Gated(a.silu, s.inter, up) == Repeated(s.inter, s.silu(v));
    assert a.w2[0][0] == Repeated(s.inter, Sign(s.silu(v)));
    SignedDot(s.inter, s.silu(v));
  }

  lemma SignedDot(n: nat, x: real)
    requires n > 0 && x != 0.0
    ensures RowDot(Repeated(n, x), Repeated(n, Sign(x))) > 0.0
  {
    var f := Term(Repeated(n, x), Repeated(n, Sign(x)));
    forall k | 0 <= k < n
      ensures f(k) > 0.0
    {
      assert f(k) == Times(x, Sign(x));
    }
    SumPositive(f, 0, n, 0);
  }

  lemma LoudWrong(s: Shape, v: real, T: nat, ids: seq<int>, t: nat, r: nat)
    requires s.topK > 0 && s.inter > 0 && s.hidden > 0 && |ids| == T * s.topK && t < T && IdsInRange(s, ids)
    requires r < |ids| && r / s.topK == t && ids[r] == -1 && s.silu(v) != 0.0
    ensures HasShape(Bare(s), s) && FastCall(Bare(s), Units(s, T), ids, Constant(|ids|), LoudStray(s, v))
    ensures (t + 1) * s.topK <= |ids|
    ensures FastCell(Bare(s), Units(s, T), ids, Constant(|ids|), LoudStray(s, v), t, 0)
          > TokenOut(Bare(s), Unit(s.hidden), ids, Constant(|ids|), t, 0)
  {
    BareValid(s, v, T, ids);
    TokenRoute(t, 0, s.topK, T);
    RouteSlot(r, s.topK, t);
    var m, a := Bare(s), Addressed(Bare(s), LoudStray(s, v));
    var plain := RouteOuts(m, Unit(s.hidden), ids, Constant(|ids|), t * s.topK, 0);
    var fast := RouteOuts(a, Unit(s.hidden), Shifted(ids), Constant(|ids|), t * s.topK, 0);
    forall k: nat | k < s.topK
      ensures plain(k) <= fast(k) && (t * s.topK + k == r ==> plain(k) < fast(k))
    {
      LoudTerm(s, v, T, ids, t, k);
    }
    hide RouteOuts, RouteOut, ValidMoe, Bare, Addressed, Units, Constant, Shifted, ValidIds, IsMatrix;
    SumLess(plain, fast, 0, s.topK, r % s.topK);
  }

  lemma LoudTerm(s: Shape, v: real, T: nat, ids: seq<int>, t: nat, k: nat)
    requires s.topK > 0 && s.inter > 0 && s.hidden > 0 && |ids| == T * s.topK && t < T && k < s.topK && IdsInRange(s, ids)
    requires s.silu(v) != 0.0
    ensures ValidCall(Addressed(Bare(s), LoudStray(s, v)), Units(s, T), Shifted(ids), Constant(|ids|)) && HasShape(Bare(s), s)
    ensures ValidIds(Bare(s), ids) && 0 <= t * s.topK + k < |ids|
    ensures var plain := RouteOuts(Bare(s), Unit(s.hidden), ids, Constant(|ids|), t * s.topK, 0)(k);
            var fast := RouteOuts(Addressed(Bare(s), LoudStray(s, v)), Unit(s.hidden), Shifted(ids), Constant(|ids|), t * s.topK, 0)(k);
            if ids[t * s.topK + k] == -1 then fast > plain else fast == plain
  {
    TokenRoute(t, k, s.topK, T);
    LoudRoute(s, v, T, ids, t, t * s.topK + k);
    hide RouteOut, ValidMoe;
  }
}
