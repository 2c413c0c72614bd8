/**
 Routes without an expert. When no expert map accounts for a missing expert and the aligner drops its
 route, nothing writes the route's row of the shared cache, and the token's sum takes in what is there.
 */
module StaleRows {
  import opened Options
  import opened Sums
  import opened FlatMatrix
  import opened Gemm
  import opened MoeAlignment
  import opened FusedMoeKernel
  import opened FusedExperts

  // ---------------------------------------------------------------- rows that are written

  /** Every route of token `t` gets its row written. */
  ghost predicate TokenWritten(m: Moe, al: Alignment, routes: nat, t: int)
    requires m.topK > 0 && (al.sorted.Some? ==> al.postPadded <= |al.sorted.value|)
  {
    forall r | 0 <= r < routes && r / m.topK == t :: Written(m, al, r)
  }

  /** Such a token's row is its routed sum, whatever the cache held. */
  lemma WrittenRowIsTokenOut(m: Moe, xs: seq<seq<real>>, ids: seq<int>, weights: seq<real>, al: Alignment, before: seq<real>, t: nat, d: int)
    requires ValidChunk(m, xs, ids, weights) && (al.sorted.Some? ==> al.postPadded <= |al.sorted.value|)
    requires t < |xs| && 0 <= d < m.hidden && TokenWritten(m, al, |ids|, t)
    ensures (t + 1) * m.topK <= |ids|
    ensures ChunkRow(m, xs, ids, weights, al, before, t, d) == TokenOut(m, xs[t], ids, weights, t, d)
  {
    if m.topK > 0 {
      TokenRoute(t, 0, m.topK, |xs|);
    }
    RowsAgree(m, xs, ids, weights, al, before, t, d);
    SumZero(StaleTerm(m, xs, ids, weights, al, before, t, d), 0, m.topK) by {
      forall k | 0 <= k < m.topK
        ensures StaleTerm(m, xs, ids, weights, al, before, t, d)(k) == 0.0
      {
        TokenRoute(t, k, m.topK, |xs|);
        assert Written(m, al, Flat(t, m.topK, k));
      }
    }
  }

  /** What route `k` of token `t` adds beyond its expert's output: the cell of an unwritten row. */
  function StaleTerm(m: Moe, xs: seq<seq<real>>, ids: seq<int>, weights: seq<real>, al: Alignment, before: seq<real>,
                     t: int, d: int): int -> real
    requires ValidChunk(m, xs, ids, weights) && (al.sorted.Some? ==> al.postPadded <= |al.sorted.value|)
    requires 0 <= t < |xs| && 0 <= d < m.hidden
  {
    k => if 0 <= k < m.topK && !Written(m, al, Flat(t, m.topK, k))
      then AfterLaunch(UpGemm(m, xs, ids, weights), al, before, Flat(Flat(t, m.topK, k), m.hidden, d))
        - RouteOut(m, xs[t], ids, weights, Flat(t, m.topK, k), d)
      else 0.0
  }

  lemma RowsAgree(m: Moe, xs: seq<seq<real>>, ids: seq<int>, weights: seq<real>, al: Alignment, before: seq<real>, t: nat, d: int)
    requires ValidChunk(m, xs, ids, weights) && (al.sorted.Some? ==> al.postPadded <= |al.sorted.value|)
    requires t < |xs| && 0 <= d < m.hidden
    ensures (t + 1) * m.topK <= |ids|
    ensures ChunkRow(m, xs, ids, weights, al, before, t, d)
         == TokenOut(m, xs[t], ids, weights, t, d) + Sum(StaleTerm(m, xs, ids, weights, al, before, t, d), 0, m.topK)
  {
    TokenRoute(t, 0, m.topK, |xs|);
    var outs := RouteOuts(m, xs[t], ids, weights, t * m.topK, d);
    forall k | 0 <= k < m.topK
      ensures RowTerm(m, xs, ids, weights, al, before, t, d)(k)
           == outs(k) + StaleTerm(m, xs, ids, weights, al, before, t, d)(k)
    {
      TermsAgree(m, xs, ids, weights, al, before, t, d, k);
    }
    hide RouteOuts, RowTerm, StaleTerm, Sum;
    SumAdd(outs, StaleTerm(m, xs, ids, weights, al, before, t, d), RowTerm(m, xs, ids, weights, al, before, t, d), 0, m.topK);
  }

  lemma TermsAgree(m: Moe, xs: seq<seq<real>>, ids: seq<int>, weights: seq<real>, al: Alignment, before: seq<real>, t: nat, d: int, k: nat)
    requires ValidChunk(m, xs, ids, weights) && (al.sorted.Some? ==> al.postPadded <= |al.sorted.value|)
    requires t < |xs| && 0 <= d < m.hidden && k < m.topK
    ensures RowTerm(m, xs, ids, weights, al, before, t, d)(k)
         == RouteOuts(m, xs[t], ids, weights, t * m.topK, d)(k) + StaleTerm(m, xs, ids, weights, al, before, t, d)(k)
  {
    hide RouteOut, AfterLaunch, Placed;
    assert t * m.topK + k == Flat(t, m.topK, k);
  }

  // ---------------------------------------------------------------- concrete failures

  /** With one route a token, a row is its route's cell. */
  lemma OneRoute(m: Moe, xs: seq<seq<real>>, ids: seq<int>, weights: seq<real>, al: Alignment, before: seq<real>, t: nat, d: int)
    requires ValidChunk(m, xs, ids, weights) && (al.sorted.Some? ==> al.postPadded <= |al.sorted.value|)
    requires m.topK == 1 && t < |xs| && 0 <= d < m.hidden
    ensures ChunkRow(m, xs, ids, weights, al, before, t, d) == RouteCell(m, xs, ids, weights, al, before, t, t, d)
    ensures TokenOut(m, xs[t], ids, weights, t, d) == RouteOut(m, xs[t], ids, weights, t, d)
  {
    hide RouteCell, RouteOut;
    assert Flat(t, 1, 0) == t;
    SumLast(RowTerm(m, xs, ids, weights, al, before, t, d), 0, 1);
    SumLast(RouteOuts(m, xs[t], ids, weights, t, d), 0, 1);
  }

  /** One token, one route, no expert: the stored row is the old content of the cache, not zero. */
  lemma MissingExpertKeepsCache(m: Moe, x: seq<real>, w: real, before: seq<real>, d: int)
    requires ValidMoe(m) && m.expertMap.None? && m.topK == 1 && |x| == m.hidden && 0 <= d < m.hidden <= |before|
    ensures ValidChunk(m, [x], [-1], [w]) && IsSorted(Alignment(Some([]), [], 0), [-1], 1)
    ensures ChunkRow(m, [x], [-1], [w], Alignment(Some([]), [], 0), before, 0, d) == before[d]
    ensures TokenOut(m, x, [-1], [w], 0, d) == 0.0
  {
    LoneMissing(m, x, w);
    var al := Alignment(Some([]), [], 0);
    var up := UpGemm(m, [x], [-1], [w]);
    NothingPlaced(up, al, before, d);
    hide ValidMoe, ValidIds, IsSorted, ChunkRow, TokenOut, RouteOut, UpGemm, AfterLaunch, IsMatrix, ValidGrouped, ValidChunk;
    OneRoute(m, [x], [-1], [w], al, before, 0, d);
    assert !Placed(al, 0) && Flat(0, m.hidden, d) == d;
    AbsentRoute(m, x, [-1], [w], 0, d);
  }

  lemma LoneMissing(m: Moe, x: seq<real>, w: real)
    requires ValidMoe(m) && m.expertMap.None? && m.topK == 1 && |x| == m.hidden
    ensures ValidChunk(m, [x], [-1], [w]) && ValidIds(m, [-1]) && Local(m, -1) == -1
    ensures ValidGrouped(UpGemm(m, [x], [-1], [w])) && IsSorted(Alignment(Some([]), [], 0), [-1], 1)
  {
  }

  lemma NothingPlaced(g: Grouped, al: Alignment, before: seq<real>, x: nat)
    requires ValidGrouped(g) && al.sorted == Some([]) && al.postPadded == 0 && x < |before|
    ensures AfterLaunch(g, al, before, x) == before[x]
  {
  }

  /**
   Two tokens, the second without an expert, in a layer of one hidden and one intermediate unit: the
   second row is the first token's up projection, left in the shared buffer, whatever the cache held.
   */
  lemma UpProjectionLeaks(m: Moe, x: seq<real>, y: seq<real>, w: real, v: real, before: seq<real>)
    requires ValidMoe(m) && m.expertMap.None? && m.topK == 1 && m.hidden == 1 && m.inter == 1 && |m.w1| > 0
    requires |x| == |y| == 1
    ensures ValidChunk(m, [x, y], [0, -1], [w, v]) && IsSorted(Alignment(Some([0]), [0], 1), [0, -1], 1)
    ensures ChunkRow(m, [x, y], [0, -1], [w, v], Alignment(Some([0]), [0], 1), before, 1, 0) == UpRow(m, x, 0, w)[1]
    ensures TokenOut(m, y, [0, -1], [w, v], 1, 0) == 0.0
  {
    var al, ids, xs, ws := Alignment(Some([0]), [0], 1), [0, -1], [x, y], [w, v];
    assert [0][..1] == [0];
    assert BlockHasRoute([0], 1, 2, 1, 0) by {
      assert [0][0] < 2;
    }
    assert Placed(al, 0) && !Placed(al, 1) && Flat(1, 1, 0) == 1;
    OneRoute(m, xs, ids, ws, al, before, 1, 0);
    UpIsUpRow(m, xs, ids, ws, 0, 1);
    assert xs[0] == x && ws[0] == w;
    AbsentRoute(m, y, ids, ws, 1, 0);
  }

  // ---------------------------------------------------------------- the exact condition

  /** The sizes and the activation of a layer on which no expert map is set. */
  datatype Shape = Shape(experts: nat, hidden: nat, inter: nat, topK: nat, silu: real -> real)

  ghost predicate HasShape(m: Moe, s: Shape) {
    && ValidMoe(m) && m.expertMap.None?
    && |m.w1| == s.experts && m.hidden == s.hidden && m.inter == s.inter && m.topK == s.topK
    && m.silu == s.silu
  }

  ghost predicate IdsInRange(s: Shape, ids: seq<int>) {
    forall r | 0 <= r < |ids| :: -1 <= ids[r] < s.experts
  }

  /** A sorted layout leaves out the routes that name no expert. */
  ghost predicate DropsMissing(al: Alignment, ids: seq<int>) {
    al.sorted.Some? ==> al.postPadded <= |al.sorted.value| && forall r | 0 <= r < |ids| && ids[r] == -1 :: !Placed(al, r)
  }

  /** The cache is large enough for both of its views. */
  ghost predicate CacheHolds(s: Shape, before: seq<real>, routes: nat) {
    Fits(|before|, routes, 2 * s.inter) && Fits(|before|, routes, s.hidden)
  }

  ghost predicate RowRight(m: Moe, xs: seq<seq<real>>, ids: seq<int>, weights: seq<real>, al: Alignment, before: seq<real>, t: int)
    requires ValidChunk(m, xs, ids, weights) && (al.sorted.Some? ==> al.postPadded <= |al.sorted.value|)
    requires 0 <= t < |xs| && (t + 1) * m.topK <= |ids|
  {
    forall d | 0 <= d < m.hidden ::
      ChunkRow(m, xs, ids, weights, al, before, t, d) == TokenOut(m, xs[t], ids, weights, t, d)
  }

  /** A chunk stores token `t` right for every layer of this shape, every input and every content of the cache. */
  ghost predicate AlwaysRight(s: Shape, tokens: nat, ids: seq<int>, al: Alignment, t: nat)
    requires |ids| == tokens * s.topK && t < tokens && (t + 1) * s.topK <= |ids|
    requires al.sorted.Some? ==> al.postPadded <= |al.sorted.value|
  {
    forall m, xs, weights, before |
      HasShape(m, s) && |xs| == tokens && ValidChunk(m, xs, ids, weights) && CacheHolds(s, before, |ids|) ::
      RowRight(m, xs, ids, weights, al, before, t)
  }

  /** Token `t` names an expert in every slot. */
  ghost predicate NamesExperts(topK: nat, ids: seq<int>, t: int)
    requires topK > 0
  {
    forall r | 0 <= r < |ids| && r / topK == t :: ids[r] != -1
  }

  /**
   Without an expert map a chunk stores a token right, for all layers of a shape, inputs and cache
   contents, exactly when the token names an expert in every slot or the chunk's layout is naive.
   (For one layer and one input the stale cells may happen to be zero.)
   */
  lemma RightIffNamed(s: Shape, tokens: nat, ids: seq<int>, al: Alignment, bm: nat, t: nat)
    requires s.topK > 0 && |ids| == tokens * s.topK && t < tokens && IdsInRange(s, ids)
    requires bm > 0 && IsAligned(al, ids, bm) && DropsMissing(al, ids)
    ensures (t + 1) * s.topK <= |ids| && (al.sorted.Some? ==> al.postPadded <= |al.sorted.value|)
    ensures AlwaysRight(s, tokens, ids, al, t) <==> s.hidden == 0 || al.sorted.None? || NamesExperts(s.topK, ids, t)
  {
    TokenRoute(t, 0, s.topK, tokens);
    if s.hidden == 0 || al.sorted.None? || NamesExperts(s.topK, ids, t) {
      forall m, xs, weights, before |
        HasShape(m, s) && |xs| == tokens && ValidChunk(m, xs, ids, weights) && CacheHolds(s, before, |ids|)
        ensures RowRight(m, xs, ids, weights, al, before, t)
      {
        forall d | 0 <= d < m.hidden
          ensures ChunkRow(m, xs, ids, weights, al, before, t, d) == TokenOut(m, xs[t], ids, weights, t, d)
        {
          NamedIsWritten(m, ids, al, bm, t);
          WrittenRowIsTokenOut(m, xs, ids, weights, al, before, t, d);
        }
      }
    } else {
      var r :| 0 <= r < |ids| && r / s.topK == t && ids[r] == -1;
      OnesAreValid(s, tokens, ids);
      var n := |ids| * (2 * s.inter) + |ids| * s.hidden;
      assert CacheHolds(s, Constant(n), |ids|);
      OnesRowWrong(s, tokens, ids, al, bm, n, t, r, 0);
      assert !RowRight(Ones(s), Units(s, tokens), ids, Constant(|ids|), al, Constant(n), t);
    }
  }

  lemma NamedIsWritten(m: Moe, ids: seq<int>, al: Alignment, bm: nat, t: nat)
    requires ValidMoe(m) && m.expertMap.None? && bm > 0 && IsAligned(al, ids, bm)
    requires al.sorted.None? || NamesExperts(m.topK, ids, t)
    ensures (al.sorted.Some? ==> al.postPadded <= |al.sorted.value|) && TokenWritten(m, al, |ids|, t)
  {
  }

  // The witness: the up projections of every input, the second biases and every cell of the cache are
  // one, and the second matrices are zero, so the cache stays one whatever the activation is.

  function Repeated<T>(n: nat, x: T): (v: seq<T>)
    ensures |v| == n && forall i | 0 <= i < n :: v[i] == x
  {
    seq(n, _ => x)
  }

  function Constant(n: nat): (v: seq<real>)
    ensures |v| == n && forall i | 0 <= i < n :: v[i] == 1.0
  {
    Repeated(n, 1.0)
  }

  function Ones(s: Shape): Moe {
    Moe(Repeated(s.experts, Repeated(2 * s.inter, Unit(s.hidden))),
        Repeated(s.experts, Repeated(s.hidden, Repeated(s.inter, 0.0))),
        None, Some(Repeated(s.experts, Constant(s.hidden))), s.hidden, s.inter, s.topK, false, s.silu, None)
  }

  function Unit(n: nat): (v: seq<real>)
    ensures |v| == n
  {
    Along(n, 1.0)
  }

  function Units(s: Shape, tokens: nat): (xs: seq<seq<real>>)
    ensures |xs| == tokens && forall t | 0 <= t < tokens :: xs[t] == Unit(s.hidden)
  {
    Repeated(tokens, Unit(s.hidden))
  }

  lemma OnesAreValid(s: Shape, tokens: nat, ids: seq<int>)
    requires s.topK > 0 && |ids| == tokens * s.topK && IdsInRange(s, ids)
    ensures HasShape(Ones(s), s) && ValidChunk(Ones(s), Units(s, tokens), ids, Constant(|ids|))
  {
  }

  lemma ZeroDot(a: seq<real>, n: nat)
    requires |a| == n
    ensures RowDot(a, Repeated(n, 0.0)) == 0.0
  {
    var f := Term(a, Repeated(n, 0.0));
    forall k | 0 <= k < n
      ensures f(k) == 0.0
    {
      assert f(k) == Times(a[k], 0.0);
    }
    SumZero(f, 0, n);
  }

  /** A launch that writes ones into a buffer of ones leaves it as it was. */
  lemma OnesAfter(g: Grouped, al: Alignment, n: nat, x: nat)
    requires ValidGrouped(g) && (al.sorted.Some? ==> al.postPadded <= |al.sorted.value|) && x < n
    requires forall r, i | 0 <= r < Routes(g) && 0 <= i < g.N && Placed(al, r) :: RouteValue(g, r, i) == 1.0
    ensures AfterLaunch(g, al, Constant(n), x) == 1.0
  {
    hide RouteValue, Placed, Constant;
    if g.N > 0 && x < Routes(g) * g.N && Placed(al, x / g.N) {
      FlatIndex(Routes(g), g.N, x);
      assert RouteValue(g, x / g.N, x % g.N) == 1.0;
    }
  }

  /** After the first GEMM every cell of the witness's cache is one, rewritten or not ... */
  lemma OnesStay(s: Shape, tokens: nat, ids: seq<int>, al: Alignment, bm: nat, n: nat, x: nat)
    requires s.topK > 0 && s.hidden > 0 && |ids| == tokens * s.topK && IdsInRange(s, ids)
    requires bm > 0 && IsAligned(al, ids, bm) && DropsMissing(al, ids) && al.sorted.Some? && x < n
    ensures ValidChunk(Ones(s), Units(s, tokens), ids, Constant(|ids|))
    ensures AfterLaunch(UpGemm(Ones(s), Units(s, tokens), ids, Constant(|ids|)), al, Constant(n), x) == 1.0
  {
    OnesAreValid(s, tokens, ids);
    var g := UpGemm(Ones(s), Units(s, tokens), ids, Constant(|ids|));
    AlongDot(Unit(s.hidden));
    forall r, i | 0 <= r < Routes(g) && 0 <= i < g.N && Placed(al, r)
      ensures RouteValue(g, r, i) == 1.0
    {
      RouteToken(g, r);
      assert ids[r] != -1 && g.experts[r] == ids[r];
      assert g.a[r / g.topK] == Unit(s.hidden) && g.w[ids[r]][i] == Unit(s.hidden);
    }
    OnesAfter(g, al, n, x);
  }

  /** ... and so it is after the second. */
  lemma OnesLeft(s: Shape, tokens: nat, ids: seq<int>, al: Alignment, bm: nat, n: nat)
    requires s.topK > 0 && s.hidden > 0 && |ids| == tokens * s.topK && IdsInRange(s, ids)
    requires bm > 0 && IsAligned(al, ids, bm) && DropsMissing(al, ids) && al.sorted.Some?
    ensures ValidChunk(Ones(s), Units(s, tokens), ids, Constant(|ids|))
    ensures ChunkCache(Ones(s), Units(s, tokens), ids, Constant(|ids|), al, Constant(n)) == Constant(n)
  {
    OnesAreValid(s, tokens, ids);
    var m, xs, ws := Ones(s), Units(s, tokens), Constant(|ids|);
    var mid := AfterUp(m, xs, ids, ws, al, Constant(n));
    forall x: nat | x < n
      ensures mid[x] == 1.0
    {
      OnesStay(s, tokens, ids, al, bm, n, x);
    }
    assert mid == Constant(n);
    var acts := ActRows(m, |ids|, mid);
    var g := DownGemm(m, acts, ids, ws);
    forall r, d | 0 <= r < Routes(g) && 0 <= d < g.N && Placed(al, r)
      ensures RouteValue(g, r, d) == 1.0
    {
      OnesDown(s, acts, tokens, ids, r, d);
    }
    hide ActRows, Placed, RouteValue, AfterLaunch, DownGemm, Constant;
    assert ForDown(m, |ids|, mid) == mid;
    forall x: nat | x < n
      ensures ChunkCache(m, xs, ids, ws, al, Constant(n))[x] == 1.0
    {
      OnesAfter(g, al, n, x);
    }
  }

  lemma OnesDown(s: Shape, acts: seq<seq<real>>, tokens: nat, ids: seq<int>, r: nat, d: nat)
    requires s.topK > 0 && |ids| == tokens * s.topK && IdsInRange(s, ids) && IsMatrix(acts, |ids|, s.inter)
    requires r < |ids| && d < s.hidden && ids[r] != -1
    ensures ValidGrouped(DownGemm(Ones(s), acts, ids, Constant(|ids|)))
    ensures RouteValue(DownGemm(Ones(s), acts, ids, Constant(|ids|)), r, d) == 1.0
  {
    var g := DownGemm(Ones(s), acts, ids, Constant(|ids|));
    RouteToken(g, r);
    ZeroDot(acts[r / 1], s.inter);
    hide RowDot;
    assert g.experts[r] == ids[r] && g.w[ids[r]][d] == Repeated(s.inter, 0.0);
  }

  /** The witness's stale cells: one for each missing route, nothing for the others. */
  lemma OnesStale(s: Shape, tokens: nat, ids: seq<int>, al: Alignment, bm: nat, n: nat, t: nat, k: nat, d: nat)
    requires s.topK > 0 && |ids| == tokens * s.topK && t < tokens && IdsInRange(s, ids)
    requires bm > 0 && IsAligned(al, ids, bm) && DropsMissing(al, ids) && al.sorted.Some?
    requires k < s.topK && d < s.hidden && CacheHolds(s, Constant(n), |ids|)
    ensures 0 <= Flat(t, s.topK, k) < |ids| && ValidChunk(Ones(s), Units(s, tokens), ids, Constant(|ids|))
    ensures StaleTerm(Ones(s), Units(s, tokens), ids, Constant(|ids|), al, Constant(n), t, d)(k)
         == if ids[Flat(t, s.topK, k)] == -1 then 1.0 else 0.0
  {
    OnesAreValid(s, tokens, ids);
    TokenRoute(t, k, s.topK, tokens);
    var m, xs, ws, before := Ones(s), Units(s, tokens), Constant(|ids|), Constant(n);
    var route := Flat(t, s.topK, k);
    hide AfterLaunch, UpGemm, Constant, Ones, Units, IsAligned, RouteOut, Flat, ValidMoe, ValidIds, Placed, DropsMissing;
    OnesHaveNoMap(s);
    DroppedMeans(al, ids);
    if ids[route] == -1 {
      InCache(s, n, |ids|, route, d);
      OnesStay(s, tokens, ids, al, bm, n, Flat(route, s.hidden, d));
      MissingIsAbsent(s, tokens, ids, route, d);
    } else {
      NamedIsPlaced(ids, al, bm, route);
    }
  }

  lemma DroppedMeans(al: Alignment, ids: seq<int>)
    requires DropsMissing(al, ids) && al.sorted.Some?
    ensures al.postPadded <= |al.sorted.value| && forall r | 0 <= r < |ids| && ids[r] == -1 :: !Placed(al, r)
  {
  }

  lemma OnesHaveNoMap(s: Shape)
    ensures Ones(s).expertMap.None? && Ones(s).topK == s.topK && Ones(s).hidden == s.hidden
  {
  }

  lemma InCache(s: Shape, n: nat, routes: nat, route: nat, d: nat)
    requires route < routes && d < s.hidden && CacheHolds(s, Constant(n), routes)
    ensures 0 <= Flat(route, s.hidden, d) < n
  {
    FlatInRange(routes, s.hidden, route, d);
  }

  lemma MissingIsAbsent(s: Shape, tokens: nat, ids: seq<int>, route: nat, d: nat)
    requires s.topK > 0 && |ids| == tokens * s.topK && IdsInRange(s, ids) && route < |ids| && ids[route] == -1 && d < s.hidden
    ensures ValidChunk(Ones(s), Units(s, tokens), ids, Constant(|ids|))
    ensures RouteOut(Ones(s), Unit(s.hidden), ids, Constant(|ids|), route, d) == 0.0
  {
    OnesAreValid(s, tokens, ids);
    AbsentRoute(Ones(s), Unit(s.hidden), ids, Constant(|ids|), route, d);
  }

  lemma NamedIsPlaced(ids: seq<int>, al: Alignment, bm: nat, r: nat)
    requires bm > 0 && IsAligned(al, ids, bm) && r < |ids| && ids[r] != -1
    ensures (al.sorted.Some? ==> al.postPadded <= |al.sorted.value|) && Placed(al, r)
  {
  }

  lemma OnesRowWrong(s: Shape, tokens: nat, ids: seq<int>, al: Alignment, bm: nat, n: nat, t: nat, r: nat, d: nat)
    requires s.topK > 0 && |ids| == tokens * s.topK && t < tokens && IdsInRange(s, ids)
    requires bm > 0 && IsAligned(al, ids, bm) && DropsMissing(al, ids) && al.sorted.Some?
    requires r < |ids| && r / s.topK == t && ids[r] == -1 && d < s.hidden && CacheHolds(s, Constant(n), |ids|)
    ensures (t + 1) * s.topK <= |ids| && ValidChunk(Ones(s), Units(s, tokens), ids, Constant(|ids|))
    ensures ChunkRow(Ones(s), Units(s, tokens), ids, Constant(|ids|), al, Constant(n), t, d)
          > TokenOut(Ones(s), Unit(s.hidden), ids, Constant(|ids|), t, d)
  {
    OnesAreValid(s, tokens, ids);
    OnesHaveNoMap(s);
    RouteSlot(r, s.topK, t);
    hide StaleTerm, Ones, Units, Constant, IsAligned, ValidMoe, ValidIds, Flat, DropsMissing, IdsInRange, HasShape;
    forall k: nat | k < s.topK
      ensures 0 <= Flat(t, s.topK, k) < |ids|
      ensures StaleTerm(Ones(s), Units(s, tokens), ids, Constant(|ids|), al, Constant(n), t, d)(k)
           == if ids[Flat(t, s.topK, k)] == -1 then 1.0 else 0.0
    {
      OnesStale(s, tokens, ids, al, bm, n, t, k, d);
    }
    RowExceeds(Ones(s), Units(s, tokens), ids, Constant(|ids|), al, Constant(n), t, d, r % s.topK);
  }

  lemma RouteSlot(r: nat, topK: nat, t: nat)
    requires topK > 0 && r / topK == t
    ensures r % topK < topK && Flat(t, topK, r % topK) == r
  {
  }

  /** If no stale cell is negative and one is positive the stored row is too large. */
  lemma RowExceeds(m: Moe, xs: seq<seq<real>>, ids: seq<int>, weights: seq<real>, al: Alignment, before: seq<real>, t: nat, d: int, at: nat)
    requires ValidChunk(m, xs, ids, weights) && (al.sorted.Some? ==> al.postPadded <= |al.sorted.value|)
    requires t < |xs| && 0 <= d < m.hidden && at < m.topK
    requires forall k | 0 <= k < m.topK :: StaleTerm(m, xs, ids, weights, al, before, t, d)(k) >= 0.0
    requires StaleTerm(m, xs, ids, weights, al, before, t, d)(at) > 0.0
    ensures (t + 1) * m.topK <= |ids|
    ensures ChunkRow(m, xs, ids, weights, al, before, t, d) > TokenOut(m, xs[t], ids, weights, t, d)
  {
    hide StaleTerm, ChunkRow, TokenOut, Sum;
    SumPositive(StaleTerm(m, xs, ids, weights, al, before, t, d), 0, m.topK, at);
    RowsAgree(m, xs, ids, weights, al, before, t, d);
  }
}
