/**
 The chunk loop of the mixture-of-experts layer, out of place or in place: what every token's output
 row ends with, and exactly when that is the token's routed sum.
 */
module ExpertChunks {
  import opened Options
  import opened Sums
  import opened DivMod
  import opened FlatMatrix
  import opened Gemm
  import opened MoeAlignment
  import opened FusedExperts
  import opened StaleRows

  const SPARSITY_FACTOR := 4

  /** The block aligner's contract: for any routes it returns a sorted, padded layout of them. */
  ghost predicate IsAligner(align: (seq<int>, nat) -> Alignment) {
    forall experts, bm | bm > 0 :: IsSorted(align(experts, bm), experts, bm)
  }

  ghost predicate IsTuner(config: nat -> Blocks) {
    forall tokens :: Positive4(config(tokens))
  }

  /** What a call is run with besides its tensors: chunk size, block tuner, aligner, expert count and program orders. */
  datatype Plan = Plan(
    chunkSize: nat, config: nat -> Blocks, align: (seq<int>, nat) -> Alignment, globalExperts: nat,
    upSchedule: int -> seq<int>, downSchedule: int -> seq<int>)

  ghost predicate ValidPlan(plan: Plan) {
    && plan.chunkSize > 0 && IsTuner(plan.config) && IsAligner(plan.align)
    && IsSchedule(plan.upSchedule) && IsSchedule(plan.downSchedule)
  }

  /** The routes are few enough for naive assignment. */
  predicate Naive(m: Moe, routes: nat, globalExperts: nat) {
    m.expertMap.None? && routes * SPARSITY_FACTOR <= globalExperts
  }

  /** Naive assignment when no expert map is set and the chunk touches few of the experts. */
  function ChooseAlignment(m: Moe, ids: seq<int>, allRoutes: nat, bm: nat, globalExperts: nat,
                           align: (seq<int>, nat) -> Alignment): Alignment
  {
    if Naive(m, |ids|, globalExperts)
    then Alignment(None, ids, allRoutes * bm)
    else align(Experts(m, ids), bm)
  }

  lemma ChosenIsAligned(m: Moe, ids: seq<int>, allRoutes: nat, bm: nat, globalExperts: nat,
                        align: (seq<int>, nat) -> Alignment)
    requires bm > 0 && IsAligner(align) && |ids| <= allRoutes
    ensures IsAligned(ChooseAlignment(m, ids, allRoutes, bm, globalExperts, align), Experts(m, ids), bm)
    ensures ChooseAlignment(m, ids, allRoutes, bm, globalExperts, align).sorted.None? <==> Naive(m, |ids|, globalExperts)
  {
    MulGe(allRoutes, |ids|, bm);
    if m.expertMap.None? {
      assert Experts(m, ids) == ids;
    }
  }

  // ---------------------------------------------------------------- a batch and its chunks

  /** The tokens of a call with their routing. */
  datatype Batch = Batch(xs: seq<seq<real>>, ids: seq<int>, weights: seq<real>)

  ghost predicate ValidBatch(m: Moe, b: Batch) {
    ValidChunk(m, b.xs, b.ids, b.weights)
  }

  /** Tokens begin..end of a batch. */
  function Part(b: Batch, topK: nat, begin: nat, end: nat): (part: Batch)
    requires begin <= end <= |b.xs| && |b.ids| == |b.weights| == |b.xs| * topK
    ensures |part.xs| == end - begin && |part.ids| == |part.weights| == (end - begin) * topK <= |b.ids|
  {
    SliceBounds(begin, end, |b.xs|, topK);
    Batch(b.xs[begin..end], b.ids[begin * topK..end * topK], b.weights[begin * topK..end * topK])
  }

  lemma PartValid(m: Moe, b: Batch, begin: nat, end: nat)
    requires ValidBatch(m, b) && begin <= end <= |b.xs|
    ensures ValidBatch(m, Part(b, m.topK, begin, end))
  {
    hide ValidMoe;
    SliceBounds(begin, end, |b.xs|, m.topK);
  }

  lemma SliceBounds(begin: nat, end: nat, T: nat, topK: nat)
    requires begin <= end <= T
    ensures 0 <= begin * topK <= end * topK <= T * topK
    ensures end * topK - begin * topK == (end - begin) * topK
  {
    MulGe(end, begin, topK);
    MulGe(T, end, topK);
  }

  /** Routing read through a chunk's slice of ids and weights is the routing of the whole batch. */
  lemma ChunkRouting(m: Moe, x: seq<real>, ids: seq<int>, weights: seq<real>, lo: nat, hi: nat, first: nat, d: int)
    requires ValidMoe(m) && ValidIds(m, ids) && |weights| == |ids| && |x| == m.hidden && 0 <= d < m.hidden
    requires lo <= hi <= |ids| && lo + first + m.topK <= hi
    ensures RoutesFrom(m, x, ids[lo..hi], weights[lo..hi], first, d) == RoutesFrom(m, x, ids, weights, lo + first, d)
  {
    var f := RouteOuts(m, x, ids[lo..hi], weights[lo..hi], first, d);
    var g := RouteOuts(m, x, ids, weights, lo + first, d);
    forall k | 0 <= k < m.topK
      ensures f(k) == g(k)
    {
      SliceRoute(m, x, ids, weights, lo, hi, first + k, d);
      assert lo + (first + k) == lo + first + k;
    }
    SumEq(f, g, 0, m.topK);
  }

  lemma SliceRoute(m: Moe, x: seq<real>, ids: seq<int>, weights: seq<real>, lo: nat, hi: nat, r: nat, d: int)
    requires ValidMoe(m) && ValidIds(m, ids) && |weights| == |ids| && |x| == m.hidden && 0 <= d < m.hidden
    requires lo + r < hi <= |ids|
    ensures RouteOut(m, x, ids[lo..hi], weights[lo..hi], r, d) == RouteOut(m, x, ids, weights, lo + r, d)
  {
    hide ExpertOut;
    assert ids[lo..hi][r] == ids[lo + r] && weights[lo..hi][r] == weights[lo + r];
  }

  lemma TokenRouting(m: Moe, b: Batch, begin: nat, end: nat, t: nat, d: int)
    requires ValidBatch(m, b) && begin <= t < end <= |b.xs| && 0 <= d < m.hidden
    ensures (t - begin + 1) * m.topK <= |Part(b, m.topK, begin, end).ids| && (t + 1) * m.topK <= |b.ids|
    ensures ValidBatch(m, Part(b, m.topK, begin, end))
    ensures var part := Part(b, m.topK, begin, end);
            TokenOut(m, part.xs[t - begin], part.ids, part.weights, t - begin, d) == TokenOut(m, b.xs[t], b.ids, b.weights, t, d)
  {
    hide RoutesFrom, ValidMoe;
    PartValid(m, b, begin, end);
    SliceBounds(begin, end, |b.xs|, m.topK);
    var lo, hi := begin * m.topK, end * m.topK;
    MulGe(end, t + 1, m.topK);
    MulGe(t, begin, m.topK);
    var first := (t - begin) * m.topK;
    assert t * m.topK == lo + first;
    assert (t + 1) * m.topK == t * m.topK + m.topK;
    assert (t - begin + 1) * m.topK == first + m.topK;
    ChunkRouting(m, b.xs[t], b.ids, b.weights, lo, hi, first, d);
  }

  /** Iterations of the chunk loop, and where each chunk begins. */
  function Chunks(T: nat, chunkSize: nat): nat
    requires chunkSize > 0
  {
    T / chunkSize + 1
  }

  function ChunkStart(chunk: nat, chunkSize: nat): nat {
    chunk * chunkSize
  }

  function ChunkEnd(chunk: nat, chunkSize: nat, T: nat): nat {
    Min(ChunkStart(chunk + 1, chunkSize), T)
  }

  lemma NoChunks(chunkSize: nat)
    ensures ChunkStart(0, chunkSize) == 0
  {
  }

  lemma ChunkBounds(chunk: nat, chunkSize: nat, T: nat)
    requires chunkSize > 0 && chunk < Chunks(T, chunkSize)
    ensures ChunkStart(chunk, chunkSize) <= ChunkEnd(chunk, chunkSize, T) <= T
    ensures ChunkEnd(chunk, chunkSize, T) - ChunkStart(chunk, chunkSize) <= Min(T, chunkSize)
    ensures ChunkEnd(chunk, chunkSize, T) == ChunkStart(chunk, chunkSize) ==> ChunkStart(chunk, chunkSize) == T
    ensures ChunkEnd(chunk, chunkSize, T) - ChunkStart(chunk, chunkSize) < chunkSize ==> chunk + 1 == Chunks(T, chunkSize)
  {
    DivAtLeast(T, chunkSize, chunk);
    assert (chunk + 1) * chunkSize == chunk * chunkSize + chunkSize;
    DivAtLeast(T, chunkSize, chunk + 1);
  }

  /** The tokens of a chunk are those whose quotient by the chunk size it is. */
  lemma ChunkMembers(chunk: nat, chunkSize: nat, T: nat)
    requires chunkSize > 0
    ensures forall t | ChunkStart(chunk, chunkSize) <= t < ChunkEnd(chunk, chunkSize, T) :: InChunk(t, chunkSize, chunk)
  {
    assert (chunk + 1) * chunkSize == chunk * chunkSize + chunkSize;
    forall t | ChunkStart(chunk, chunkSize) <= t < ChunkEnd(chunk, chunkSize, T)
      ensures InChunk(t, chunkSize, chunk)
    {
      DivUnique(t, chunkSize, chunk, t - chunk * chunkSize);
    }
  }

  predicate InChunk(t: int, chunkSize: nat, chunk: nat)
    requires chunkSize > 0
  {
    t / chunkSize == chunk
  }

  lemma OwnChunk(t: nat, chunkSize: nat, T: nat)
    requires chunkSize > 0 && t < T
    ensures t / chunkSize < Chunks(T, chunkSize)
    ensures ChunkStart(t / chunkSize, chunkSize) <= t < ChunkEnd(t / chunkSize, chunkSize, T) <= T
  {
    DivMonotone(t, T, chunkSize);
    assert (t / chunkSize + 1) * chunkSize == t / chunkSize * chunkSize + chunkSize;
  }

  lemma AllChunks(T: nat, chunkSize: nat)
    requires chunkSize > 0
    ensures ChunkStart(Chunks(T, chunkSize), chunkSize) >= T
  {
    assert (T / chunkSize + 1) * chunkSize == T / chunkSize * chunkSize + chunkSize;
  }

  // ---------------------------------------------------------------- what a token's row ends with

  /** The tokens of one chunk. */
  function NthPart(topK: nat, b: Batch, plan: Plan, chunk: nat): Batch
    requires plan.chunkSize > 0 && chunk < Chunks(|b.xs|, plan.chunkSize) && |b.ids| == |b.weights| == |b.xs| * topK
  {
    ChunkBounds(chunk, plan.chunkSize, |b.xs|);
    Part(b, topK, ChunkStart(chunk, plan.chunkSize), ChunkEnd(chunk, plan.chunkSize, |b.xs|))
  }

  /** The tokens that are run together with token `t`. */
  function OwnPart(topK: nat, b: Batch, plan: Plan, t: nat): Batch
    requires plan.chunkSize > 0 && t < |b.xs| && |b.ids| == |b.weights| == |b.xs| * topK
  {
    OwnChunk(t, plan.chunkSize, |b.xs|);
    NthPart(topK, b, plan, t / plan.chunkSize)
  }

  /** A shorter chunk after the first gets a configuration of its own. */
  function BlocksFor(plan: Plan, T: nat, chunk: nat): Blocks {
    var begin, end := ChunkStart(chunk, plan.chunkSize), ChunkEnd(chunk, plan.chunkSize, T);
    if begin <= end && end - begin < plan.chunkSize && chunk > 0 then plan.config(end - begin)
    else plan.config(Min(T, plan.chunkSize))
  }

  function LayoutOf(m: Moe, part: Batch, allRoutes: nat, blocks: Blocks, plan: Plan): Alignment {
    ChooseAlignment(m, part.ids, allRoutes, blocks.m, plan.globalExperts, plan.align)
  }

  lemma LayoutAligned(m: Moe, part: Batch, allRoutes: nat, blocks: Blocks, plan: Plan)
    requires ValidPlan(plan) && Positive4(blocks) && |part.ids| <= allRoutes
    ensures var al := LayoutOf(m, part, allRoutes, blocks, plan);
            && IsAligned(al, Experts(m, part.ids), blocks.m)
            && (al.sorted.Some? ==> al.postPadded <= |al.sorted.value|)
            && (al.sorted.None? <==> Naive(m, |part.ids|, plan.globalExperts))
  {
    ChosenIsAligned(m, part.ids, allRoutes, blocks.m, plan.globalExperts, plan.align);
  }

  /** The stored cell of token `t` when its chunk is run from cache contents `before`. */
  function PartCell(m: Moe, part: Batch, al: Alignment, before: seq<real>, t: nat, d: int): real
    requires ValidBatch(m, part) && (al.sorted.Some? ==> al.postPadded <= |al.sorted.value|)
    requires t < |part.xs| && 0 <= d < m.hidden
  {
    ChunkRow(m, part.xs, part.ids, part.weights, al, before, t, d)
  }

  function NthLayout(m: Moe, b: Batch, plan: Plan, chunk: nat): Alignment
    requires plan.chunkSize > 0 && chunk < Chunks(|b.xs|, plan.chunkSize) && |b.ids| == |b.weights| == |b.xs| * m.topK
  {
    LayoutOf(m, NthPart(m.topK, b, plan, chunk), |b.ids|, BlocksFor(plan, |b.xs|, chunk), plan)
  }

  function OwnLayout(m: Moe, b: Batch, plan: Plan, t: nat): Alignment
    requires plan.chunkSize > 0 && t < |b.xs| && |b.ids| == |b.weights| == |b.xs| * m.topK
  {
    OwnChunk(t, plan.chunkSize, |b.xs|);
    NthLayout(m, b, plan, t / plan.chunkSize)
  }

  lemma NthReady(m: Moe, b: Batch, plan: Plan, chunk: nat)
    requires ValidBatch(m, b) && ValidPlan(plan) && chunk < Chunks(|b.xs|, plan.chunkSize)
    ensures ValidBatch(m, NthPart(m.topK, b, plan, chunk)) && Positive4(BlocksFor(plan, |b.xs|, chunk))
    ensures var al := NthLayout(m, b, plan, chunk); al.sorted.Some? ==> al.postPadded <= |al.sorted.value|
  {
    ChunkBounds(chunk, plan.chunkSize, |b.xs|);
    hide ChunkStart, ChunkEnd, ValidMoe, ValidIds;
    PartValid(m, b, ChunkStart(chunk, plan.chunkSize), ChunkEnd(chunk, plan.chunkSize, |b.xs|));
    LayoutAligned(m, NthPart(m.topK, b, plan, chunk), |b.ids|, BlocksFor(plan, |b.xs|, chunk), plan);
  }

  /** What the shared cache holds when a chunk begins, if it holds `start` when the call begins. */
  function CacheAt(m: Moe, b: Batch, plan: Plan, start: seq<real>, chunk: nat): (cache: seq<real>)
    requires ValidBatch(m, b) && ValidPlan(plan) && chunk <= Chunks(|b.xs|, plan.chunkSize)
    ensures |cache| == |start|
  {
    if chunk == 0 then start
    else
      NthReady(m, b, plan, chunk - 1);
      PartCache(m, NthPart(m.topK, b, plan, chunk - 1), NthLayout(m, b, plan, chunk - 1), CacheAt(m, b, plan, start, chunk - 1))
  }

  function PartCache(m: Moe, part: Batch, al: Alignment, before: seq<real>): (after: seq<real>)
    requires ValidBatch(m, part) && (al.sorted.Some? ==> al.postPadded <= |al.sorted.value|)
    ensures |after| == |before|
  {
    ChunkCache(m, part.xs, part.ids, part.weights, al, before)
  }

  ghost predicate OwnReady(m: Moe, b: Batch, plan: Plan, t: nat)
    requires plan.chunkSize > 0 && t < |b.xs| && |b.ids| == |b.weights| == |b.xs| * m.topK
  {
    && ChunkStart(t / plan.chunkSize, plan.chunkSize) <= t
    && t - ChunkStart(t / plan.chunkSize, plan.chunkSize) < |OwnPart(m.topK, b, plan, t).xs|
    && ValidBatch(m, OwnPart(m.topK, b, plan, t))
    && (OwnLayout(m, b, plan, t).sorted.Some? ==> OwnLayout(m, b, plan, t).postPadded <= |OwnLayout(m, b, plan, t).sorted.value|)
  }

  lemma AlwaysReady(m: Moe, b: Batch, plan: Plan, t: nat)
    requires ValidBatch(m, b) && ValidPlan(plan) && t < |b.xs|
    ensures OwnReady(m, b, plan, t) && Positive4(BlocksFor(plan, |b.xs|, t / plan.chunkSize))
  {
    OwnChunk(t, plan.chunkSize, |b.xs|);
    hide ChunkStart, ChunkEnd, ValidMoe, ValidIds;
    NthReady(m, b, plan, t / plan.chunkSize);
  }

  /** The stored cell of token `t` of a call, when its chunk starts from cache contents `before`. */
  function OwnCell(m: Moe, b: Batch, plan: Plan, before: seq<real>, t: nat, d: int): real
    requires plan.chunkSize > 0 && t < |b.xs| && |b.ids| == |b.weights| == |b.xs| * m.topK
    requires OwnReady(m, b, plan, t) && 0 <= d < m.hidden
  {
    PartCell(m, OwnPart(m.topK, b, plan, t), OwnLayout(m, b, plan, t), before, t - ChunkStart(t / plan.chunkSize, plan.chunkSize), d)
  }

  /** The stored cell of token `t` of a call that begins with `start` in the shared cache. */
  function CallCell(m: Moe, b: Batch, plan: Plan, start: seq<real>, t: nat, d: int): real
    requires ValidBatch(m, b) && ValidPlan(plan) && t < |b.xs| && 0 <= d < m.hidden
  {
    AlwaysReady(m, b, plan, t);
    OwnChunk(t, plan.chunkSize, |b.xs|);
    OwnCell(m, b, plan, CacheAt(m, b, plan, start, t / plan.chunkSize), t, d)
  }

  /** The shared cache has room for the largest chunk in the wider of its two views. */
  function ScratchSize(T: nat, hidden: nat, inter: nat, topK: nat, chunkSize: nat): nat {
    Min(T, chunkSize) * topK * Widest(hidden, inter)
  }

  function Widest(hidden: nat, inter: nat): nat { if 2 * inter <= hidden then hidden else 2 * inter }

  /** The memory that the shared cache is allocated in. */
  function Scratch(m: Moe, T: nat, plan: Plan, memory: nat -> real): (start: seq<real>)
    ensures |start| == ScratchSize(T, m.hidden, m.inter, m.topK, plan.chunkSize)
  {
    seq(ScratchSize(T, m.hidden, m.inter, m.topK, plan.chunkSize), x requires 0 <= x => memory(x))
  }

  /** Output row `t` is what the call stores. */
  ghost predicate RowStored(m: Moe, b: Batch, plan: Plan, start: seq<real>, out: array<real>, t: nat)
    requires ValidBatch(m, b) && ValidPlan(plan) && t < |b.xs| && Fits(out.Length, |b.xs|, m.hidden)
    reads out
  {
    forall d | 0 <= d < m.hidden :: Cell(out, |b.xs|, m.hidden, t, d) == CallCell(m, b, plan, start, t, d)
  }

  /** Output row `t` is the routed sum of the token that was there at the start. */
  ghost predicate TokenDone(m: Moe, xs: seq<seq<real>>, ids: seq<int>, weights: seq<real>, out: array<real>, t: int)
    requires ValidMoe(m) && ValidIds(m, ids) && |ids| == |weights| == |xs| * m.topK && IsMatrix(xs, |xs|, m.hidden)
    requires Fits(out.Length, |xs|, m.hidden) && 0 <= t < |xs|
    reads out
  {
    && (t + 1) * m.topK <= |ids|
    && forall d | 0 <= d < m.hidden ::
         Cell(out, |xs|, m.hidden, t, d) == TokenOut(m, xs[t], ids, weights, t, d)
  }

  // ---------------------------------------------------------------- exactly which tokens are right

  /** Token `t` names an expert in every slot, or an expert map says which of them are elsewhere. */
  ghost predicate Settles(m: Moe, ids: seq<int>, t: int)
    requires m.topK > 0
  {
    m.expertMap.Some? || NamesExperts(m.topK, ids, t)
  }

  /** Tokens, and routes, of the chunk that token `t` is run in. */
  function OwnTokens(T: nat, chunkSize: nat, t: nat): nat
    requires chunkSize > 0 && t < T
  {
    OwnChunk(t, chunkSize, T);
    ChunkEnd(t / chunkSize, chunkSize, T) - ChunkStart(t / chunkSize, chunkSize)
  }

  function OwnRoutes(T: nat, chunkSize: nat, topK: nat, t: nat): nat
    requires chunkSize > 0 && t < T
  {
    OwnTokens(T, chunkSize, t) * topK
  }

  /** A chunk has as many tokens as its size, or as are left. */
  lemma OwnTokensIs(T: nat, chunkSize: nat, t: nat)
    requires chunkSize > 0 && t < T
    ensures t / chunkSize * chunkSize <= t
    ensures OwnTokens(T, chunkSize, t) == if T - t / chunkSize * chunkSize < chunkSize then T - t / chunkSize * chunkSize else chunkSize
  {
    assert (t / chunkSize + 1) * chunkSize == t / chunkSize * chunkSize + chunkSize;
  }

  /** The code's own test, on the tokens of the chunk. */
  predicate OwnNaive(m: Moe, T: nat, plan: Plan, t: nat)
    requires plan.chunkSize > 0 && t < T
  {
    Naive(m, OwnRoutes(T, plan.chunkSize, m.topK, t), plan.globalExperts)
  }

  lemma NamesInPart(topK: nat, b: Batch, begin: nat, end: nat, t: nat)
    requires topK > 0 && begin <= t < end <= |b.xs| && |b.ids| == |b.weights| == |b.xs| * topK
    ensures NamesExperts(topK, b.ids, t) <==> NamesExperts(topK, Part(b, topK, begin, end).ids, t - begin)
  {
    SliceBounds(begin, end, |b.xs|, topK);
    var lo, hi := begin * topK, end * topK;
    assert Part(b, topK, begin, end).ids == b.ids[lo..hi];
    InSliceAll(begin, end, t, topK);
    if NamesExperts(topK, b.ids, t) {
      NamesFromWhole(topK, b.ids, lo, hi, begin, t);
    } else if NamesExperts(topK, b.ids[lo..hi], t - begin) {
      NamesFromPart(topK, b.ids, lo, hi, begin, t);
    }
  }

  lemma NamesFromWhole(topK: nat, ids: seq<int>, lo: nat, hi: nat, begin: nat, t: nat)
    requires topK > 0 && lo == begin * topK && lo <= hi <= |ids| && begin <= t
    requires NamesExperts(topK, ids, t)
    ensures NamesExperts(topK, ids[lo..hi], t - begin)
  {
    forall r | 0 <= r < hi - lo && r / topK == t - begin
      ensures ids[lo..hi][r] != -1
    {
      DivUnique(lo + r, topK, t, r % topK);
      assert ids[lo..hi][r] == ids[lo + r];
    }
  }

  /** The routes of token `t` lie in the slice, at its place in the slice. */
  ghost predicate RoutesInSlice(topK: nat, lo: nat, hi: nat, begin: nat, t: nat)
    requires topK > 0 && begin <= t
  {
    forall r: nat {:trigger r / topK} | r / topK == t :: lo <= r < hi && (r - lo) / topK == t - begin
  }

  lemma InSliceAll(begin: nat, end: nat, t: nat, topK: nat)
    requires topK > 0 && begin <= t < end
    ensures RoutesInSlice(topK, begin * topK, end * topK, begin, t)
  {
    forall r: nat {:trigger r / topK} | r / topK == t
      ensures begin * topK <= r < end * topK && (r - begin * topK) / topK == t - begin
    {
      InSlice(r, t, begin, end, topK);
    }
  }

  lemma NamesFromPart(topK: nat, ids: seq<int>, lo: nat, hi: nat, begin: nat, t: nat)
    requires topK > 0 && lo <= hi <= |ids| && begin <= t && RoutesInSlice(topK, lo, hi, begin, t)
    requires NamesExperts(topK, ids[lo..hi], t - begin)
    ensures NamesExperts(topK, ids, t)
  {
    forall r | 0 <= r < |ids| && r / topK == t
      ensures ids[r] != -1
    {
      assert ids[lo..hi][r - lo] == ids[r];
    }
  }

  lemma InSlice(r: nat, t: nat, begin: nat, end: nat, topK: nat)
    requires topK > 0 && begin <= t < end && r / topK == t
    ensures 0 <= begin * topK <= r < end * topK && (r - begin * topK) / topK == t - begin
  {
    MulGe(t, begin, topK);
    MulGe(end, t + 1, topK);
    assert (t + 1) * topK == t * topK + topK;
    assert (t - begin) * topK == t * topK - begin * topK;
    DivUnique(r - begin * topK, topK, t - begin, r % topK);
  }

  /** A token that settles, or whose own chunk is naive, ends with its routed sum whatever the cache held. */
  lemma OwnCellRight(m: Moe, b: Batch, plan: Plan, before: seq<real>, t: nat, d: int)
    requires ValidBatch(m, b) && ValidPlan(plan) && t < |b.xs| && 0 <= d < m.hidden
    requires Settles(m, b.ids, t) || OwnNaive(m, |b.xs|, plan, t)
    ensures OwnReady(m, b, plan, t) && (t + 1) * m.topK <= |b.ids|
    ensures OwnCell(m, b, plan, before, t, d) == TokenOut(m, b.xs[t], b.ids, b.weights, t, d)
  {
    AlwaysReady(m, b, plan, t);
    OwnChunk(t, plan.chunkSize, |b.xs|);
    OwnWritten(m, b, plan, t);
    hide ChunkStart, ChunkEnd, ChunkRow, TokenOut, ValidMoe, ValidIds, OwnLayout, TokenWritten, Settles, OwnNaive;
    var begin, end := ChunkStart(t / plan.chunkSize, plan.chunkSize), ChunkEnd(t / plan.chunkSize, plan.chunkSize, |b.xs|);
    var part := OwnPart(m.topK, b, plan, t);
    WrittenRowIsTokenOut(m, part.xs, part.ids, part.weights, OwnLayout(m, b, plan, t), before, t - begin, d);
    TokenRouting(m, b, begin, end, t, d);
  }

  /** The token's routes are all written by its own chunk. */
  lemma OwnWritten(m: Moe, b: Batch, plan: Plan, t: nat)
    requires ValidBatch(m, b) && ValidPlan(plan) && t < |b.xs| && OwnReady(m, b, plan, t)
    requires Settles(m, b.ids, t) || OwnNaive(m, |b.xs|, plan, t)
    ensures TokenWritten(m, OwnLayout(m, b, plan, t), |OwnPart(m.topK, b, plan, t).ids|,
                         t - ChunkStart(t / plan.chunkSize, plan.chunkSize))
  {
    AlwaysReady(m, b, plan, t);
    OwnChunk(t, plan.chunkSize, |b.xs|);
    assert m.topK > 0;
    hide ChunkStart, ChunkEnd, ValidMoe, ValidIds, BlocksFor, LayoutOf, TokenWritten, NamesExperts, IsAligned;
    var begin, end := ChunkStart(t / plan.chunkSize, plan.chunkSize), ChunkEnd(t / plan.chunkSize, plan.chunkSize, |b.xs|);
    var part, blocks := OwnPart(m.topK, b, plan, t), BlocksFor(plan, |b.xs|, t / plan.chunkSize);
    LayoutAligned(m, part, |b.ids|, blocks, plan);
    NamesInPart(m.topK, b, begin, end, t);
    PartWritten(m, part, OwnLayout(m, b, plan, t), blocks.m, t - begin);
  }

  lemma PartWritten(m: Moe, part: Batch, al: Alignment, bm: nat, t: nat)
    requires ValidMoe(m) && bm > 0 && IsAligned(al, Experts(m, part.ids), bm)
    requires al.sorted.Some? ==> al.postPadded <= |al.sorted.value|
    requires m.expertMap.Some? || al.sorted.None? || NamesExperts(m.topK, part.ids, t)
    ensures TokenWritten(m, al, |part.ids|, t)
  {
    if m.expertMap.None? {
      assert Experts(m, part.ids) == part.ids;
      NamedIsWritten(m, part.ids, al, bm, t);
    }
  }

  /** The aligner leaves out routes that name no expert. */
  ghost predicate AlignerDrops(align: (seq<int>, nat) -> Alignment) {
    forall experts, bm | bm > 0 :: DropsMissing(align(experts, bm), experts)
  }

  /** Such plans exist, with any chunk size and expert count. */
  lemma SomePlan(chunkSize: nat, globalExperts: nat) returns (plan: Plan)
    requires chunkSize > 0
    ensures plan.chunkSize == chunkSize && plan.globalExperts == globalExperts
    ensures ValidPlan(plan) && AlignerDrops(plan.align)
  {
    plan := Plan(chunkSize, _ => Blocks(1, 1, 1, 1), OneBlockEach, globalExperts, InOrder, InOrder);
    forall experts: seq<int>, bm: nat | bm > 0
      ensures IsSorted(plan.align(experts, bm), experts, bm) && DropsMissing(plan.align(experts, bm), experts)
    {
      OneBlockEachIsSorted(experts, bm);
    }
    forall n: int
      ensures Schedules(InOrder(n), n)
    {
      forall x | 0 <= x < n
        ensures x in InOrder(n)
      {
        assert InOrder(n)[x] == x;
      }
    }
  }

  /** The programs of a launch, in the order of their ids. */
  function InOrder(n: int): seq<int> { if n <= 0 then [] else seq(n, i => i) }

  /**
   A call stores token `t` right for every layer of a shape without an expert map, every input and
   every content of the memory that the shared cache is allocated in.
   */
  ghost predicate CallRight(s: Shape, T: nat, ids: seq<int>, plan: Plan, t: nat)
    requires t < T && ValidPlan(plan)
  {
    forall m: Moe, b: Batch, memory: nat -> real |
      HasShape(m, s) && ValidBatch(m, b) && |b.xs| == T && b.ids == ids ::
      CallRowRight(m, b, plan, Scratch(m, T, plan, memory), t)
  }

  ghost predicate CallRowRight(m: Moe, b: Batch, plan: Plan, start: seq<real>, t: nat)
    requires ValidBatch(m, b) && ValidPlan(plan) && t < |b.xs|
  {
    RoutesEnd(m.topK, |b.xs|, t);
    forall d | 0 <= d < m.hidden ::
      CallCell(m, b, plan, start, t, d) == TokenOut(m, b.xs[t], b.ids, b.weights, t, d)
  }

  lemma RoutesEnd(topK: nat, T: nat, t: nat)
    requires t < T
    ensures (t + 1) * topK <= T * topK
  {
    MulGe(T, t + 1, topK);
  }

  /**
   Without an expert map and with an aligner that drops missing experts, a token's output row is its
   routed sum, for all layers of a shape, inputs and contents of the new cache, exactly when the token
   names an expert in every slot or its own chunk is small enough for the naive layout.
   */
  lemma CallRightIff(s: Shape, T: nat, ids: seq<int>, plan: Plan, t: nat)
    requires s.topK > 0 && |ids| == T * s.topK && t < T && IdsInRange(s, ids)
    requires ValidPlan(plan) && AlignerDrops(plan.align)
    ensures var rest := T - t / plan.chunkSize * plan.chunkSize;
            var tokens := if rest < plan.chunkSize then rest else plan.chunkSize;
            CallRight(s, T, ids, plan, t) <==>
              s.hidden == 0 || NamesExperts(s.topK, ids, t) || tokens * s.topK * 4 <= plan.globalExperts
  {
    OwnTokensIs(T, plan.chunkSize, t);
    if s.hidden == 0 || NamesExperts(s.topK, ids, t) || OwnRoutes(T, plan.chunkSize, s.topK, t) * SPARSITY_FACTOR <= plan.globalExperts {
      forall m: Moe, b: Batch, memory: nat -> real |
        HasShape(m, s) && ValidBatch(m, b) && |b.xs| == T && b.ids == ids
        ensures CallRowRight(m, b, plan, Scratch(m, T, plan, memory), t)
      {
        CallRowIsRight(m, b, plan, Scratch(m, T, plan, memory), t);
      }
    } else {
      OnesCallWrong(s, T, ids, plan, t);
    }
  }

  lemma CallRowIsRight(m: Moe, b: Batch, plan: Plan, start: seq<real>, t: nat)
    requires ValidBatch(m, b) && ValidPlan(plan) && t < |b.xs|
    requires m.hidden == 0 || Settles(m, b.ids, t) || OwnNaive(m, |b.xs|, plan, t)
    ensures CallRowRight(m, b, plan, start, t)
  {
    OwnChunk(t, plan.chunkSize, |b.xs|);
    AlwaysReady(m, b, plan, t);
    RoutesEnd(m.topK, |b.xs|, t);
    hide OwnCell, TokenOut, ValidMoe, ValidIds, ValidPlan, Settles, OwnNaive, CacheAt, OwnReady;
    forall d | 0 <= d < m.hidden
      ensures CallCell(m, b, plan, start, t, d) == TokenOut(m, b.xs[t], b.ids, b.weights, t, d)
    {
      OwnCellRight(m, b, plan, CacheAt(m, b, plan, start, t / plan.chunkSize), t, d);
    }
  }

  // The witness of `StaleRows`, over all the chunks up to the token's own: each leaves a cache of ones.

  function OnesBatch(s: Shape, T: nat, ids: seq<int>): Batch {
    Batch(Units(s, T), ids, Constant(|ids|))
  }

  lemma OnesPart(s: Shape, T: nat, ids: seq<int>, begin: nat, end: nat)
    requires |ids| == T * s.topK && begin <= end <= T && IdsInRange(s, ids)
    ensures var part := Part(OnesBatch(s, T, ids), s.topK, begin, end);
            part == OnesBatch(s, end - begin, part.ids) && IdsInRange(s, part.ids)
  {
    SliceBounds(begin, end, T, s.topK);
    var part := Part(OnesBatch(s, T, ids), s.topK, begin, end);
    assert part.xs == Units(s, end - begin);
    assert part.weights == Constant(|part.ids|);
  }

  /** A chunk of the witness is a witness of its own; if it is not naive its layout drops missing experts. */
  lemma OnesChunk(s: Shape, T: nat, ids: seq<int>, plan: Plan, chunk: nat) returns (bm: nat)
    requires s.topK > 0 && |ids| == T * s.topK && IdsInRange(s, ids)
    requires ValidPlan(plan) && AlignerDrops(plan.align) && chunk < Chunks(T, plan.chunkSize)
    requires ChunkTokens(T, plan.chunkSize, chunk) * s.topK * SPARSITY_FACTOR > plan.globalExperts
    ensures var b := OnesBatch(s, T, ids);
            var part := NthPart(s.topK, b, plan, chunk);
            && part == OnesBatch(s, |part.xs|, part.ids) && IdsInRange(s, part.ids) && |part.ids| == |part.xs| * s.topK
            && Ones(s).topK == s.topK && bm > 0
            && IsAligned(NthLayout(Ones(s), b, plan, chunk), part.ids, bm)
            && DropsMissing(NthLayout(Ones(s), b, plan, chunk), part.ids)
            && NthLayout(Ones(s), b, plan, chunk).sorted.Some?
  {
    var w, b := Ones(s), OnesBatch(s, T, ids);
    OnesAreValid(s, T, ids);
    NthReady(w, b, plan, chunk);
    ChunkBounds(chunk, plan.chunkSize, T);
    var part, blocks := NthPart(s.topK, b, plan, chunk), BlocksFor(plan, T, chunk);
    OnesPart(s, T, ids, ChunkStart(chunk, plan.chunkSize), ChunkEnd(chunk, plan.chunkSize, T));
    LayoutAligned(w, part, |ids|, blocks, plan);
    OnesDropped(s, part, |ids|, blocks, plan);
    bm := blocks.m;
  }

  function ChunkTokens(T: nat, chunkSize: nat, chunk: nat): int {
    ChunkEnd(chunk, chunkSize, T) - ChunkStart(chunk, chunkSize)
  }

  lemma OnesDropped(s: Shape, part: Batch, allRoutes: nat, blocks: Blocks, plan: Plan)
    requires ValidPlan(plan) && AlignerDrops(plan.align) && Positive4(blocks)
    ensures Experts(Ones(s), part.ids) == part.ids
    ensures DropsMissing(LayoutOf(Ones(s), part, allRoutes, blocks, plan), part.ids)
    ensures Ones(s).expertMap.None?
  {
    assert Experts(Ones(s), part.ids) == part.ids;
  }

  /** The chunks before a token's own are full, so no smaller. */
  lemma EarlierChunk(t: nat, chunkSize: nat, T: nat, chunk: nat, topK: nat)
    requires chunkSize > 0 && t < T && chunk < t / chunkSize
    ensures chunk < Chunks(T, chunkSize) && OwnRoutes(T, chunkSize, topK, t) <= ChunkTokens(T, chunkSize, chunk) * topK
  {
    OwnChunk(t, chunkSize, T);
    var own := t / chunkSize;
    ChunkBounds(own, chunkSize, T);
    MulGe(own, chunk + 1, chunkSize);
    assert (chunk + 1) * chunkSize == chunk * chunkSize + chunkSize;
    MulGe(ChunkTokens(T, chunkSize, chunk), OwnTokens(T, chunkSize, t), topK);
  }

  /** When the token's chunk begins the witness's cache is still all ones. */
  lemma {:induction false} OnesCacheAt(s: Shape, T: nat, ids: seq<int>, plan: Plan, t: nat, n: nat, chunk: nat)
    requires s.topK > 0 && |ids| == T * s.topK && t < T && IdsInRange(s, ids) && s.hidden > 0
    requires ValidPlan(plan) && AlignerDrops(plan.align) && chunk <= t / plan.chunkSize
    requires OwnRoutes(T, plan.chunkSize, s.topK, t) * SPARSITY_FACTOR > plan.globalExperts
    ensures ValidBatch(Ones(s), OnesBatch(s, T, ids)) && chunk <= Chunks(T, plan.chunkSize)
    ensures CacheAt(Ones(s), OnesBatch(s, T, ids), plan, Constant(n), chunk) == Constant(n)
  {
    OnesAreValid(s, T, ids);
    OwnChunk(t, plan.chunkSize, T);
    if chunk > 0 {
      hide OwnRoutes, Chunks, ChunkTokens, ValidPlan, AlignerDrops, Ones, Units, Constant, IsAligned, DropsMissing, ChunkCache, IdsInRange, ValidChunk, HasShape;
      OnesCacheAt(s, T, ids, plan, t, n, chunk - 1);
      EarlierChunk(t, plan.chunkSize, T, chunk - 1, s.topK);
      var bm := OnesChunk(s, T, ids, plan, chunk - 1);
      var part := NthPart(s.topK, OnesBatch(s, T, ids), plan, chunk - 1);
      OnesLeft(s, |part.xs|, part.ids, NthLayout(Ones(s), OnesBatch(s, T, ids), plan, chunk - 1), bm, n);
    }
  }

  lemma OnesCallWrong(s: Shape, T: nat, ids: seq<int>, plan: Plan, t: nat)
    requires s.topK > 0 && |ids| == T * s.topK && t < T && IdsInRange(s, ids)
    requires ValidPlan(plan) && AlignerDrops(plan.align)
    requires s.hidden > 0 && !NamesExperts(s.topK, ids, t)
    requires OwnRoutes(T, plan.chunkSize, s.topK, t) * SPARSITY_FACTOR > plan.globalExperts
    ensures !CallRight(s, T, ids, plan, t)
  {
    OnesAreValid(s, T, ids);
    var w, b := Ones(s), OnesBatch(s, T, ids);
    var memory: nat -> real := _ => 1.0;
    var n := ScratchSize(T, s.hidden, s.inter, s.topK, plan.chunkSize);
    OnesCacheAt(s, T, ids, plan, t, n, t / plan.chunkSize);
    OnesOwnCell(s, T, ids, plan, t, n);
    OnesScratch(s, T, plan, memory);
    hide TokenOut, OwnCell, CacheAt, Ones, Units, Constant, ValidPlan, ValidChunk, OwnReady, Scratch, HasShape;
    assert !CallRowRight(w, b, plan, Scratch(w, T, plan, memory), t) by {
      OnesHaveNoMap(s);
      OnesRows(s, T, ids, T, ids, t, t);
      AlwaysReady(w, b, plan, t);
      OwnChunk(t, plan.chunkSize, T);
      RoutesEnd(s.topK, T, t);
      assert CallCell(w, b, plan, Scratch(w, T, plan, memory), t, 0) != TokenOut(w, b.xs[t], b.ids, b.weights, t, 0);
    }
  }

  lemma OnesScratch(s: Shape, T: nat, plan: Plan, memory: nat -> real)
    requires forall x: nat :: memory(x) == 1.0
    ensures Scratch(Ones(s), T, plan, memory) == Constant(ScratchSize(T, s.hidden, s.inter, s.topK, plan.chunkSize))
  {
  }

  /** The new cache holds any chunk's routes in both views. */
  lemma ScratchHolds(s: Shape, T: nat, plan: Plan, t: nat)
    requires plan.chunkSize > 0 && t < T
    ensures CacheHolds(s, Constant(ScratchSize(T, s.hidden, s.inter, s.topK, plan.chunkSize)), OwnRoutes(T, plan.chunkSize, s.topK, t))
  {
    OwnChunk(t, plan.chunkSize, T);
    ChunkBounds(t / plan.chunkSize, plan.chunkSize, T);
    var M, n := Min(T, plan.chunkSize), OwnRoutes(T, plan.chunkSize, s.topK, t);
    var widest := Widest(s.hidden, s.inter);
    MulGe(M, OwnTokens(T, plan.chunkSize, t), s.topK);
    CacheFits(M * s.topK, n, 2 * s.inter, widest, M * s.topK * widest);
    CacheFits(M * s.topK, n, s.hidden, widest, M * s.topK * widest);
  }

  lemma CacheFits(routes: nat, chunkRoutes: nat, cols: nat, widest: nat, length: nat)
    requires chunkRoutes <= routes && cols <= widest && length == routes * widest
    ensures Fits(length, chunkRoutes, cols)
  {
    MulGe(routes, chunkRoutes, widest);
    MulGe(widest, cols, chunkRoutes);
    assert widest * chunkRoutes == chunkRoutes * widest && cols * chunkRoutes == chunkRoutes * cols;
  }

  lemma OnesOwnCell(s: Shape, T: nat, ids: seq<int>, plan: Plan, t: nat, n: nat)
    requires s.topK > 0 && |ids| == T * s.topK && t < T && IdsInRange(s, ids)
    requires ValidPlan(plan) && AlignerDrops(plan.align) && n == ScratchSize(T, s.hidden, s.inter, s.topK, plan.chunkSize)
    requires s.hidden > 0 && !NamesExperts(s.topK, ids, t)
    requires OwnRoutes(T, plan.chunkSize, s.topK, t) * SPARSITY_FACTOR > plan.globalExperts
    ensures HasShape(Ones(s), s) && ValidBatch(Ones(s), OnesBatch(s, T, ids)) && OwnReady(Ones(s), OnesBatch(s, T, ids), plan, t)
    ensures (t + 1) * s.topK <= |ids|
    ensures OwnCell(Ones(s), OnesBatch(s, T, ids), plan, Constant(n), t, 0)
          > TokenOut(Ones(s), Unit(s.hidden), ids, Constant(|ids|), t, 0)
  {
    OnesAreValid(s, T, ids);
    var w, b := Ones(s), OnesBatch(s, T, ids);
    AlwaysReady(w, b, plan, t);
    var part, al, at := OwnPart(s.topK, b, plan, t), OwnLayout(w, b, plan, t), OwnPlace(plan, t);
    ScratchHolds(s, T, plan, t);
    OwnRoutesIs(s.topK, b, plan, t);
    var bm := OnesPartFacts(s, T, ids, plan, t);
    hide Ones, Units, OnesBatch, Constant, Unit, IsAligned, DropsMissing, IdsInRange, ValidMoe, ValidIds,
      ChunkRow, TokenOut, OwnCell, OwnPart, OwnLayout, OwnPlace, OwnRoutes, ValidPlan, AlignerDrops, OwnReady, NamesExperts, IsMatrix, CacheHolds;
    var r := MissingRoute(s.topK, part.ids, at);
    OnesAreValid(s, |part.xs|, part.ids);
    OnesRowWrong(s, |part.xs|, part.ids, al, bm, n, at, r, 0);
    OwnCellIsPart(w, b, plan, Constant(n), t, 0);
    OnesRows(s, T, ids, |part.xs|, part.ids, t, at);
  }

  lemma OwnRoutesIs(topK: nat, b: Batch, plan: Plan, t: nat)
    requires plan.chunkSize > 0 && t < |b.xs| && |b.ids| == |b.weights| == |b.xs| * topK
    ensures |OwnPart(topK, b, plan, t).ids| == OwnRoutes(|b.xs|, plan.chunkSize, topK, t)
  {
  }

  lemma MissingRoute(topK: nat, ids: seq<int>, t: nat) returns (r: nat)
    requires topK > 0 && !NamesExperts(topK, ids, t)
    ensures r < |ids| && r / topK == t && ids[r] == -1
  {
    r :| 0 <= r < |ids| && r / topK == t && ids[r] == -1;
  }

  lemma OnesRows(s: Shape, T: nat, ids: seq<int>, n: nat, part: seq<int>, t: nat, at: nat)
    requires t < T && at < n
    ensures OnesBatch(s, T, ids).xs[t] == Unit(s.hidden) == OnesBatch(s, n, part).xs[at]
    ensures OnesBatch(s, T, ids).weights == Constant(|ids|) && OnesBatch(s, n, part).weights == Constant(|part|)
    ensures OnesBatch(s, n, part).xs == Units(s, n) && OnesBatch(s, T, ids).ids == ids && OnesBatch(s, n, part).ids == part
    ensures Ones(s).hidden == s.hidden && Ones(s).topK == s.topK
  {
  }

  /** The place of a token in its chunk. */
  function OwnPlace(plan: Plan, t: nat): int
    requires plan.chunkSize > 0
  {
    t - ChunkStart(t / plan.chunkSize, plan.chunkSize)
  }

  /** A call's cell, and the routed sum it should be, are those of its chunk. */
  lemma OwnCellIsPart(m: Moe, b: Batch, plan: Plan, before: seq<real>, t: nat, d: int)
    requires ValidBatch(m, b) && ValidPlan(plan) && t < |b.xs| && 0 <= d < m.hidden
    ensures OwnReady(m, b, plan, t) && 0 <= OwnPlace(plan, t) < |OwnPart(m.topK, b, plan, t).xs|
    ensures (t + 1) * m.topK <= |b.ids| && (OwnPlace(plan, t) + 1) * m.topK <= |OwnPart(m.topK, b, plan, t).ids|
    ensures var part, al, at := OwnPart(m.topK, b, plan, t), OwnLayout(m, b, plan, t), OwnPlace(plan, t);
            && OwnCell(m, b, plan, before, t, d) == ChunkRow(m, part.xs, part.ids, part.weights, al, before, at, d)
            && TokenOut(m, part.xs[at], part.ids, part.weights, at, d) == TokenOut(m, b.xs[t], b.ids, b.weights, t, d)
  {
    AlwaysReady(m, b, plan, t);
    OwnChunk(t, plan.chunkSize, |b.xs|);
    hide ChunkStart, ChunkEnd, ChunkRow, TokenOut, ValidMoe, ValidIds, BlocksFor, LayoutOf;
    TokenRouting(m, b, ChunkStart(t / plan.chunkSize, plan.chunkSize), ChunkEnd(t / plan.chunkSize, plan.chunkSize, |b.xs|), t, d);
  }

  /** The token's own chunk of the witness: a sorted layout that drops a route of the token. */
  lemma OnesPartFacts(s: Shape, T: nat, ids: seq<int>, plan: Plan, t: nat) returns (bm: nat)
    requires s.topK > 0 && |ids| == T * s.topK && t < T && IdsInRange(s, ids)
    requires ValidPlan(plan) && AlignerDrops(plan.align)
    requires !NamesExperts(s.topK, ids, t)
    requires OwnRoutes(T, plan.chunkSize, s.topK, t) * SPARSITY_FACTOR > plan.globalExperts
    ensures var b := OnesBatch(s, T, ids);
            var part := OwnPart(s.topK, b, plan, t);
            && part == OnesBatch(s, |part.xs|, part.ids) && IdsInRange(s, part.ids) && |part.ids| == |part.xs| * s.topK
            && 0 <= OwnPlace(plan, t) < |part.xs| && !NamesExperts(s.topK, part.ids, OwnPlace(plan, t))
            && Ones(s).topK == s.topK && bm > 0
            && IsAligned(OwnLayout(Ones(s), b, plan, t), part.ids, bm) && DropsMissing(OwnLayout(Ones(s), b, plan, t), part.ids)
            && OwnLayout(Ones(s), b, plan, t).sorted.Some?
  {
    OwnChunk(t, plan.chunkSize, T);
    hide ChunkStart, ChunkEnd, Ones, Units, Constant, NamesExperts, IsAligned, DropsMissing, LayoutOf, IdsInRange, ValidPlan, AlignerDrops;
    bm := OnesChunk(s, T, ids, plan, t / plan.chunkSize);
    NamesInPart(s.topK, OnesBatch(s, T, ids), ChunkStart(t / plan.chunkSize, plan.chunkSize),
                ChunkEnd(t / plan.chunkSize, plan.chunkSize, T), t);
  }
}
