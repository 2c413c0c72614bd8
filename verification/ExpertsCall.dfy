/**
 The mixture-of-experts call as the code runs it: allocate the caches, walk the chunks, and rewrite the
 output rows chunk by chunk, in place or into a fresh tensor.
 */
module ExpertsCall {
  import opened DivMod
  import opened FlatMatrix
  import opened Gemm
  import opened MoeAlignment
  import opened FusedExperts
  import opened StaleRows
  import opened ExpertChunks
  import opened ExpertLaws

  /** The caches are sized for the largest chunk and the wider of their two views. */
  ghost predicate CacheSized(m: Moe, cache13: nat, cache2: nat, chunkRoutes: nat, widest: nat) {
    && 2 * m.inter <= widest && m.hidden <= widest
    && cache13 == chunkRoutes * widest && cache2 == chunkRoutes * m.inter
  }

  /** Runs tokens begin..end from the live input rows and stores their output rows. */
  method ChunkStep(m: Moe, ghost b: Batch, hidden: array<real>, out: array<real>, T: nat, ids: seq<int>, weights: seq<real>,
                   begin: nat, end: nat, blocks: Blocks, plan: Plan, cache13: array<real>, cache2: array<real>,
                   ghost chunkRoutes: nat, ghost widest: nat)
    requires ValidBatch(m, b) && b.ids == ids && b.weights == weights && |b.xs| == T
    requires Fits(hidden.Length, T, m.hidden) && Fits(out.Length, T, m.hidden) && begin < end <= T
    requires Positive4(blocks) && ValidPlan(plan)
    requires cache13 != cache2 && cache13 !in {hidden, out} && cache2 !in {hidden, out}
    requires (end - begin) * m.topK <= chunkRoutes && CacheSized(m, cache13.Length, cache2.Length, chunkRoutes, widest)
    requires forall t | begin <= t < end :: Row(hidden, T, m.hidden, t) == b.xs[t]
    modifies cache13, cache2, out
    ensures ValidBatch(m, Part(b, m.topK, begin, end))
    ensures var part := Part(b, m.topK, begin, end);
            && Fits(cache13.Length, |part.ids|, 2 * m.inter) && Fits(cache13.Length, |part.ids|, m.hidden)
            && (LayoutOf(m, part, |ids|, blocks, plan).sorted.Some? ==>
                  LayoutOf(m, part, |ids|, blocks, plan).postPadded <= |LayoutOf(m, part, |ids|, blocks, plan).sorted.value|)
    ensures forall t, d | begin <= t < end && 0 <= d < m.hidden ::
              Cell(out, T, m.hidden, t, d)
                == PartCell(m, Part(b, m.topK, begin, end), LayoutOf(m, Part(b, m.topK, begin, end), |ids|, blocks, plan),
                            old(cache13[..]), t - begin, d)
    ensures cache13[..] == PartCache(m, Part(b, m.topK, begin, end), LayoutOf(m, Part(b, m.topK, begin, end), |ids|, blocks, plan),
                                     old(cache13[..]))
    ensures forall t, d | 0 <= t < T && !(begin <= t < end) && 0 <= d < m.hidden ::
              Cell(out, T, m.hidden, t, d) == old(Cell(out, T, m.hidden, t, d))
  {
    PartValid(m, b, begin, end);
    ghost var part := Part(b, m.topK, begin, end);
    SliceBounds(begin, end, T, m.topK);
    var currIds, currWeights := ids[begin * m.topK..end * m.topK], weights[begin * m.topK..end * m.topK];
    var curr := seq(end - begin, t requires 0 <= t < end - begin reads hidden => Row(hidden, T, m.hidden, begin + t));
    assert curr == part.xs && currIds == part.ids && currWeights == part.weights;
    LayoutAligned(m, part, |ids|, blocks, plan);
    var al := ChooseAlignment(m, currIds, |ids|, blocks.m, plan.globalExperts, plan.align);
    CacheFits(chunkRoutes, |currIds|, 2 * m.inter, widest, cache13.Length);
    CacheFits(chunkRoutes, |currIds|, m.hidden, widest, cache13.Length);
    CacheFits(chunkRoutes, |currIds|, m.inter, m.inter, cache2.Length);
    hide Cell, ChunkRow, ChunkCache, IsAligned, ChooseAlignment, ValidMoe, ValidIds, CacheSized;
    RunChunk(m, curr, currIds, currWeights, al, blocks, plan.upSchedule, plan.downSchedule, cache13, cache2, out, T, begin);
    forall t, d | begin <= t < end && 0 <= d < m.hidden
      ensures Cell(out, T, m.hidden, t, d) == PartCell(m, part, al, old(cache13[..]), t - begin, d)
    {
      assert Cell(out, T, m.hidden, begin + (t - begin), d)
          == ChunkRow(m, curr, currIds, currWeights, al, old(cache13[..]), t - begin, d);
    }
  }

  /** The rows before `n` are stored. */
  ghost predicate StoredBefore(m: Moe, b: Batch, plan: Plan, start: seq<real>, out: array<real>, n: int)
    requires ValidBatch(m, b) && ValidPlan(plan) && Fits(out.Length, |b.xs|, m.hidden) && n <= |b.xs|
    reads out
  {
    forall t | 0 <= t < n :: RowStored(m, b, plan, start, out, t)
  }

  /** The input rows from `n` on are still the tokens. */
  ghost predicate LiveFrom(xs: seq<seq<real>>, hidden: array<real>, cols: nat, n: int)
    requires Fits(hidden.Length, |xs|, cols) && IsMatrix(xs, |xs|, cols)
    reads hidden
  {
    forall t, d | 0 <= t < |xs| && n <= t && 0 <= d < cols :: Cell(hidden, |xs|, cols, t, d) == xs[t][d]
  }

  /** The arrays of a call: large enough, and the caches apart from the rest and from each other. */
  ghost predicate Separate(m: Moe, b: Batch, plan: Plan, hidden: array<real>, out: array<real>,
                           cache13: array<real>, cache2: array<real>)
  {
    && ValidBatch(m, b) && ValidPlan(plan)
    && Fits(hidden.Length, |b.xs|, m.hidden) && Fits(out.Length, |b.xs|, m.hidden)
    && cache13 != cache2 && cache13 !in {hidden, out} && cache2 !in {hidden, out}
    && CacheSized(m, cache13.Length, cache2.Length, Min(|b.xs|, plan.chunkSize) * m.topK, Widest(m.hidden, m.inter))
  }

  /** Before chunk `chunk`: earlier rows are stored, later rows live, and the cache is where the call has taken it. */
  ghost predicate Progress(m: Moe, b: Batch, plan: Plan, start: seq<real>, hidden: array<real>, out: array<real>,
                           cache13: array<real>, chunk: nat)
    reads hidden, out, cache13
  {
    && ValidBatch(m, b) && ValidPlan(plan) && chunk <= Chunks(|b.xs|, plan.chunkSize)
    && Fits(hidden.Length, |b.xs|, m.hidden) && Fits(out.Length, |b.xs|, m.hidden)
    && StoredBefore(m, b, plan, start, out, Min(ChunkStart(chunk, plan.chunkSize), |b.xs|))
    && LiveFrom(b.xs, hidden, m.hidden, Min(ChunkStart(chunk, plan.chunkSize), |b.xs|))
    && cache13[..] == CacheAt(m, b, plan, start, chunk)
  }

  /** The rows of a chunk are what the call stores, once they are what the chunk makes of the cache at its beginning. */
  lemma RowsOfChunk(m: Moe, b: Batch, plan: Plan, start: seq<real>, out: array<real>, chunk: nat)
    requires ValidBatch(m, b) && ValidPlan(plan) && chunk < Chunks(|b.xs|, plan.chunkSize)
    requires Fits(out.Length, |b.xs|, m.hidden)
    requires ChunkStart(chunk, plan.chunkSize) <= ChunkEnd(chunk, plan.chunkSize, |b.xs|) <= |b.xs|
    requires ValidBatch(m, NthPart(m.topK, b, plan, chunk))
    requires var al := NthLayout(m, b, plan, chunk); al.sorted.Some? ==> al.postPadded <= |al.sorted.value|
    requires forall t, d | ChunkStart(chunk, plan.chunkSize) <= t < ChunkEnd(chunk, plan.chunkSize, |b.xs|) && 0 <= d < m.hidden ::
               Cell(out, |b.xs|, m.hidden, t, d)
                 == PartCell(m, NthPart(m.topK, b, plan, chunk), NthLayout(m, b, plan, chunk), CacheAt(m, b, plan, start, chunk),
                             t - ChunkStart(chunk, plan.chunkSize), d)
    ensures forall t: nat | ChunkStart(chunk, plan.chunkSize) <= t < ChunkEnd(chunk, plan.chunkSize, |b.xs|) ::
              RowStored(m, b, plan, start, out, t)
  {
    ChunkMembers(chunk, plan.chunkSize, |b.xs|);
    hide Cell, ChunkStart, ChunkEnd, ValidMoe, ValidIds, PartCell, CacheAt, LayoutOf, BlocksFor;
    forall t: nat | ChunkStart(chunk, plan.chunkSize) <= t < ChunkEnd(chunk, plan.chunkSize, |b.xs|)
      ensures RowStored(m, b, plan, start, out, t)
    {
      assert InChunk(t, plan.chunkSize, chunk);
      AlwaysReady(m, b, plan, t);
    }
  }

  /** What holds before a chunk, token range and cache spelled out. */
  lemma BeforeChunk(m: Moe, b: Batch, plan: Plan, start: seq<real>, hidden: array<real>, out: array<real>,
                    cache13: array<real>, chunk: nat)
    requires Progress(m, b, plan, start, hidden, out, cache13, chunk) && chunk < Chunks(|b.xs|, plan.chunkSize)
    ensures ValidBatch(m, b) && ValidPlan(plan) && Fits(hidden.Length, |b.xs|, m.hidden) && Fits(out.Length, |b.xs|, m.hidden)
    ensures ChunkStart(chunk, plan.chunkSize) <= ChunkEnd(chunk, plan.chunkSize, |b.xs|) <= |b.xs|
    ensures StoredBefore(m, b, plan, start, out, ChunkStart(chunk, plan.chunkSize))
    ensures forall t | ChunkStart(chunk, plan.chunkSize) <= t < |b.xs| :: Row(hidden, |b.xs|, m.hidden, t) == b.xs[t]
    ensures cache13[..] == CacheAt(m, b, plan, start, chunk)
  {
    ChunkBounds(chunk, plan.chunkSize, |b.xs|);
    hide Cell;
  }

  /** ... and what must hold after it. */
  lemma AfterChunk(m: Moe, b: Batch, plan: Plan, start: seq<real>, hidden: array<real>, out: array<real>,
                   cache13: array<real>, chunk: nat)
    requires ValidBatch(m, b) && ValidPlan(plan) && Fits(hidden.Length, |b.xs|, m.hidden) && Fits(out.Length, |b.xs|, m.hidden)
    requires chunk < Chunks(|b.xs|, plan.chunkSize) && ChunkEnd(chunk, plan.chunkSize, |b.xs|) <= |b.xs|
    requires StoredBefore(m, b, plan, start, out, ChunkEnd(chunk, plan.chunkSize, |b.xs|))
    requires forall t | ChunkEnd(chunk, plan.chunkSize, |b.xs|) <= t < |b.xs| :: Row(hidden, |b.xs|, m.hidden, t) == b.xs[t]
    requires cache13[..] == CacheAt(m, b, plan, start, chunk + 1)
    ensures Progress(m, b, plan, start, hidden, out, cache13, chunk + 1)
  {
    hide Cell;
    forall t, d | 0 <= t < |b.xs| && ChunkEnd(chunk, plan.chunkSize, |b.xs|) <= t && 0 <= d < m.hidden
      ensures Cell(hidden, |b.xs|, m.hidden, t, d) == b.xs[t][d]
    {
      assert Row(hidden, |b.xs|, m.hidden, t)[d] == b.xs[t][d];
    }
  }

  lemma CacheMoves(m: Moe, b: Batch, plan: Plan, start: seq<real>, chunk: nat)
    requires ValidBatch(m, b) && ValidPlan(plan) && chunk < Chunks(|b.xs|, plan.chunkSize)
    ensures ValidBatch(m, NthPart(m.topK, b, plan, chunk))
    ensures var al := NthLayout(m, b, plan, chunk); al.sorted.Some? ==> al.postPadded <= |al.sorted.value|
    ensures CacheAt(m, b, plan, start, chunk + 1)
         == PartCache(m, NthPart(m.topK, b, plan, chunk), NthLayout(m, b, plan, chunk), CacheAt(m, b, plan, start, chunk))
  {
    NthReady(m, b, plan, chunk);
  }

  /** A chunk that is not empty moves the call on. */
  method StoreChunk(m: Moe, ghost b: Batch, hidden: array<real>, out: array<real>, T: nat, ids: seq<int>, weights: seq<real>,
                    chunk: nat, blocks: Blocks, plan: Plan, cache13: array<real>, cache2: array<real>, ghost start: seq<real>)
    requires b.ids == ids && b.weights == weights && |b.xs| == T && Separate(m, b, plan, hidden, out, cache13, cache2)
    requires plan.chunkSize > 0 && chunk < Chunks(T, plan.chunkSize) && blocks == BlocksFor(plan, T, chunk)
    requires ChunkStart(chunk, plan.chunkSize) < ChunkEnd(chunk, plan.chunkSize, T)
    requires Progress(m, b, plan, start, hidden, out, cache13, chunk)
    modifies cache13, cache2, out
    ensures Progress(m, b, plan, start, hidden, out, cache13, chunk + 1)
  {
    var begin, end := ChunkStart(chunk, plan.chunkSize), ChunkEnd(chunk, plan.chunkSize, T);
    ChunkBounds(chunk, plan.chunkSize, T);
    MulGe(Min(T, plan.chunkSize), end - begin, m.topK);
    hide Cell, ChunkStart, ValidMoe, ValidIds, CacheSized, PartCell, PartCache, ValidPlan, Progress, CacheAt;
    BeforeChunk(m, b, plan, start, hidden, out, cache13, chunk);
    NthReady(m, b, plan, chunk);
    CacheMoves(m, b, plan, start, chunk);
    label Before:
    ChunkStep(m, b, hidden, out, T, ids, weights, begin, end, blocks, plan, cache13, cache2,
              Min(T, plan.chunkSize) * m.topK, Widest(m.hidden, m.inter));
    RowsOfChunk(m, b, plan, start, out, chunk);
    forall t: nat | t < begin
      ensures RowStored(m, b, plan, start, out, t)
    {
      assert old@Before(RowStored(m, b, plan, start, out, t));
    }
    AfterChunk(m, b, plan, start, hidden, out, cache13, chunk);
  }

  /**
   One iteration of the chunk loop: an empty chunk ends it, and a shorter one after the first gets a
   block configuration of its own.
   */
  method NextChunk(m: Moe, ghost b: Batch, hidden: array<real>, out: array<real>, T: nat, ids: seq<int>, weights: seq<real>,
                   chunk: nat, blocks: Blocks, plan: Plan, cache13: array<real>, cache2: array<real>, ghost start: seq<real>)
    returns (done: bool, blocks': Blocks)
    requires b.ids == ids && b.weights == weights && |b.xs| == T && Separate(m, b, plan, hidden, out, cache13, cache2)
    requires plan.chunkSize > 0 && chunk < Chunks(T, plan.chunkSize) && blocks == plan.config(Min(T, plan.chunkSize))
    requires Progress(m, b, plan, start, hidden, out, cache13, chunk)
    modifies cache13, cache2, out
    ensures done ==> ChunkStart(chunk, plan.chunkSize) >= T && Progress(m, b, plan, start, hidden, out, cache13, chunk)
    ensures !done ==> Progress(m, b, plan, start, hidden, out, cache13, chunk + 1)
    ensures !done && chunk + 1 < Chunks(T, plan.chunkSize) ==> blocks' == blocks
  {
    hide Progress, Separate, ValidBatch, ValidPlan, Chunks, ChunkStart;
    var begin, end := ChunkStart(chunk, plan.chunkSize), Min(ChunkStart(chunk + 1, plan.chunkSize), T);
    ChunkBounds(chunk, plan.chunkSize, T);
    blocks' := blocks;
    if end - begin == 0 {
      return true, blocks';
    }
    if end - begin < plan.chunkSize && chunk > 0 {
      blocks' := plan.config(end - begin);
    }
    StoreChunk(m, b, hidden, out, T, ids, weights, chunk, blocks', plan, cache13, cache2, start);
    done := false;
  }

  /** The chunk loop. */
  method ChunkLoop(m: Moe, ghost b: Batch, hidden: array<real>, out: array<real>, T: nat, ids: seq<int>, weights: seq<real>,
                   plan: Plan, cache13: array<real>, cache2: array<real>)
    requires b.ids == ids && b.weights == weights && |b.xs| == T && Separate(m, b, plan, hidden, out, cache13, cache2)
    requires LiveFrom(b.xs, hidden, m.hidden, 0)
    modifies cache13, cache2, out
    ensures StoredBefore(m, b, plan, old(cache13[..]), out, T)
  {
    hide Progress, Separate, StoredBefore, ValidBatch, ValidPlan, Chunks, ChunkStart, Fits, LiveFrom;
    var blocks := plan.config(Min(T, plan.chunkSize));
    var chunk := 0;
    ghost var start := cache13[..];
    StartsLive(m, b, plan, hidden, out, cache13, cache2);
    while chunk < Chunks(T, plan.chunkSize)
      invariant 0 <= chunk <= Chunks(T, plan.chunkSize)
      invariant chunk < Chunks(T, plan.chunkSize) ==> blocks == plan.config(Min(T, plan.chunkSize))
      invariant Progress(m, b, plan, start, hidden, out, cache13, chunk)
    {
      var done;
      done, blocks := NextChunk(m, b, hidden, out, T, ids, weights, chunk, blocks, plan, cache13, cache2, start);
      if done {
        break;
      }
      chunk := chunk + 1;
    }
    AllChunks(T, plan.chunkSize);
    EndsStored(m, b, plan, start, hidden, out, cache13, chunk);
  }

  lemma StartsLive(m: Moe, b: Batch, plan: Plan, hidden: array<real>, out: array<real>, cache13: array<real>, cache2: array<real>)
    requires Separate(m, b, plan, hidden, out, cache13, cache2) && LiveFrom(b.xs, hidden, m.hidden, 0)
    ensures plan.chunkSize > 0 && Progress(m, b, plan, cache13[..], hidden, out, cache13, 0)
  {
    NoChunks(plan.chunkSize);
  }

  lemma EndsStored(m: Moe, b: Batch, plan: Plan, start: seq<real>, hidden: array<real>, out: array<real>,
                   cache13: array<real>, chunk: nat)
    requires Progress(m, b, plan, start, hidden, out, cache13, chunk) && ChunkStart(chunk, plan.chunkSize) >= |b.xs|
    ensures ValidBatch(m, b) && ValidPlan(plan) && Fits(out.Length, |b.xs|, m.hidden)
    ensures StoredBefore(m, b, plan, start, out, |b.xs|)
  {
  }

  /** The rows of a flat matrix. */
  function Rows(c: array<real>, rows: nat, cols: nat): (xs: seq<seq<real>>)
    requires Fits(c.Length, rows, cols)
    reads c
    ensures |xs| == rows && forall t | 0 <= t < rows :: xs[t] == Row(c, rows, cols, t)
  {
    seq(rows, t requires 0 <= t < rows reads c => Row(c, rows, cols, t))
  }

  /**
   Every token's output row is a function of the call and of the memory that the shared cache is
   allocated in, whether or not the output overwrites the input; and it is the routed sum of the
   original row whenever the token settles or its own chunk is naive.
   */
  method FusedExpertsImpl(m: Moe, hidden: array<real>, T: nat, ids: seq<int>, weights: seq<real>, inplace: bool, plan: Plan,
                          memory: nat -> real)
    returns (out: array<real>)
    requires ValidMoe(m) && ValidIds(m, ids) && |ids| == |weights| == T * m.topK
    requires Fits(hidden.Length, T, m.hidden) && ValidPlan(plan)
    modifies if inplace then {hidden} else {}
    ensures if inplace then out == hidden else fresh(out)
    ensures Fits(out.Length, T, m.hidden)
    ensures forall t: nat | t < T ::
              RowStored(m, Batch(old(Rows(hidden, T, m.hidden)), ids, weights), plan, Scratch(m, T, plan, memory), out, t)
    ensures forall t: nat | t < T && (Settles(m, ids, t) || OwnNaive(m, T, plan, t)) ::
              TokenDone(m, old(Rows(hidden, T, m.hidden)), ids, weights, out, t)
    ensures forall t: nat | t < T && (m.expertMap.Some? || NamesExperts(m.topK, ids, t) || OwnNaive(m, T, plan, t)) ::
              RoutedRow(m, old(hidden[..]), ids, weights, out[..], t)
  {
    ghost var input := hidden[..];
    var cache13, cache2 := NewCaches(m, T, plan, memory);
    if inplace {
      out := hidden;
    } else {
      out := new real[T * m.hidden];
    }
    ghost var b := Batch(Rows(hidden, T, m.hidden), ids, weights);
    RowsAreInput(hidden, T, m.hidden);
    SettlesIs(m, ids);
    hide Cell, RowStored, ValidMoe, ValidIds, Settles, OwnNaive, ValidPlan, TokenDone, CacheSized, Scratch, NamesExperts, InputRow,
      RoutedRow;
    ChunkLoop(m, b, hidden, out, T, ids, weights, plan, cache13, cache2);
    forall t: nat | t < T && (Settles(m, ids, t) || OwnNaive(m, T, plan, t))
      ensures TokenDone(m, b.xs, ids, weights, out, t) && RoutedRow(m, input, ids, weights, out[..], t)
    {
      assert RowStored(m, b, plan, Scratch(m, T, plan, memory), out, t);
      StoredIsDone(m, b, plan, Scratch(m, T, plan, memory), out, t);
      DoneIsRouted(m, b.xs, input, ids, weights, out, t);
    }
  }

  lemma SettlesIs(m: Moe, ids: seq<int>)
    requires m.topK > 0
    ensures forall t: nat :: Settles(m, ids, t) <==> m.expertMap.Some? || NamesExperts(m.topK, ids, t)
  {
  }

  lemma RowsAreInput(c: array<real>, rows: nat, cols: nat)
    requires Fits(c.Length, rows, cols)
    ensures forall t: nat | t < rows :: Rows(c, rows, cols)[t] == InputRow(c[..], t, cols)
  {
    forall t: nat | t < rows
      ensures Rows(c, rows, cols)[t] == InputRow(c[..], t, cols)
    {
      RowIsInput(c, rows, cols, t);
    }
  }

  /** Allocates the buffer that the first and third caches share, and the second cache. */
  method NewCaches(m: Moe, T: nat, plan: Plan, memory: nat -> real) returns (cache13: array<real>, cache2: array<real>)
    ensures fresh(cache13) && fresh(cache2) && cache13 != cache2
    ensures CacheSized(m, cache13.Length, cache2.Length, Min(T, plan.chunkSize) * m.topK, Widest(m.hidden, m.inter))
    ensures cache13[..] == Scratch(m, T, plan, memory)
  {
    cache13 := new real[ScratchSize(T, m.hidden, m.inter, m.topK, plan.chunkSize)]((x: nat) => memory(x));
    assert cache13[..] == Scratch(m, T, plan, memory);
    cache2 := new real[Min(T, plan.chunkSize) * m.topK * m.inter];
  }

  lemma StoredIsDone(m: Moe, b: Batch, plan: Plan, start: seq<real>, out: array<real>, t: nat)
    requires ValidBatch(m, b) && ValidPlan(plan) && t < |b.xs| && Fits(out.Length, |b.xs|, m.hidden)
    requires RowStored(m, b, plan, start, out, t) && (Settles(m, b.ids, t) || OwnNaive(m, |b.xs|, plan, t))
    ensures TokenDone(m, b.xs, b.ids, b.weights, out, t)
  {
    hide Cell, CallCell, TokenOut, ValidMoe, ValidIds, ValidPlan, Settles, OwnNaive;
    CallRowIsRight(m, b, plan, start, t);
    RoutesEnd(m.topK, |b.xs|, t);
  }
}
