# Verification model of the gfx906 overlay

A Dafny model of the exact-arithmetic core of a vLLM overlay for gfx906 GPUs: the fast, tiled, sharded
and fused forms of its kernels, layers and protocols, each proved against the simple form it stands
for. Values are reals, so rounding is out of the picture; integers are unbounded; integer division on
device is modelled as truncation where an operand can be negative. Minus infinity is the constructor
`NegInf`; the exponential is a parameter with the law that it is positive and turns sums into products.

| files | what they model |
|---|---|
| `Options`, `TensorShapes`, `Sums`, `DivMod`, `Scores`, `OnlineSoftmax` | optional values, element counts, finite sums, division facts, softmax weights relative to a running maximum |
| `AttentionProblem`, `AttentionTile`, `AttentionKernels`, `QBlockSchedule`, `Attention2D`, `AttentionSegments`, `Attention3D`, `AttentionMeaning`, `AttentionDispatch` | paged attention: reference answer, tile loop, program schedule, single-pass kernel, split-KV kernel and its reduction, what the answer is on dense keys and values, dispatch |
| `Swizzle`, `FlatMatrix`, `Gemm`, `Matmul` | the grouped program order, masked tile stores, the K loop, the tiled matmul |
| `MoeAlignment`, `FusedMoeKernel`, `FusedExperts`, `StaleRows`, `ExpertChunks`, `ExpertLaws`, `ExpertsCall`, `FastPath`, `Wna16Blocks` | the mixture-of-experts layer: block layouts, grouped GEMM, one chunk over shared scratch, what stale scratch rows do, what each token's chunk stores, the routed sum multiplied out and split over ranks, the chunk loop, the two-kernel fast path, the WNA16 block chooser |
| `ColumnLoader`, `GgufLoader`, `ParallelMlp`, `QkvLoader` | tensor-parallel weight loading and the sharded MLP |
| `RankGrid`, `ParallelGroups`, `TensorDict` | the rank grid and its groups; sending tensor dictionaries between pipeline stages |
| `PrefoldState`, `PrefoldStack` | folding the residual into an all-reduce, over stacks of decoder layers |
| `GgufHeads`, `GgufLayer` | the GGUF linear-attention head order, and a layer's tensors through the loader |
| `Tp4x2` | two four-way expert groups inside eight-way tensor parallelism |
| `CallsiteRoutes`, `PersistentAr`, `PersistentArRuns` | the persistent all-reduce router and whole runs of it |

`dafny verify dfyconfig.toml` checks the project.

How to read the results:

- Kernel launches take the order of their programs as an argument, any order and any repetition that covers
  the grid, because programs of a launch are unordered.
- Code that every rank runs is modelled with a sequence of per-rank states; an all-reduce is the sum
  over that sequence.
- Some properties that one might expect do not hold of the code, and for each the exact condition is
  proved, both ways:
  - folding a nonzero residual is right exactly when all ranks decide alike (`PrefoldState.RightIffUnanimous`);
  - the GGUF default slice of keys and values is right exactly when KV heads are not replicated
    (`QkvLoader.EqualPartsIffNotReplicated`);
  - on the general expert path, without an expert map, a token is right exactly when it names an expert in
    every slot or its own chunk is naive (`ExpertChunks.CallRightIff`, per chunk `StaleRows.RightIffNamed`);
    `StaleRows.MissingExpertKeepsCache` is a failing input. "Right" here means for every layer of a shape,
    every input and every content of the newly allocated scratch buffer, because for fixed weights and input
    the stale row may come from the up projection and not from that content at all
    (`StaleRows.UpProjectionLeaks`); from the second chunk on it comes from what the earlier chunks left;
  - on the fast expert path it is right exactly when it names an expert in every slot, unless the activation is
    zero everywhere (`FastPath.FastRightIff`), so on ids of -1 the two paths may disagree;
  - the interleaved MLP reads a checkpoint that fuses gate and up right exactly when each half has at most
    one row, or there is nothing to compute (`ParallelMlp.StackedReadsAsInterleaved`);
  - an attention cell is computed by one program only exactly when queries per KV head divide BLOCK_M or the
    query fits in one block (`QBlockSchedule.OnceIffNoOverlap`); cells computed twice get equal values.
- A call-site range of the persistent all-reduce selects no call by itself: the code wants a residue, a list
  or a size setting as well (`PersistentArRuns.RangesAloneDoNothing`).

## Model

| member | source | states |
|---|---|---|
| `QBlockSchedule.FindSeqIdx` | qwen36-gfx906/overlays/gguf-dense/minimal-bundle/triton_unified_attention.py:36-55 | the binary search returns the last sequence whose key (first query block, or first token) does not exceed the target: a key is at most the target exactly for the sequences up to the result |
| `QBlockSchedule.EveryProgramDecodes` | qwen36-gfx906/overlays/gguf-dense/minimal-bundle/triton_unified_attention.py:115-149 | every program id below the launched total decodes to some sequence |
| `QBlockSchedule.DecodesUnique` | qwen36-gfx906/overlays/gguf-dense/minimal-bundle/triton_unified_attention.py:115-149 | and to no more than one |
| `QBlockSchedule.BlocksOfSequenceDecode` | qwen36-gfx906/overlays/gguf-dense/minimal-bundle/triton_unified_attention.py:951-965 | the query blocks of a sequence get consecutive program ids inside the launched grid, never shared with another sequence |
| `QBlockSchedule.HomeComputes` | qwen36-gfx906/overlays/gguf-dense/minimal-bundle/triton_unified_attention.py:115-149 | completeness: a program of the grid computes every (token, head) |
| `QBlockSchedule.ComputedOnce` | qwen36-gfx906/overlays/gguf-dense/minimal-bundle/triton_unified_attention.py:115-149 | when queries per KV head divide BLOCK_M, or the sequence's query fits in one block, the program, KV head and row that compute a (token, head) are unique |
| `QBlockSchedule.ComputedTwice` | qwen36-gfx906/overlays/gguf-dense/minimal-bundle/triton_unified_attention.py:115-149 | otherwise the sequence has a (token, head) computed by two programs |
| `QBlockSchedule.OnceIffNoOverlap` | qwen36-gfx906/overlays/gguf-dense/minimal-bundle/triton_unified_attention.py:115-149 | so a sequence's cells are computed once each exactly when queries per KV head divide BLOCK_M or its query fits in one block |
| `Scores.RescaleMass` | qwen36-gfx906/overlays/gguf-dense/minimal-bundle/triton_unified_attention.py:345-389 | rescaling a running total to a new maximum, a maximum of minus infinity included, keeps what it stands for |
| `Scores.FoldMass` | qwen36-gfx906/overlays/gguf-dense/minimal-bundle/triton_unified_attention.py:345-389 | the accumulator update adds exactly the mass of the new tile |
| `OnlineSoftmax.NewMaxBounds` | qwen36-gfx906/overlays/gguf-dense/minimal-bundle/triton_unified_attention.py:345-389 | the new maximum, reset to 0 on a fully masked row, bounds the old one and every score of the tile |
| `OnlineSoftmax.DenominatorStep` | qwen36-gfx906/overlays/gguf-dense/minimal-bundle/triton_unified_attention.py:345-389 | one tile adds exactly its keys' weights to the denominator |
| `OnlineSoftmax.NumeratorStep` | qwen36-gfx906/overlays/gguf-dense/minimal-bundle/triton_unified_attention.py:345-389 | and exactly its keys' weighted values to the accumulator |
| `AttentionProblem.DenominatorPositive` | qwen36-gfx906/overlays/gguf-dense/minimal-bundle/triton_unified_attention.py:391-407 | every query row sees at least its own key, so the final division is defined |
| `AttentionTile.VisibleKeyIsLoaded` | qwen36-gfx906/overlays/gguf-dense/minimal-bundle/triton_unified_attention.py:192-234 | a key that a stored row may see lies inside the loaded prefix and is not zeroed by the window mask on V |
| `AttentionTile.LaneIsRowScore` | qwen36-gfx906/overlays/gguf-dense/minimal-bundle/triton_unified_attention.py:275-343 | a lane of S is the reference score of its (query, key): scale, softcap, causal mask, window, alibi and query-query bias |
| `AttentionTile.LaneTimesValue` | qwen36-gfx906/overlays/gguf-dense/minimal-bundle/triton_unified_attention.py:270-389 | weight times (possibly zeroed) V lane is the reference contribution of the key |
| `AttentionTile.TileStep` | qwen36-gfx906/overlays/gguf-dense/minimal-bundle/triton_unified_attention.py:237-389 | one iteration of the tile loop adds exactly the tile's keys to every stored row and leaves a finite maximum that dominates them |
| `AttentionKernels.TileLoop` | qwen36-gfx906/overlays/gguf-dense/minimal-bundle/triton_unified_attention.py:160-389 | after the loop a stored row holds exactly the keys of the visited tiles, from L = 1 and any initial maximum |
| `AttentionKernels.VisibleKeyIsVisited` | qwen36-gfx906/overlays/gguf-dense/minimal-bundle/triton_unified_attention.py:192-234 | causal and sliding-window tile pruning drops no visible key |
| `AttentionKernels.VisitedSum` | qwen36-gfx906/overlays/gguf-dense/minimal-bundle/triton_unified_attention.py:192-234 | so a sum over the visited tiles is the sum over the whole sequence |
| `AttentionKernels.RowStateIsAttention` | qwen36-gfx906/overlays/gguf-dense/minimal-bundle/triton_unified_attention.py:391-407 | acc / L is untiled softmax attention with the sink as one more denominator term |
| `Attention2D.Kernel2D` | qwen36-gfx906/overlays/gguf-dense/minimal-bundle/triton_unified_attention.py:63-407 | one program leaves softmax attention in every cell it is the home of, and writes nothing but right answers anywhere |
| `Attention2D.Launch2D` | qwen36-gfx906/overlays/gguf-dense/minimal-bundle/triton_unified_attention.py:1054-1115 | after all programs, in any order and with overlaps, every cell of the output is softmax attention |
| `AttentionSegments.EarlyReturnIsMasked` | qwen36-gfx906/overlays/gguf-dense/minimal-bundle/triton_unified_attention.py:489-493 | a segment returns early exactly when the reducer masks it |
| `AttentionSegments.StretchSum` | qwen36-gfx906/overlays/gguf-dense/minimal-bundle/triton_unified_attention.py:521-534 | clamping a segment's tiles to the pruned range loses no visible key of the segment |
| `AttentionSegments.RowStateIsSegment` | qwen36-gfx906/overlays/gguf-dense/minimal-bundle/triton_unified_attention.py:592-767 | what a segment stores stands for exactly its keys, plus the sink in segment 0 |
| `AttentionSegments.StoreSegment` | qwen36-gfx906/overlays/gguf-dense/minimal-bundle/triton_unified_attention.py:749-767 | storing one scratch cell keeps every other finished cell |
| `Attention3D.Kernel3D` | qwen36-gfx906/overlays/gguf-dense/minimal-bundle/triton_unified_attention.py:415-767 | a segment program finishes its scratch cells and keeps all others |
| `Attention3D.TokenFound` | qwen36-gfx906/overlays/gguf-dense/minimal-bundle/triton_unified_attention.py:36-55 | in token mode the search finds the sequence that owns the token |
| `Attention3D.SegmentsAddUp` | qwen36-gfx906/overlays/gguf-dense/minimal-bundle/triton_unified_attention.py:794-857 | the segments partition the keys: their sums add up to the row |
| `Attention3D.MaskedLane` | qwen36-gfx906/overlays/gguf-dense/minimal-bundle/triton_unified_attention.py:794-857 | a masked segment stands for no keys |
| `Attention3D.MergedDenominator` | qwen36-gfx906/overlays/gguf-dense/minimal-bundle/triton_unified_attention.py:794-857 | the rescaled segment sums are the row's softmax denominator, and some maximum is finite |
| `Attention3D.MergedNumerator` | qwen36-gfx906/overlays/gguf-dense/minimal-bundle/triton_unified_attention.py:794-857 | the rescaled segment outputs are the row's weighted value sum |
| `Attention3D.MergedRow` | qwen36-gfx906/overlays/gguf-dense/minimal-bundle/triton_unified_attention.py:794-857 | their quotient is softmax attention |
| `Attention3D.ReduceSegments` | qwen36-gfx906/overlays/gguf-dense/minimal-bundle/triton_unified_attention.py:771-857 | the reduction leaves softmax attention in its row and touches no other |
| `AttentionDispatch.ClosestIsNearest` | qwen36-gfx906/overlays/gguf-dense/minimal-bundle/triton_attn.py:154-190 | the threshold is snapped to the nearest capture size, the first of equally near ones |
| `AttentionDispatch.MetadataBuilder.constructor` | qwen36-gfx906/overlays/gguf-dense/minimal-bundle/triton_attn.py:154-190 | the builder's scratch buffers have as many rows as its threshold, and the threshold is 128 / KV heads or the first capture size nearest to that |
| `AttentionDispatch.TokensFitSequences` | qwen36-gfx906/overlays/gguf-dense/minimal-bundle/triton_unified_attention.py:1045-1054 | when no query is longer than 1 there are no more tokens than sequences, so the guard bounds the scratch rows |
| `AttentionDispatch.Launch3D` | qwen36-gfx906/overlays/gguf-dense/minimal-bundle/triton_unified_attention.py:1116-1181 | for any segment count and tile size, any order of the segment programs and any order of the reduction's programs, split-KV attention is softmax attention, the same cells as Launch2D |
| `AttentionDispatch.UnifiedAttention` | qwen36-gfx906/overlays/gguf-dense/minimal-bundle/triton_unified_attention.py:892-1181 | whichever path the dispatch takes, every store fits the buffers, and for all dense keys and values that the page table lays out each output cell times its denominator is its numerator: the sums of e(score) and of e(score) times the value over the positions up to the query's own, or the last window of them; a score is scale times q . k, then softcap and position biases, and a sink is one more denominator term |
| `AttentionMeaning.SeesIsRange` | qwen36-gfx906/overlays/gguf-dense/minimal-bundle/triton_unified_attention.py:275-343 | the mask admits exactly the positions from the first of the window to the query's own, cached context included |
| `AttentionMeaning.AnswerIsFull` | qwen36-gfx906/overlays/gguf-dense/minimal-bundle/triton_unified_attention.py:891-1181 | the reference answer of a cell is that quotient |
| `AttentionMeaning.AnswersAreAttention` | qwen36-gfx906/overlays/gguf-dense/minimal-bundle/triton_unified_attention.py:891-1181 | an output that holds the reference answers is attention in that sense; without softcap, biases and sinks in the plain one, e(scale * q . k) |
| `Swizzle.TileInGrid` | qwen36-gfx906/overlays/gguf-dense/minimal-bundle/utils.py:71-79 | every program id maps into the tile grid and is recovered from its tile |
| `Swizzle.ProgramInGrid` | qwen36-gfx906/overlays/gguf-dense/minimal-bundle/utils.py:71-79 | every tile is the image of a program id: the swizzle is a bijection, short last group included |
| `Gemm.KLoop` | qwen36-gfx906/overlays/gguf-dense/minimal-bundle/utils.py:99-110 | the masked K loop accumulates exactly the full dot products, ragged last block included |
| `FlatMatrix.StoreTile` | qwen36-gfx906/overlays/gguf-dense/minimal-bundle/utils.py:112-118 | a masked tile store writes exactly its in-range cells, with their prescribed values |
| `Matmul.ComputeTile` | qwen36-gfx906/overlays/gguf-dense/minimal-bundle/utils.py:82-110 | every in-range lane of the tile is the product's cell: a wrapped (mod M, mod N) load never reaches a stored lane |
| `Matmul.MatmulKernel` | qwen36-gfx906/overlays/gguf-dense/minimal-bundle/utils.py:44-118 | a program stores its own tile right and no wrong value anywhere |
| `Matmul.LaunchMatmul` | qwen36-gfx906/overlays/gguf-dense/minimal-bundle/utils.py:120-137 | the launched grid leaves in element r * N + n of C the inner product of row r of A and row n of B |
| `MoeAlignment.BlocksAtMostRoutes` | qwen36-gfx906/files/gfx906_runtime/moe_tp8_overlays/fused_moe_tp8.py:1067-1084 | every padded block holds a route of its own, so there are at most as many blocks as routes |
| `MoeAlignment.OneBlockEachIsSorted` | qwen36-gfx906/files/gfx906_runtime/moe_tp8_overlays/fused_moe_tp8.py:2200-2211 | the block aligner's contract can be met, leaving out the routes of missing experts |
| `MoeAlignment.LaunchReachesAll` | qwen36-gfx906/files/gfx906_runtime/moe_tp8_overlays/fused_moe_tp8.py:1067-1084 | the shrunk launch size still reaches every padded block |
| `FusedMoeKernel.BlockExpert` | qwen36-gfx906/files/gfx906_runtime/moe_tp8_overlays/fused_moe_tp8.py:696-715 | every route of a running block has the block's expert, in the sorted and in the naive layout |
| `FusedMoeKernel.ComputeBlock` | qwen36-gfx906/files/gfx906_runtime/moe_tp8_overlays/fused_moe_tp8.py:734-862 | a block's lanes are its routes' weighted, biased dot products, or zeros for an expert that is not local |
| `FusedMoeKernel.RouteTile` | qwen36-gfx906/files/gfx906_runtime/moe_tp8_overlays/fused_moe_tp8.py:670-690 | the program that stores a placed route's cell is in the grid and its tile holds the cell |
| `FusedMoeKernel.FusedMoeProgram` | qwen36-gfx906/files/gfx906_runtime/moe_tp8_overlays/fused_moe_tp8.py:593-868 | one program writes its placed routes' cells right and no unplaced row |
| `FusedMoeKernel.LaunchFusedMoe` | qwen36-gfx906/files/gfx906_runtime/moe_tp8_overlays/fused_moe_tp8.py:1026-1135 | the whole buffer after any order of programs, in either layout: placed routes' rows as prescribed, every other element, the tail past the matrix included, as it was |
| `FusedExperts.UpProject` | qwen36-gfx906/files/gfx906_runtime/moe_tp8_overlays/fused_moe_tp8.py:2213-2235 | the first GEMM, its programs in any order, gives every placed route its expert's gate and up projections and leaves the rest of the scratch buffer as it was |
| `FusedExperts.Activate` | qwen36-gfx906/files/gfx906_runtime/moe_tp8_overlays/fused_moe_tp8.py:2237-2239 | the activation fills the second cache from the first |
| `FusedExperts.DownProject` | qwen36-gfx906/files/gfx906_runtime/moe_tp8_overlays/fused_moe_tp8.py:2250-2275 | the second GEMM, in any order, gives every written route its weighted expert output and leaves the rest of the buffer as it was, cleared first under an expert map; without one an unplaced row keeps what the overlaid first cache left there |
| `FusedExperts.RouteOutputs` | qwen36-gfx906/files/gfx906_runtime/moe_tp8_overlays/fused_moe_tp8.py:2213-2275 | the three steps together: each row of the third cache is its route's output or, if nothing writes it, what the up projection and the chunk's start left under it; and the content of the whole buffer |
| `FusedExperts.MoeSum` | qwen36-gfx906/files/gfx906_runtime/moe_tp8_overlays/fused_moe_tp8.py:2277-2280 | the chunk's output rows become the sums over each token's routes; no other row changes |
| `FusedExperts.RunChunk` | qwen36-gfx906/files/gfx906_runtime/moe_tp8_overlays/fused_moe_tp8.py:2148-2280 | every output row of a chunk, tokens with unwritten routes included, and the whole scratch buffer that it leaves for the next chunk, as functions of the call and of the buffer's content before the chunk |
| `StaleRows.WrittenRowIsTokenOut` | qwen36-gfx906/files/gfx906_runtime/moe_tp8_overlays/fused_moe_tp8.py:2148-2280 | if all of a token's routes are written that row is its routed sum, whatever was in the scratch buffer |
| `StaleRows.MissingExpertKeepsCache` | qwen36-gfx906/files/gfx906_runtime/moe_tp8_overlays/fused_moe_tp8.py:2250-2280 | otherwise not: one token, one route, id -1, no expert map, sorted layout: the output row is the scratch buffer's old content instead of 0 |
| `StaleRows.UpProjectionLeaks` | qwen36-gfx906/files/gfx906_runtime/moe_tp8_overlays/fused_moe_tp8.py:2086-2115 | nor does a clean scratch buffer help: the third cache overlays the first, so a missing route may receive another token's up projection, for every initial content |
| `StaleRows.RightIffNamed` | qwen36-gfx906/files/gfx906_runtime/moe_tp8_overlays/fused_moe_tp8.py:2148-2280 | in a chunk without expert map, whatever the activation, a token's row is its routed sum for every layer of the shape, input and scratch content exactly when the layout is naive or the token names an expert in every slot (or the row is empty) |
| `ExpertChunks.ChosenIsAligned` | qwen36-gfx906/files/gfx906_runtime/moe_tp8_overlays/fused_moe_tp8.py:2182-2211 | the naive layout and the aligner's layout both meet what the kernel needs |
| `ExpertChunks.TokenRouting` | qwen36-gfx906/files/gfx906_runtime/moe_tp8_overlays/fused_moe_tp8.py:2171-2172 | a chunk's slices of ids and weights route its tokens as the whole batch does |
| `ExpertChunks.OwnCellRight` | qwen36-gfx906/files/gfx906_runtime/moe_tp8_overlays/fused_moe_tp8.py:2182-2250 | a token whose routes are sure to be written, or whose own chunk is naive by the code's test on the chunk's tokens, ends with its routed sum, whatever the scratch buffer held |
| `ExpertChunks.CallRightIff` | qwen36-gfx906/files/gfx906_runtime/moe_tp8_overlays/fused_moe_tp8.py:2086-2282 | without expert map and with an aligner that drops missing experts, whatever the activation, a token of a whole call is right for every layer of the shape, input and content of the newly allocated scratch buffer exactly when it names an expert in every slot or its own chunk, a shorter last one too, is naive (or the row is empty) |
| `ExpertChunks.SomePlan` | qwen36-gfx906/files/gfx906_runtime/moe_tp8_overlays/fused_moe_tp8.py:2160-2211 | such aligners, tuners and program orders exist, for any chunk size and expert count |
| `ExpertsCall.ChunkStep` | qwen36-gfx906/files/gfx906_runtime/moe_tp8_overlays/fused_moe_tp8.py:2148-2280 | a chunk reads the live input rows, rewrites exactly its own output rows and passes on the scratch buffer |
| `ExpertsCall.ChunkLoop` | qwen36-gfx906/files/gfx906_runtime/moe_tp8_overlays/fused_moe_tp8.py:2148-2282 | after all chunks every output row is what its own chunk stores from its original input row and from the scratch content that the chunks before it left, in place or not |
| `ExpertsCall.FusedExpertsImpl` | qwen36-gfx906/files/gfx906_runtime/moe_tp8_overlays/fused_moe_tp8.py:2086-2282 | every token's output row is a function of the call and of the memory its scratch buffer is allocated in; and whenever an expert map is set, the token names an expert in every slot or its own chunk is naive, it is the routed sum of the original row, multiplied out; for any chunk size, in place or not |
| `ExpertLaws.TokenOutIs` | qwen36-gfx906/files/gfx906_runtime/moe_tp8_overlays/fused_moe_tp8.py:2213-2280 | a token's routed sum multiplied out: over its slots, weight times (w2 times silu(gate) * up plus bias), nothing for an id that the expert map sends elsewhere; the weight on the first layer instead if it goes on the input |
| `ExpertLaws.RanksAddUp` | qwen36-gfx906/files/gfx906_runtime/moe_tp8_overlays/fused_moe_tp8.py:2193-2199 | expert parallelism: when maps split the experts over ranks, the ranks' routed sums of a token add up to the unsplit layer's |
| `ExpertLaws.OutputsReduce` | qwen36-gfx906/files/gfx906_runtime/moe_tp8_overlays/fused_moe_tp8.py:2086-2282 | so the output cells of ranks that each ran the layer with its own map reduce to the unsplit layer's cell |
| `FastPath.W1ActLanes` | qwen36-gfx906/files/gfx906_runtime/moe_tp8_overlays/fused_moe_tp8.py:77-113 | eight activation lanes of a route are its gated projections |
| `FastPath.LaunchW1Act` | qwen36-gfx906/files/gfx906_runtime/moe_tp8_overlays/fused_moe_tp8.py:62-113 | the first kernel, its programs in any order, stores every route's activation row |
| `FastPath.W2ReduceLanes` | qwen36-gfx906/files/gfx906_runtime/moe_tp8_overlays/fused_moe_tp8.py:128-158 | 64 output lanes accumulate the token's weighted expert outputs |
| `FastPath.LaunchW2Reduce` | qwen36-gfx906/files/gfx906_runtime/moe_tp8_overlays/fused_moe_tp8.py:115-158 | the second kernel, in any order, stores every token's routed sum |
| `FastPath.TryFastPath` | qwen36-gfx906/files/gfx906_runtime/moe_tp8_overlays/fused_moe_tp8.py:182-327 | a tensor is returned exactly when the guards hold, listed setting by setting; the guards do not check the ids: a token that names an expert in every slot gets its routed sum, another one the sum with whatever lies in front of the experts' matrices |
| `FastPath.FastCellRight` | qwen36-gfx906/files/gfx906_runtime/moe_tp8_overlays/fused_moe_tp8.py:62-158 | a token that names an expert in every slot gets its routed sum whatever memory lies in front of the experts |
| `FastPath.FastRightIff` | qwen36-gfx906/files/gfx906_runtime/moe_tp8_overlays/fused_moe_tp8.py:62-158 | on layers the fast path accepts and for any one activation, a token's row is its routed sum for all weights, inputs and memory exactly when it names an expert in every slot, or the row is empty or the activation zero everywhere |
| `FastPath.InplaceFusedExperts` | qwen36-gfx906/files/gfx906_runtime/moe_tp8_overlays/fused_moe_tp8.py:1659-1740 | the in-place entry point, ids of -1 allowed: every row as a function of the call and of the memory it meets, on either path; and the routed sum, multiplied out, of every token with an expert map, with an expert in every slot, or in a naive chunk off the fast path |
| `FastPath.OutplaceFusedExperts` | qwen36-gfx906/files/gfx906_runtime/moe_tp8_overlays/fused_moe_tp8.py:1780-1860 | so does the out-of-place one, in a fresh tensor |
| `Wna16Blocks.DivisorOfPow` | qwen36-gfx906/files/gfx906_runtime/moe_tp8_overlays/fused_moe_tp8.py:1416-1434 | the divisors of a power of two are the smaller powers of two |
| `Wna16Blocks.LargestPowIsGcd` | qwen36-gfx906/files/gfx906_runtime/moe_tp8_overlays/fused_moe_tp8.py:1416-1434 | the largest power of two up to the start that divides K is the greatest common divisor of the two |
| `Wna16Blocks.BlockConfig` | qwen36-gfx906/files/gfx906_runtime/moe_tp8_overlays/fused_moe_tp8.py:1416-1434 | for every K of at least 1 the chooser ends and its K block is gcd(64, K) for one token and gcd(32, K) otherwise |
| `ColumnLoader.ShardsAdjacent` | qwen36-gfx906/overlays/gguf-dense/minimal-bundle/linear.py:976-982 | the shards tile the parameter without gaps |
| `ColumnLoader.LoadShard` | qwen36-gfx906/overlays/gguf-dense/minimal-bundle/linear.py:976-1036 | loading a shard copies this rank's rows to the shard's place, changes nothing else, and fails exactly on a bad id or a short checkpoint |
| `ColumnLoader.OtherShardKept` | qwen36-gfx906/overlays/gguf-dense/minimal-bundle/linear.py:976-1036 | loading one shard keeps the rows of every other |
| `ColumnLoader.LoadFused` | qwen36-gfx906/overlays/gguf-dense/minimal-bundle/linear.py:913-974 | a fused checkpoint is cut by its shards' sizes and each piece loaded; from shard 0 it always fits |
| `ColumnLoader.LoadSeparately` | qwen36-gfx906/overlays/gguf-dense/minimal-bundle/linear.py:976-1036 | loading some shards in any order leaves each one's rows in place and the rows of all the others as they were |
| `ColumnLoader.ShardsDetermineParam` | qwen36-gfx906/overlays/gguf-dense/minimal-bundle/linear.py:824-828 | what the shards hold determines the parameter |
| `ColumnLoader.LoadBothWays` | qwen36-gfx906/overlays/gguf-dense/minimal-bundle/linear.py:913-1036 | from equal parameters, a checkpoint that fuses shards 0..last (a tuple of leading ids, or all of them for no id) and the same shards one by one in any order leave equal parameters, which start with the rank's equal part of each shard, one after the other, and for a whole checkpoint are just those; the other shards keep their rows |
| `ColumnLoader.RanksReassemble` | qwen36-gfx906/overlays/gguf-dense/minimal-bundle/linear.py:976-1036 | each row of a shard is on rank row / size at place row mod size |
| `ColumnLoader.RowOnOneRank` | qwen36-gfx906/overlays/gguf-dense/minimal-bundle/linear.py:976-1036 | and on no other rank or place |
| `ParallelMlp.LoadInterleaved` | qwen36-gfx906/files/gfx906_runtime/python_overlays/qwen2_moe_interleaved_swiglu_20260608.py:333-348 | gate or up rows go to every second row of the parameter and nothing else changes; a size mismatch is an error |
| `ParallelMlp.LoadInterleavedPair` | qwen36-gfx906/files/gfx906_runtime/python_overlays/qwen2_moe_interleaved_swiglu_20260608.py:322-348 | after both halves, in either order, gate and up rows alternate |
| `ParallelMlp.LoadGateUp` | qwen36-gfx906/files/gfx906_runtime/python_overlays/qwen2_moe_interleaved_swiglu_20260608.py:322-348 | ids 0 and 1 are interleaved, or fail on a short checkpoint, and leave the other half; a checkpoint that fuses gate and up goes to the original loader and ends stacked |
| `ParallelMlp.StackedReadsAsInterleaved` | qwen36-gfx906/files/gfx906_runtime/python_overlays/qwen2_moe_interleaved_swiglu_20260608.py:350-366 | the interleaved forward on the parameter that a fused checkpoint leaves computes the rank's activations, for all weights and inputs, exactly when each half has at most one row, or the hidden size or the activation function is zero |
| `ParallelMlp.LoadRank` | qwen36-gfx906/files/gfx906_runtime/python_overlays/qwen2_moe_interleaved_swiglu_20260608.py:322-348 | whatever the checkpoint's form, a rank ends with the parameter its forward reads and its columns of the down projection; only a fused checkpoint under the interleaved loader ends stacked |
| `ParallelMlp.LoadRanks` | qwen36-gfx906/overlays/gguf-dense/minimal-bundle/linear.py:1689-1757 | after every rank has loaded, the sharded and reduced MLP is the unsharded one for every input, unless the layouts are mixed |
| `ParallelMlp.LoadRowParallel` | qwen36-gfx906/overlays/gguf-dense/minimal-bundle/linear.py:1645-1678 | a row-parallel weight takes this rank's columns, or fails on a shape mismatch |
| `ParallelMlp.RankActivations` | qwen36-gfx906/files/gfx906_runtime/python_overlays/qwen2_moe_interleaved_swiglu_20260608.py:350-379 | stacked and interleaved layouts both give this rank's stretch of the unsharded activations |
| `ParallelMlp.PartialIsStretch` | qwen36-gfx906/overlays/gguf-dense/minimal-bundle/linear.py:1689-1710 | a rank's partial output is its stretch of the down projection, with the bias on rank 0 only |
| `ParallelMlp.ReducedIsPlain` | qwen36-gfx906/overlays/gguf-dense/minimal-bundle/linear.py:1689-1757 | column-parallel, row-parallel and all-reduce together equal the unsharded MLP, bias counted once |
| `ParallelMlp.PlainIs` | qwen36-gfx906/overlays/gguf-dense/minimal-bundle/linear.py:1689-1710 | the unsharded layer multiplied out: the down projection of silu(gate . x) * (up . x), plus the bias once |
| `QkvLoader.ReplicasPositive` | qwen36-gfx906/overlays/gguf-dense/minimal-bundle/linear.py:1183-1190 | the constructor's head counts leave every rank a KV slice inside the checkpoint |
| `QkvLoader.LoadPart` | qwen36-gfx906/overlays/gguf-dense/minimal-bundle/linear.py:1440-1508 | q, k or v rows go to their part of the parameter, by rank for q and by replica group for k and v; other parts are kept |
| `QkvLoader.LoadFusedQkv` | qwen36-gfx906/overlays/gguf-dense/minimal-bundle/linear.py:1379-1437 | a stacked q/k/v checkpoint leaves the rank's q rows, then its k rows, then its v rows, as one concatenation with the sizes written out |
| `QkvLoader.LoadParts` | qwen36-gfx906/overlays/gguf-dense/minimal-bundle/linear.py:1440-1508 | so do q, k and v loaded apart, in any order and any number of times |
| `QkvLoader.PairingPreserved` | qwen36-gfx906/overlays/gguf-dense/minimal-bundle/linear.py:1183-1201 | each query head of a rank finds its global KV head at local index h / (heads per KV head on the rank), split or replicated |
| `QkvLoader.LoadedHeadsPair` | qwen36-gfx906/overlays/gguf-dense/minimal-bundle/linear.py:1440-1508 | after loading, the paired query, key and value rows really are the checkpoint's query head and its KV head, with the value head size for the values |
| `GgufLoader.GgufParam.Append` | qwen36-gfx906/overlays/gguf-dense/minimal-bundle/linear.py:1350-1360 | a GGUF container appends the slice and indexes it by shard id |
| `GgufLoader.LoadGgufShard` | qwen36-gfx906/overlays/gguf-dense/minimal-bundle/linear.py:896-906 | a GGUF shard appends this rank's equal part of what it is given |
| `GgufLoader.LoadGgufTuple` | qwen36-gfx906/overlays/gguf-dense/minimal-bundle/qwen3_5.py:770-787 | a tuple of shard ids, leading or not, is cut by the named shards' sizes and appended piece by piece under its ids; it fails exactly on a short checkpoint |
| `GgufLoader.LoadTupleBothWays` | qwen36-gfx906/overlays/gguf-dense/minimal-bundle/linear.py:913-974 | for a tuple of leading shards the appended slices are the rows that the ordinary loader copies, shard by shard, and in order they are the front of its parameter |
| `QkvLoader.LoadGguf` | qwen36-gfx906/overlays/gguf-dense/minimal-bundle/qwen3_5.py:746-769 | the GGUF branch appends the same rows as the ordinary loader would copy |
| `QkvLoader.DefaultSlice` | qwen36-gfx906/overlays/gguf-dense/minimal-bundle/linear.py:1350-1360 | without replication the GGUF default of equal parts is the ordinary slice |
| `QkvLoader.EqualPartsIffNotReplicated` | qwen36-gfx906/overlays/gguf-dense/minimal-bundle/linear.py:1350-1360 | equal parts over the ranks are the right key/value slice exactly when KV heads are not replicated |
| `RankGrid.EncodeDecode` | qwen36-gfx906/overlays/gguf-dense/minimal-bundle/parallel_state.py:2043-2050 | a rank is recovered from its five coordinates |
| `RankGrid.DecodeEncode` | qwen36-gfx906/overlays/gguf-dense/minimal-bundle/parallel_state.py:2043-2050 | and coordinates from their rank |
| `RankGrid.RankAtInverse` | qwen36-gfx906/overlays/gguf-dense/minimal-bundle/parallel_state.py:2081-2178 | transposing two axes and flattening is a permutation of the ranks |
| `RankGrid.RankInItsGroup` | qwen36-gfx906/overlays/gguf-dense/minimal-bundle/parallel_state.py:534-547 | every rank is a member of its group, at its index |
| `RankGrid.MemberDetermined` | qwen36-gfx906/overlays/gguf-dense/minimal-bundle/parallel_state.py:534-547 | and of no other group or place: the groups are disjoint |
| `RankGrid.SharesGroup` | qwen36-gfx906/overlays/gguf-dense/minimal-bundle/parallel_state.py:2043-2178 | two ranks share a group exactly when their leading exchanged coordinates agree |
| `ParallelGroups.FamilyValid` | qwen36-gfx906/overlays/gguf-dense/minimal-bundle/parallel_state.py:2043-2178 | each of the TP, PCP, PP, DP and EP families cuts the world into whole groups of its size |
| `ParallelGroups.RankFormula` | qwen36-gfx906/overlays/gguf-dense/minimal-bundle/parallel_state.py:2043-2050 | a rank is the row-major number of its coordinates: external data, data, pipeline, prefill-context, tensor, the last fastest |
| `ParallelGroups.SameGroup` | qwen36-gfx906/overlays/gguf-dense/minimal-bundle/parallel_state.py:2043-2178 | two ranks share a group exactly when they agree on the family's fixed coordinates |
| `ParallelGroups.DcpInsideTp` | qwen36-gfx906/overlays/gguf-dense/minimal-bundle/parallel_state.py:2075-2080 | DCP groups lie inside TP groups exactly when dcp divides tp |
| `ParallelGroups.PickGroup` | qwen36-gfx906/overlays/gguf-dense/minimal-bundle/parallel_state.py:534-547 | the constructor's loop ends with the one group that contains the rank, and its index there |
| `ParallelGroups.GroupCoordinator.constructor` | qwen36-gfx906/overlays/gguf-dense/minimal-bundle/parallel_state.py:534-547 | a coordinator holds exactly the ranks that share its group, in the order of their own coordinate on the family's axis, and its rank in the group is that coordinate (for EP, data, prefill-context and tensor coordinates together) |
| `ParallelGroups.IndexIsPlace` | qwen36-gfx906/overlays/gguf-dense/minimal-bundle/parallel_state.py:2043-2178 | the index of a rank in its group of any family is its coordinate on the family's free axis |
| `TensorDict.SlicesConcat` | qwen36-gfx906/overlays/gguf-dense/minimal-bundle/parallel_state.py:1497-1508 | the slices of a tensor that divides, gathered in rank order, are the tensor |
| `TensorShapes.NumelProduct` | qwen36-gfx906/overlays/gguf-dense/minimal-bundle/parallel_state.py:1290-1303 | the number of elements that decides slicing is the product of the dimensions, however they are grouped |
| `TensorDict.ISend` | qwen36-gfx906/overlays/gguf-dense/minimal-bundle/parallel_state.py:1342-1397 | sends go out in order on their channel, empty tensors skipped; it raises exactly when a tensor to be sliced does not divide |
| `TensorDict.SentMessage` | qwen36-gfx906/overlays/gguf-dense/minimal-bundle/parallel_state.py:1290-1397 | without an override the message of an n-element tensor is n / size elements when size divides n, and all n otherwise; an override for its key decides instead |
| `TensorDict.SendsMatchReceives` | qwen36-gfx906/overlays/gguf-dense/minimal-bundle/parallel_state.py:1373-1521 | on each channel the sends and the posted receives match one for one in order and size |
| `TensorDict.NextMessage` | qwen36-gfx906/overlays/gguf-dense/minimal-bundle/parallel_state.py:1471-1521 | the message an entry's receive gets is the one its sender put there |
| `TensorDict.IRecv` | qwen36-gfx906/overlays/gguf-dense/minimal-bundle/parallel_state.py:1437-1521 | after waiting, the dictionary holds the sender's values, or slices where a gather is due, and the gathers are queued in order |
| `TensorDict.GatherRestores` | qwen36-gfx906/overlays/gguf-dense/minimal-bundle/parallel_state.py:1497-1508 | every rank's j-th gather is for the same entry and restores its tensor |
| `TensorDict.Postprocess` | qwen36-gfx906/overlays/gguf-dense/minimal-bundle/parallel_state.py:1425-1435 | after the gathers the dictionary is the sender's |
| `TensorDict.Exchange` | qwen36-gfx906/overlays/gguf-dense/minimal-bundle/parallel_state.py:1290-1521 | the whole exchange is a round trip on every rank; it fails exactly when an override asks to slice a nonempty tensor that does not divide, so never without overrides |
| `PrefoldState.CommState.Begin` | qwen36-gfx906/overlays/gguf-dense/minimal-bundle/communication_op.py:20-25 | arms the residual and forgets the last consumption |
| `PrefoldState.CommState.Clear` | qwen36-gfx906/overlays/gguf-dense/minimal-bundle/communication_op.py:28-30 | drops the residual |
| `PrefoldState.CommState.Consume` | qwen36-gfx906/overlays/gguf-dense/minimal-bundle/communication_op.py:37-76 | folds residual / TP into the input exactly when the fold is enabled, a residual is pending, both are contiguous [tokens, 5120] half tensors on the device and there is more than one rank, and then the residual is spent; refuses exactly on a strict fold of a strided tensor; otherwise nothing changes |
| `PrefoldState.AllReduce` | qwen36-gfx906/overlays/gguf-dense/minimal-bundle/communication_op.py:79-133 | the reduced value is the sum of the ranks' contributions; it raises exactly when a rank refuses strictly; no residual is left half used |
| `PrefoldState.ReduceIs` | qwen36-gfx906/overlays/gguf-dense/minimal-bundle/communication_op.py:79-133 | an element of the reduced value is the sum of the ranks' elements |
| `PrefoldState.PartialFold` | qwen36-gfx906/overlays/gguf-dense/minimal-bundle/communication_op.py:65-73 | if some ranks fold, the all-reduce returns the plain sum plus their shares of the residual |
| `PrefoldState.RightIffUnanimous` | qwen36-gfx906/overlays/gguf-dense/minimal-bundle/communication_op.py:65-73 | every rank ends with the reduced sum plus the residual, counted once, exactly when all ranks decide alike or the residual is zero |
| `PrefoldStack.RowParallel` | qwen36-gfx906/overlays/gguf-dense/minimal-bundle/linear.py:1711-1752 | the row-parallel reduction, skipped on one rank |
| `PrefoldStack.NothingPending` | qwen36-gfx906/overlays/gguf-dense/minimal-bundle/communication_op.py:37-46 | with nothing pending an all-reduce is the plain sum and cannot raise |
| `PrefoldStack.OneVerdict` | qwen36-gfx906/overlays/gguf-dense/minimal-bundle/communication_op.py:41-64 | ranks whose tensors look alike reach one verdict |
| `PrefoldStack.PrefoldMlp` | qwen36-gfx906/files/gfx906_runtime/python_overlays/qwen2_moe_interleaved_swiglu_20260608.py:671-709 | begin, MLP, ask, clear: every rank ends with the full MLP output plus the residual, and nothing pending even if the fold raises |
| `PrefoldStack.OtherMlp` | qwen36-gfx906/files/gfx906_runtime/python_overlays/qwen2_moe_interleaved_swiglu_20260608.py:381-421 | the same for the fused down-projection that adds residual / TP itself, and for no fold at all |
| `PrefoldStack.MlpPart` | qwen36-gfx906/files/gfx906_runtime/python_overlays/qwen2_moe_interleaved_swiglu_20260608.py:657-709 | whichever route the switches choose, hidden plus residual is right on every rank; it raises exactly on a strict fold of a strided tensor |
| `PrefoldStack.FusesIs` | qwen36-gfx906/files/gfx906_runtime/python_overlays/qwen2_moe_interleaved_swiglu_20260608.py:381-421 | when the native operation's guards pass: one row of 2176 and of 5120 elements under any leading dimensions of 1, a 5120 x 2176 weight, half precision, contiguous, on the device, eight ranks |
| `PrefoldStack.ViewKeepsElements` | qwen36-gfx906/files/gfx906_runtime/python_overlays/qwen2_moe_interleaved_swiglu_20260608.py:381-421 | the two-dimensional view of an operand has the tensor's elements |
| `PrefoldStack.LayerForward` | qwen36-gfx906/files/gfx906_runtime/python_overlays/qwen2_moe_interleaved_swiglu_20260608.py:642-709 | one decoder layer carries hidden + residual as the plain layer does, folded or not, and leaves nothing pending; it hands on no residual exactly when the fused down-projection ran (eight ranks and the shapes and types it is built for) or the all-reduce folded it, by the switches, the environment and the tensors |
| `PrefoldStack.StackForward` | qwen36-gfx906/files/gfx906_runtime/python_overlays/qwen2_moe_interleaved_swiglu_20260608.py:748-771 | any stack of layers in any pattern of folded, unfolded and fused residuals carries the plain stack's hidden + residual on every rank |
| `PrefoldStack.PipelineForward` | qwen36-gfx906/files/gfx906_runtime/python_overlays/qwen2_moe_interleaved_swiglu_20260608.py:746-776 | over any split of the layers into pipeline stages, each handing its hidden states and its residual, or the absence of one, to the next, every rank of the last stage ends with the norm of the plain stream through all layers; it raises exactly when some layer's strict fold meets a strided tensor |
| `PrefoldStack.ModelForward` | qwen36-gfx906/files/gfx906_runtime/python_overlays/qwen2_moe_interleaved_swiglu_20260608.py:746-776 | one stage's forward, first, middle or last: it hands on a state that carries the plain stream or, on the last stage, every rank's output is the norm of that stream, residual folded or not |
| `GgufHeads.SourceTarget` | qwen36-gfx906/overlays/gguf-dense/minimal-bundle/qwen3_5.py:121-126 | with g a divisor of n the head reordering is a bijection with the given inverse |
| `GgufHeads.PermutationIff` | qwen36-gfx906/overlays/gguf-dense/minimal-bundle/qwen3_5.py:121-126 | the reordering drops and doubles no head exactly when g divides n (or there is at most one head) |
| `GgufHeads.PairingCarried` | qwen36-gfx906/overlays/gguf-dense/minimal-bundle/qwen3_5.py:141-144 | it carries the pairing key = h mod (n / g) to key = i / g |
| `GgufHeads.PairingLocal` | qwen36-gfx906/overlays/gguf-dense/minimal-bundle/qwen3_5.py:141-144 | with that pairing a rank's consecutive value heads use only its own key heads |
| `GgufHeads.RowIndices` | qwen36-gfx906/overlays/gguf-dense/minimal-bundle/qwen3_5.py:129-137 | the row-index loop lists each head's rows at the head's source |
| `GgufHeads.RowSourcesFollowHeads` | qwen36-gfx906/overlays/gguf-dense/minimal-bundle/qwen3_5.py:129-137 | the row list follows the heads and stays in range |
| `GgufHeads.SumReordered` | qwen36-gfx906/overlays/gguf-dense/minimal-bundle/qwen3_5.py:436-473 | summing over reordered heads is summing over heads |
| `GgufHeads.ConvertedHead` | qwen36-gfx906/overlays/gguf-dense/minimal-bundle/qwen3_5.py:140-222 | a converted value head has the v, z, b, a, decay, bias and conv rows of its source head, A_log = log(-A) undone by -exp |
| `GgufHeads.ConvertedKey` | qwen36-gfx906/overlays/gguf-dense/minimal-bundle/qwen3_5.py:140-222 | query and key rows are untouched |
| `GgufHeads.ConvertedColumns` | qwen36-gfx906/overlays/gguf-dense/minimal-bundle/qwen3_5.py:174-177 | reordering out_proj columns with the rows keeps a head's part of the output |
| `GgufHeads.ConversionPreservesLayer` | qwen36-gfx906/overlays/gguf-dense/minimal-bundle/qwen3_5.py:140-222 | for all n divisible by g and all head sizes the converted layer computes what the stored layer means, whatever the recurrence does |
| `GgufLayer.MaybePermute` | qwen36-gfx906/overlays/gguf-dense/minimal-bundle/qwen3_5.py:140-186 | which rows or columns of a matrix are reordered, and when it is left alone: element 128 i + d comes from 128 (16 (i mod 3) + i / 3) + d, after the key rows |
| `GgufLayer.MaybeConvertVector` | qwen36-gfx906/overlays/gguf-dense/minimal-bundle/qwen3_5.py:203-211 | A_log is log(-A) and dt_bias itself, of the head at 16 (i mod 3) + i / 3 |
| `GgufLayer.MaybeConvertConv` | qwen36-gfx906/overlays/gguf-dense/minimal-bundle/qwen3_5.py:212-216 | the conv rows past the query and key part are overwritten with the reordered ones |
| `GgufLayer.LoadLayer` | qwen36-gfx906/overlays/gguf-dense/minimal-bundle/qwen3_5.py:140-222 | a layer loaded with both switches on computes, for every recurrence and output, what the file means: the sums over 48 value heads, in the file with key head h mod 16 and A, in the layer with key head h / 3 and -exp(A_log), are equal; with both switches off it is untouched |
| `Tp4x2.Process.BuildShared` | qwen36-gfx906/files/gfx906_runtime/moe_tp8_overlays/qwen3_next_tp4x2_in_tp8.py:365-379 | inside the linear context the shared expert is cut four ways by rank mod 4; the module's functions are restored even if the build fails |
| `Tp4x2.Process.InitGroup` | qwen36-gfx906/files/gfx906_runtime/moe_tp8_overlays/qwen3_next_tp4x2_in_tp8.py:382-396 | the group is made once and is the rank's own row of the list; a rank past 7 finds none |
| `Tp4x2.Process.Build` | qwen36-gfx906/files/gfx906_runtime/moe_tp8_overlays/qwen3_next_tp4x2_in_tp8.py:526-626 | which rows of the shared and routed experts a rank's block loads and which modes it has, from the switches and the group size, and exactly when its construction fails |
| `Tp4x2.ShardsAddUp` | qwen36-gfx906/files/gfx906_runtime/moe_tp8_overlays/qwen3_next_tp4x2_in_tp8.py:333-402 | the ranks' slices add up to the whole dimension |
| `Tp4x2.GroupReduceIsFull` | qwen36-gfx906/files/gfx906_runtime/moe_tp8_overlays/qwen3_next_tp4x2_in_tp8.py:399-402 | four-way slices held by both groups reduce to the full sum on all eight ranks |
| `Tp4x2.ReducePlus` | qwen36-gfx906/files/gfx906_runtime/moe_tp8_overlays/qwen3_next_tp4x2_in_tp8.py:668-673 | reducing a local sum is summing the reductions |
| `Tp4x2.Modes` | qwen36-gfx906/files/gfx906_runtime/moe_tp8_overlays/qwen3_next_tp4x2_in_tp8.py:333-358 | all ranks run the same branch, and a fused reduce only happens with four-way shared and routed slices |
| `Tp4x2.Forward` | qwen36-gfx906/files/gfx906_runtime/moe_tp8_overlays/qwen3_next_tp4x2_in_tp8.py:668-707 | every mode leaves every rank with the full shared sum plus the full routed sum, as plain tensor parallelism does |
| `CallsiteRoutes.OneSiteInEachPeriod` | qwen36-gfx906/overlays/gguf-dense/minimal-bundle/gfx906_persistent_ar.py:385-389 | of any mod consecutive calls the residue setting picks exactly one |
| `CallsiteRoutes.RangeNeedsSizes` | qwen36-gfx906/overlays/gguf-dense/minimal-bundle/gfx906_persistent_ar.py:357-471 | without lists and residues, which calls are bypassed or sent to the call-site runtime: those in the range that match the kind and a configured size, so a range alone picks none |
| `CallsiteRoutes.ListedSites` | qwen36-gfx906/overlays/gguf-dense/minimal-bundle/gfx906_persistent_ar.py:357-376 | with a list of call numbers and no listed prefix, the bypassed calls are those on the list whose kind and size match |
| `CallsiteRoutes.ListedPrefixes` | qwen36-gfx906/overlays/gguf-dense/minimal-bundle/gfx906_persistent_ar.py:307-372 | a listed prefix decides before any list of numbers, by its occurrence number if one is asked for |
| `CallsiteRoutes.ResidueSites` | qwen36-gfx906/overlays/gguf-dense/minimal-bundle/gfx906_persistent_ar.py:357-391 | with a residue and no list, those at the residue and in the range |
| `CallsiteRoutes.ListedRoutes` | qwen36-gfx906/overlays/gguf-dense/minimal-bundle/gfx906_persistent_ar.py:427-463 | the same for the calls sent to the call-site runtime |
| `CallsiteRoutes.NothingConfigured` | qwen36-gfx906/overlays/gguf-dense/minimal-bundle/gfx906_persistent_ar.py:357-471 | with nothing configured no call is bypassed and none is rerouted |
| `CallsiteRoutes.SetCache.Lookup` | qwen36-gfx906/overlays/gguf-dense/minimal-bundle/gfx906_persistent_ar.py:244-304 | a parsed list is the list of its text, cached or not; a strict lookup raises exactly on a malformed item that is not already cached |
| `PersistentAr.Router.GetHandle` | qwen36-gfx906/overlays/gguf-dense/minimal-bundle/gfx906_persistent_ar.py:553-589 | the handle it finds or makes, the library it loads, and the whole effect on the tables; failures leave the other tables alone |
| `PersistentArRuns.HandlesMadeOnce` | qwen36-gfx906/overlays/gguf-dense/minimal-bundle/gfx906_persistent_ar.py:553-589 | in any run no handle is made twice for the same library and communicator |
| `PersistentArRuns.RangesAloneDoNothing` | qwen36-gfx906/overlays/gguf-dense/minimal-bundle/gfx906_persistent_ar.py:357-471 | a run in which only ranges of call numbers are configured has the same answers and tables as with nothing configured |
| `PersistentArRuns.OtherWorldsUntouched` | qwen36-gfx906/overlays/gguf-dense/minimal-bundle/gfx906_persistent_ar.py:608-609 | in any run a call at a world size other than 8 falls back and changes no table |
| `PersistentArRuns.PlainCallsLaunch` | qwen36-gfx906/overlays/gguf-dense/minimal-bundle/gfx906_persistent_ar.py:596-685 | in any run, with nothing configured, every half-precision contiguous device call of a supported size on eight ranks is a launch if its library, handle and launch succeed |
| `PersistentArRuns.ListedCallsBypassed` | qwen36-gfx906/overlays/gguf-dense/minimal-bundle/gfx906_persistent_ar.py:365-376 | with a list of call numbers, a live call is bypassed exactly when the number of its communicator's launches and bypasses so far is on the list |
| `PersistentAr.Router.TryAllReduceInplace` | qwen36-gfx906/overlays/gguf-dense/minimal-bundle/gfx906_persistent_ar.py:596-685 | exactly when a call is launched, bypassed, raises or falls back, from its fields and the tables, and its whole effect on the five tables: which counters and handles move, and to what |
| `PersistentAr.Router.StartDeferredWorkers` | qwen36-gfx906/overlays/gguf-dense/minimal-bundle/gfx906_persistent_ar.py:972-1001 | starts each unstarted handle in order and counts them; a strict failure stops |
| `PersistentArRuns.ImageStep` | qwen36-gfx906/overlays/gguf-dense/minimal-bundle/gfx906_persistent_ar.py:596-1001 | a step commutes with renaming devices and communicators |
| `PersistentArRuns.Lockstep` | qwen36-gfx906/overlays/gguf-dense/minimal-bundle/gfx906_persistent_ar.py:596-1001 | ranks with the same calls, environment and outcomes answer alike at every step of any run |
| `PersistentArRuns.CountersCount` | qwen36-gfx906/overlays/gguf-dense/minimal-bundle/gfx906_persistent_ar.py:617-685 | a communicator's running number is its launches plus bypasses, and a prefix's occurrence number counts its calls past the guards, whatever became of them |
| `PersistentArRuns.StartedByAStart` | qwen36-gfx906/overlays/gguf-dense/minimal-bundle/gfx906_persistent_ar.py:972-1001 | only a successful start marks a worker as started |
| `PersistentArRuns.StartsExactly` | qwen36-gfx906/overlays/gguf-dense/minimal-bundle/gfx906_persistent_ar.py:972-1001 | which handles a start of deferred workers marks as started |
| `PersistentArRuns.NoUnstartedLaunch` | qwen36-gfx906/overlays/gguf-dense/minimal-bundle/gfx906_persistent_ar.py:657-664 | with deferral on, a launch outside capture uses a handle that an earlier step started |

## Left out

- Floating-point rounding, half and fp8 casts, NaN behaviour, and the E4M3 bit dequantisation: values are exact reals.
- Multimodal prefix ranges, cascade attention, fp8 K/V scales and the final output clamp of the attention kernels.
- Out-of-range lanes of the attention block table are loads of arbitrary values; what matters is that they are masked.
- The prefill tile chooser and shared-memory estimate of `unified_attention`: any positive tile size is accepted instead.
- Quantised variants of the grouped GEMM (int8, fp8, GPTQ/AWQ, MX formats) and the CUDA branch of the WNA16 chooser.
- `moe_align_block_size` is not part of this model; it is a parameter with the layout contract `MoeAlignment.IsSorted`.
- Activations are the parameter `silu` of the gated product; other gated activations and `no_mul` variants are left out.
- The memory that the fast path reads for an id of -1 is two arbitrary matrices in front of the first expert's (`FastPath.Stray`), and the memory of the shared scratch buffer is a parameter (`ExpertChunks.Scratch`); the other new buffers hold arbitrary values.
- With an expert map the code zeroes the third cache and every token is right (`ExpertChunks.OwnCellRight`), so the exact conditions on missing experts are stated without a map.
- Materialising a GGUF container into one padded tensor; `GgufLoader` ends with the container.
- ColumnLoader.LoadFused: a tuple of shard ids that does not start at 0 is modelled as the code runs it (pieces stored from shard 0 on), so only a zero start is shown to load every shard.
- Packed, Marlin, bitsandbytes, block-scale and per-tensor-scale branches of the weight loaders.
- Copies between tensors of a device are modelled as values; only buffers that the code shares or overwrites are arrays.
- Elastic expert parallelism, sequence-parallel MoE blocks and their all-gathers, and expert load balancing.
- The norms, attention, activations and projections inside a decoder layer are functions of their input; their parts on each rank are given.
- PrefoldStack.LayerForward: takes the residual once for all ranks, since the ranks are shown to agree on hidden + residual before each layer.
- PrefoldStack.PipelineForward: assumes that the hand-off between stages passes an absent residual on; a runner that slices every entry of the intermediate tensors (as `gpu_model_runner.py` of the gguf-moe bundle does) fails on one.
- The bias variant of the fold: the functions it calls do not exist in `communication_op.py`, so the code's own no-op fallbacks are modelled (`PrefoldStack.Route`).
- The dense MLP of a decoder layer never carries an expert gate, so a gate together with a folded residual is left out.
- The gated delta-rule recurrence is a parameter of `GgufHeads.Output`; the theorem holds for any recurrence.
- GgufLayer.LoadLayer: with only one of its two switches on the layer is converted by half; nothing is claimed then.
- The gemma norm offset and the trace and materialisation helpers of `qwen3_5.py`.
- Tp4x2.Forward: works on one output element at a time, and assumes the process group exists when the four-way mode is on; without it the code reduces nothing.
- The GPU runtime behind the persistent all-reduce, its fused add-and-norm entry points, traces, logs and watchdog; creating, starting and launching are outcomes given to the model.
- Splitting a kind string into route and prefix, and numeric settings that do not parse: kinds and settings are given already split and parsed (list settings are parsed in `CallsiteRoutes.SetCache`).
- Process groups, sockets and streams behind sends and receives: a channel delivers messages in order.
- The custom CPU send/receive path and object serialisation of tensor dictionaries.
- Platform queries, proxies, benchmarks and probe programs of the repository.
