/**
 One call of paged unified attention: the batch, the paged key/value cache, the score modifiers,
 and the reference answer, which is plain softmax over exactly the keys a query may see.
 Tensors are functions of their indices, so an unmasked load of an unused entry yields any value.
 */
module AttentionProblem {
  import opened Options
  import opened Sums
  import opened Scores

  datatype Alibi = NoAlibi | Linear(slope: int -> real) | SquareRoot(slopes: int -> real, sqrt: real -> real)

  datatype Problem = Problem(
    numSeqs: nat,
    queryStart: seq<nat>,
    seqLens: seq<nat>,
    numHeads: nat,
    numKvHeads: nat,
    headSize: nat,
    headPadded: nat,
    window: nat,
    scale: real,
    softcap: real,
    alibi: Alibi,
    qqBias: Option<(int, int) -> real>,
    qqStride: nat,
    sinks: Option<int -> Score>,
    query: (int, int, int) -> real,
    keyCache: (int, int, int, int) -> real,
    valueCache: (int, int, int, int) -> real,
    blockSize: nat,
    blockTable: (int, int) -> int)

  /** Launch shape: rows per block, query positions per block, keys per tile. */
  datatype Config = Config(blockM: nat, blockQ: nat, tile: nat)

  ghost predicate ValidBatch(p: Problem) {
    && |p.queryStart| == p.numSeqs + 1
    && |p.seqLens| == p.numSeqs
    && p.queryStart[0] == 0
    && (forall i, j | 0 <= i <= j <= p.numSeqs :: p.queryStart[i] <= p.queryStart[j])
    && (forall s | 0 <= s < p.numSeqs :: QueryLen(p, s) <= p.seqLens[s])
  }

  ghost predicate Valid(p: Problem) {
    && ValidBatch(p)
    && p.numKvHeads > 0 && p.numHeads > 0 && p.numHeads % p.numKvHeads == 0
    && p.headSize <= p.headPadded
    && p.blockSize > 0
  }

  function QueryLen(p: Problem, s: int): int
    requires 0 <= s < p.numSeqs && |p.queryStart| == p.numSeqs + 1
  {
    p.queryStart[s + 1] as int - p.queryStart[s] as int
  }

  function ContextLen(p: Problem, s: int): int
    requires 0 <= s < p.numSeqs && |p.queryStart| == p.numSeqs + 1 && |p.seqLens| == p.numSeqs
  {
    p.seqLens[s] as int - QueryLen(p, s)
  }

  function NumTokens(p: Problem): nat
    requires |p.queryStart| == p.numSeqs + 1
  {
    p.queryStart[p.numSeqs]
  }

  function QueriesPerKv(p: Problem): nat
    requires p.numKvHeads > 0
  {
    p.numHeads / p.numKvHeads
  }

  /** Sequence `s` holds token `t`. */
  ghost predicate Owns(p: Problem, s: int, t: int)
    requires |p.queryStart| == p.numSeqs + 1
  {
    0 <= s < p.numSeqs && p.queryStart[s] <= t < p.queryStart[s + 1]
  }

  // ---------------------------------------------------------------- reference answer

  /** Causal mask, intersected with the sliding window when one is set. */
  predicate Sees(p: Problem, s: int, qpos: int, k: int)
    requires 0 <= s < p.numSeqs && |p.queryStart| == p.numSeqs + 1 && |p.seqLens| == p.numSeqs
  {
    var q := ContextLen(p, s) + qpos;
    0 <= k <= q && (p.window > 0 ==> q - k < p.window)
  }

  function Key(p: Problem, s: int, k: int, kvh: int, d: int): real
    requires p.blockSize > 0
  {
    p.keyCache(p.blockTable(s, k / p.blockSize), k % p.blockSize, kvh, d)
  }

  function Value(p: Problem, s: int, k: int, kvh: int, d: int): real
    requires p.blockSize > 0
  {
    p.valueCache(p.blockTable(s, k / p.blockSize), k % p.blockSize, kvh, d)
  }

  function Dot(p: Problem, s: int, t: int, h: int, k: int): real
    requires p.blockSize > 0 && p.numKvHeads > 0 && QueriesPerKv(p) > 0
  {
    Sum(d => p.query(t, h, d) * Key(p, s, k, h / QueriesPerKv(p), d), 0, p.headSize)
  }

  function Softcap(e: real -> real, x: real, cap: real): real
    requires IsExp(e) && cap > 0.0
  {
    var p1 := e(x / cap);
    var p2 := e(-(x / cap));
    cap * (p1 - p2) / (p1 + p2)
  }

  /** The score of a query/key pair before masking: scaled dot product, softcapped when asked. */
  function Logit(p: Problem, e: real -> real, dot: real): real
    requires IsExp(e)
  {
    if p.softcap > 0.0 then Softcap(e, p.scale * dot, p.softcap) else p.scale * dot
  }

  /** Position biases added to the score after masking. */
  function Bias(p: Problem, s: int, qpos: int, h: int, k: int): real
    requires 0 <= s < p.numSeqs && |p.queryStart| == p.numSeqs + 1 && |p.seqLens| == p.numSeqs
  {
    var context := ContextLen(p, s);
    var alibi := match p.alibi
      case NoAlibi => 0.0
      case Linear(slope) => slope(h) * (k - context) as real
      case SquareRoot(slope, sqrt) =>
        var relative := k - (context + qpos);
        slope(h) * (if relative <= 0 then -sqrt((-relative) as real) else 0.0);
    var bias := match p.qqBias
      case None => 0.0
      case Some(qq) => if 0 <= k - context < p.qqStride then qq(qpos, k - context) else 0.0;
    alibi + bias
  }

  function RowScore(p: Problem, e: real -> real, s: int, qpos: int, h: int, k: int): Score
    requires Valid(p) && IsExp(e) && 0 <= s < p.numSeqs
  {
    GroupsPositive(p);
    if Sees(p, s, qpos, k)
    then Fin(Logit(p, e, Dot(p, s, p.queryStart[s] + qpos, h, k)) + Bias(p, s, qpos, h, k))
    else NegInf
  }

  function SinkScore(p: Problem, h: int): Score {
    match p.sinks
    case None => NegInf
    case Some(sink) => sink(h)
  }

  /** Unnormalised weight of key `k`, and the same weight times coordinate `d` of its value. */
  function KeyWeight(p: Problem, e: real -> real, s: int, qpos: int, h: int): int -> real
    requires Valid(p) && IsExp(e) && 0 <= s < p.numSeqs
  {
    k => Weight(e, RowScore(p, e, s, qpos, h, k))
  }

  function KeyValue(p: Problem, e: real -> real, s: int, qpos: int, h: int, d: int): int -> real
    requires Valid(p) && IsExp(e) && 0 <= s < p.numSeqs
  {
    GroupsPositive(p);
    k => Weighted(e, RowScore(p, e, s, qpos, h, k), Value(p, s, k, h / QueriesPerKv(p), d))
  }

  function Denominator(p: Problem, e: real -> real, s: int, qpos: int, h: int): real
    requires Valid(p) && IsExp(e) && 0 <= s < p.numSeqs
  {
    Weight(e, SinkScore(p, h)) + Sum(KeyWeight(p, e, s, qpos, h), 0, p.seqLens[s])
  }

  /** Untiled softmax attention of one query row over its whole sequence. */
  function Attention(p: Problem, e: real -> real, s: int, qpos: int, h: int, d: int): real
    requires Valid(p) && IsExp(e) && 0 <= s < p.numSeqs && 0 <= qpos < QueryLen(p, s)
  {
    DenominatorPositive(p, e, s, qpos, h);
    Sum(KeyValue(p, e, s, qpos, h, d), 0, p.seqLens[s]) / Denominator(p, e, s, qpos, h)
  }

  lemma GroupsPositive(p: Problem)
    requires p.numKvHeads > 0 && p.numHeads > 0 && p.numHeads % p.numKvHeads == 0
    ensures QueriesPerKv(p) > 0
    ensures p.numHeads == p.numKvHeads * QueriesPerKv(p)
  {
  }

  /** Every query sees at least its own key, so the softmax never divides by zero. */
  lemma DenominatorPositive(p: Problem, e: real -> real, s: int, qpos: int, h: int)
    requires Valid(p) && IsExp(e) && 0 <= s < p.numSeqs && 0 <= qpos < QueryLen(p, s)
    ensures Denominator(p, e, s, qpos, h) > 0.0
  {
    var self := ContextLen(p, s) + qpos;
    assert QueryLen(p, s) <= p.seqLens[s];
    assert Sees(p, s, qpos, self);
    SumPositive(KeyWeight(p, e, s, qpos, h), 0, p.seqLens[s], self);
  }
}
