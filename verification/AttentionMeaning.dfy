/**
 What the reference answer of unified attention is, in terms of dense keys and values that the page
 table lays out: sums, products and the exponential, over the keys up to the query's own position or
 the last `window` of them.
 */
module AttentionMeaning {
  import opened Sums
  import opened Scores
  import opened AttentionProblem
  import opened Attention2D

  type Rows = (int, int, int) -> real   // position, key/value head, coordinate

  /** The pages of sequence `s` hold keys `K` and values `V`, `blockSize` positions a page. */
  ghost predicate LaysOut(p: Problem, s: int, K: Rows, V: Rows)
    requires p.blockSize > 0 && 0 <= s < |p.seqLens|
  {
    forall j, g, x | 0 <= j < p.seqLens[s] ::
      && p.keyCache(p.blockTable(s, j / p.blockSize), j % p.blockSize, g, x) == K(j, g, x)
      && p.valueCache(p.blockTable(s, j / p.blockSize), j % p.blockSize, g, x) == V(j, g, x)
  }

  /** Token `t` belongs to sequence `s`, whose pages hold `K` and `V`. */
  ghost predicate Places(p: Problem, e: real -> real, s: int, t: int, K: Rows, V: Rows) {
    && Valid(p) && IsExp(e) && 0 <= s < p.numSeqs && p.queryStart[s] <= t < p.queryStart[s + 1]
    && LaysOut(p, s, K, V)
  }

  /** The key/value head of a query head: consecutive query heads share one. */
  function KvHead(p: Problem, h: int): int {
    if p.numKvHeads > 0 && p.numHeads / p.numKvHeads > 0 then h / (p.numHeads / p.numKvHeads) else 0
  }

  /** q . K[j] */
  function DenseDot(p: Problem, K: Rows, t: int, h: int, j: int): real {
    Sum(x => p.query(t, h, x) * K(j, KvHead(p, h), x), 0, p.headSize)
  }

  /** scale * q . K[j] */
  function DenseScore(p: Problem, K: Rows, t: int, h: int, j: int): real {
    p.scale * DenseDot(p, K, t, h, j)
  }

  // ---------------------------------------------------------------- without modifiers

  function DenseWeight(p: Problem, e: real -> real, K: Rows, t: int, h: int): int -> real {
    j => e(DenseScore(p, K, t, h, j))
  }

  function DenseTerm(p: Problem, e: real -> real, K: Rows, V: Rows, t: int, h: int, d: int): int -> real {
    j => e(DenseScore(p, K, t, h, j)) * V(j, KvHead(p, h), d)
  }

  /** The last position that a token attends to, its own ... */
  function LastKey(p: Problem, s: int, t: int): int {
    At(p.seqLens, s) - (At(p.queryStart, s + 1) - t)
  }

  function At(xs: seq<nat>, i: int): int { if 0 <= i < |xs| then xs[i] else 0 }

  /** ... and the first: of the whole sequence, or of the last `window` positions. */
  function FirstKey(p: Problem, last: int): int {
    if 0 < p.window <= last then last - p.window + 1 else 0
  }

  ghost predicate DenseCell(p: Problem, e: real -> real, s: int, t: int, h: int, d: int, K: Rows, V: Rows, cell: real) {
    var last := LastKey(p, s, t);
    var denominator := Sum(DenseWeight(p, e, K, t, h), FirstKey(p, last), last + 1);
    denominator > 0.0 && cell * denominator == Sum(DenseTerm(p, e, K, V, t, h, d), FirstKey(p, last), last + 1)
  }

  // ---------------------------------------------------------------- with softcap, position biases and sinks

  /** cap * tanh(x / cap) */
  function Capped(e: real -> real, x: real, cap: real): real {
    if cap <= 0.0 || e(x / cap) + e(-(x / cap)) == 0.0 then x
    else cap * ((e(x / cap) - e(-(x / cap))) / (e(x / cap) + e(-(x / cap))))
  }

  /** What position biases add to the score of position `j`. */
  function PositionBias(p: Problem, s: int, t: int, h: int, j: int): real {
    var context := At(p.seqLens, s) - (At(p.queryStart, s + 1) - At(p.queryStart, s));
    var alibi := match p.alibi
      case NoAlibi => 0.0
      case Linear(slope) => slope(h) * (j - context) as real
      case SquareRoot(slope, sqrt) => -(slope(h) * sqrt((LastKey(p, s, t) - j) as real));
    var pair := if p.qqBias.Some? && context <= j < context + p.qqStride
      then p.qqBias.value(t - At(p.queryStart, s), j - context) else 0.0;
    alibi + pair
  }

  function FullScore(p: Problem, e: real -> real, s: int, K: Rows, t: int, h: int, j: int): real {
    var score := DenseScore(p, K, t, h, j);
    Capped(e, score, p.softcap) + PositionBias(p, s, t, h, j)
  }

  function FullWeight(p: Problem, e: real -> real, s: int, K: Rows, t: int, h: int): int -> real {
    j => e(FullScore(p, e, s, K, t, h, j))
  }

  function FullTerm(p: Problem, e: real -> real, s: int, K: Rows, V: Rows, t: int, h: int, d: int): int -> real {
    j => e(FullScore(p, e, s, K, t, h, j)) * V(j, KvHead(p, h), d)
  }

  /** The sink of a head, if it has one, is one more term of the denominator. */
  function SinkTerm(p: Problem, e: real -> real, h: int): real {
    if p.sinks.Some? && p.sinks.value(h).Fin? then e(p.sinks.value(h).v) else 0.0
  }

  ghost predicate FullCell(p: Problem, e: real -> real, s: int, t: int, h: int, d: int, K: Rows, V: Rows, cell: real) {
    var last := LastKey(p, s, t);
    var denominator := SinkTerm(p, e, h) + Sum(FullWeight(p, e, s, K, t, h), FirstKey(p, last), last + 1);
    denominator > 0.0 && cell * denominator == Sum(FullTerm(p, e, s, K, V, t, h, d), FirstKey(p, last), last + 1)
  }

  // ---------------------------------------------------------------- the reference answer is that

  lemma KvHeadIs(p: Problem, h: int)
    requires Valid(p)
    ensures QueriesPerKv(p) > 0 && h / QueriesPerKv(p) == KvHead(p, h)
  {
    GroupsPositive(p);
  }

  lemma DotIsDense(p: Problem, e: real -> real, s: int, K: Rows, V: Rows, t: int, h: int, j: int)
    requires Places(p, e, s, t, K, V) && 0 <= j < p.seqLens[s]
    ensures QueriesPerKv(p) > 0 && Dot(p, s, t, h, j) == DenseDot(p, K, t, h, j)
  {
    KvHeadIs(p, h);
    SumEq(x => p.query(t, h, x) * Key(p, s, j, h / QueriesPerKv(p), x), x => p.query(t, h, x) * K(j, KvHead(p, h), x), 0, p.headSize);
  }

  /** The mask admits exactly the positions from the first to the last. */
  lemma SeesIsRange(p: Problem, s: int, t: int, j: int)
    requires Valid(p) && 0 <= s < p.numSeqs && p.queryStart[s] <= t < p.queryStart[s + 1] && 0 <= j
    ensures |p.seqLens| == p.numSeqs && |p.queryStart| == p.numSeqs + 1
    ensures 0 <= FirstKey(p, LastKey(p, s, t)) <= LastKey(p, s, t) < p.seqLens[s]
    ensures Sees(p, s, t - p.queryStart[s], j) <==> FirstKey(p, LastKey(p, s, t)) <= j <= LastKey(p, s, t)
  {
    assert QueryLen(p, s) <= p.seqLens[s];
  }

  lemma BiasIs(p: Problem, s: int, t: int, h: int, j: int)
    requires Valid(p) && 0 <= s < p.numSeqs && p.queryStart[s] <= t < p.queryStart[s + 1] && j <= LastKey(p, s, t)
    ensures Bias(p, s, t - p.queryStart[s], h, j) == PositionBias(p, s, t, h, j)
  {
    if p.alibi.SquareRoot? {
      assert -(j - (ContextLen(p, s) + (t - p.queryStart[s]))) == LastKey(p, s, t) - j;
    }
  }

  lemma CappedIs(e: real -> real, x: real, cap: real)
    requires IsExp(e) && cap > 0.0
    ensures Softcap(e, x, cap) == Capped(e, x, cap)
  {
    MulDiv(cap, e(x / cap) - e(-(x / cap)), e(x / cap) + e(-(x / cap)));
  }

  lemma LogitIs(p: Problem, e: real -> real, score: real, dot: real)
    requires IsExp(e) && score == p.scale * dot
    ensures Logit(p, e, dot) == Capped(e, score, p.softcap)
  {
    if p.softcap > 0.0 {
      CappedIs(e, score, p.softcap);
      hide Softcap;
      assert Logit(p, e, dot) == Softcap(e, score, p.softcap);
    }
  }

  lemma MulDiv(a: real, b: real, c: real)
    requires c != 0.0
    ensures a * b / c == a * (b / c)
  {
  }

  /** A token's place: query position `qpos` of sequence `s` of length `n`, attending to first..last. */
  ghost predicate Spans(p: Problem, s: int, t: int, qpos: int, first: int, last: int, n: int) {
    && Valid(p) && 0 <= s < p.numSeqs && 0 <= qpos < QueryLen(p, s) && t == p.queryStart[s] + qpos && n == p.seqLens[s]
    && last == LastKey(p, s, t) && first == FirstKey(p, last) && 0 <= first <= last < n
  }

  lemma SpanOf(p: Problem, s: int, t: int)
    requires Valid(p) && 0 <= s < p.numSeqs && p.queryStart[s] <= t < p.queryStart[s + 1]
    ensures Spans(p, s, t, t - p.queryStart[s], FirstKey(p, LastKey(p, s, t)), LastKey(p, s, t), p.seqLens[s])
  {
    SeesIsRange(p, s, t, 0);
  }

  lemma LogitIsDense(p: Problem, e: real -> real, s: int, K: Rows, V: Rows, t: int, h: int, j: int)
    requires Places(p, e, s, t, K, V) && 0 <= j < p.seqLens[s]
    ensures QueriesPerKv(p) > 0 && Logit(p, e, Dot(p, s, t, h, j)) == Capped(e, DenseScore(p, K, t, h, j), p.softcap)
  {
    hide Dot, DenseDot, Capped, Logit, LaysOut, ValidBatch;
    DotIsDense(p, e, s, K, V, t, h, j);
    LogitIs(p, e, DenseScore(p, K, t, h, j), Dot(p, s, t, h, j));
  }

  lemma RowScoreIs(p: Problem, e: real -> real, s: int, t: int, qpos: int, h: int, j: int)
    requires Valid(p) && IsExp(e) && 0 <= s < p.numSeqs && t == p.queryStart[s] + qpos
    ensures QueriesPerKv(p) > 0
    ensures RowScore(p, e, s, qpos, h, j)
         == if Sees(p, s, qpos, j) then Fin(Logit(p, e, Dot(p, s, t, h, j)) + Bias(p, s, qpos, h, j)) else NegInf
  {
    GroupsPositive(p);
    hide Dot, Logit, Bias, Sees, ValidBatch, IsExp;
  }

  lemma ScoreIsFull(p: Problem, e: real -> real, s: int, K: Rows, V: Rows, t: int, qpos: int, h: int, j: int, first: int, last: int, n: int)
    requires Places(p, e, s, t, K, V) && Spans(p, s, t, qpos, first, last, n) && 0 <= j < n
    ensures RowScore(p, e, s, qpos, h, j) == if first <= j <= last then Fin(FullScore(p, e, s, K, t, h, j)) else NegInf
  {
    hide Dot, DenseScore, LaysOut, Sees, Logit, Bias, Capped, PositionBias, IsExp, FirstKey, LastKey, RowScore;
    RowScoreIs(p, e, s, t, qpos, h, j);
    SeesIsRange(p, s, t, j);
    LogitIsDense(p, e, s, K, V, t, h, j);
    if j <= last {
      BiasIs(p, s, t, h, j);
    }
  }

  lemma WeightSum(p: Problem, e: real -> real, s: int, K: Rows, V: Rows, t: int, qpos: int, h: int, first: int, last: int, n: int)
    requires Places(p, e, s, t, K, V) && Spans(p, s, t, qpos, first, last, n)
    ensures Sum(KeyWeight(p, e, s, qpos, h), 0, n) == Sum(FullWeight(p, e, s, K, t, h), first, last + 1)
  {
    forall j | 0 <= j < n
      ensures KeyWeight(p, e, s, qpos, h)(j) == if first <= j <= last then FullWeight(p, e, s, K, t, h)(j) else 0.0
    {
      ScoreIsFull(p, e, s, K, V, t, qpos, h, j, first, last, n);
      hide RowScore, FullScore;
    }
    SameRange(KeyWeight(p, e, s, qpos, h), FullWeight(p, e, s, K, t, h), first, last, n);
  }

  lemma TermSum(p: Problem, e: real -> real, s: int, K: Rows, V: Rows, t: int, qpos: int, h: int, d: int, first: int, last: int, n: int)
    requires Places(p, e, s, t, K, V) && Spans(p, s, t, qpos, first, last, n)
    ensures Sum(KeyValue(p, e, s, qpos, h, d), 0, n) == Sum(FullTerm(p, e, s, K, V, t, h, d), first, last + 1)
  {
    forall j | 0 <= j < n
      ensures KeyValue(p, e, s, qpos, h, d)(j) == if first <= j <= last then FullTerm(p, e, s, K, V, t, h, d)(j) else 0.0
    {
      TermAt(p, e, s, K, V, t, qpos, h, d, j, first, last, n);
    }
    SameRange(KeyValue(p, e, s, qpos, h, d), FullTerm(p, e, s, K, V, t, h, d), first, last, n);
  }

  lemma TermAt(p: Problem, e: real -> real, s: int, K: Rows, V: Rows, t: int, qpos: int, h: int, d: int, j: int, first: int, last: int, n: int)
    requires Places(p, e, s, t, K, V) && Spans(p, s, t, qpos, first, last, n) && 0 <= j < n
    ensures KeyValue(p, e, s, qpos, h, d)(j) == if first <= j <= last then FullTerm(p, e, s, K, V, t, h, d)(j) else 0.0
  {
    hide RowScore, FullScore, Value, LaysOut, IsExp, ValidBatch, FirstKey, LastKey, KvHead, Weighted;
    ScoreIsFull(p, e, s, K, V, t, qpos, h, j, first, last, n);
    KvHeadIs(p, h);
    ValueIs(p, e, s, K, V, t, h, d, j);
    assert KeyValue(p, e, s, qpos, h, d)(j) == Weighted(e, RowScore(p, e, s, qpos, h, j), V(j, KvHead(p, h), d));
    WeightedIs(e, FullScore(p, e, s, K, t, h, j), V(j, KvHead(p, h), d));
  }

  lemma WeightedIs(e: real -> real, x: real, v: real)
    ensures Weighted(e, Fin(x), v) == e(x) * v && Weighted(e, NegInf, v) == 0.0
  {
  }

  lemma ValueIs(p: Problem, e: real -> real, s: int, K: Rows, V: Rows, t: int, h: int, d: int, j: int)
    requires Places(p, e, s, t, K, V) && 0 <= j < p.seqLens[s]
    ensures Value(p, s, j, KvHead(p, h), d) == V(j, KvHead(p, h), d)
  {
  }

  lemma SameRange(f: int -> real, g: int -> real, first: int, last: int, n: int)
    requires 0 <= first <= last < n
    requires forall j | 0 <= j < n :: f(j) == if first <= j <= last then g(j) else 0.0
    ensures Sum(f, 0, n) == Sum(g, first, last + 1)
  {
    SumTrim(f, 0, first, last + 1, n);
    SumEq(f, g, first, last + 1);
  }

  lemma AttentionTimes(p: Problem, e: real -> real, s: int, qpos: int, h: int, d: int)
    requires Valid(p) && IsExp(e) && 0 <= s < p.numSeqs && 0 <= qpos < QueryLen(p, s)
    ensures Denominator(p, e, s, qpos, h) > 0.0
    ensures Attention(p, e, s, qpos, h, d) * Denominator(p, e, s, qpos, h) == Sum(KeyValue(p, e, s, qpos, h, d), 0, p.seqLens[s])
  {
    hide Denominator, KeyValue, Sum, IsExp;
    DenominatorPositive(p, e, s, qpos, h);
    Quotient(Sum(KeyValue(p, e, s, qpos, h, d), 0, p.seqLens[s]), Denominator(p, e, s, qpos, h), Attention(p, e, s, qpos, h, d));
  }

  /** The reference answer times the denominator is the numerator, modifiers and all. */
  lemma AttentionIsFull(p: Problem, e: real -> real, s: int, K: Rows, V: Rows, t: int, qpos: int, h: int, d: int, first: int, last: int, n: int)
    requires Places(p, e, s, t, K, V) && Spans(p, s, t, qpos, first, last, n)
    ensures FullCell(p, e, s, t, h, d, K, V, Attention(p, e, s, qpos, h, d))
  {
    hide KeyWeight, KeyValue, FullWeight, FullTerm, Sum, IsExp, LaysOut, ValidBatch, FirstKey, LastKey, Attention;
    AttentionTimes(p, e, s, qpos, h, d);
    WeightSum(p, e, s, K, V, t, qpos, h, first, last, n);
    TermSum(p, e, s, K, V, t, qpos, h, d, first, last, n);
    assert Weight(e, SinkScore(p, h)) == SinkTerm(p, e, h);
    assert Denominator(p, e, s, qpos, h) == SinkTerm(p, e, h) + Sum(FullWeight(p, e, s, K, t, h), first, last + 1);
  }

  lemma AnswerIsFull(p: Problem, e: real -> real, s: int, t: int, h: int, d: int, K: Rows, V: Rows)
    requires Places(p, e, s, t, K, V)
    ensures 0 <= t < NumTokens(p) && FullCell(p, e, s, t, h, d, K, V, Answer(p, e, t, h, d))
  {
    hide FullCell, Attention, Answer, FirstKey, LastKey, LaysOut, IsExp;
    assert Owns(p, s, t);
    AnswerIs(p, e, s, t, h, d);
    SpanOf(p, s, t);
    AttentionIsFull(p, e, s, K, V, t, t - p.queryStart[s], h, d, FirstKey(p, LastKey(p, s, t)), LastKey(p, s, t), p.seqLens[s]);
  }

  lemma Quotient(a: real, b: real, c: real)
    requires b > 0.0 && c == a / b
    ensures c * b == a
  {
  }

  // ---------------------------------------------------------------- the output

  /** No softcap, no position bias and no sinks. */
  predicate IsPlain(p: Problem) {
    p.softcap <= 0.0 && p.alibi.NoAlibi? && p.qqBias.None? && p.sinks.None?
  }

  lemma FullIsDense(p: Problem, e: real -> real, s: int, t: int, h: int, d: int, K: Rows, V: Rows, cell: real)
    requires IsPlain(p)
    requires FullCell(p, e, s, t, h, d, K, V, cell)
    ensures DenseCell(p, e, s, t, h, d, K, V, cell)
  {
    hide DenseScore, FirstKey, LastKey, Sum, IsExp;
    var last := LastKey(p, s, t);
    var first := FirstKey(p, last);
    forall j | first <= j < last + 1
      ensures FullWeight(p, e, s, K, t, h)(j) == DenseWeight(p, e, K, t, h)(j)
      ensures FullTerm(p, e, s, K, V, t, h, d)(j) == DenseTerm(p, e, K, V, t, h, d)(j)
    {
      assert FullScore(p, e, s, K, t, h, j) == DenseScore(p, K, t, h, j);
    }
    SumEq(FullWeight(p, e, s, K, t, h), DenseWeight(p, e, K, t, h), first, last + 1);
    SumEq(FullTerm(p, e, s, K, V, t, h, d), DenseTerm(p, e, K, V, t, h, d), first, last + 1);
  }

  /** Every cell of the output, for every dense form of the paged keys and values of its sequence. */
  ghost predicate IsAttention(p: Problem, e: real -> real, out: array3<real>)
    reads out
  {
    forall s, t, h, d, K, V | Places(p, e, s, t, K, V) && 0 <= h < p.numHeads && 0 <= d < p.headSize ::
      && t < out.Length0 && h < out.Length1 && d < out.Length2
      && FullCell(p, e, s, t, h, d, K, V, out[t, h, d])
      && (IsPlain(p) ==> DenseCell(p, e, s, t, h, d, K, V, out[t, h, d]))
  }

  lemma AnswersAreAttention(p: Problem, e: real -> real, out: array3<real>)
    requires Valid(p) && IsExp(e) && OutputShape(p, out)
    requires forall t, h, d | InOutput(p, t, h, d) :: out[t, h, d] == Answer(p, e, t, h, d)
    ensures IsAttention(p, e, out)
  {
    forall s, t, h, d, K, V | Places(p, e, s, t, K, V) && 0 <= h < p.numHeads && 0 <= d < p.headSize
      ensures t < out.Length0 && h < out.Length1 && d < out.Length2
      ensures FullCell(p, e, s, t, h, d, K, V, out[t, h, d])
      ensures IsPlain(p) ==> DenseCell(p, e, s, t, h, d, K, V, out[t, h, d])
    {
      AnswerIsFull(p, e, s, t, h, d, K, V);
      assert InOutput(p, t, h, d);
      if IsPlain(p) {
        FullIsDense(p, e, s, t, h, d, K, V, out[t, h, d]);
      }
    }
  }
}
