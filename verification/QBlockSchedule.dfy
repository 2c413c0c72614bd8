/**
 The packed grid of query blocks: how a program id finds its sequence by binary search,
 and which rows of which programs compute a given (token, head).
 */
module QBlockSchedule {
  import opened AttentionProblem
  import opened DivMod

  /** The search key of sequence `i`: its first query block, or its first token. */
  function SearchKey(start: seq<nat>, i: int, blockQ: nat, qBlockMode: bool): int
    requires 0 <= i < |start| && blockQ > 0
  {
    if qBlockMode then start[i] / blockQ + i else start[i]
  }

  ghost predicate Sorted(start: seq<nat>) {
    forall i, j | 0 <= i <= j < |start| :: start[i] <= start[j]
  }

  lemma SearchKeySorted(start: seq<nat>, i: int, j: int, blockQ: nat, qBlockMode: bool)
    requires Sorted(start) && blockQ > 0 && 0 <= i <= j < |start|
    ensures SearchKey(start, i, blockQ, qBlockMode) <= SearchKey(start, j, blockQ, qBlockMode)
  {
    DivMonotone(start[i], start[j], blockQ);
  }

  /** Returns the last sequence whose search key does not exceed the target. */
  method FindSeqIdx(start: seq<nat>, target: int, numSeqs: nat, blockQ: nat, qBlockMode: bool) returns (idx: int)
    requires numSeqs < |start| && Sorted(start) && blockQ > 0
    ensures -1 <= idx < numSeqs
    ensures forall i | 0 <= i < numSeqs :: SearchKey(start, i, blockQ, qBlockMode) <= target <==> i <= idx
  {
    var left, right := 0, numSeqs;
    while left < right
      invariant 0 <= left <= right <= numSeqs
      invariant forall i | 0 <= i < left :: SearchKey(start, i, blockQ, qBlockMode) <= target
      invariant forall i | right <= i < numSeqs :: SearchKey(start, i, blockQ, qBlockMode) > target
    {
      var mid := (left + right) / 2;
      var midVal := if qBlockMode then start[mid] / blockQ + mid else start[mid];
      if midVal <= target {
        forall i | 0 <= i < mid + 1
          ensures SearchKey(start, i, blockQ, qBlockMode) <= target
        {
          SearchKeySorted(start, i, mid, blockQ, qBlockMode);
        }
        left := mid + 1;
      } else {
        forall i | mid <= i < numSeqs
          ensures SearchKey(start, i, blockQ, qBlockMode) > target
        {
          SearchKeySorted(start, mid, i, blockQ, qBlockMode);
        }
        right := mid;
      }
    }
    return left - 1;
  }

  // ---------------------------------------------------------------- decoding a program id

  ghost predicate ValidGrid(p: Problem, c: Config) {
    && Valid(p)
    && QueriesPerKv(p) > 0
    && c.blockM >= QueriesPerKv(p)
    && c.blockQ == c.blockM / QueriesPerKv(p)
    && c.blockQ > 0
  }

  function TotalQBlocks(p: Problem, c: Config): int
    requires ValidGrid(p, c)
  {
    NumTokens(p) / c.blockQ + p.numSeqs
  }

  /** What the binary search makes of program `q`. */
  ghost predicate Decodes(p: Problem, c: Config, q: int, s: int)
    requires ValidGrid(p, c)
  {
    && 0 <= s < p.numSeqs
    && forall i | 0 <= i < p.numSeqs :: SearchKey(p.queryStart, i, c.blockQ, true) <= q <==> i <= s
  }

  function FirstBlock(p: Problem, c: Config, s: int): int
    requires ValidGrid(p, c) && 0 <= s < p.numSeqs
  {
    p.queryStart[s] / c.blockQ + s
  }

  /** Row `m` of program (q, kvh) computes token `t` and head `h`. */
  ghost predicate Computes(p: Problem, c: Config, q: int, kvh: int, m: int, t: int, h: int)
    requires ValidGrid(p, c)
  {
    && 0 <= q < TotalQBlocks(p, c) && 0 <= kvh < p.numKvHeads && 0 <= m < c.blockM
    && exists s | Decodes(p, c, q, s) :: RowComputes(p, c, s, q - FirstBlock(p, c, s), kvh, m, t, h)
  }

  ghost predicate RowComputes(p: Problem, c: Config, s: int, b: int, kvh: int, m: int, t: int, h: int)
    requires ValidGrid(p, c) && 0 <= s < p.numSeqs
  {
    && 0 <= b && b * c.blockQ < QueryLen(p, s)
    && b * c.blockQ + m / QueriesPerKv(p) == t - p.queryStart[s]
    && t < p.queryStart[s + 1]
    && kvh * QueriesPerKv(p) + m % QueriesPerKv(p) == h
    && h < p.numHeads
  }

  /** The block of a sequence that holds token `t`, as a program id, and the row for head `h`. */
  function HomeProgram(p: Problem, c: Config, s: int, t: int): int
    requires ValidGrid(p, c) && 0 <= s < p.numSeqs
  {
    FirstBlock(p, c, s) + (t - p.queryStart[s]) / c.blockQ
  }

  function HomeRow(p: Problem, c: Config, s: int, t: int, h: int): int
    requires ValidGrid(p, c) && 0 <= s < p.numSeqs
  {
    (t - p.queryStart[s]) % c.blockQ * QueriesPerKv(p) + h % QueriesPerKv(p)
  }

  /** Blocks of different sequences never share a program id. */
  lemma BlocksOfSequenceDecode(p: Problem, c: Config, s: int, b: int)
    requires ValidGrid(p, c) && 0 <= s < p.numSeqs && 0 <= b && b * c.blockQ <= QueryLen(p, s)
    ensures Decodes(p, c, FirstBlock(p, c, s) + b, s)
    ensures FirstBlock(p, c, s) + b < TotalQBlocks(p, c)
  {
    var q := FirstBlock(p, c, s) + b;
    var first, next := p.queryStart[s], p.queryStart[s + 1];
    assert next / c.blockQ >= first / c.blockQ + b by {
      DivAtLeast(first, c.blockQ, first / c.blockQ);
      assert (first / c.blockQ + b) * c.blockQ == first / c.blockQ * c.blockQ + b * c.blockQ;
      DivAtLeast(next, c.blockQ, first / c.blockQ + b);
    }
    forall i | 0 <= i < p.numSeqs
      ensures SearchKey(p.queryStart, i, c.blockQ, true) <= q <==> i <= s
    {
      if i <= s {
        SearchKeySorted(p.queryStart, i, s, c.blockQ, true);
      } else {
        SearchKeySorted(p.queryStart, s + 1, i, c.blockQ, true);
      }
    }
    DivMonotone(next, NumTokens(p), c.blockQ);
  }

  lemma DecodesUnique(p: Problem, c: Config, q: int, s: int, s': int)
    requires ValidGrid(p, c) && Decodes(p, c, q, s) && Decodes(p, c, q, s')
    ensures s == s'
  {
    assert SearchKey(p.queryStart, s, c.blockQ, true) <= q;
    assert SearchKey(p.queryStart, s', c.blockQ, true) <= q;
  }

  /** Completeness: the home program, inside the launched grid, computes every (token, head). */
  lemma HomeComputes(p: Problem, c: Config, s: int, t: int, h: int)
    requires ValidGrid(p, c) && Owns(p, s, t) && 0 <= h < p.numHeads
    ensures Decodes(p, c, HomeProgram(p, c, s, t), s)
    ensures Computes(p, c, HomeProgram(p, c, s, t), h / QueriesPerKv(p), HomeRow(p, c, s, t, h), t, h)
  {
    var b := (t - p.queryStart[s]) / c.blockQ;
    HomeBlock(p, c, s, t);
    BlocksOfSequenceDecode(p, c, s, b);
    HomeRowComputes(p, c, s, t, h);
    KvHeadInRange(p, h);
    hide HomeRow, RowComputes, SearchKey, QueriesPerKv;
    assert HomeProgram(p, c, s, t) == FirstBlock(p, c, s) + b;
  }

  lemma HomeBlock(p: Problem, c: Config, s: int, t: int)
    requires ValidGrid(p, c) && Owns(p, s, t)
    ensures 0 <= (t - p.queryStart[s]) / c.blockQ
    ensures (t - p.queryStart[s]) / c.blockQ * c.blockQ <= QueryLen(p, s)
  {
    var pos := t - p.queryStart[s];
    DivAtLeast(pos, c.blockQ, pos / c.blockQ);
  }

  lemma HomeRowComputes(p: Problem, c: Config, s: int, t: int, h: int)
    requires ValidGrid(p, c) && Owns(p, s, t) && 0 <= h < p.numHeads
    ensures 0 <= HomeRow(p, c, s, t, h) < c.blockM
    ensures RowComputes(p, c, s, (t - p.queryStart[s]) / c.blockQ, h / QueriesPerKv(p), HomeRow(p, c, s, t, h), t, h)
  {
    hide QueriesPerKv;
    var g := QueriesPerKv(p);
    var pos := t - p.queryStart[s];
    var b, r := pos / c.blockQ, pos % c.blockQ;
    DivAtLeast(pos, c.blockQ, b);
    DivUnique(r * g + h % g, g, r, h % g);
    RowInBlock(r, h % g, g, c.blockQ, c.blockM);
  }

  lemma KvHeadInRange(p: Problem, h: int)
    requires p.numKvHeads > 0 && p.numHeads > 0 && p.numHeads % p.numKvHeads == 0
    requires QueriesPerKv(p) > 0 && 0 <= h < p.numHeads
    ensures 0 <= h / QueriesPerKv(p) < p.numKvHeads
  {
    DivAtLeast(h, QueriesPerKv(p), p.numKvHeads);
  }

  lemma RowInBlock(r: int, x: int, g: int, blockQ: int, blockM: int)
    requires 0 <= r < blockQ && 0 <= x < g && blockQ == blockM / g
    ensures 0 <= r * g + x < blockM
  {
    MulGe(blockQ, r + 1, g);
    assert (r + 1) * g == r * g + g;
  }

  /** Every program id below the launched total decodes to one sequence. */
  lemma EveryProgramDecodes(p: Problem, c: Config, q: int)
    requires ValidGrid(p, c) && 0 <= q < TotalQBlocks(p, c)
    ensures exists s :: Decodes(p, c, q, s)
  {
    var s := LastNotAbove(p, c, q, p.numSeqs);
    forall i | 0 <= i < p.numSeqs
      ensures SearchKey(p.queryStart, i, c.blockQ, true) <= q <==> i <= s
    {
      if i <= s {
        SearchKeySorted(p.queryStart, i, s, c.blockQ, true);
      }
    }
    assert Decodes(p, c, q, s);
  }

  lemma {:induction false} LastNotAbove(p: Problem, c: Config, q: int, n: int) returns (s: int)
    requires ValidGrid(p, c) && q >= 0 && 0 < n <= p.numSeqs
    ensures 0 <= s < n && SearchKey(p.queryStart, s, c.blockQ, true) <= q
    ensures forall i | s < i < n :: SearchKey(p.queryStart, i, c.blockQ, true) > q
  {
    if n == 1 || SearchKey(p.queryStart, n - 1, c.blockQ, true) <= q {
      s := n - 1;
    } else {
      s := LastNotAbove(p, c, q, n - 1);
    }
  }

  /** The blocks of sequence `s` share no row: the group size divides BLOCK_M, or the query fits in one block. */
  predicate NoOverlap(p: Problem, c: Config, s: int)
    requires p.numKvHeads > 0 && QueriesPerKv(p) > 0 && 0 <= s < p.numSeqs && |p.queryStart| == p.numSeqs + 1
  {
    c.blockM % QueriesPerKv(p) == 0 || QueryLen(p, s) <= c.blockQ
  }

  /** Then no other program or row computes the same (token, head). */
  lemma ComputedOnce(p: Problem, c: Config, q: int, kvh: int, m: int, s: int, t: int, h: int)
    requires ValidGrid(p, c) && 0 <= s < p.numSeqs && NoOverlap(p, c, s)
    requires Owns(p, s, t) && 0 <= h && Computes(p, c, q, kvh, m, t, h)
    ensures q == HomeProgram(p, c, s, t)
    ensures kvh == h / QueriesPerKv(p) && m == HomeRow(p, c, s, t, h)
  {
    hide FirstBlock, HomeRow;
    var s' :| Decodes(p, c, q, s') && RowComputes(p, c, s', q - FirstBlock(p, c, s'), kvh, m, t, h);
    RowOwned(p, c, s', q - FirstBlock(p, c, s'), kvh, m, t, h);
    OwnerUnique(p, s, s', t);
    RowIsHome(p, c, s, q - FirstBlock(p, c, s), kvh, m, t, h);
  }

  lemma RowOwned(p: Problem, c: Config, s: int, b: int, kvh: int, m: int, t: int, h: int)
    requires ValidGrid(p, c) && 0 <= s < p.numSeqs && 0 <= m && RowComputes(p, c, s, b, kvh, m, t, h)
    ensures Owns(p, s, t)
  {
    hide QueriesPerKv, Valid;
    MulGe(b, 0, c.blockQ);
  }

  lemma RowIsHome(p: Problem, c: Config, s: int, b: int, kvh: int, m: int, t: int, h: int)
    requires ValidGrid(p, c) && 0 <= s < p.numSeqs && NoOverlap(p, c, s)
    requires Owns(p, s, t) && 0 <= m < c.blockM && RowComputes(p, c, s, b, kvh, m, t, h)
    ensures b == (t - p.queryStart[s]) / c.blockQ
    ensures kvh == h / QueriesPerKv(p) && m == HomeRow(p, c, s, t, h)
  {
    hide QueriesPerKv;
    if c.blockM % QueriesPerKv(p) == 0 {
      RowIndexUnique(t - p.queryStart[s], h, QueriesPerKv(p), c.blockQ, b, kvh, m);
    } else {
      FirstBlockOnly(t - p.queryStart[s], h, QueriesPerKv(p), c.blockQ, b, kvh, m);
    }
  }

  lemma FirstBlockOnly(pos: int, h: int, g: int, blockQ: int, b: int, kvh: int, m: int)
    requires g > 0 && blockQ > 0 && 0 <= b && b * blockQ < blockQ && 0 <= m && pos < blockQ
    requires b * blockQ + m / g == pos && kvh * g + m % g == h
    ensures b == pos / blockQ && kvh == h / g && m == pos % blockQ * g + h % g
  {
    if b > 0 {
      MulGe(b, 1, blockQ);
    }
    DivUnique(h, g, kvh, m % g);
    DivUnique(pos, blockQ, 0, pos);
  }

  lemma RowIndexUnique(pos: int, h: int, g: int, blockQ: int, b: int, kvh: int, m: int)
    requires g > 0 && blockQ > 0 && 0 <= m < blockQ * g
    requires b * blockQ + m / g == pos && kvh * g + m % g == h
    ensures b == pos / blockQ && kvh == h / g && m == pos % blockQ * g + h % g
  {
    DivUnique(h, g, kvh, m % g);
    DivAtLeast(m, g, blockQ);
    DivUnique(pos, blockQ, b, m / g);
  }

  lemma OwnerUnique(p: Problem, s: int, s': int, t: int)
    requires ValidBatch(p) && Owns(p, s, t) && Owns(p, s', t)
    ensures s == s'
  {
    if s < s' {
      LaterSequencesStartAfter(p, s, s', t);
    } else if s' < s {
      LaterSequencesStartAfter(p, s', s, t);
    }
  }

  lemma LaterSequencesStartAfter(p: Problem, s: int, s': int, t: int)
    requires ValidBatch(p) && Owns(p, s, t) && s < s' < p.numSeqs
    ensures t < p.queryStart[s']
  {
  }

  /**
   When it does not divide, the left-over rows of a block run into the next one: the first token
   of the second block of any longer query is computed by two programs.
   */
  lemma ComputedTwice(p: Problem, c: Config, s: int)
    requires ValidGrid(p, c) && c.blockM % QueriesPerKv(p) != 0
    requires 0 <= s < p.numSeqs && QueryLen(p, s) > c.blockQ
    ensures var t := p.queryStart[s] + c.blockQ; var q := FirstBlock(p, c, s);
            Computes(p, c, q, 0, c.blockQ * QueriesPerKv(p), t, 0) && Computes(p, c, q + 1, 0, 0, t, 0)
  {
    var g := QueriesPerKv(p);
    var q := FirstBlock(p, c, s);
    BlocksOfSequenceDecode(p, c, s, 0);
    BlocksOfSequenceDecode(p, c, s, 1);
    DivUnique(c.blockQ * g, g, c.blockQ, 0);
    DivUnique(0, g, 0, 0);
    var t := p.queryStart[s] + c.blockQ;
    assert c.blockQ * g < c.blockM;
    assert RowComputes(p, c, s, 0, 0, c.blockQ * g, t, 0);
    assert RowComputes(p, c, s, 1, 0, 0, t, 0);
  }

  /** Every (token, head) of sequence `s` is computed by its home program and row alone. */
  ghost predicate OnceOnly(p: Problem, c: Config, s: int)
    requires ValidGrid(p, c) && 0 <= s < p.numSeqs
  {
    forall q, kvh, m, t, h | Owns(p, s, t) && 0 <= h && Computes(p, c, q, kvh, m, t, h) ::
      q == HomeProgram(p, c, s, t) && kvh == h / QueriesPerKv(p) && m == HomeRow(p, c, s, t, h)
  }

  /** That holds of a sequence exactly when its blocks share no row. */
  lemma OnceIffNoOverlap(p: Problem, c: Config, s: int)
    requires ValidGrid(p, c) && 0 <= s < p.numSeqs
    ensures OnceOnly(p, c, s) <==> NoOverlap(p, c, s)
  {
    if NoOverlap(p, c, s) {
      forall q, kvh, m, t, h | Owns(p, s, t) && 0 <= h && Computes(p, c, q, kvh, m, t, h)
        ensures q == HomeProgram(p, c, s, t) && kvh == h / QueriesPerKv(p) && m == HomeRow(p, c, s, t, h)
      {
        ComputedOnce(p, c, q, kvh, m, s, t, h);
      }
    } else {
      ComputedTwice(p, c, s);
      var t, q := p.queryStart[s] + c.blockQ, FirstBlock(p, c, s);
      hide Computes, HomeProgram, FirstBlock, HomeRow;
      assert Owns(p, s, t);
      assert Computes(p, c, q, 0, c.blockQ * QueriesPerKv(p), t, 0) && Computes(p, c, q + 1, 0, 0, t, 0);
    }
  }
}
