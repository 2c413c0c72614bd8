/** Dot products of rows, and the masked K loop that every GEMM kernel accumulates them with. */
module Gemm {
  import opened Sums
  import opened DivMod

  /** Block sizes of a GEMM launch. */
  datatype Blocks = Blocks(m: nat, n: nat, k: nat, group: nat)

  predicate Positive4(b: Blocks) {
    b.m > 0 && b.n > 0 && b.k > 0 && b.group > 0
  }

  predicate IsMatrix(a: seq<seq<real>>, rows: nat, cols: nat) {
    |a| == rows && forall i | 0 <= i < rows :: |a[i]| == cols
  }

  /** Term `k` of the dot product of two rows, zero past their end. */
  function Term(a: seq<real>, b: seq<real>): int -> real
    requires |a| == |b|
  {
    k => if 0 <= k < |a| then Times(a[k], b[k]) else 0.0
  }

  /** The dot product of two rows. */
  function RowDot(a: seq<real>, b: seq<real>): real
    requires |a| == |b|
  {
    Sum(Term(a, b), 0, |a|)
  }

  /** a . b, multiplied out over the coordinates that both have. */
  function Inner(a: seq<real>, b: seq<real>): real {
    Sum(k => if 0 <= k < |a| && k < |b| then a[k] * b[k] else 0.0, 0, |a|)
  }

  lemma DotIsInner(a: seq<real>, b: seq<real>)
    requires |a| == |b|
    ensures RowDot(a, b) == Inner(a, b)
  {
    SumEq(Term(a, b), k => if 0 <= k < |a| && k < |b| then a[k] * b[k] else 0.0, 0, |a|);
  }

  /** The first unit vector, scaled; it picks the first coordinate of a row. */
  function Along(n: nat, v: real): (a: seq<real>)
    ensures |a| == n && forall k | 0 <= k < n :: a[k] == if k == 0 then v else 0.0
  {
    seq(n, k => if k == 0 then v else 0.0)
  }

  lemma AlongDot(a: seq<real>)
    requires |a| > 0
    ensures RowDot(Along(|a|, 1.0), a) == a[0]
  {
    var f := Term(Along(|a|, 1.0), a);
    SumSplit(f, 0, 1, |a|);
    SumLast(f, 0, 1);
    SumZero(f, 1, |a|) by {
      forall k | 1 <= k < |a|
        ensures f(k) == 0.0
      {
        assert f(k) == Times(0.0, a[k]);
      }
    }
    assert f(0) == Times(1.0, a[0]);
  }

  // ---------------------------------------------------------------- the K loop

  /** Lanes base..base+size of a row, zero where the K mask cuts them off. */
  function LoadLanes(row: seq<real>, base: nat, size: nat): (lanes: seq<real>)
    ensures |lanes| == size
  {
    seq(size, t => if 0 <= t < |row| - base then row[base + t] else 0.0)
  }

  lemma LoadedBlock(a: seq<real>, b: seq<real>, base: nat, size: nat)
    requires |a| == |b|
    ensures DotLanes(LoadLanes(a, base, size), LoadLanes(b, base, size)) == Sum(Term(a, b), base, base + size)
  {
    var la, lb := LoadLanes(a, base, size), LoadLanes(b, base, size);
    forall t | 0 <= t < size
      ensures Term(a, b)(base + t) == Times(la[t], lb[t])
    {
    }
    LaneBlock(la, lb, Term(a, b), base);
  }

  ghost predicate Shaped(acc: seq<seq<real>>, m: nat, n: nat) {
    |acc| == m && forall i | 0 <= i < m :: |acc[i]| == n
  }

  /** Accumulates a block of dot products, `blockK` terms at a time, masking the ragged last step. */
  method KLoop(aRows: seq<seq<real>>, bRows: seq<seq<real>>, K: nat, blockK: nat) returns (acc: seq<seq<real>>)
    requires blockK > 0
    requires (forall i | 0 <= i < |aRows| :: |aRows[i]| == K) && (forall j | 0 <= j < |bRows| :: |bRows[j]| == K)
    ensures Shaped(acc, |aRows|, |bRows|)
    ensures forall i, j | 0 <= i < |aRows| && 0 <= j < |bRows| :: acc[i][j] == RowDot(aRows[i], bRows[j])
  {
    hide LoadLanes, DotLanes, Term, Sum, RowDot;
    acc := seq(|aRows|, i => seq(|bRows|, j => 0.0));
    var base := 0;
    forall i, j | 0 <= i < |aRows| && 0 <= j < |bRows|
      ensures Sum(Term(aRows[i], bRows[j]), 0, 0) == 0.0
    {
      EmptySum(Term(aRows[i], bRows[j]));
    }
    for k := 0 to CeilDiv(K, blockK)
      invariant base == k * blockK
      invariant Shaped(acc, |aRows|, |bRows|)
      invariant forall i, j | 0 <= i < |aRows| && 0 <= j < |bRows| ::
                  acc[i][j] == Sum(Term(aRows[i], bRows[j]), 0, base)
    {
      var a := seq(|aRows|, i requires 0 <= i < |aRows| => LoadLanes(aRows[i], base, blockK));
      var b := seq(|bRows|, j requires 0 <= j < |bRows| => LoadLanes(bRows[j], base, blockK));
      forall i, j | 0 <= i < |aRows| && 0 <= j < |bRows|
        ensures acc[i][j] + DotLanes(a[i], b[j]) == Sum(Term(aRows[i], bRows[j]), 0, base + blockK)
      {
        LoadedBlock(aRows[i], bRows[j], base, blockK);
        SumSplit(Term(aRows[i], bRows[j]), 0, base, base + blockK);
      }
      acc := seq(|aRows|, i requires 0 <= i < |aRows| =>
        seq(|bRows|, j requires 0 <= j < |bRows| => acc[i][j] + DotLanes(a[i], b[j])));
      base := base + blockK;
      assert (k + 1) * blockK == k * blockK + blockK;
    }
    CeilAtMost(K, blockK, CeilDiv(K, blockK));
    forall i, j | 0 <= i < |aRows| && 0 <= j < |bRows|
      ensures Sum(Term(aRows[i], bRows[j]), 0, base) == RowDot(aRows[i], bRows[j])
    {
      PastEnd(aRows[i], bRows[j], base);
    }
  }

  lemma EmptySum(f: int -> real)
    ensures Sum(f, 0, 0) == 0.0
  {
  }

  lemma PastEnd(a: seq<real>, b: seq<real>, n: int)
    requires |a| == |b| <= n
    ensures Sum(Term(a, b), 0, n) == RowDot(a, b)
  {
    SumTrim(Term(a, b), 0, 0, |a|, n);
  }
}
