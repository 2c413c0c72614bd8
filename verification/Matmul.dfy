/** The swizzled tiled matmul kernel and its launch: C = A * transpose(B), whatever order programs run in. */
module Matmul {
  import opened DivMod
  import opened Swizzle
  import opened FlatMatrix
  import opened Gemm

  /** The value C[r, n] must end with: the dot product of row r of A and row n of B. */
  function Product(a: seq<seq<real>>, b: seq<seq<real>>, K: nat): (int, int) -> real
    requires IsMatrix(a, |a|, K) && IsMatrix(b, |b|, K)
  {
    (r, n) => if 0 <= r < |a| && 0 <= n < |b| then RowDot(a[r], b[n]) else 0.0
  }

  function GridM(a: seq<seq<real>>, blk: Blocks): int
    requires blk.m > 0
  {
    CeilDiv(|a|, blk.m)
  }

  function GridN(b: seq<seq<real>>, blk: Blocks): int
    requires blk.n > 0
  {
    CeilDiv(|b|, blk.n)
  }

  /** The one program that stores cell (r, n). */
  function StoringProgram(a: seq<seq<real>>, b: seq<seq<real>>, blk: Blocks, r: int, n: int): int
    requires Positive4(blk)
  {
    ProgramOf(r / blk.m, n / blk.n, GridM(a, blk), GridN(b, blk), blk.group)
  }

  lemma BlockInGrid(x: int, size: int, block: int)
    requires block > 0 && 0 <= x < size
    ensures 0 <= x / block < CeilDiv(size, block)
  {
    DivAtLeast(x, block, 0);
    if CeilDiv(size, block) <= x / block {
      CeilAtMost(size, block, x / block);
    }
  }

  lemma GridNonempty(size: nat, block: int)
    requires block > 0 && CeilDiv(size, block) > 0
    ensures size > 0
  {
    CeilAtMost(size, block, 0);
  }

  lemma BothPositive(x: int, y: int)
    requires x >= 0 && y >= 0 && x * y > 0
    ensures x > 0 && y > 0
  {
  }

  lemma CeilNonneg(size: nat, block: int)
    requires block > 0
    ensures CeilDiv(size, block) >= 0
  {
    DivAtLeast(size + block - 1, block, 0);
  }

  method MatmulKernel(a: seq<seq<real>>, b: seq<seq<real>>, K: nat, blk: Blocks, pid: int, c: array<real>)
    requires IsMatrix(a, |a|, K) && IsMatrix(b, |b|, K) && Positive4(blk)
    requires 0 <= pid < GridM(a, blk) * GridN(b, blk) && Fits(c.Length, |a|, |b|)
    modifies c
    ensures OnlyPrescribed(c, |a|, |b|, Product(a, b, K))
    ensures forall r, n | 0 <= r < |a| && 0 <= n < |b| && StoringProgram(a, b, blk, r, n) == pid ::
              Holds(c, |a|, |b|, Product(a, b, K), r, n)
  {
    hide Tile, ProgramOf, CeilDiv, RowDot, Cell, StoringProgram;
    var M, N := |a|, |b|;
    TileOrigin(a, b, blk, pid);
    var (pm, pn) := Tile(pid, CeilDiv(M, blk.m), CeilDiv(N, blk.n), blk.group);
    var row0, col0 := pm * blk.m, pn * blk.n;
    var acc := ComputeTile(a, b, K, blk, row0, col0);
    var at := seq(blk.m, i requires 0 <= i => row0 + i);
    StoreTile(c, M, N, at, col0, blk.n, acc, Product(a, b, K));
    forall r, n | 0 <= r < M && 0 <= n < N && StoringProgram(a, b, blk, r, n) == pid
      ensures Holds(c, M, N, Product(a, b, K), r, n)
    {
      InStoringTile(a, b, blk, r, n);
      assert at[r - row0] == r;
    }
  }

  lemma TileOrigin(a: seq<seq<real>>, b: seq<seq<real>>, blk: Blocks, pid: int)
    requires Positive4(blk) && 0 <= pid < GridM(a, blk) * GridN(b, blk)
    ensures |a| > 0 && |b| > 0 && CeilDiv(|b|, blk.n) > 0
    ensures var (pm, pn) := Tile(pid, CeilDiv(|a|, blk.m), CeilDiv(|b|, blk.n), blk.group);
            pm >= 0 && pn >= 0 && pm * blk.m >= 0 && pn * blk.n >= 0
  {
    var numM, numN := CeilDiv(|a|, blk.m), CeilDiv(|b|, blk.n);
    CeilNonneg(|a|, blk.m);
    CeilNonneg(|b|, blk.n);
    BothPositive(numM, numN);
    GridNonempty(|a|, blk.m);
    GridNonempty(|b|, blk.n);
    TileInGrid(pid, numM, numN, blk.group);
    var (pm, pn) := Tile(pid, numM, numN, blk.group);
    MulGe(pm, 0, blk.m);
    MulGe(pn, 0, blk.n);
  }

  /** A cell lies in the tile of the program that stores it. */
  lemma InStoringTile(a: seq<seq<real>>, b: seq<seq<real>>, blk: Blocks, r: int, n: int)
    requires Positive4(blk) && 0 <= r < |a| && 0 <= n < |b|
    ensures 0 <= StoringProgram(a, b, blk, r, n) < GridM(a, blk) * GridN(b, blk) && GridN(b, blk) > 0
    ensures var (pm, pn) := Tile(StoringProgram(a, b, blk, r, n), GridM(a, blk), GridN(b, blk), blk.group);
            pm * blk.m <= r < pm * blk.m + blk.m && pn * blk.n <= n < pn * blk.n + blk.n
  {
    BlockInGrid(r, |a|, blk.m);
    BlockInGrid(n, |b|, blk.n);
    ProgramInGrid(r / blk.m, n / blk.n, GridM(a, blk), GridN(b, blk), blk.group);
    InBlock(r, blk.m);
    InBlock(n, blk.n);
  }

  /** The block of dot products at (row0, col0); loads past the last row or column wrap around. */
  method ComputeTile(a: seq<seq<real>>, b: seq<seq<real>>, K: nat, blk: Blocks, row0: nat, col0: nat)
    returns (acc: seq<seq<real>>)
    requires IsMatrix(a, |a|, K) && IsMatrix(b, |b|, K) && Positive4(blk) && |a| > 0 && |b| > 0
    ensures |acc| == blk.m && forall i | 0 <= i < blk.m :: |acc[i]| == blk.n
    ensures forall i, j | 0 <= i < blk.m && row0 + i < |a| && 0 <= j < blk.n && col0 + j < |b| ::
              acc[i][j] == Product(a, b, K)(row0 + i, col0 + j)
  {
    hide RowDot;
    var aRows := seq(blk.m, i requires 0 <= i => a[(row0 + i) % |a|]);
    var bRows := seq(blk.n, j requires 0 <= j => b[(col0 + j) % |b|]);
    acc := KLoop(aRows, bRows, K, blk.k);
    forall i, j | 0 <= i < blk.m && row0 + i < |a| && 0 <= j < blk.n && col0 + j < |b|
      ensures acc[i][j] == Product(a, b, K)(row0 + i, col0 + j)
    {
      Unwrapped(row0 + i, |a|);
      Unwrapped(col0 + j, |b|);
      assert aRows[i] == a[row0 + i] && bRows[j] == b[col0 + j];
    }
  }

  /** A stored lane never came from a wrapped load. */
  lemma Unwrapped(x: int, size: int)
    requires 0 <= x < size
    ensures x % size == x
  {
    DivUnique(x, size, 0, x);
  }

  lemma InBlock(x: int, block: int)
    requires block > 0
    ensures x / block * block <= x < x / block * block + block
  {
  }

  /** Launching every program, in any order and any number of times, leaves the full product in C. */
  method LaunchMatmul(a: seq<seq<real>>, b: seq<seq<real>>, K: nat, blk: Blocks, order: seq<int>, c: array<real>)
    requires IsMatrix(a, |a|, K) && IsMatrix(b, |b|, K) && Positive4(blk) && Fits(c.Length, |a|, |b|)
    requires forall i | 0 <= i < |order| :: 0 <= order[i] < GridM(a, blk) * GridN(b, blk)
    requires forall pid | 0 <= pid < GridM(a, blk) * GridN(b, blk) :: pid in order
    modifies c
    ensures forall r, n | 0 <= r < |a| && 0 <= n < |b| :: Cell(c, |a|, |b|, r, n) == RowDot(a[r], b[n])
    ensures forall r, n | 0 <= r < |a| && 0 <= n < |b| :: IsDotAt(c, r * |b| + n, a[r], b[n])
  {
    hide Cell, StoringProgram, GridM, GridN;
    for i := 0 to |order|
      invariant forall r, n | 0 <= r < |a| && 0 <= n < |b| && StoringProgram(a, b, blk, r, n) in order[..i] ::
                  Holds(c, |a|, |b|, Product(a, b, K), r, n)
    {
      label Before:
      MatmulKernel(a, b, K, blk, order[i], c);
      assert order[..i + 1] == order[..i] + [order[i]];
      forall r, n | 0 <= r < |a| && 0 <= n < |b| && StoringProgram(a, b, blk, r, n) in order[..i + 1]
        ensures Holds(c, |a|, |b|, Product(a, b, K), r, n)
      {
        if StoringProgram(a, b, blk, r, n) != order[i] {
          assert old@Before(Holds(c, |a|, |b|, Product(a, b, K), r, n));
        }
      }
    }
    forall r, n | 0 <= r < |a| && 0 <= n < |b|
      ensures Cell(c, |a|, |b|, r, n) == RowDot(a[r], b[n])
    {
      StoredBySomeProgram(a, b, blk, r, n);
      assert order[..|order|] == order;
      assert Holds(c, |a|, |b|, Product(a, b, K), r, n);
    }
    forall r, n | 0 <= r < |a| && 0 <= n < |b|
      ensures IsDotAt(c, r * |b| + n, a[r], b[n])
    {
      DotIsInner(a[r], b[n]);
      CellAt(c, |a|, |b|, r, n);
    }
  }

  /** The element at a flat index is the dot product of two rows, multiplied out. */
  ghost predicate IsDotAt(c: array<real>, at: int, x: seq<real>, y: seq<real>)
    reads c
  {
    0 <= at < c.Length && c[at] == Inner(x, y)
  }

  lemma StoredBySomeProgram(a: seq<seq<real>>, b: seq<seq<real>>, blk: Blocks, r: int, n: int)
    requires Positive4(blk) && 0 <= r < |a| && 0 <= n < |b|
    ensures 0 <= StoringProgram(a, b, blk, r, n) < GridM(a, blk) * GridN(b, blk)
  {
    BlockInGrid(r, |a|, blk.m);
    BlockInGrid(n, |b|, blk.n);
    ProgramInGrid(r / blk.m, n / blk.n, GridM(a, blk), GridN(b, blk), blk.group);
  }
}
