/** A row-major matrix view of the front of a flat buffer, and masked stores of tiles into it. */
module FlatMatrix {
  import opened DivMod

  predicate Fits(length: nat, rows: nat, cols: nat) {
    rows * cols <= length
  }

  function Flat(r: int, cols: nat, n: int): int {
    r * cols + n
  }

  lemma FlatInRange(rows: nat, cols: nat, r: int, n: int)
    requires 0 <= r < rows && 0 <= n < cols
    ensures 0 <= r * cols + n < rows * cols
  {
    MulGe(rows, r + 1, cols);
    MulGe(r, 0, cols);
    assert (r + 1) * cols == r * cols + cols;
  }

  lemma FlatInjective(cols: nat, r: int, n: int, r': int, n': int)
    requires 0 <= n < cols && 0 <= n' < cols && r * cols + n == r' * cols + n'
    ensures r == r' && n == n'
  {
    DivUnique(r * cols + n, cols, r, n);
    DivUnique(r' * cols + n', cols, r', n');
  }

  /** The cell at a flat index. */
  lemma FlatIndex(rows: nat, cols: nat, x: nat)
    requires x < rows * cols
    ensures cols > 0 && 0 <= x / cols < rows && x / cols * cols + x % cols == x
  {
    if cols > 0 {
      DivAtLeast(x, cols, rows);
      DivAtLeast(x, cols, 0);
    }
  }

  /** Cell (r, n) of the view. */
  function Cell(c: array<real>, rows: nat, cols: nat, r: int, n: int): real
    requires Fits(c.Length, rows, cols) && 0 <= r < rows && 0 <= n < cols
    reads c
  {
    FlatInRange(rows, cols, r, n);
    c[r * cols + n]
  }

  lemma CellAt(c: array<real>, rows: nat, cols: nat, r: int, n: int)
    requires Fits(c.Length, rows, cols) && 0 <= r < rows && 0 <= n < cols
    ensures 0 <= r * cols + n < c.Length && c[r * cols + n] == Cell(c, rows, cols, r, n)
  {
    FlatInRange(rows, cols, r, n);
  }

  /** Row `r` of the view. */
  function Row(c: array<real>, rows: nat, cols: nat, r: int): (row: seq<real>)
    requires Fits(c.Length, rows, cols) && 0 <= r < rows
    reads c
    ensures |row| == cols && forall n | 0 <= n < cols :: row[n] == Cell(c, rows, cols, r, n)
  {
    seq(cols, n requires 0 <= n < cols reads c => Cell(c, rows, cols, r, n))
  }

  /** Nothing past the view has changed. */
  twostate predicate TailKept(c: array<real>, rows: nat, cols: nat)
    reads c
  {
    forall x: nat | rows * cols <= x < c.Length :: c[x] == old(c[x])
  }

  method Write(c: array<real>, rows: nat, cols: nat, r: int, n: int, x: real)
    requires Fits(c.Length, rows, cols) && 0 <= r < rows && 0 <= n < cols
    modifies c
    ensures Cell(c, rows, cols, r, n) == x
    ensures forall r', n' | 0 <= r' < rows && 0 <= n' < cols && (r', n') != (r, n) ::
              Cell(c, rows, cols, r', n') == old(Cell(c, rows, cols, r', n'))
    ensures TailKept(c, rows, cols)
  {
    FlatInRange(rows, cols, r, n);
    c[r * cols + n] := x;
    forall r', n' | 0 <= r' < rows && 0 <= n' < cols && (r', n') != (r, n)
      ensures Cell(c, rows, cols, r', n') == old(Cell(c, rows, cols, r', n'))
    {
      FlatInRange(rows, cols, r', n');
      if r' * cols + n' == r * cols + n {
        FlatInjective(cols, r, n, r', n');
      }
    }
  }

  /** Cell (r, n) holds the value `g` prescribes for it. */
  ghost predicate Holds(c: array<real>, rows: nat, cols: nat, g: (int, int) -> real, r: int, n: int)
    requires Fits(c.Length, rows, cols) && 0 <= r < rows && 0 <= n < cols
    reads c
  {
    Cell(c, rows, cols, r, n) == g(r, n)
  }

  /** Every cell either keeps its content or takes its prescribed value. */
  twostate predicate OnlyPrescribed(c: array<real>, rows: nat, cols: nat, g: (int, int) -> real)
    requires Fits(c.Length, rows, cols)
    reads c
  {
    forall r, n | 0 <= r < rows && 0 <= n < cols ::
      Cell(c, rows, cols, r, n) == old(Cell(c, rows, cols, r, n)) || Holds(c, rows, cols, g, r, n)
  }

  method StoreLanes(c: array<real>, rows: nat, cols: nat, r: int, col: int, lanes: seq<real>, g: (int, int) -> real)
    requires Fits(c.Length, rows, cols) && 0 <= r < rows && col >= 0
    requires forall j | 0 <= j < |lanes| && col + j < cols :: lanes[j] == g(r, col + j)
    modifies c
    ensures forall r', n | 0 <= r' < rows && 0 <= n < cols && !(r' == r && col <= n < col + |lanes|) ::
              Cell(c, rows, cols, r', n) == old(Cell(c, rows, cols, r', n))
    ensures forall n | 0 <= n < cols && col <= n < col + |lanes| :: Holds(c, rows, cols, g, r, n)
    ensures TailKept(c, rows, cols)
  {
    hide Cell;
    for j := 0 to |lanes|
      invariant forall r', n | 0 <= r' < rows && 0 <= n < cols && !(r' == r && col <= n < col + j) ::
                  Cell(c, rows, cols, r', n) == old(Cell(c, rows, cols, r', n))
      invariant forall n | 0 <= n < cols && col <= n < col + j :: Holds(c, rows, cols, g, r, n)
      invariant TailKept(c, rows, cols)
    {
      if col + j < cols {
        label Before:
        Write(c, rows, cols, r, col + j, lanes[j]);
        forall n | 0 <= n < cols && col <= n < col + j + 1
          ensures Holds(c, rows, cols, g, r, n)
        {
          if n < col + j {
            assert old@Before(Holds(c, rows, cols, g, r, n));
            assert (r, n) != (r, col + j);
          }
        }
      }
    }
  }

  /**
   Stores a tile: lane (i, j) goes to row `at[i]`, column `col + j`, unless the row or the column
   falls outside the matrix.
   */
  method StoreTile(c: array<real>, rows: nat, cols: nat, at: seq<int>, col: int, width: nat,
                   tile: seq<seq<real>>, g: (int, int) -> real)
    requires Fits(c.Length, rows, cols) && |tile| == |at| && col >= 0
    requires forall i | 0 <= i < |at| :: |tile[i]| == width && at[i] >= 0
    requires forall i, j | 0 <= i < |at| && at[i] < rows && 0 <= j < width && col + j < cols ::
               tile[i][j] == g(at[i], col + j)
    modifies c
    ensures OnlyPrescribed(c, rows, cols, g)
    ensures forall r, n | 0 <= r < rows && 0 <= n < cols && (r !in at || !(col <= n < col + width)) ::
              Cell(c, rows, cols, r, n) == old(Cell(c, rows, cols, r, n))
    ensures forall r, n | 0 <= r < rows && 0 <= n < cols && r in at && col <= n < col + width ::
              Holds(c, rows, cols, g, r, n)
    ensures TailKept(c, rows, cols)
  {
    hide Cell;
    for i := 0 to |at|
      invariant OnlyPrescribed(c, rows, cols, g)
      invariant forall r, n | 0 <= r < rows && 0 <= n < cols && (r !in at[..i] || !(col <= n < col + width)) ::
                  Cell(c, rows, cols, r, n) == old(Cell(c, rows, cols, r, n))
      invariant forall r, n | 0 <= r < rows && 0 <= n < cols && r in at[..i] && col <= n < col + width ::
                  Holds(c, rows, cols, g, r, n)
      invariant TailKept(c, rows, cols)
    {
      assert at[..i + 1] == at[..i] + [at[i]];
      if at[i] < rows {
        label Before:
        StoreLanes(c, rows, cols, at[i], col, tile[i], g);
        forall r, n | 0 <= r < rows && 0 <= n < cols && r in at[..i + 1] && col <= n < col + width
          ensures Holds(c, rows, cols, g, r, n)
        {
          if r != at[i] {
            assert old@Before(Holds(c, rows, cols, g, r, n));
          }
        }
      }
    }
    assert at[..|at|] == at;
  }
}
