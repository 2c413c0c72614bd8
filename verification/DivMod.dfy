/** Division facts used by the index arithmetic of every kernel and layout. */
module DivMod {

  function Min(a: int, b: int): int { if a <= b then a else b }

  function CeilDiv(x: int, y: int): int
    requires y > 0
  {
    (x + y - 1) / y
  }

  lemma DivUnique(x: int, y: int, q: int, r: int)
    requires y > 0 && 0 <= r < y && x == q * y + r
    ensures x / y == q && x % y == r
  {
    assert (x / y - q) * y == r - x % y;
    if x / y > q {
      MulGe(x / y - q, 1, y);
    }
    if x / y < q {
      MulGe(q - x / y, 1, y);
    }
  }

  lemma MulGe(a: int, b: int, y: int)
    requires a >= b && y >= 0
    ensures a * y >= b * y
  {
  }

  lemma DivMonotone(a: int, b: int, y: int)
    requires y > 0 && a <= b
    ensures a / y <= b / y
  {
    if a / y > b / y {
      MulGe(a / y, b / y + 1, y);
    }
  }

  /** x / y >= q exactly when x reaches q * y. */
  lemma DivAtLeast(x: int, y: int, q: int)
    requires y > 0
    ensures x / y >= q <==> x >= q * y
  {
    if x / y >= q {
      MulGe(x / y, q, y);
    } else {
      MulGe(q, x / y + 1, y);
    }
  }

  /** The ceiling of x / y is at most q exactly when q blocks of y cover x. */
  lemma CeilAtMost(x: int, y: int, q: int)
    requires y > 0
    ensures (x + y - 1) / y <= q <==> x <= q * y
  {
    DivAtLeast(x + y - 1, y, q + 1);
    assert (q + 1) * y == q * y + y;
  }
}
