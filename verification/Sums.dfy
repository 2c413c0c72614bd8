/** Finite sums over integer ranges, and their agreement with sums over lanes of a tile. */
module Sums {

  function Sum(f: int -> real, lo: int, hi: int): real
    decreases hi - lo
  {
    if hi <= lo then 0.0 else Sum(f, lo, hi - 1) + f(hi - 1)
  }

  /** The sum of a tile's lanes, as a reduction over a vector computes it. */
  function Tot(s: seq<real>): real {
    if s == [] then 0.0 else Tot(s[..|s| - 1]) + s[|s| - 1]
  }

  lemma {:induction false} SumSplit(f: int -> real, lo: int, mid: int, hi: int)
    requires lo <= mid <= hi
    ensures Sum(f, lo, hi) == Sum(f, lo, mid) + Sum(f, mid, hi)
    decreases hi - mid
  {
    if mid < hi {
      SumSplit(f, lo, mid, hi - 1);
    }
  }

  lemma {:induction false} SumEq(f: int -> real, g: int -> real, lo: int, hi: int)
    requires forall k | lo <= k < hi :: f(k) == g(k)
    ensures Sum(f, lo, hi) == Sum(g, lo, hi)
    decreases hi - lo
  {
    if lo < hi {
      SumEq(f, g, lo, hi - 1);
    }
  }

  lemma {:induction false} SumZero(f: int -> real, lo: int, hi: int)
    requires forall k | lo <= k < hi :: f(k) == 0.0
    ensures Sum(f, lo, hi) == 0.0
    decreases hi - lo
  {
    if lo < hi {
      SumZero(f, lo, hi - 1);
    }
  }

  /** A sum is unchanged by dropping ranges on either side where the summand vanishes. */
  lemma SumTrim(f: int -> real, lo: int, lo': int, hi': int, hi: int)
    requires lo <= lo' <= hi' <= hi
    requires forall k | lo <= k < lo' || hi' <= k < hi :: f(k) == 0.0
    ensures Sum(f, lo, hi) == Sum(f, lo', hi')
  {
    SumSplit(f, lo, lo', hi);
    SumSplit(f, lo', hi', hi);
    SumZero(f, lo, lo');
    SumZero(f, hi', hi);
  }

  lemma {:induction false} SumScale(f: int -> real, g: int -> real, c: real, lo: int, hi: int)
    requires forall k | lo <= k < hi :: g(k) == f(k) * c
    ensures Sum(g, lo, hi) == Sum(f, lo, hi) * c
    decreases hi - lo
  {
    if lo < hi {
      SumScale(f, g, c, lo, hi - 1);
    }
  }

  lemma {:induction false} SumAdd(f: int -> real, g: int -> real, h: int -> real, lo: int, hi: int)
    requires forall k | lo <= k < hi :: h(k) == f(k) + g(k)
    ensures Sum(h, lo, hi) == Sum(f, lo, hi) + Sum(g, lo, hi)
    decreases hi - lo
  {
    if lo < hi {
      SumAdd(f, g, h, lo, hi - 1);
    }
  }

  lemma {:induction false} SumShift(f: int -> real, g: int -> real, off: int, lo: int, hi: int)
    requires forall k | lo <= k < hi :: g(k) == f(k + off)
    ensures Sum(g, lo, hi) == Sum(f, lo + off, hi + off)
    decreases hi - lo
  {
    if lo < hi {
      SumShift(f, g, off, lo, hi - 1);
    }
  }

  lemma {:induction false} SumNonneg(f: int -> real, lo: int, hi: int)
    requires forall k | lo <= k < hi :: f(k) >= 0.0
    ensures Sum(f, lo, hi) >= 0.0
    decreases hi - lo
  {
    if lo < hi {
      SumNonneg(f, lo, hi - 1);
    }
  }

  lemma SumPositive(f: int -> real, lo: int, hi: int, at: int)
    requires lo <= at < hi
    requires forall k | lo <= k < hi :: f(k) >= 0.0
    requires f(at) > 0.0
    ensures Sum(f, lo, hi) > 0.0
  {
    SumSplit(f, lo, at, hi);
    SumSplit(f, at, at + 1, hi);
    assert Sum(f, at, at + 1) == Sum(f, at, at) + f(at);
    SumNonneg(f, lo, at);
    SumNonneg(f, at + 1, hi);
  }

  lemma SumLess(f: int -> real, g: int -> real, lo: int, hi: int, at: int)
    requires lo <= at < hi
    requires forall k | lo <= k < hi :: f(k) <= g(k)
    requires f(at) < g(at)
    ensures Sum(f, lo, hi) < Sum(g, lo, hi)
  {
    var gap := (k: int) => g(k) - f(k);
    SumAdd(f, gap, g, lo, hi);
    SumPositive(gap, lo, hi, at);
  }

  /** A range cut into `n` blocks of `size` sums block by block. */
  lemma {:induction false} SumBlocks(f: int -> real, g: int -> real, size: nat, n: nat)
    requires forall b | 0 <= b < n :: g(b) == Sum(f, b * size, b * size + size)
    ensures Sum(g, 0, n) == Sum(f, 0, n * size)
  {
    if n > 0 {
      SumBlocks(f, g, size, n - 1);
      var m := (n - 1) * size;
      assert n * size == m + size;
      SumSplit(f, 0, m, m + size);
    }
  }

  /** Exchanging the order of a double sum. */
  lemma {:induction false} SumSwap(f: (int, int) -> real, a: int, b: int, c: int, d: int)
    ensures Sum(i => Sum(j => f(i, j), c, d), a, b) == Sum(j => Sum(i => f(i, j), a, b), c, d)
    decreases b - a
  {
    var outer := i => Sum(j => f(i, j), c, d);
    var inner := j => Sum(i => f(i, j), a, b);
    if b <= a {
      SumZero(inner, c, d);
    } else {
      SumSwap(f, a, b - 1, c, d);
      var rest := j => Sum(i => f(i, j), a, b - 1);
      var last := j => f(b - 1, j);
      forall j | c <= j < d
        ensures inner(j) == rest(j) + last(j)
      {
        SumLast(i => f(i, j), a, b);
      }
      SumAdd(rest, last, inner, c, d);
      assert outer(b - 1) == Sum(last, c, d) by {
        SumEq(j => f(b - 1, j), last, c, d);
      }
    }
  }

  lemma SumLast(f: int -> real, lo: int, hi: int)
    requires lo < hi
    ensures Sum(f, lo, hi) == Sum(f, lo, hi - 1) + f(hi - 1)
  {
  }

  lemma {:induction false} TotIsSum(s: seq<real>, c: real, f: int -> real, base: int)
    requires forall t | 0 <= t < |s| :: s[t] * c == f(base + t)
    ensures Tot(s) * c == Sum(f, base, base + |s|)
  {
    if s != [] {
      var n := |s| - 1;
      TotIsSum(s[..n], c, f, base);
      assert Tot(s) * c == Tot(s[..n]) * c + s[n] * c;
      assert f(base + n) == s[n] * c;
    }
  }

  /** A product, named so that equal factors are seen to give equal products. */
  function Times(x: real, y: real): real {
    x * y
  }

  /** The dot product of two vectors of lanes. */
  function DotLanes(a: seq<real>, b: seq<real>): real
    requires |a| == |b|
  {
    Tot(seq(|a|, d requires 0 <= d < |a| => Times(a[d], b[d])))
  }

  /** Lanes past `n` hold zeros, so padding does not change a dot product. */
  lemma PaddedDot(a: seq<real>, b: seq<real>, f: int -> real, n: nat)
    requires |a| == |b| && n <= |a|
    requires forall d | 0 <= d < n :: Times(a[d], b[d]) == f(d)
    requires forall d | n <= d < |a| :: Times(a[d], b[d]) == 0.0
    ensures DotLanes(a, b) == Sum(f, 0, n)
  {
    var prod := seq(|a|, d requires 0 <= d < |a| => Times(a[d], b[d]));
    var g := (d: int) => if d < n then f(d) else 0.0;
    TotIsSum(prod, 1.0, g, 0);
    SumSplit(g, 0, n, |a|);
    SumEq(g, f, 0, n);
    SumZero(g, n, |a|);
  }

  /** One block of lanes is the stretch of the full dot product it covers. */
  lemma LaneBlock(a: seq<real>, b: seq<real>, f: int -> real, base: int)
    requires |a| == |b|
    requires forall t | 0 <= t < |a| :: f(base + t) == Times(a[t], b[t])
    ensures DotLanes(a, b) == Sum(f, base, base + |a|)
  {
    var prod := seq(|a|, d requires 0 <= d < |a| => Times(a[d], b[d]));
    TotIsSum(prod, 1.0, f, base);
  }
}
