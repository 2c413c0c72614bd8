/**
 The head order of GGUF linear-attention tensors and its conversion to the order the layer expects.
 Position `i` takes the head the file stores at (i mod g) * (n / g) + i / g.
 */
module GgufHeads {
  import opened DivMod
  import opened Sums

  function Source(i: nat, n: nat, g: nat): nat
    requires g > 0
  {
    (i % g) * (n / g) + i / g
  }

  /** Where the head stored at `h` ends up. */
  function Target(h: nat, n: nat, g: nat): nat
    requires g > 0 && n >= g
  {
    h % (n / g) * g + h / (n / g)
  }

  lemma DivModOf(q: int, b: int, r: int)
    requires 0 <= r < b
    ensures (q * b + r) / b == q && (q * b + r) % b == r
  {
    DivUnique(q * b + r, b, q, r);
  }

  lemma Below(q: int, m: int, b: int, r: int)
    requires 0 <= q < m && 0 <= r < b
    ensures 0 <= q * b + r < m * b
  {
    MulGe(m - 1, q, b);
    MulGe(q, 0, b);
  }

  lemma QuotientBelow(x: int, m: int, b: int)
    requires b > 0 && 0 <= x < m * b
    ensures 0 <= x / b < m
  {
    DivAtLeast(x, b, m);
  }

  /** The reordering is a bijection on the heads, and `Target` is its inverse. */
  lemma SourceTarget(i: nat, n: nat, g: nat)
    requires g > 0 && n % g == 0 && i < n
    ensures Source(i, n, g) < n && Target(Source(i, n, g), n, g) == i
    ensures Target(i, n, g) < n && Source(Target(i, n, g), n, g) == i
  {
    WholeBlocks(n, g);
    MixBack(i, n / g, g);
    MixBack(i, g, n / g);
  }

  /** Exchanging the two digits of a mixed-radix number, and back. */
  lemma MixBack(i: nat, base: nat, g: nat)
    requires g > 0 && i < base * g
    ensures base > 0 && 0 <= i % g * base + i / g < g * base
    ensures (i % g * base + i / g) % base * g + (i % g * base + i / g) / base == i
  {
    QuotientBelow(i, base, g);
    Below(i % g, g, base, i / g);
    DivModOf(i % g, base, i / g);
  }

  /** With `g` a divisor of `n` no head is dropped or doubled; for any other `g`, one is. */
  lemma PermutationIff(n: nat, g: nat)
    requires g > 0
    ensures (forall i: nat, j: nat | i < j < n :: Source(i, n, g) != Source(j, n, g)) <==> n % g == 0 || n <= 1
  {
    if n % g == 0 {
      forall i: nat, j: nat | i < j < n
        ensures Source(i, n, g) != Source(j, n, g)
      {
        SourceTarget(i, n, g);
        SourceTarget(j, n, g);
      }
    } else if n > 1 {
      var base := n / g;
      assert g > 1 && base * g < n;
      DivModOf(base, g, 0);
      DivModOf(0, g, 1);
      assert Source(base * g, n, g) == base == Source(1, n, g);
      if base > 0 {
        MulGe(base, 1, g);
      }
      var i, j := if base == 0 then 0 else 1, if base == 0 then 1 else base * g;
      assert i < j < n && Source(i, n, g) == Source(j, n, g);
    }
  }

  /**
   The file pairs value head `h` with key head h mod (n / g); the layer pairs value head `i` with key
   head i / g. The reordering carries one pairing to the other.
   */
  lemma PairingCarried(i: nat, n: nat, g: nat)
    requires g > 0 && n % g == 0 && i < n
    ensures Source(i, n, g) % (n / g) == i / g < n / g
  {
    var base := n / g;
    assert n == base * g;
    QuotientBelow(i, base, g);
    DivModOf(i % g, base, i / g);
  }

  /** On a rank holding consecutive heads, the layer's pairing needs only the rank's own key heads. */
  lemma PairingLocal(rank: nat, local: nat, keysPerRank: nat, g: nat)
    requires g > 0 && local < keysPerRank * g
    ensures (rank * (keysPerRank * g) + local) / g == rank * keysPerRank + local / g
    ensures local / g < keysPerRank
  {
    QuotientBelow(local, keysPerRank, g);
    var q, r := local / g, local % g;
    assert rank * (keysPerRank * g) + local == (rank * keysPerRank + q) * g + r by {
      assert rank * (keysPerRank * g) == rank * keysPerRank * g;
    }
    DivModOf(rank * keysPerRank + q, g, r);
  }

  // ---------------------------------------------------------------- index lists

  function HeadIndices(n: nat, g: nat): (idx: seq<nat>)
    requires g > 0
    ensures |idx| == n && forall i | 0 <= i < n :: idx[i] == Source(i, n, g)
  {
    seq(n, i requires 0 <= i < n => Source(i, n, g))
  }

  /** The row of head `h`, element `d`. */
  function RowAt(h: nat, d: nat, headDim: nat): nat {
    h * headDim + d
  }

  ghost predicate HeadRows(values: seq<nat>, i: nat, source: nat, headDim: nat) {
    forall d: nat | d < headDim :: RowAt(i, d, headDim) < |values| && values[RowAt(i, d, headDim)] == RowAt(source, d, headDim)
  }

  /** The stored row that position `j` takes. */
  function RowSource(j: nat, n: nat, g: nat, headDim: nat): nat
    requires g > 0 && headDim > 0
  {
    RowAt(Source(j / headDim, n, g), j % headDim, headDim)
  }

  function RowSources(n: nat, g: nat, headDim: nat): (rows: seq<nat>)
    requires g > 0
    ensures |rows| == RowAt(n, 0, headDim)
  {
    seq(n * headDim, j requires 0 <= j < n * headDim => if headDim == 0 then 0 else RowSource(j, n, g, headDim))
  }

  lemma RowSourceAt(i: nat, d: nat, n: nat, g: nat, headDim: nat)
    requires g > 0 && i < n && d < headDim
    ensures RowAt(i, d, headDim) < RowAt(n, 0, headDim)
    ensures RowSources(n, g, headDim)[RowAt(i, d, headDim)] == RowAt(Source(i, n, g), d, headDim)
  {
    RowInRange(i, d, n, headDim);
    DivModOf(i, headDim, d);
  }

  lemma RowSourcesFollowHeads(n: nat, g: nat, headDim: nat)
    requires g > 0 && n % g == 0
    ensures forall i: nat | i < n :: HeadRows(RowSources(n, g, headDim), i, Source(i, n, g), headDim)
    ensures forall j | 0 <= j < RowAt(n, 0, headDim) :: RowSources(n, g, headDim)[j] < RowAt(n, 0, headDim)
  {
    forall i: nat, d: nat | i < n && d < headDim
      ensures RowAt(i, d, headDim) < RowAt(n, 0, headDim)
      ensures RowSources(n, g, headDim)[RowAt(i, d, headDim)] == RowAt(Source(i, n, g), d, headDim)
    {
      RowSourceAt(i, d, n, g, headDim);
    }
    forall j | 0 <= j < RowAt(n, 0, headDim)
      ensures RowSources(n, g, headDim)[j] < RowAt(n, 0, headDim)
    {
      if headDim > 0 {
        QuotientBelow(j, n, headDim);
        SourceTarget(j / headDim, n, g);
        RowInRange(Source(j / headDim, n, g), j % headDim, n, headDim);
      }
    }
  }

  /** Each head becomes its `headDim` consecutive rows. */
  method RowIndices(n: nat, g: nat, headDim: nat) returns (values: seq<nat>)
    requires g > 0
    ensures values == RowSources(n, g, headDim)
  {
    hide Source, RowSources;
    ghost var want := RowSources(n, g, headDim);
    var heads := HeadIndices(n, g);
    values := [];
    for i := 0 to n
      invariant |values| == RowAt(i, 0, headDim) <= |want| && values == want[..|values|]
    {
      var start := heads[i] * headDim;
      SliceFits(i, n, headDim);
      for d := 0 to headDim
        invariant |values| == RowAt(i, d, headDim) <= |want| && values == want[..|values|]
      {
        RowSourceAt(i, d, n, g, headDim);
        values := values + [start + d];
      }
    }
  }

  // ---------------------------------------------------------------- the layer

  type Row = seq<real>

  /** Everything the recurrence of one value head uses, apart from its key head. */
  datatype Head = Head(v: seq<Row>, z: seq<Row>, b: Row, a: Row, decay: real, dtBias: real, conv: seq<Row>)

  datatype Key = Key(q: seq<Row>, k: seq<Row>, qConv: seq<Row>, kConv: seq<Row>)

  /** A layer's tensors, in either order; `decay` is the recurrence's A in the file and A_log in the layer. */
  datatype Weights = Weights(
    qkv: seq<Row>, z: seq<Row>, b: seq<Row>, a: seq<Row>, outProj: seq<Row>,
    decay: seq<real>, dtBias: seq<real>, conv: seq<Row>)

  datatype Dims = Dims(n: nat, g: nat, headDim: nat) {
    ghost predicate Valid() {
      g > 0 && n % g == 0
    }

    function Keys(): nat
      requires g > 0
    {
      n / g
    }

    /** Rows of the query and key projections, ahead of the value rows. */
    function KeyRows(): nat
      requires g > 0
    {
      RowAt(2 * Keys(), 0, headDim)
    }

    function ValueRows(): nat {
      RowAt(n, 0, headDim)
    }
  }

  ghost predicate Sized(w: Weights, dims: Dims)
    requires dims.g > 0
  {
    && |w.qkv| == |w.conv| == dims.KeyRows() + dims.ValueRows()
    && |w.z| == dims.ValueRows()
    && |w.b| == |w.a| == |w.decay| == |w.dtBias| == dims.n
    && forall o | 0 <= o < |w.outProj| :: |w.outProj[o]| == dims.ValueRows()
  }

  /** `index_select` */
  function Select<T>(s: seq<T>, idx: seq<nat>): (r: seq<T>)
    requires forall j | 0 <= j < |idx| :: idx[j] < |s|
    ensures |r| == |idx| && forall j | 0 <= j < |idx| :: r[j] == s[idx[j]]
  {
    seq(|idx|, j requires 0 <= j < |idx| => s[idx[j]])
  }

  /** Keeps the first `keep` rows and reorders the rest. */
  function SelectTail<T>(s: seq<T>, keep: nat, idx: seq<nat>): (r: seq<T>)
    requires keep <= |s| && forall j | 0 <= j < |idx| :: idx[j] < |s| - keep
    ensures |r| == keep + |idx|
  {
    s[..keep] + Select(s[keep..], idx)
  }

  ghost predicate InRange(idx: seq<nat>, n: nat) {
    forall j | 0 <= j < |idx| :: idx[j] < n
  }

  /** `index_select` along the columns. */
  function ColumnsSelected(m: seq<Row>, idx: seq<nat>): (r: seq<Row>)
    requires forall o, j | 0 <= o < |m| && 0 <= j < |idx| :: idx[j] < |m[o]|
    ensures |r| == |m| && forall o | 0 <= o < |m| :: r[o] == Select(m[o], idx)
  {
    seq(|m|, o requires 0 <= o < |m| => Select(m[o], idx))
  }

  /** The conversion of every tensor of a layer, given the two index lists. */
  function Convert(w: Weights, dims: Dims, heads: seq<nat>, rows: seq<nat>, log: real -> real): (c: Weights)
    requires dims.g > 0 && Sized(w, dims)
    requires InRange(heads, dims.n) && InRange(rows, dims.ValueRows())
  {
    Weights(
      SelectTail(w.qkv, dims.KeyRows(), rows),
      Select(w.z, rows),
      Select(w.b, heads),
      Select(w.a, heads),
      ColumnsSelected(w.outProj, rows),
      Select(seq(dims.n, h requires 0 <= h < dims.n => log(-w.decay[h])), heads),
      Select(w.dtBias, heads),
      SelectTail(w.conv, dims.KeyRows(), rows))
  }

  lemma RowInRange(h: nat, d: nat, n: nat, headDim: nat)
    requires h < n && d < headDim
    ensures RowAt(h, d, headDim) < RowAt(n, 0, headDim)
    ensures RowAt(h, headDim, headDim) == RowAt(h + 1, 0, headDim) <= RowAt(n, 0, headDim)
  {
    Below(h, n, headDim, d);
    assert (h + 1) * headDim <= n * headDim;
  }

  function HeadSlice<T>(s: seq<T>, off: nat, h: nat, headDim: nat): (r: seq<T>)
    requires off + RowAt(h, headDim, headDim) <= |s|
  {
    s[off + RowAt(h, 0, headDim)..off + RowAt(h, headDim, headDim)]
  }

  lemma SliceFits(h: nat, n: nat, headDim: nat)
    requires h < n
    ensures RowAt(h, headDim, headDim) <= RowAt(n, 0, headDim)
  {
    assert (h + 1) * headDim <= n * headDim;
  }

  /** The value-head inputs of head `h`; `decayOf` reads the recurrence's A off the stored number. */
  function HeadOf(w: Weights, dims: Dims, decayOf: real -> real, h: nat): Head
    requires dims.g > 0 && Sized(w, dims) && h < dims.n
  {
    SliceFits(h, dims.n, dims.headDim);
    Head(
      HeadSlice(w.qkv, dims.KeyRows(), h, dims.headDim),
      HeadSlice(w.z, 0, h, dims.headDim),
      w.b[h], w.a[h], decayOf(w.decay[h]), w.dtBias[h],
      HeadSlice(w.conv, dims.KeyRows(), h, dims.headDim))
  }

  function KeyOf(w: Weights, dims: Dims, k: nat): Key
    requires dims.g > 0 && Sized(w, dims) && k < dims.Keys()
  {
    var keys := dims.Keys();
    SliceFits(k, 2 * keys, dims.headDim);
    SliceFits(keys + k, 2 * keys, dims.headDim);
    Key(
      HeadSlice(w.qkv, 0, k, dims.headDim), HeadSlice(w.qkv, 0, keys + k, dims.headDim),
      HeadSlice(w.conv, 0, k, dims.headDim), HeadSlice(w.conv, 0, keys + k, dims.headDim))
  }

  /** The part of one output that a head's normalised result contributes through its projection columns. */
  function HeadPart(columns: Row, result: int -> real, h: nat, headDim: nat): real {
    Sum(d => if 0 <= d && RowAt(h, d, headDim) < |columns| then Times(columns[RowAt(h, d, headDim)], result(d)) else 0.0, 0, headDim)
  }

  /**
   Output `o` of the layer: every value head runs the recurrence `core` with the key head that
   `keyOf` pairs it with, and the results go through the output projection.
   */
  function Part(w: Weights, dims: Dims, core: (Key, Head) -> (int -> real), keyOf: int -> int, decayOf: real -> real, o: nat): int -> real
    requires dims.g > 0 && Sized(w, dims) && o < |w.outProj|
  {
    h => if 0 <= h < dims.n && 0 <= keyOf(h) < dims.Keys()
      then HeadPart(w.outProj[o], core(KeyOf(w, dims, keyOf(h)), HeadOf(w, dims, decayOf, h)), h, dims.headDim) else 0.0
  }

  function Output(w: Weights, dims: Dims, core: (Key, Head) -> (int -> real), keyOf: int -> int, decayOf: real -> real, o: nat): real
    requires dims.g > 0 && Sized(w, dims) && o < |w.outProj|
  {
    Sum(Part(w, dims, core, keyOf, decayOf, o), 0, dims.n)
  }

  lemma SourceAt(c: nat, r: nat, n: nat, g: nat)
    requires g > 0 && n % g == 0 && c < n / g && r < g
    ensures c * g + r < n && Source(c * g + r, n, g) == r * (n / g) + c
  {
    DivModOf(c, g, r);
    Below(c, n / g, g, r);
  }

  /** The `g` heads that end up sharing key head `c`, and the `base` heads stored in run `r`. */
  function SharedKey(f: int -> real, base: nat, c: int): int -> real {
    r => f(r * base + c)
  }

  function StoredRun(f: int -> real, base: nat, r: int): int -> real {
    c => f(r * base + c)
  }

  function ByKey(f: int -> real, base: nat, g: nat): int -> real {
    c => Sum(SharedKey(f, base, c), 0, g)
  }

  function ByRun(f: int -> real, base: nat): int -> real {
    r => Sum(StoredRun(f, base, r), 0, base)
  }

  lemma KeysAndRuns(f: int -> real, base: nat, g: nat)
    ensures Sum(ByKey(f, base, g), 0, base) == Sum(ByRun(f, base), 0, g)
  {
    var cell := (c: int, r: int) => SharedKey(f, base, c)(r);
    SumSwap(cell, 0, base, 0, g);
    forall c | 0 <= c < base
      ensures ByKey(f, base, g)(c) == Sum(r => cell(c, r), 0, g)
    {
      SumEq(SharedKey(f, base, c), r => cell(c, r), 0, g);
    }
    SumEq(ByKey(f, base, g), c => Sum(r => cell(c, r), 0, g), 0, base);
    forall r | 0 <= r < g
      ensures ByRun(f, base)(r) == Sum(c => cell(c, r), 0, base)
    {
      SumEq(StoredRun(f, base, r), c => cell(c, r), 0, base);
    }
    SumEq(ByRun(f, base), r => Sum(c => cell(c, r), 0, base), 0, g);
  }

  lemma KeyBlock(f: int -> real, f': int -> real, n: nat, g: nat, c: nat)
    requires g > 0 && n % g == 0 && c < n / g
    requires forall i: nat | i < n :: f'(i) == f(Source(i, n, g))
    ensures ByKey(f, n / g, g)(c) == Sum(f', c * g, c * g + g)
  {
    forall r | 0 <= r < g
      ensures SharedKey(f, n / g, c)(r) == f'(r + c * g)
    {
      SourceAt(c, r, n, g);
    }
    SumShift(f', SharedKey(f, n / g, c), c * g, 0, g);
  }

  lemma RunBlock(f: int -> real, base: nat, r: nat)
    ensures ByRun(f, base)(r) == Sum(f, r * base, r * base + base)
  {
    SumShift(f, StoredRun(f, base, r), r * base, 0, base);
  }

  /** Summing over reordered heads is summing over heads. */
  lemma SumReordered(f: int -> real, f': int -> real, n: nat, g: nat)
    requires g > 0 && n % g == 0
    requires forall i: nat | i < n :: f'(i) == f(Source(i, n, g))
    ensures Sum(f', 0, n) == Sum(f, 0, n)
  {
    var base := n / g;
    forall c | 0 <= c < base
      ensures ByKey(f, base, g)(c) == Sum(f', c * g, c * g + g)
    {
      KeyBlock(f, f', n, g, c);
    }
    forall r | 0 <= r < g
      ensures ByRun(f, base)(r) == Sum(f, r * base, r * base + base)
    {
      RunBlock(f, base, r);
    }
    hide Source, ByKey, ByRun, Sum;
    SumBlocks(f', ByKey(f, base, g), g, base);
    SumBlocks(f, ByRun(f, base), base, g);
    KeysAndRuns(f, base, g);
    WholeBlocks(n, g);
  }

  lemma WholeBlocks(n: nat, g: nat)
    requires g > 0 && n % g == 0
    ensures n / g * g == n && g * (n / g) == n
  {
  }

  // ---------------------------------------------------------------- the converted layer is the stored layer

  ghost predicate RowList(rows: seq<nat>, dims: Dims)
    requires dims.g > 0
  {
    && |rows| == dims.ValueRows()
    && InRange(rows, dims.ValueRows())
    && forall i: nat | i < dims.n :: HeadRows(rows, i, Source(i, dims.n, dims.g), dims.headDim)
  }

  lemma SelectedSlice<T>(s: seq<T>, rows: seq<nat>, i: nat, source: nat, n: nat, headDim: nat)
    requires i < n && source < n && |rows| == |s| == RowAt(n, 0, headDim)
    requires InRange(rows, |s|) && HeadRows(rows, i, source, headDim)
    ensures RowAt(i, headDim, headDim) <= |s| && RowAt(source, headDim, headDim) <= |s|
    ensures HeadSlice(Select(s, rows), 0, i, headDim) == HeadSlice(s, 0, source, headDim)
  {
    SliceFits(i, n, headDim);
    SliceFits(source, n, headDim);
    var mine, theirs := HeadSlice(Select(s, rows), 0, i, headDim), HeadSlice(s, 0, source, headDim);
    forall d: nat | d < headDim
      ensures mine[d] == theirs[d]
    {
      assert mine[d] == Select(s, rows)[RowAt(i, d, headDim)];
      assert theirs[d] == s[RowAt(source, d, headDim)];
    }
  }

  lemma SelectedTail<T>(s: seq<T>, keep: nat, rows: seq<nat>, i: nat, source: nat, n: nat, headDim: nat)
    requires i < n && source < n && |rows| == RowAt(n, 0, headDim) && |s| == keep + |rows|
    requires InRange(rows, |rows|) && HeadRows(rows, i, source, headDim)
    ensures RowAt(i, headDim, headDim) <= |rows| && RowAt(source, headDim, headDim) <= |rows|
    ensures HeadSlice(SelectTail(s, keep, rows), keep, i, headDim) == HeadSlice(s, keep, source, headDim)
  {
    var tail := s[keep..];
    SelectedSlice(tail, rows, i, source, n, headDim);
    assert HeadSlice(SelectTail(s, keep, rows), keep, i, headDim) == HeadSlice(Select(tail, rows), 0, i, headDim);
    assert HeadSlice(s, keep, source, headDim) == HeadSlice(tail, 0, source, headDim);
  }

  lemma KeptHead<T>(s: seq<T>, keep: nat, rows: seq<nat>, k: nat, keys: nat, headDim: nat)
    requires k < keys && keep == RowAt(keys, 0, headDim) <= |s| && InRange(rows, |s| - keep)
    ensures RowAt(k, headDim, headDim) <= keep
    ensures HeadSlice(SelectTail(s, keep, rows), 0, k, headDim) == HeadSlice(s, 0, k, headDim)
  {
    SliceFits(k, keys, headDim);
  }

  ghost predicate Inverts(exp: real -> real, log: real -> real) {
    forall x | x > 0.0 :: exp(log(x)) == x
  }

  /** The layer stores A_log, the file A; the recurrence uses A = -exp(A_log). */
  function LayerDecay(exp: real -> real): real -> real {
    x => -exp(x)
  }

  function FileDecay(): real -> real {
    x => x
  }

  function LayerKey(dims: Dims): int -> int
    requires dims.g > 0
  {
    i => i / dims.g
  }

  function FileKey(dims: Dims): int -> int
    requires dims.g > 0
  {
    h => if dims.n < dims.g then -1 else h % dims.Keys()
  }

  ghost predicate Converts(w: Weights, dims: Dims, heads: seq<nat>, rows: seq<nat>) {
    && dims.Valid() && Sized(w, dims) && RowList(rows, dims)
    && |heads| == dims.n && InRange(heads, dims.n)
    && (forall i | 0 <= i < dims.n :: heads[i] == Source(i, dims.n, dims.g))
    && (forall h | 0 <= h < dims.n :: w.decay[h] < 0.0)
  }

  lemma ConvertedSized(w: Weights, dims: Dims, heads: seq<nat>, rows: seq<nat>, log: real -> real)
    requires Converts(w, dims, heads, rows)
    ensures Sized(Convert(w, dims, heads, rows, log), dims)
  {
    hide Source, HeadRows;
  }

  lemma ConvertedHead(w: Weights, dims: Dims, heads: seq<nat>, rows: seq<nat>, exp: real -> real, log: real -> real, i: nat)
    requires Converts(w, dims, heads, rows) && Inverts(exp, log) && i < dims.n
    requires Sized(Convert(w, dims, heads, rows, log), dims)
    ensures Source(i, dims.n, dims.g) < dims.n
    ensures HeadOf(Convert(w, dims, heads, rows, log), dims, LayerDecay(exp), i)
         == HeadOf(w, dims, FileDecay(), Source(i, dims.n, dims.g))
  {
    SourceTarget(i, dims.n, dims.g);
    hide Source, Target, HeadRows, HeadSlice, RowAt, SelectTail;
    var source := Source(i, dims.n, dims.g);
    SelectedTail(w.qkv, dims.KeyRows(), rows, i, source, dims.n, dims.headDim);
    SelectedTail(w.conv, dims.KeyRows(), rows, i, source, dims.n, dims.headDim);
    SelectedSlice(w.z, rows, i, source, dims.n, dims.headDim);
  }

  lemma ConvertedKey(w: Weights, dims: Dims, heads: seq<nat>, rows: seq<nat>, log: real -> real, k: nat)
    requires Converts(w, dims, heads, rows) && k < dims.Keys()
    requires Sized(Convert(w, dims, heads, rows, log), dims)
    ensures KeyOf(Convert(w, dims, heads, rows, log), dims, k) == KeyOf(w, dims, k)
  {
    hide Source, HeadRows, HeadSlice, RowAt, SelectTail;
    var keys := dims.Keys();
    KeptHead(w.qkv, dims.KeyRows(), rows, k, 2 * keys, dims.headDim);
    KeptHead(w.qkv, dims.KeyRows(), rows, keys + k, 2 * keys, dims.headDim);
    KeptHead(w.conv, dims.KeyRows(), rows, k, 2 * keys, dims.headDim);
    KeptHead(w.conv, dims.KeyRows(), rows, keys + k, 2 * keys, dims.headDim);
  }

  lemma ConvertedColumns(columns: Row, rows: seq<nat>, result: int -> real, i: nat, source: nat, n: nat, headDim: nat)
    requires i < n && source < n && |rows| == |columns| == RowAt(n, 0, headDim)
    requires InRange(rows, |columns|) && HeadRows(rows, i, source, headDim)
    ensures HeadPart(Select(columns, rows), result, i, headDim) == HeadPart(columns, result, source, headDim)
  {
    forall d: nat | d < headDim
      ensures RowAt(i, d, headDim) < |columns| && RowAt(source, d, headDim) < |columns|
      ensures Select(columns, rows)[RowAt(i, d, headDim)] == columns[RowAt(source, d, headDim)]
    {
      RowInRange(i, d, n, headDim);
      RowInRange(source, d, n, headDim);
    }
    hide RowAt;
    var mine := d => if 0 <= d && RowAt(i, d, headDim) < |columns|
      then Times(Select(columns, rows)[RowAt(i, d, headDim)], result(d)) else 0.0;
    var theirs := d => if 0 <= d && RowAt(source, d, headDim) < |columns|
      then Times(columns[RowAt(source, d, headDim)], result(d)) else 0.0;
    SumEq(mine, theirs, 0, headDim);
    SumEq(mine, d => if 0 <= d && RowAt(i, d, headDim) < |Select(columns, rows)|
      then Times(Select(columns, rows)[RowAt(i, d, headDim)], result(d)) else 0.0, 0, headDim);
  }

  /**
   The layer on converted tensors, with the layer's pairing, computes what the file's tensors mean
   with the file's pairing, whatever the recurrence does inside a head.
   */
  lemma ConversionPreservesLayer(w: Weights, dims: Dims, heads: seq<nat>, rows: seq<nat>,
                                 exp: real -> real, log: real -> real, core: (Key, Head) -> (int -> real), o: nat)
    requires Converts(w, dims, heads, rows) && Inverts(exp, log) && o < |w.outProj|
    ensures Sized(Convert(w, dims, heads, rows, log), dims)
    ensures Output(Convert(w, dims, heads, rows, log), dims, core, LayerKey(dims), LayerDecay(exp), o)
         == Output(w, dims, core, FileKey(dims), FileDecay(), o)
  {
    ConvertedSized(w, dims, heads, rows, log);
    var c := Convert(w, dims, heads, rows, log);
    var f := Part(w, dims, core, FileKey(dims), FileDecay(), o);
    var f' := Part(c, dims, core, LayerKey(dims), LayerDecay(exp), o);
    forall i: nat | i < dims.n
      ensures f'(i) == f(Source(i, dims.n, dims.g))
    {
      ConvertedPart(w, dims, heads, rows, exp, log, core, o, i);
    }
    hide Source, Part, Convert, Converts, Sized;
    SumReordered(f, f', dims.n, dims.g);
  }

  lemma ConvertedPart(w: Weights, dims: Dims, heads: seq<nat>, rows: seq<nat>, exp: real -> real, log: real -> real,
                      core: (Key, Head) -> (int -> real), o: nat, i: nat)
    requires Converts(w, dims, heads, rows) && Inverts(exp, log) && o < |w.outProj| && i < dims.n
    requires Sized(Convert(w, dims, heads, rows, log), dims)
    ensures Part(Convert(w, dims, heads, rows, log), dims, core, LayerKey(dims), LayerDecay(exp), o)(i)
         == Part(w, dims, core, FileKey(dims), FileDecay(), o)(Source(i, dims.n, dims.g))
  {
    var source := Source(i, dims.n, dims.g);
    var c := Convert(w, dims, heads, rows, log);
    var k := i / dims.g;
    PairingCarried(i, dims.n, dims.g);
    PairedKeys(dims, i);
    ConvertedHead(w, dims, heads, rows, exp, log, i);
    ConvertedKey(w, dims, heads, rows, log, k);
    var head := HeadOf(w, dims, FileDecay(), source);
    var key := KeyOf(w, dims, k);
    ConvertedColumns(w.outProj[o], rows, core(key, head), i, source, dims.n, dims.headDim);
    assert c.outProj[o] == Select(w.outProj[o], rows);
    hide Source, HeadRows, HeadOf, KeyOf, HeadPart, RowAt, Part, Convert, Sized, RowList, LayerKey, FileKey;
    PartAt(c, dims, core, LayerKey(dims), LayerDecay(exp), o, i, k);
    PartAt(w, dims, core, FileKey(dims), FileDecay(), o, source, k);
  }

  lemma PairedKeys(dims: Dims, i: nat)
    requires dims.Valid() && i < dims.n
    ensures LayerKey(dims)(i) == FileKey(dims)(Source(i, dims.n, dims.g)) == i / dims.g < dims.Keys()
  {
    PairingCarried(i, dims.n, dims.g);
  }

  lemma PartAt(w: Weights, dims: Dims, core: (Key, Head) -> (int -> real), keyOf: int -> int, decayOf: real -> real, o: nat,
               h: nat, k: nat)
    requires dims.g > 0 && Sized(w, dims) && o < |w.outProj| && h < dims.n && k < dims.Keys() && keyOf(h) == k
    ensures Part(w, dims, core, keyOf, decayOf, o)(h)
         == HeadPart(w.outProj[o], core(KeyOf(w, dims, k), HeadOf(w, dims, decayOf, h)), h, dims.headDim)
  {
  }
}
