/**
 The tensors of a GGUF linear-attention layer through the loader, one by one, and what the layer means
 before and after, written out for the sizes the loader is made for.
 */
module GgufLayer {
  import opened Sums
  import opened GgufHeads

  // ---------------------------------------------------------------- the tensors of a checkpoint, one by one

  datatype Kind = InProjQkv | InProjZ | InProjB | InProjA | OutProj | ALog | DtBias | Conv1d | Other

  /** The sizes the loader is written for: 48 value heads of 128, in 3 runs, and 16 key heads. */
  const STORED := Dims(48, 3, 128)

  predicate PermutedKind(kind: Kind, rows: nat, cols: nat) {
    match kind
    case InProjQkv => rows == 10240
    case InProjZ => rows == 6144
    case InProjB => rows == 48
    case InProjA => rows == 48
    case OutProj => cols == 6144
    case _ => false
  }

  ghost predicate StoredIndices() {
    && InRange(HeadIndices(48, 3), 48) && InRange(RowSources(48, 3, 128), 6144)
    && RowList(RowSources(48, 3, 128), STORED)
  }

  lemma StoredIndicesHold()
    ensures StoredIndices()
    ensures |RowSources(48, 3, 128)| == 6144
  {
    HeadsInRange(48, 3);
    RowSourcesFollowHeads(48, 3, 128);
    hide RowSources, Source, HeadRows, HeadIndices;
    assert RowAt(48, 0, 128) == 6144;
  }

  /** The stored row of value row `j`: the same element of its head's place in the file. */
  function StoredRow(j: int): int {
    128 * (j / 128 % 3 * 16 + j / 128 / 3) + j % 128
  }

  /** The rows after the first `keep` come from their stored places. */
  ghost predicate HeadsMoved<T>(before: seq<T>, after: seq<T>, keep: nat) {
    && |before| == |after| == keep + 6144 && after[..keep] == before[..keep]
    && forall x | keep <= x < keep + 6144 ::
         0 <= StoredRow(x - keep) < 6144 && after[x] == before[keep + StoredRow(x - keep)]
  }

  ghost predicate OnePerHead<T>(before: seq<T>, after: seq<T>) {
    && |before| == |after| == 48
    && forall i | 0 <= i < 48 :: after[i] == before[i % 3 * 16 + i / 3]
  }

  lemma RowSourceIs(j: nat)
    requires j < 6144
    ensures RowSources(48, 3, 128)[j] == StoredRow(j) < 6144
  {
    QuotientBelow(j, 48, 128);
    assert j / 128 < 48;
  }

  lemma TailMoved<T>(s: seq<T>, keep: nat)
    requires |s| == keep + 6144 && InRange(RowSources(48, 3, 128), 6144) && |RowSources(48, 3, 128)| == 6144
    ensures HeadsMoved(s, SelectTail(s, keep, RowSources(48, 3, 128)), keep)
  {
    var rows := RowSources(48, 3, 128);
    var after := SelectTail(s, keep, rows);
    forall x | keep <= x < keep + 6144
      ensures 0 <= StoredRow(x - keep) < 6144 && after[x] == s[keep + StoredRow(x - keep)]
    {
      RowSourceIs(x - keep);
      hide RowSources, StoredRow;
      assert after[x] == Select(s[keep..], rows)[x - keep];
    }
  }

  lemma AllMoved<T>(s: seq<T>)
    requires |s| == 6144 && InRange(RowSources(48, 3, 128), 6144) && |RowSources(48, 3, 128)| == 6144
    ensures HeadsMoved(s, Select(s, RowSources(48, 3, 128)), 0)
  {
    TailMoved(s, 0);
    hide RowSources, HeadsMoved;
    assert s[0..] == s;
  }

  lemma HeadsPicked<T>(s: seq<T>)
    requires |s| == 48 && InRange(HeadIndices(48, 3), 48)
    ensures OnePerHead(s, Select(s, HeadIndices(48, 3)))
  {
  }

  /** `_maybe_apply_gguf_linear_attn_head_permutation` on a matrix with `cols` columns. */
  method MaybePermute(enabled: bool, kind: Kind, cols: nat, weight: seq<Row>) returns (out: seq<Row>)
    requires forall r | 0 <= r < |weight| :: |weight[r]| == cols
    ensures StoredIndices()
    ensures enabled && kind.InProjQkv? && |weight| == 10240 ==> HeadsMoved(weight, out, 4096)
    ensures enabled && kind.InProjZ? && |weight| == 6144 ==> HeadsMoved(weight, out, 0)
    ensures enabled && (kind.InProjB? || kind.InProjA?) && |weight| == 48 ==> OnePerHead(weight, out)
    ensures enabled && kind.OutProj? && cols == 6144 ==>
              |out| == |weight| && forall o | 0 <= o < |out| :: HeadsMoved(weight[o], out[o], 0)
    ensures enabled && kind.InProjQkv? && |weight| == 10240 ==> out == SelectTail(weight, 4096, RowSources(48, 3, 128))
    ensures enabled && kind.InProjZ? && |weight| == 6144 ==> out == Select(weight, RowSources(48, 3, 128))
    ensures enabled && (kind.InProjB? || kind.InProjA?) && |weight| == 48 ==> out == Select(weight, HeadIndices(48, 3))
    ensures enabled && kind.OutProj? && cols == 6144 ==> out == ColumnsSelected(weight, RowSources(48, 3, 128))
    ensures !(enabled && PermutedKind(kind, |weight|, cols)) ==> out == weight
  {
    hide RowSources, Source, HeadIndices, HeadsMoved, OnePerHead;
    StoredIndicesHold();
    if !enabled {
      return weight;
    }
    if kind.InProjQkv? && |weight| == 10240 {
      var idx := RowIndices(48, 3, 128);
      out := weight[..4096] + Select(weight[4096..], idx);
      TailMoved(weight, 4096);
    } else if kind.InProjZ? && |weight| == 6144 {
      var idx := RowIndices(48, 3, 128);
      out := Select(weight, idx);
      AllMoved(weight);
    } else if (kind.InProjB? || kind.InProjA?) && |weight| == 48 {
      out := Select(weight, HeadIndices(48, 3));
      HeadsPicked(weight);
    } else if kind.OutProj? && cols == 6144 {
      var idx := RowIndices(48, 3, 128);
      out := ColumnsSelected(weight, idx);
      forall o | 0 <= o < |out|
        ensures HeadsMoved(weight[o], out[o], 0)
      {
        AllMoved(weight[o]);
      }
    } else {
      out := weight;
    }
  }

  lemma HeadsInRange(n: nat, g: nat)
    requires g > 0 && n % g == 0
    ensures InRange(HeadIndices(n, g), n)
  {
    forall i | 0 <= i < n
      ensures HeadIndices(n, g)[i] < n
    {
      SourceTarget(i, n, g);
    }
  }

  /** `_maybe_apply_gguf_linear_attn_state_conventions` on a one-dimensional tensor. */
  method MaybeConvertVector(enabled: bool, kind: Kind, values: seq<real>, log: real -> real) returns (out: seq<real>)
    ensures StoredIndices()
    ensures enabled && kind.ALog? && |values| == 48 ==>
              out == Select(seq(48, h requires 0 <= h < 48 => log(-values[h])), HeadIndices(48, 3))
    ensures enabled && kind.DtBias? && |values| == 48 ==> out == Select(values, HeadIndices(48, 3))
    ensures enabled && (kind.ALog? || kind.DtBias?) && |values| == 48 ==> |out| == 48 && forall i | 0 <= i < 48 ::
              out[i] == var x := values[i % 3 * 16 + i / 3]; if kind.ALog? then log(-x) else x
    ensures !(enabled && (kind.ALog? || kind.DtBias?) && |values| == 48) ==> out == values
  {
    hide RowSources, Source, HeadIndices;
    StoredIndicesHold();
    out := values;
    if enabled && kind.ALog? && |values| == 48 {
      var logs := seq(48, h requires 0 <= h < 48 => log(-values[h]));
      out := Select(logs, HeadIndices(48, 3));
      HeadsPicked(logs);
    } else if enabled && kind.DtBias? && |values| == 48 {
      out := Select(values, HeadIndices(48, 3));
      HeadsPicked(values);
    }
  }

  /** The same on the convolution weights: a clone whose tail rows are overwritten in place. */
  method MaybeConvertConv(enabled: bool, kind: Kind, rows: seq<Row>) returns (out: seq<Row>)
    ensures StoredIndices()
    ensures enabled && kind.Conv1d? && |rows| == 10240 ==> HeadsMoved(rows, out, 4096)
    ensures enabled && kind.Conv1d? && |rows| == 10240 ==> out == SelectTail(rows, 4096, RowSources(48, 3, 128))
    ensures !(enabled && kind.Conv1d? && |rows| == 10240) ==> out == rows
  {
    hide RowSources, Source, HeadIndices, HeadsMoved;
    StoredIndicesHold();
    out := rows;
    if enabled && kind.Conv1d? && |rows| == 10240 {
      var idx := RowIndices(48, 3, 128);
      var tail := Select(rows[4096..], idx);
      for j := 0 to 6144
        invariant |out| == 10240 && out[..4096] == rows[..4096]
        invariant forall k | 0 <= k < j :: out[4096 + k] == tail[k]
      {
        out := out[4096 + j := tail[j]];
      }
      TailMoved(rows, 4096);
      assert out == SelectTail(rows, 4096, RowSources(48, 3, 128));
    }
  }

  ghost predicate Width(m: seq<Row>, cols: nat) {
    forall r | 0 <= r < |m| :: |m[r]| == cols
  }

  lemma StoredSizes(w: Weights)
    requires Sized(w, STORED)
    ensures |w.qkv| == |w.conv| == 10240 && |w.z| == 6144 && Width(w.outProj, 6144)
    ensures STORED.KeyRows() == 4096 && STORED.ValueRows() == 6144
  {
    assert RowAt(32, 0, 128) == 4096 && RowAt(48, 0, 128) == 6144;
  }

  // ---------------------------------------------------------------- what a layer of these sizes means

  ghost predicate StoredShape(w: Weights) {
    && |w.qkv| == |w.conv| == 10240 && |w.z| == 6144
    && |w.b| == |w.a| == |w.decay| == |w.dtBias| == 48
    && forall o | 0 <= o < |w.outProj| :: |w.outProj[o]| == 6144
  }

  lemma ShapeIs(w: Weights)
    ensures Sized(w, STORED) <==> StoredShape(w)
  {
    assert RowAt(32, 0, 128) == 4096 && RowAt(48, 0, 128) == 6144;
  }

  /** Rows 0 to 2047 are 16 query heads of 128, the next 2048 the key heads. */
  function KeyHead(w: Weights, k: nat): Key
    requires StoredShape(w) && k < 16
  {
    Key(w.qkv[128 * k..128 * k + 128], w.qkv[2048 + 128 * k..2048 + 128 * k + 128],
        w.conv[128 * k..128 * k + 128], w.conv[2048 + 128 * k..2048 + 128 * k + 128])
  }

  /** The rest are 48 value heads. */
  function ValueHead(w: Weights, h: nat, decay: real): Head
    requires StoredShape(w) && h < 48
  {
    Head(w.qkv[4096 + 128 * h..4096 + 128 * h + 128], w.z[128 * h..128 * h + 128], w.b[h], w.a[h], decay, w.dtBias[h],
         w.conv[4096 + 128 * h..4096 + 128 * h + 128])
  }

  function Projected(columns: Row, result: int -> real, h: nat): int -> real {
    d => if 0 <= d < 128 && 128 * h + d < |columns| then columns[128 * h + d] * result(d) else 0.0
  }

  /** In the file, value head `h` goes with key head h mod 16, and holds the recurrence's A. */
  function FileTerm(w: Weights, core: (Key, Head) -> (int -> real), o: nat): int -> real
    requires StoredShape(w) && o < |w.outProj|
  {
    h => if 0 <= h < 48
      then Sum(Projected(w.outProj[o], core(KeyHead(w, h % 16), ValueHead(w, h, w.decay[h])), h), 0, 128) else 0.0
  }

  /** In the layer it goes with key head h / 3, and A is -exp of what it holds. */
  function LayerTerm(w: Weights, exp: real -> real, core: (Key, Head) -> (int -> real), o: nat): int -> real
    requires StoredShape(w) && o < |w.outProj|
  {
    h => if 0 <= h < 48
      then Sum(Projected(w.outProj[o], core(KeyHead(w, h / 3), ValueHead(w, h, -exp(w.decay[h]))), h), 0, 128) else 0.0
  }

  lemma KeyHeadIs(w: Weights, k: nat)
    requires Sized(w, STORED) && StoredShape(w) && k < 16
    ensures STORED.Keys() == 16 && KeyOf(w, STORED, k) == KeyHead(w, k)
  {
  }

  lemma ValueHeadIs(w: Weights, decayOf: real -> real, h: nat)
    requires Sized(w, STORED) && StoredShape(w) && h < 48
    ensures HeadOf(w, STORED, decayOf, h) == ValueHead(w, h, decayOf(w.decay[h]))
  {
  }

  lemma PartIs(columns: Row, result: int -> real, h: nat)
    requires |columns| == 6144 && h < 48
    ensures HeadPart(columns, result, h, 128) == Sum(Projected(columns, result, h), 0, 128)
  {
    var mine := d => if 0 <= d && RowAt(h, d, 128) < |columns| then Times(columns[RowAt(h, d, 128)], result(d)) else 0.0;
    forall d | 0 <= d < 128
      ensures mine(d) == Projected(columns, result, h)(d)
    {
      var at := 128 * h + d;
      assert at < |columns|;
      assert RowAt(h, d, 128) == at;
      var x, y := columns[at], result(d);
      assert mine(d) == Times(x, y);
      assert Projected(columns, result, h)(d) == x * y;
    }
    SumEq(mine, Projected(columns, result, h), 0, 128);
    SumEq(mine, d => if 0 <= d && RowAt(h, d, 128) < |columns| then Times(columns[RowAt(h, d, 128)], result(d)) else 0.0, 0, 128);
  }

  lemma OutputIs(w: Weights, core: (Key, Head) -> (int -> real), keyOf: int -> int, decayOf: real -> real, o: nat, f: int -> real)
    requires Sized(w, STORED) && StoredShape(w) && o < |w.outProj|
    requires forall h: nat | h < 48 :: 0 <= keyOf(h) < 16
    requires forall h: nat | h < 48 ::
               f(h) == Sum(Projected(w.outProj[o], core(KeyHead(w, keyOf(h)), ValueHead(w, h, decayOf(w.decay[h]))), h), 0, 128)
    ensures Output(w, STORED, core, keyOf, decayOf, o) == Sum(f, 0, 48)
  {
    forall h: nat | h < 48
      ensures Part(w, STORED, core, keyOf, decayOf, o)(h) == f(h)
    {
      var k := keyOf(h);
      KeyHeadIs(w, k);
      ValueHeadIs(w, decayOf, h);
      PartIs(w.outProj[o], core(KeyHead(w, k), ValueHead(w, h, decayOf(w.decay[h]))), h);
      hide Sum, KeyOf, HeadOf, HeadPart, KeyHead, ValueHead, Projected, Sized;
      PartAt(w, STORED, core, keyOf, decayOf, o, h, k);
    }
    hide Part, Projected, KeyHead, ValueHead;
    SumEq(Part(w, STORED, core, keyOf, decayOf, o), f, 0, 48);
  }

  /** Every output of the loaded layer is the file's, whatever the recurrence does inside a head. */
  ghost predicate MeansTheFile(c: Weights, w: Weights, exp: real -> real)
    requires StoredShape(c) && StoredShape(w) && |c.outProj| == |w.outProj|
  {
    forall core: (Key, Head) -> (int -> real), o: nat | o < |w.outProj| ::
      Sum(LayerTerm(c, exp, core, o), 0, 48) == Sum(FileTerm(w, core, o), 0, 48)
  }

  lemma SameMeansFile(c: Weights, w: Weights, exp: real -> real)
    requires Sized(c, STORED) && Sized(w, STORED) && |c.outProj| == |w.outProj| && SameLayer(c, w, exp)
    ensures StoredShape(c) && StoredShape(w) && MeansTheFile(c, w, exp)
  {
    ShapeIs(c);
    ShapeIs(w);
    forall core: (Key, Head) -> (int -> real), o: nat | o < |w.outProj|
      ensures Sum(LayerTerm(c, exp, core, o), 0, 48) == Sum(FileTerm(w, core, o), 0, 48)
    {
      LayerIs(c, exp, core, o);
      FileIs(w, core, o);
      hide LayerTerm, FileTerm, Sum, Output;
    }
  }

  lemma LayerIs(c: Weights, exp: real -> real, core: (Key, Head) -> (int -> real), o: nat)
    requires Sized(c, STORED) && StoredShape(c) && o < |c.outProj|
    ensures Output(c, STORED, core, LayerKey(STORED), LayerDecay(exp), o) == Sum(LayerTerm(c, exp, core, o), 0, 48)
  {
    hide Sum, Projected, KeyHead, ValueHead, Output, Sized;
    OutputIs(c, core, LayerKey(STORED), LayerDecay(exp), o, LayerTerm(c, exp, core, o));
  }

  lemma FileIs(w: Weights, core: (Key, Head) -> (int -> real), o: nat)
    requires Sized(w, STORED) && StoredShape(w) && o < |w.outProj|
    ensures Output(w, STORED, core, FileKey(STORED), FileDecay(), o) == Sum(FileTerm(w, core, o), 0, 48)
  {
    hide Sum, Projected, KeyHead, ValueHead, Output, Sized;
    OutputIs(w, core, FileKey(STORED), FileDecay(), o, FileTerm(w, core, o));
  }

  /** A layer's tensors through the loader: with both switches on, the layer means what the file means. */
  method LoadLayer(permute: bool, convert: bool, w: Weights, hidden: nat, exp: real -> real, log: real -> real)
    returns (c: Weights)
    requires Sized(w, STORED) && Inverts(exp, log) && forall h | 0 <= h < 48 :: w.decay[h] < 0.0
    requires Width(w.qkv, hidden) && Width(w.z, hidden) && Width(w.b, hidden) && Width(w.a, hidden)
    ensures permute && convert ==> Sized(c, STORED) && |c.outProj| == |w.outProj| && SameLayer(c, w, exp)
    ensures StoredShape(w) && (permute && convert ==> StoredShape(c) && MeansTheFile(c, w, exp))
    ensures !permute && !convert ==> c == w
  {
    StoredIndicesHold();
    StoredSizes(w);
    ShapeIs(w);
    hide RowSources, Source, HeadIndices, HeadRows, SameLayer, MeansTheFile, HeadsMoved, OnePerHead;
    var qkv := MaybePermute(permute, InProjQkv, hidden, w.qkv);
    var z := MaybePermute(permute, InProjZ, hidden, w.z);
    var b := MaybePermute(permute, InProjB, hidden, w.b);
    var a := MaybePermute(permute, InProjA, hidden, w.a);
    var outProj := MaybePermute(permute, OutProj, 6144, w.outProj);
    var decay := MaybeConvertVector(convert, ALog, w.decay, log);
    var dtBias := MaybeConvertVector(convert, DtBias, w.dtBias, log);
    var conv := MaybeConvertConv(convert, Conv1d, w.conv);
    c := Weights(qkv, z, b, a, outProj, decay, dtBias, conv);
    if permute && convert {
      assert c == Convert(w, STORED, HeadIndices(48, 3), RowSources(48, 3, 128), log);
      ConvertedSameLayer(w, exp, log);
      SameMeansFile(c, w, exp);
    }
  }

  /** Both weights compute the same layer, each under its own pairing and decay convention. */
  ghost predicate SameLayer(c: Weights, w: Weights, exp: real -> real)
    requires Sized(c, STORED) && Sized(w, STORED) && |c.outProj| == |w.outProj|
  {
    forall core: (Key, Head) -> (int -> real), o: nat | o < |w.outProj| ::
      Output(c, STORED, core, LayerKey(STORED), LayerDecay(exp), o) == Output(w, STORED, core, FileKey(STORED), FileDecay(), o)
  }

  lemma ConvertedSameLayer(w: Weights, exp: real -> real, log: real -> real)
    requires Sized(w, STORED) && Inverts(exp, log) && forall h | 0 <= h < 48 :: w.decay[h] < 0.0
    ensures InRange(HeadIndices(48, 3), 48) && InRange(RowSources(48, 3, 128), STORED.ValueRows())
    ensures var c := Convert(w, STORED, HeadIndices(48, 3), RowSources(48, 3, 128), log);
            Sized(c, STORED) && |c.outProj| == |w.outProj| && SameLayer(c, w, exp)
  {
    StoredIndicesHold();
    StoredSizes(w);
    hide RowSources, Source, Output;
    var heads, rows := HeadIndices(48, 3), RowSources(48, 3, 128);
    hide HeadIndices;
    ConvertedSized(w, STORED, heads, rows, log);
    var c := Convert(w, STORED, heads, rows, log);
    forall core: (Key, Head) -> (int -> real), o: nat | o < |w.outProj|
      ensures Output(c, STORED, core, LayerKey(STORED), LayerDecay(exp), o) == Output(w, STORED, core, FileKey(STORED), FileDecay(), o)
    {
      ConversionPreservesLayer(w, STORED, heads, rows, exp, log, core, o);
    }
  }
}
