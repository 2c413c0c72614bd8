/**
 Loading the fused query/key/value weight under grouped-query attention. Query heads are split over
 the ranks; key/value heads are split too, or replicated when there are more ranks than heads.
 Either way every query head finds its own key/value head on its rank.
 */
module QkvLoader {
  import opened DivMod
  import opened ColumnLoader
  import opened GgufLoader

  datatype ShardId = Q | K | V

  datatype Qkv = Qkv(headSize: nat, vHeadSize: nat, totalHeads: nat, totalKvHeads: nat, tpSize: nat, tpRank: nat)

  /** What the constructor's divisions demand. */
  ghost predicate Valid(l: Qkv) {
    && l.tpRank < l.tpSize && l.totalKvHeads > 0
    && l.totalHeads % l.tpSize == 0
    && (if l.tpSize >= l.totalKvHeads then l.tpSize % l.totalKvHeads == 0 else l.totalKvHeads % l.tpSize == 0)
  }

  function NumHeads(l: Qkv): nat requires l.tpSize > 0 { l.totalHeads / l.tpSize }

  function NumKvHeads(l: Qkv): nat
    requires l.tpSize > 0
  {
    if l.tpSize >= l.totalKvHeads then 1 else l.totalKvHeads / l.tpSize
  }

  function Replicas(l: Qkv): nat
    requires l.totalKvHeads > 0
  {
    if l.tpSize >= l.totalKvHeads then l.tpSize / l.totalKvHeads else 1
  }

  lemma ReplicasPositive(l: Qkv)
    requires Valid(l)
    ensures Replicas(l) > 0 && NumKvHeads(l) > 0
    ensures l.tpRank / Replicas(l) * NumKvHeads(l) + NumKvHeads(l) <= l.totalKvHeads
  {
    if l.tpSize >= l.totalKvHeads {
      ReplicaGroup(l.tpSize, l.totalKvHeads, l.tpRank);
    } else {
      OwnSlice(l.totalKvHeads, l.tpSize, l.tpRank);
    }
  }

  lemma ReplicaGroup(tp: nat, kv: nat, rank: nat)
    requires kv > 0 && tp >= kv && tp % kv == 0 && rank < tp
    ensures tp / kv > 0 && rank / (tp / kv) * 1 + 1 <= kv
  {
    DivAtLeast(tp, kv, 1);
    var n := tp / kv;
    assert kv * n == tp;
    DivAtLeast(rank, n, kv);
  }

  lemma OwnSlice(kv: nat, tp: nat, rank: nat)
    requires rank < tp < kv && kv % tp == 0
    ensures kv / tp > 0 && rank / 1 == rank && rank * (kv / tp) + kv / tp <= kv
  {
    DivAtLeast(kv, tp, 1);
    DivUnique(rank, 1, rank, 0);
    var n := kv / tp;
    MulGe(tp, rank + 1, n);
    assert (rank + 1) * n == rank * n + n;
    assert tp * n == kv;
  }

  function HeadRows(l: Qkv, id: ShardId): nat { if id.V? then l.vHeadSize else l.headSize }

  function LocalHeads(l: Qkv, id: ShardId): nat
    requires l.tpSize > 0
  {
    if id.Q? then NumHeads(l) else NumKvHeads(l)
  }

  function ShardRows(l: Qkv, id: ShardId): nat
    requires l.tpSize > 0
  {
    LocalHeads(l, id) * HeadRows(l, id)
  }

  function ShardStart(l: Qkv, id: ShardId): nat
    requires l.tpSize > 0
  {
    match id
    case Q => 0
    case K => NumHeads(l) * l.headSize
    case V => (NumHeads(l) + NumKvHeads(l)) * l.headSize
  }

  function ParamSize(l: Qkv): nat
    requires l.tpSize > 0
  {
    (NumHeads(l) + NumKvHeads(l)) * l.headSize + NumKvHeads(l) * l.vHeadSize
  }

  /** Which slice of the checkpoint a rank takes: its own for queries, its replica group's for keys and values. */
  function SliceRank(l: Qkv, id: ShardId): nat
    requires Valid(l)
  {
    ReplicasPositive(l);
    if id.Q? then l.tpRank else l.tpRank / Replicas(l)
  }

  function TotalHeads(l: Qkv, id: ShardId): nat { if id.Q? then l.totalHeads else l.totalKvHeads }

  function FullRows(l: Qkv, id: ShardId): nat { TotalHeads(l, id) * HeadRows(l, id) }

  lemma ShardInParam(l: Qkv, id: ShardId)
    requires l.tpSize > 0
    ensures ShardStart(l, id) + ShardRows(l, id) <= ParamSize(l)
  {
    assert (NumHeads(l) + NumKvHeads(l)) * l.headSize == NumHeads(l) * l.headSize + NumKvHeads(l) * l.headSize;
  }

  lemma SliceInCheckpoint(l: Qkv, id: ShardId)
    requires Valid(l)
    ensures SliceRank(l, id) * LocalHeads(l, id) + LocalHeads(l, id) <= TotalHeads(l, id)
    ensures SliceRank(l, id) * ShardRows(l, id) + ShardRows(l, id) <= FullRows(l, id)
  {
    ReplicasPositive(l);
    if id.Q? {
      RankSlice(l.tpRank, l.tpSize, l.totalHeads);
    }
    ScaleSlice(SliceRank(l, id), LocalHeads(l, id), HeadRows(l, id), TotalHeads(l, id));
  }

  lemma RankSlice(rank: nat, tp: nat, total: nat)
    requires rank < tp && total % tp == 0
    ensures rank * (total / tp) + total / tp <= total
  {
    var n := total / tp;
    MulGe(tp, rank + 1, n);
    assert (rank + 1) * n == rank * n + n;
    assert tp * n == n * tp == total;
  }

  lemma ScaleSlice(r: nat, n: nat, hs: nat, total: nat)
    requires r * n + n <= total
    ensures r * (n * hs) + n * hs <= total * hs
  {
    MulGe(total, r * n + n, hs);
    assert (r * n + n) * hs == r * (n * hs) + n * hs;
  }

  /** The parameter part for `id` holds this rank's slice of the checkpoint matrix `w`. */
  ghost predicate PartHolds<T>(l: Qkv, data: seq<T>, id: ShardId, w: seq<T>)
    requires Valid(l)
  {
    var start, size := ShardStart(l, id), ShardRows(l, id);
    && start + size <= |data| && SliceRank(l, id) * size + size <= |w|
    && data[start..start + size] == RankRows(w, SliceRank(l, id), size)
  }

  method LoadPart<T>(l: Qkv, data: array<T>, loaded: seq<T>, id: ShardId) returns (r: LoadResult)
    requires Valid(l) && data.Length == ParamSize(l)
    modifies data
    ensures r == Loaded <==> SliceRank(l, id) * ShardRows(l, id) + ShardRows(l, id) <= |loaded|
    ensures r == Loaded ==> PartHolds(l, data[..], id, loaded)
    ensures r == Loaded ==> SameOutside(old(data[..]), data[..], ShardStart(l, id), ShardRows(l, id))
    ensures r != Loaded ==> data[..] == old(data[..])
  {
    hide ShardStart, ShardRows, SliceRank, ParamSize;
    ShardInParam(l, id);
    var size := ShardRows(l, id);
    var start := SliceRank(l, id) * size;
    if start + size > |loaded| {
      return ShapeMismatch;
    }
    CopyInto(data, ShardStart(l, id), loaded[start..start + size]);
    return Loaded;
  }

  lemma OtherPartKept<T>(l: Qkv, before: seq<T>, after: seq<T>, i: ShardId, j: ShardId, w: seq<T>)
    requires Valid(l) && i != j && PartHolds(l, before, i, w)
    requires SameOutside(before, after, ShardStart(l, j), ShardRows(l, j))
    ensures PartHolds(l, after, i, w)
  {
    PartsApart(l, i, j);
    hide ShardStart, ShardRows, SliceRank;
    SliceKept(before, after, ShardStart(l, i), ShardStart(l, i) + ShardRows(l, i), ShardStart(l, j), ShardRows(l, j));
  }

  lemma PartsApart(l: Qkv, i: ShardId, j: ShardId)
    requires l.tpSize > 0 && i != j
    ensures ShardStart(l, i) + ShardRows(l, i) <= ShardStart(l, j) || ShardStart(l, j) + ShardRows(l, j) <= ShardStart(l, i)
  {
    assert (NumHeads(l) + NumKvHeads(l)) * l.headSize == NumHeads(l) * l.headSize + NumKvHeads(l) * l.headSize;
  }

  /** A checkpoint that stacks q, k and v is cut and loaded part by part. */
  method LoadFusedQkv<T>(l: Qkv, data: array<T>, q: seq<T>, k: seq<T>, v: seq<T>) returns (r: LoadResult)
    requires Valid(l) && data.Length == ParamSize(l)
    requires |q| == FullRows(l, Q) && |k| == FullRows(l, K) && |v| == FullRows(l, V)
    modifies data
    ensures r == Loaded
    ensures PartHolds(l, data[..], Q, q) && PartHolds(l, data[..], K, k) && PartHolds(l, data[..], V, v)
    ensures IsStacked(l, data[..], q, k, v)
  {
    hide ShardStart, ShardRows, SliceRank, ParamSize, FullRows, PartHolds, IsStacked;
    var loaded := q + k + v;
    SliceInCheckpoint(l, Q);
    SliceInCheckpoint(l, K);
    SliceInCheckpoint(l, V);
    assert loaded[0..FullRows(l, Q)] == q;
    assert loaded[FullRows(l, Q)..FullRows(l, Q) + FullRows(l, K)] == k;
    assert loaded[FullRows(l, Q) + FullRows(l, K)..FullRows(l, Q) + FullRows(l, K) + FullRows(l, V)] == v;
    r := LoadPart(l, data, loaded[0..FullRows(l, Q)], Q);
    ghost var first := data[..];
    r := LoadPart(l, data, loaded[FullRows(l, Q)..FullRows(l, Q) + FullRows(l, K)], K);
    OtherPartKept(l, first, data[..], Q, K, q);
    ghost var second := data[..];
    r := LoadPart(l, data, loaded[FullRows(l, Q) + FullRows(l, K)..FullRows(l, Q) + FullRows(l, K) + FullRows(l, V)], V);
    OtherPartKept(l, second, data[..], Q, V, q);
    OtherPartKept(l, second, data[..], K, V, k);
    PartsStack(l, data[..], q, k, v);
  }

  /**
   The rank's query rows, then its key rows, then its value rows. A rank holds totalHeads / tpSize query
   heads and, with more ranks than key/value heads, the one key/value head of its replica group.
   */
  ghost predicate IsStacked<T>(l: Qkv, data: seq<T>, q: seq<T>, k: seq<T>, v: seq<T>)
    requires l.tpSize > 0 && l.totalKvHeads > 0
  {
    var heads := l.totalHeads / l.tpSize;
    var kvHeads := if l.tpSize < l.totalKvHeads then l.totalKvHeads / l.tpSize else 1;
    var group := if l.tpSize < l.totalKvHeads then l.tpRank else l.tpRank * l.totalKvHeads / l.tpSize;
    && (l.tpRank + 1) * heads * l.headSize <= |q|
    && (group + 1) * kvHeads * l.headSize <= |k| && (group + 1) * kvHeads * l.vHeadSize <= |v|
    && data == Rows(q, l.tpRank * heads * l.headSize, (l.tpRank + 1) * heads * l.headSize)
             + Rows(k, group * kvHeads * l.headSize, (group + 1) * kvHeads * l.headSize)
             + Rows(v, group * kvHeads * l.vHeadSize, (group + 1) * kvHeads * l.vHeadSize)
  }

  function Rows<T>(s: seq<T>, lo: int, hi: int): (rows: seq<T>)
    ensures 0 <= lo <= hi <= |s| ==> rows == s[lo..hi]
  {
    if 0 <= lo <= hi <= |s| then s[lo..hi] else []
  }

  /** A rank's replica group, counted by heads. */
  lemma GroupIs(l: Qkv)
    requires Valid(l) && l.tpSize >= l.totalKvHeads
    ensures l.tpRank * l.totalKvHeads / l.tpSize == l.tpRank / Replicas(l)
  {
    ReplicasPositive(l);
    var rep, kv := Replicas(l), l.totalKvHeads;
    assert rep * kv == l.tpSize;
    var g, x := l.tpRank / rep, l.tpRank % rep;
    assert l.tpRank * kv == (g * rep + x) * kv == g * (rep * kv) + x * kv;
    MulGe(rep, x + 1, kv);
    assert (x + 1) * kv == x * kv + kv;
    MulGe(x, 0, kv);
    DivUnique(l.tpRank * kv, l.tpSize, g, x * kv);
  }

  /** One part's slice, with the bounds multiplied out. */
  lemma PartSlice<T>(w: seq<T>, r: nat, n: nat, hs: nat)
    requires r * (n * hs) + n * hs <= |w|
    ensures 0 <= r * n * hs <= (r + 1) * n * hs <= |w|
    ensures RankRows(w, r, n * hs) == Rows(w, r * n * hs, (r + 1) * n * hs)
  {
    assert r * (n * hs) == r * n * hs && (r + 1) * n * hs == r * n * hs + n * hs;
    MulGe(r, 0, n * hs);
  }

  /** Three loaded parts fill the parameter, in that order. */
  lemma PartsStack<T>(l: Qkv, data: seq<T>, q: seq<T>, k: seq<T>, v: seq<T>)
    requires Valid(l) && |data| == ParamSize(l)
    requires PartHolds(l, data, Q, q) && PartHolds(l, data, K, k) && PartHolds(l, data, V, v)
    ensures IsStacked(l, data, q, k, v)
  {
    SliceRanks(l);
    PartSlice(q, SliceRank(l, Q), NumHeads(l), l.headSize);
    PartSlice(k, SliceRank(l, K), NumKvHeads(l), l.headSize);
    PartSlice(v, SliceRank(l, V), NumKvHeads(l), l.vHeadSize);
    PartEnds(l);
    RowsAre(l);
    hide SliceRank, NumHeads, NumKvHeads, ShardStart, ShardRows, ParamSize, RankRows, Valid, Rows;
    ThreeParts(data, ShardRows(l, Q), ShardRows(l, Q) + ShardRows(l, K));
  }

  lemma ThreeParts<T>(data: seq<T>, a: nat, b: nat)
    requires a <= b <= |data|
    ensures data == data[0..a] + data[a..b] + data[b..|data|]
  {
  }

  lemma RowsAre(l: Qkv)
    requires l.tpSize > 0
    ensures ShardRows(l, Q) == NumHeads(l) * l.headSize && ShardRows(l, K) == NumKvHeads(l) * l.headSize
    ensures ShardRows(l, V) == NumKvHeads(l) * l.vHeadSize
  {
  }

  /** Head counts and slices of a rank, from the sizes. */
  lemma SliceRanks(l: Qkv)
    requires Valid(l)
    ensures NumHeads(l) == l.totalHeads / l.tpSize && SliceRank(l, Q) == l.tpRank
    ensures NumKvHeads(l) == if l.tpSize < l.totalKvHeads then l.totalKvHeads / l.tpSize else 1
    ensures SliceRank(l, K) == SliceRank(l, V)
         == if l.tpSize < l.totalKvHeads then l.tpRank else l.tpRank * l.totalKvHeads / l.tpSize
  {
    ReplicasPositive(l);
    if l.tpSize >= l.totalKvHeads {
      GroupIs(l);
    } else {
      DivUnique(l.tpRank, 1, l.tpRank, 0);
    }
  }

  lemma PartEnds(l: Qkv)
    requires l.tpSize > 0
    ensures ShardStart(l, Q) == 0 && ShardStart(l, K) == ShardRows(l, Q)
    ensures ShardStart(l, V) == ShardRows(l, Q) + ShardRows(l, K)
    ensures ParamSize(l) == ShardRows(l, Q) + ShardRows(l, K) + ShardRows(l, V)
  {
    assert (NumHeads(l) + NumKvHeads(l)) * l.headSize == NumHeads(l) * l.headSize + NumKvHeads(l) * l.headSize;
  }

  /** The three parts one by one, in any order and any number of times: the same parameter. */
  method LoadParts<T>(l: Qkv, data: array<T>, q: seq<T>, k: seq<T>, v: seq<T>, order: seq<ShardId>)
    requires Valid(l) && data.Length == ParamSize(l) && Q in order && K in order && V in order
    requires |q| == FullRows(l, Q) && |k| == FullRows(l, K) && |v| == FullRows(l, V)
    modifies data
    ensures IsStacked(l, data[..], q, k, v)
  {
    hide ShardStart, ShardRows, SliceRank, ParamSize, FullRows, PartHolds, IsStacked;
    for n := 0 to |order|
      invariant forall id | id in order[..n] :: PartHolds(l, data[..], id, Checkpoint(id, q, k, v))
    {
      ghost var before := data[..];
      var id := order[n];
      SliceInCheckpoint(l, id);
      var r := LoadPart(l, data, Checkpoint(id, q, k, v), id);
      forall other | other in order[..n + 1]
        ensures PartHolds(l, data[..], other, Checkpoint(other, q, k, v))
      {
        assert order[..n + 1] == order[..n] + [id];
        if other != id {
          OtherPartKept(l, before, data[..], other, id, Checkpoint(other, q, k, v));
        }
      }
    }
    assert order[..|order|] == order;
    assert PartHolds(l, data[..], Q, Checkpoint(Q, q, k, v)) && PartHolds(l, data[..], K, Checkpoint(K, q, k, v));
    PartsStack(l, data[..], q, k, v);
  }

  function Checkpoint<T>(id: ShardId, q: seq<T>, k: seq<T>, v: seq<T>): seq<T> {
    match id
    case Q => q
    case K => k
    case V => v
  }

  // ---------------------------------------------------------------- grouped-query pairing

  /** Row `x` of local head `h` in the parameter. */
  function LocalRow(l: Qkv, id: ShardId, h: nat, x: nat): nat
    requires l.tpSize > 0
  {
    ShardStart(l, id) + h * HeadRows(l, id) + x
  }

  /** A loaded part holds whole heads: local head `h` is the slice's head `h`. */
  lemma LocalHeadIs<T>(l: Qkv, data: seq<T>, id: ShardId, w: seq<T>, h: nat, x: nat)
    requires Valid(l) && PartHolds(l, data, id, w) && h < LocalHeads(l, id) && x < HeadRows(l, id)
    ensures LocalRow(l, id, h, x) < |data|
    ensures 0 <= (SliceRank(l, id) * LocalHeads(l, id) + h) * HeadRows(l, id) + x < |w|
    ensures data[LocalRow(l, id, h, x)] == w[(SliceRank(l, id) * LocalHeads(l, id) + h) * HeadRows(l, id) + x]
  {
    hide LocalHeads, HeadRows, SliceRank, ShardStart;
    var n, hs, r := LocalHeads(l, id), HeadRows(l, id), SliceRank(l, id);
    RowInShard(n, hs, h, x);
    assert (r * n + h) * hs == r * (n * hs) + h * hs;
    var start, size := ShardStart(l, id), ShardRows(l, id);
    var y := h * hs + x;
    assert data[start..start + size][y] == data[start + y];
    assert RankRows(w, r, size)[y] == w[r * size + y];
  }

  lemma RowInShard(n: nat, hs: nat, h: nat, x: nat)
    requires h < n && x < hs
    ensures 0 <= h * hs + x < n * hs
  {
    MulGe(n, h + 1, hs);
    assert (h + 1) * hs == h * hs + hs;
    MulGe(h, 0, hs);
  }

  /** The key/value head of a query head, in the unsharded model. */
  function KvHeadOf(l: Qkv, q: nat): nat
    requires l.totalKvHeads > 0 && l.totalHeads / l.totalKvHeads > 0
  {
    q / (l.totalHeads / l.totalKvHeads)
  }

  /**
   The kv head that a rank's attention reads for local query head `h` is the kv head of the global
   query head, whether kv heads are split or replicated.
   */
  lemma PairingPreserved(l: Qkv, h: nat)
    requires Valid(l) && l.totalHeads % l.totalKvHeads == 0 && h < NumHeads(l)
    ensures l.totalHeads / l.totalKvHeads > 0 && NumHeads(l) / NumKvHeads(l) > 0
    ensures h / (NumHeads(l) / NumKvHeads(l)) < NumKvHeads(l)
    ensures KvHeadOf(l, SliceRank(l, Q) * NumHeads(l) + h)
         == SliceRank(l, K) * NumKvHeads(l) + h / (NumHeads(l) / NumKvHeads(l))
  {
    ReplicasPositive(l);
    if l.tpSize >= l.totalKvHeads {
      ReplicatedCounts(l.totalHeads, l.totalKvHeads, l.tpSize);
      ReplicatedPairing(l.tpRank, NumHeads(l), Replicas(l), h);
    } else {
      SplitCounts(l.totalHeads, l.totalKvHeads, l.tpSize);
      DivUnique(l.tpRank, 1, l.tpRank, 0);
      SplitPairing(l.tpRank, l.totalHeads / l.totalKvHeads, NumKvHeads(l), NumHeads(l), h);
    }
  }

  /** Heads per kv head, when each kv head serves several ranks. */
  lemma ReplicatedCounts(heads: nat, kv: nat, tp: nat)
    requires kv > 0 && tp > 0 && heads % tp == 0 && heads % kv == 0 && tp % kv == 0
    ensures heads / kv == heads / tp * (tp / kv)
  {
    var n, rep := heads / tp, tp / kv;
    assert n * (rep * kv) == (n * rep) * kv;
    DivUnique(heads, kv, n * rep, 0);
  }

  /** Heads per rank, when each rank holds several kv heads. */
  lemma SplitCounts(heads: nat, kv: nat, tp: nat)
    requires kv > 0 && tp > 0 && heads % tp == 0 && heads % kv == 0 && kv % tp == 0
    ensures heads / tp == heads / kv * (kv / tp)
  {
    var group, local := heads / kv, kv / tp;
    assert group * (local * tp) == (group * local) * tp;
    DivUnique(heads, tp, group * local, 0);
  }

  lemma ReplicatedPairing(rank: nat, n: nat, rep: nat, h: nat)
    requires rep > 0 && h < n
    ensures n * rep > 0 && (rank * n + h) / (n * rep) == rank / rep && n / 1 == n && h / n == 0
  {
    MulGe(rep, 1, n);
    var r := rank % rep * n + h;
    RowInShard(rep, n, rank % rep, h);
    assert rank == rank / rep * rep + rank % rep;
    assert rank * n == rank / rep * (n * rep) + rank % rep * n;
    assert rep * n == n * rep;
    DivUnique(rank * n + h, n * rep, rank / rep, r);
    DivUnique(h, n, 0, h);
    DivUnique(n, 1, n, 0);
  }

  lemma SplitPairing(rank: nat, group: nat, kv: nat, n: nat, h: nat)
    requires kv > 0 && n == group * kv && h < n
    ensures group > 0 && n / kv == group && h / group < kv
    ensures (rank * n + h) / group == rank * kv + h / group
  {
    BothFactors(group, kv);
    DivUnique(n, kv, group, 0);
    DivAtLeast(h, group, kv);
    assert kv * group == n;
    assert rank * n == rank * kv * group;
    assert (rank * kv + h / group) * group == rank * kv * group + h / group * group;
    DivUnique(rank * n + h, group, rank * kv + h / group, h % group);
  }

  lemma BothFactors(a: nat, b: nat)
    requires a * b > 0
    ensures a > 0 && b > 0
  {
  }

  /** The global index of local query head `h`. */
  function GlobalHead(l: Qkv, h: nat): nat
    requires l.tpSize > 0
  {
    l.tpRank * NumHeads(l) + h
  }

  /** The local key/value head that attention reads for local query head `h`. */
  function LocalKvHead(l: Qkv, h: nat): nat
    requires l.tpSize > 0 && NumKvHeads(l) > 0 && NumHeads(l) / NumKvHeads(l) > 0
  {
    h / (NumHeads(l) / NumKvHeads(l))
  }

  /** Local head `h` of a part is head `global` of the checkpoint matrix, row by row. */
  ghost predicate HeadLoaded<T>(l: Qkv, data: seq<T>, id: ShardId, w: seq<T>, h: nat, global: nat)
    requires l.tpSize > 0
  {
    forall x | 0 <= x < HeadRows(l, id) :: RowLoaded(l, data, id, w, h, global, x)
  }

  ghost predicate RowLoaded<T>(l: Qkv, data: seq<T>, id: ShardId, w: seq<T>, h: nat, global: nat, x: nat)
    requires l.tpSize > 0
  {
    && LocalRow(l, id, h, x) < |data| && 0 <= global * HeadRows(l, id) + x < |w|
    && data[LocalRow(l, id, h, x)] == w[global * HeadRows(l, id) + x]
  }

  lemma HeadIs<T>(l: Qkv, data: seq<T>, id: ShardId, w: seq<T>, h: nat)
    requires Valid(l) && PartHolds(l, data, id, w) && h < LocalHeads(l, id)
    ensures HeadLoaded(l, data, id, w, h, SliceRank(l, id) * LocalHeads(l, id) + h)
  {
    var global := SliceRank(l, id) * LocalHeads(l, id) + h;
    forall x | 0 <= x < HeadRows(l, id)
      ensures RowLoaded(l, data, id, w, h, global, x)
    {
      LocalHeadIs(l, data, id, w, h, x);
    }
  }

  /**
   After loading, the key and the value rows a rank's attention uses for a local query head are
   exactly the rows of that query head's own key/value head in the checkpoint.
   */
  lemma LoadedHeadsPair<T>(l: Qkv, data: seq<T>, q: seq<T>, k: seq<T>, v: seq<T>, h: nat)
    requires Valid(l) && l.totalHeads % l.totalKvHeads == 0
    requires PartHolds(l, data, Q, q) && PartHolds(l, data, K, k) && PartHolds(l, data, V, v)
    requires h < NumHeads(l)
    ensures NumHeads(l) / NumKvHeads(l) > 0 && l.totalHeads / l.totalKvHeads > 0
    ensures HeadLoaded(l, data, Q, q, h, GlobalHead(l, h))
    ensures HeadLoaded(l, data, K, k, LocalKvHead(l, h), KvHeadOf(l, GlobalHead(l, h)))
    ensures HeadLoaded(l, data, V, v, LocalKvHead(l, h), KvHeadOf(l, GlobalHead(l, h)))
  {
    hide NumHeads, NumKvHeads, PartHolds, KvHeadOf, HeadLoaded, Valid, SliceRank, LocalHeads;
    PairingPreserved(l, h);
    QuerySliceRank(l);
    LocalCounts(l);
    HeadIs(l, data, Q, q, h);
    HeadIs(l, data, K, k, LocalKvHead(l, h));
    HeadIs(l, data, V, v, LocalKvHead(l, h));
    KvSliceRank(l);
  }

  lemma KvSliceRank(l: Qkv)
    requires Valid(l)
    ensures SliceRank(l, V) == SliceRank(l, K)
  {
  }

  lemma LocalCounts(l: Qkv)
    requires l.tpSize > 0
    ensures LocalHeads(l, Q) == NumHeads(l) && LocalHeads(l, K) == LocalHeads(l, V) == NumKvHeads(l)
  {
  }

  lemma QuerySliceRank(l: Qkv)
    requires Valid(l)
    ensures l.tpSize > 0 && l.totalKvHeads > 0 && SliceRank(l, Q) == l.tpRank
  {
  }

  // ---------------------------------------------------------------- GGUF containers

  /**
   Loads a GGUF shard: keys and values of replicated heads are cut by replica group, everything
   else in equal parts over the ranks. The appended slice is the ordinary loader's.
   */
  method LoadGguf<T>(l: Qkv, param: GgufParam<ShardId, T>, loaded: seq<T>, id: ShardId)
    requires Valid(l) && |loaded| == FullRows(l, id)
    modifies param
    ensures SliceRank(l, id) * ShardRows(l, id) + ShardRows(l, id) <= |loaded|
    ensures param.container == old(param.container) + [RankRows(loaded, SliceRank(l, id), ShardRows(l, id))]
    ensures param.shardIds == old(param.shardIds) + [id]
    ensures param.shardIdMap == old(param.shardIdMap)[id := |old(param.container)|]
  {
    SliceInCheckpoint(l, id);
    if id in {K, V} && Replicas(l) > 1 {
      AppendSlice(param, id, loaded, l.tpRank / Replicas(l), ShardRows(l, id));
    } else {
      DefaultSlice(l, id);
      AppendSlice(param, id, loaded, l.tpRank, |loaded| / l.tpSize);
    }
  }

  method AppendSlice<T>(param: GgufParam<ShardId, T>, id: ShardId, loaded: seq<T>, rank: nat, size: nat)
    requires rank * size + size <= |loaded|
    modifies param
    ensures param.container == old(param.container) + [RankRows(loaded, rank, size)]
    ensures param.shardIds == old(param.shardIds) + [id]
    ensures param.shardIdMap == old(param.shardIdMap)[id := |old(param.container)|]
  {
    var start := rank * size;
    param.Append(id, loaded[start..start + size]);
  }

  /** Without replication, equal parts over the ranks are the ordinary slices. */
  lemma DefaultSlice(l: Qkv, id: ShardId)
    requires Valid(l) && (id.Q? || Replicas(l) == 1)
    ensures FullRows(l, id) / l.tpSize == ShardRows(l, id)
    ensures SliceRank(l, id) == l.tpRank
  {
    ReplicasPositive(l);
    var n, hs := LocalHeads(l, id), HeadRows(l, id);
    DivUnique(l.tpRank, 1, l.tpRank, 0);
    if id.Q? {
      WholeHeads(l.totalHeads, l.tpSize);
    } else if l.tpSize >= l.totalKvHeads {
      WholeHeads(l.tpSize, l.totalKvHeads);
    } else {
      WholeHeads(l.totalKvHeads, l.tpSize);
    }
    PerRank(n, hs, l.tpSize, TotalHeads(l, id));
  }

  lemma WholeHeads(heads: nat, tp: nat)
    requires tp > 0 && heads % tp == 0
    ensures heads / tp * tp == heads
    ensures heads / tp == 1 ==> heads == tp
  {
  }

  lemma PerRank(n: nat, hs: nat, tp: nat, heads: nat)
    requires tp > 0 && heads == n * tp
    ensures heads * hs / tp == n * hs
  {
    assert heads * hs == (n * hs) * tp;
    DivUnique(heads * hs, tp, n * hs, 0);
  }

  /**
   With replicated heads the equal-parts rule would cut heads apart: it takes the ordinary slice
   exactly when nothing is replicated.
   */
  lemma EqualPartsIffNotReplicated(l: Qkv, id: ShardId)
    requires Valid(l) && id in {K, V} && HeadRows(l, id) > 0
    ensures (FullRows(l, id) / l.tpSize == ShardRows(l, id) && l.tpRank == SliceRank(l, id)) <==> Replicas(l) == 1
  {
    ReplicasPositive(l);
    if Replicas(l) == 1 {
      DefaultSlice(l, id);
    } else {
      var hs := HeadRows(l, id);
      assert l.tpSize / l.totalKvHeads > 1;
      DivAtLeast(l.tpSize, l.totalKvHeads, 2);
      MulGe(l.tpSize, l.totalKvHeads + 1, hs);
      assert (l.totalKvHeads + 1) * hs == l.totalKvHeads * hs + hs;
      assert l.tpSize * hs == hs * l.tpSize;
      DivAtLeast(FullRows(l, id), l.tpSize, hs);
    }
  }
}
