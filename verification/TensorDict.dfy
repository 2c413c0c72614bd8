/**
 Sending a dictionary of tensors between pipeline stages: metadata first, then each tensor on its
 channel, where ranks of a group that hold the same tensor send one slice each and gather it back.
 */
module TensorDict {
  import opened Options
  import opened TensorShapes
  import opened DivMod

  datatype Device = Cpu | Cuda

  type Payload = seq<real>

  datatype Meta = Meta(device: Device, dtype: nat, shape: seq<nat>)

  /** A dictionary value: a tensor, or any other object, which travels with the metadata. */
  datatype Value = Tensor(meta: Meta, data: Payload) | Object(id: int)

  datatype Entry = Entry(key: string, value: Value)

  datatype MetaEntry = TensorMeta(key: string, meta: Meta) | ObjectMeta(key: string, id: int)

  /** The gather group's size, if there is one, and the caller's overrides. */
  datatype Config = Config(groupSize: Option<nat>, overrides: Option<map<string, bool>>) {
    ghost predicate Valid() {
      groupSize.Some? ==> groupSize.value > 0
    }

    function Size(): nat {
      if groupSize.None? then 1 else groupSize.value
    }
  }

  ghost predicate WellFormed(entries: seq<Entry>) {
    && (forall k | 0 <= k < |entries| :: entries[k].value.Tensor? ==> |entries[k].value.data| == Numel(entries[k].value.meta.shape))
    && (forall i, j | 0 <= i < j < |entries| :: entries[i].key != entries[j].key)
  }

  /** `_should_use_all_gather` */
  predicate UsesAllGather(cfg: Config, key: string, numel: nat)
    requires cfg.Valid()
  {
    if cfg.groupSize.None? then false
    else if cfg.overrides.Some? && key in cfg.overrides.value then cfg.overrides.value[key]
    else numel % cfg.groupSize.value == 0
  }

  predicate Splits(n: nat, size: nat)
    requires size > 0
  {
    n % size == 0
  }

  /** An override that asks for slices of a tensor that does not divide: its reshape raises. */
  predicate Unsliceable(cfg: Config, e: Entry)
    requires cfg.Valid()
  {
    && e.value.Tensor? && |e.value.data| > 0
    && UsesAllGather(cfg, e.key, |e.value.data|) && !Splits(|e.value.data|, cfg.Size())
  }

  function MetaOf(e: Entry): MetaEntry {
    match e.value
    case Tensor(meta, _) => TensorMeta(e.key, meta)
    case Object(id) => ObjectMeta(e.key, id)
  }

  function Split(entries: seq<Entry>): (metas: seq<MetaEntry>)
    ensures |metas| == |entries| && forall k | 0 <= k < |metas| :: metas[k] == MetaOf(entries[k])
  {
    seq(|entries|, k requires 0 <= k < |entries| => MetaOf(entries[k]))
  }

  // ---------------------------------------------------------------- slices

  /** Where rank `rank`'s slice of `n` elements begins. */
  function Cut(n: nat, size: nat, rank: nat): nat
    requires size > 0
  {
    rank * (n / size)
  }

  lemma CutNext(n: nat, size: nat, rank: nat)
    requires size > 0 && rank < size
    ensures Cut(n, size, rank) + n / size == Cut(n, size, rank + 1) <= n
  {
    var w := n / size;
    MulGe(size, rank + 1, w);
    assert (rank + 1) * w == rank * w + w;
    assert size * w <= n;
  }

  function Slice(data: Payload, size: nat, rank: nat): (s: Payload)
    requires size > 0 && rank < size
    ensures |s| == |data| / size
  {
    CutNext(|data|, size, rank);
    data[Cut(|data|, size, rank)..Cut(|data|, size, rank + 1)]
  }

  function Concat(parts: seq<Payload>): Payload {
    if parts == [] then [] else Concat(parts[..|parts| - 1]) + parts[|parts| - 1]
  }

  function Slices(data: Payload, size: nat, n: nat): (parts: seq<Payload>)
    requires size > 0 && n <= size
    ensures |parts| == n && forall r | 0 <= r < n :: parts[r] == Slice(data, size, r)
  {
    seq(n, r requires 0 <= r < n => Slice(data, size, r))
  }

  lemma {:induction false} FirstSlices(data: Payload, size: nat, n: nat)
    requires size > 0 && n <= size
    ensures Cut(|data|, size, n) <= |data| && Concat(Slices(data, size, n)) == data[..Cut(|data|, size, n)]
  {
    if n == 0 {
      assert Cut(|data|, size, 0) == 0;
    } else {
      FirstSlices(data, size, n - 1);
      CutNext(|data|, size, n - 1);
      hide Cut;
      assert Slices(data, size, n)[..n - 1] == Slices(data, size, n - 1);
    }
  }

  /** The slices of a tensor that divides, gathered in rank order, are the tensor. */
  lemma SlicesConcat(data: Payload, size: nat)
    requires size > 0 && |data| % size == 0
    ensures Concat(Slices(data, size, size)) == data
  {
    FirstSlices(data, size, size);
    assert Cut(|data|, size, size) == |data|;
  }

  // ---------------------------------------------------------------- what travels

  /** What rank `rank` of the group puts on the wire for one tensor. */
  function Sent(cfg: Config, e: Entry, rank: nat): Payload
    requires cfg.Valid() && rank < cfg.Size() && e.value.Tensor?
  {
    if UsesAllGather(cfg, e.key, |e.value.data|) then Slice(e.value.data, cfg.Size(), rank) else e.value.data
  }

  predicate Travels(e: Entry, channel: Device) {
    e.value.Tensor? && |e.value.data| > 0 && e.value.meta.device == channel
  }

  /** The message an entry puts on a channel, if any. */
  function Message(cfg: Config, e: Entry, rank: nat, channel: Device): seq<Payload>
    requires cfg.Valid() && rank < cfg.Size()
  {
    if Travels(e, channel) then [Sent(cfg, e, rank)] else []
  }

  /** The messages of one channel, in order; empty tensors send none. */
  function Wire(cfg: Config, entries: seq<Entry>, rank: nat, channel: Device): seq<Payload>
    requires cfg.Valid() && rank < cfg.Size()
  {
    if entries == [] then []
    else
      var last := entries[|entries| - 1];
      Wire(cfg, entries[..|entries| - 1], rank, channel) + Message(cfg, last, rank, channel)
  }

  lemma WireStep(cfg: Config, entries: seq<Entry>, k: nat, rank: nat, channel: Device)
    requires cfg.Valid() && rank < cfg.Size() && k < |entries|
    ensures Wire(cfg, entries[..k + 1], rank, channel) == Wire(cfg, entries[..k], rank, channel) + Message(cfg, entries[k], rank, channel)
  {
    assert entries[..k + 1][..k] == entries[..k];
  }

  /** `isend_tensor_dict`, or a raised reshape error. */
  method ISend(cfg: Config, entries: seq<Entry>, rank: nat)
    returns (ok: bool, metas: seq<MetaEntry>, cpu: seq<Payload>, device: seq<Payload>)
    requires cfg.Valid() && rank < cfg.Size()
    ensures metas == Split(entries)
    ensures ok <==> forall k | 0 <= k < |entries| :: !Unsliceable(cfg, entries[k])
    ensures ok ==> cpu == Wire(cfg, entries, rank, Cpu) && device == Wire(cfg, entries, rank, Cuda)
  {
    metas, cpu, device := Split(entries), [], [];
    assert forall channel :: Wire(cfg, entries[..0], rank, channel) == [];
    hide Numel, Slice, UsesAllGather, Wire, Split, Splits;
    for k := 0 to |entries|
      invariant cpu == Wire(cfg, entries[..k], rank, Cpu) && device == Wire(cfg, entries[..k], rank, Cuda)
      invariant forall j | 0 <= j < k :: !Unsliceable(cfg, entries[j])
    {
      var e := entries[k];
      WireStep(cfg, entries, k, rank, Cpu);
      WireStep(cfg, entries, k, rank, Cuda);
      if e.value.Tensor? && |e.value.data| > 0 {
        var data := e.value.data;
        if UsesAllGather(cfg, e.key, |data|) {
          if !Splits(|data|, cfg.Size()) {
            return false, metas, cpu, device;
          }
          data := Slice(data, cfg.Size(), rank);
        }
        assert data == Sent(cfg, e, rank);
        if e.value.meta.device.Cpu? {
          cpu := cpu + [data];
        } else {
          device := device + [data];
        }
      }
    }
    assert entries[..|entries|] == entries;
    ok := true;
  }

  // ---------------------------------------------------------------- what the receiver posts

  /** The size of the receive that a metadata entry posts on a channel, if it posts one. */
  predicate Posts(m: MetaEntry, channel: Device) {
    m.TensorMeta? && Numel(m.meta.shape) > 0 && m.meta.device == channel
  }

  function PostedSize(cfg: Config, m: MetaEntry): nat
    requires cfg.Valid() && m.TensorMeta?
  {
    var n := Numel(m.meta.shape);
    if UsesAllGather(cfg, m.key, n) && cfg.Size() > 0 then n / cfg.Size() else n
  }

  function Posted(cfg: Config, metas: seq<MetaEntry>, channel: Device): seq<nat>
    requires cfg.Valid()
  {
    if metas == [] then []
    else
      var last := metas[|metas| - 1];
      Posted(cfg, metas[..|metas| - 1], channel) + (if Posts(last, channel) then [PostedSize(cfg, last)] else [])
  }

  /** On each channel the sends and the receives match one for one, in order and in size. */
  lemma {:induction false} SendsMatchReceives(cfg: Config, entries: seq<Entry>, rank: nat, channel: Device)
    requires cfg.Valid() && rank < cfg.Size() && WellFormed(entries)
    ensures |Wire(cfg, entries, rank, channel)| == |Posted(cfg, Split(entries), channel)|
    ensures forall k | 0 <= k < |Wire(cfg, entries, rank, channel)| ::
              |Wire(cfg, entries, rank, channel)[k]| == Posted(cfg, Split(entries), channel)[k]
  {
    hide Numel;
    if entries != [] {
      var front := entries[..|entries| - 1];
      SendsMatchReceives(cfg, front, rank, channel);
      assert Split(entries)[..|entries| - 1] == Split(front);
      var last := entries[|entries| - 1];
    }
  }

  // ---------------------------------------------------------------- receiving

  /** A gather to run once the receives have completed. */
  datatype Gather = Gather(key: string, slice: Payload, shape: seq<nat>)

  /** The dictionary of the first `k` entries as the receives leave it: slices where a gather is due. */
  function Received(cfg: Config, e: Entry, rank: nat): Value
    requires cfg.Valid() && rank < cfg.Size()
  {
    if e.value.Object? || |e.value.data| == 0 || !UsesAllGather(cfg, e.key, |e.value.data|) then e.value
    else Tensor(e.value.meta.(shape := [|e.value.data| / cfg.Size()]), Slice(e.value.data, cfg.Size(), rank))
  }

  predicate Gathered(cfg: Config, e: Entry)
    requires cfg.Valid()
  {
    e.value.Tensor? && |e.value.data| > 0 && UsesAllGather(cfg, e.key, |e.value.data|)
  }

  function Gathers(cfg: Config, entries: seq<Entry>, rank: nat): seq<Gather>
    requires cfg.Valid() && rank < cfg.Size()
  {
    if entries == [] then []
    else
      var last := entries[|entries| - 1];
      Gathers(cfg, entries[..|entries| - 1], rank)
      + (if Gathered(cfg, last) then [GatherOf(cfg, last, rank)] else [])
  }

  function GatherCount(cfg: Config, entries: seq<Entry>): nat
    requires cfg.Valid()
  {
    if entries == [] then 0
    else GatherCount(cfg, entries[..|entries| - 1]) + (if Gathered(cfg, entries[|entries| - 1]) then 1 else 0)
  }

  function GatherOf(cfg: Config, e: Entry, rank: nat): Gather
    requires cfg.Valid() && rank < cfg.Size() && e.value.Tensor?
  {
    Gather(e.key, Slice(e.value.data, cfg.Size(), rank), e.value.meta.shape)
  }

  ghost predicate HasKey(entries: seq<Entry>, key: string) {
    exists k | 0 <= k < |entries| :: entries[k].key == key
  }

  /** The dictionary as the receives leave it. */
  ghost predicate HoldsReceived(dict: map<string, Value>, cfg: Config, entries: seq<Entry>, rank: nat)
    requires cfg.Valid() && rank < cfg.Size()
  {
    && (forall key | key in dict :: HasKey(entries, key))
    && (forall k | 0 <= k < |entries| :: entries[k].key in dict && dict[entries[k].key] == Received(cfg, entries[k], rank))
  }

  lemma {:induction false} WirePrefix(cfg: Config, entries: seq<Entry>, k: nat, rank: nat, channel: Device)
    requires cfg.Valid() && rank < cfg.Size() && k <= |entries|
    ensures Wire(cfg, entries[..k], rank, channel) <= Wire(cfg, entries, rank, channel)
  {
    if k == |entries| {
      assert entries[..k] == entries;
    } else {
      WirePrefix(cfg, entries[..|entries| - 1], k, rank, channel);
      assert entries[..|entries| - 1][..k] == entries[..k];
    }
  }

  /** The message for entry `k` comes after exactly those of the entries before it. */
  lemma NextMessage(cfg: Config, entries: seq<Entry>, k: nat, rank: nat, channel: Device)
    requires cfg.Valid() && rank < cfg.Size() && k < |entries| && Travels(entries[k], channel)
    ensures |Wire(cfg, entries[..k], rank, channel)| < |Wire(cfg, entries, rank, channel)|
    ensures Wire(cfg, entries, rank, channel)[|Wire(cfg, entries[..k], rank, channel)|] == Sent(cfg, entries[k], rank)
  {
    WirePrefix(cfg, entries, k + 1, rank, channel);
    assert entries[..k + 1][..k] == entries[..k];
  }

  /**
   The message of a tensor with `n` elements on rank `rank` of a gather group of `size` ranks: the whole
   tensor without a gather group or when `size` does not divide `n`, else the rank's n / size elements.
   An override for its key decides in the place of divisibility.
   */
  lemma SentMessage(cfg: Config, entries: seq<Entry>, k: nat, rank: nat)
    requires cfg.Valid() && k < |entries| && entries[k].value.Tensor? && |entries[k].value.data| > 0
    requires if cfg.groupSize.None? then rank == 0 else rank < cfg.groupSize.value
    ensures rank < cfg.Size()
    ensures var e, wire := entries[k], Wire(cfg, entries, rank, entries[k].value.meta.device);
            var data, at := e.value.data, |Wire(cfg, entries[..k], rank, e.value.meta.device)|;
            && at < |wire|
            && (cfg.groupSize.None? ==> wire[at] == data)
            && (cfg.groupSize.Some? && (cfg.overrides.None? || e.key !in cfg.overrides.value) ==>
                  if |data| % cfg.groupSize.value == 0 then IsPart(data, cfg.groupSize.value, rank, wire[at]) else wire[at] == data)
            && (cfg.groupSize.Some? && cfg.overrides.Some? && e.key in cfg.overrides.value ==>
                  if cfg.overrides.value[e.key] then IsPart(data, cfg.groupSize.value, rank, wire[at]) else wire[at] == data)
  {
    NextMessage(cfg, entries, k, rank, entries[k].value.meta.device);
    var n := |entries[k].value.data|;
    CutNext(n, cfg.Size(), rank);
    assert (rank + 1) * (n / cfg.Size()) == rank * (n / cfg.Size()) + n / cfg.Size();
    hide Wire;
  }

  /** The `rank`-th of `size` equal parts of a tensor. */
  ghost predicate IsPart(data: Payload, size: nat, rank: nat, part: Payload)
    requires size > 0
  {
    && 0 <= rank * (|data| / size) <= (rank + 1) * (|data| / size) <= |data|
    && part == data[rank * (|data| / size)..(rank + 1) * (|data| / size)]
    && |part| == |data| / size
  }

  lemma StepTo(cfg: Config, entries: seq<Entry>, k: nat, rank: nat)
    requires cfg.Valid() && rank < cfg.Size() && k < |entries|
    ensures Wire(cfg, entries[..k + 1], rank, Cpu) == Wire(cfg, entries[..k], rank, Cpu) + Message(cfg, entries[k], rank, Cpu)
    ensures Wire(cfg, entries[..k + 1], rank, Cuda) == Wire(cfg, entries[..k], rank, Cuda) + Message(cfg, entries[k], rank, Cuda)
    ensures Gathers(cfg, entries[..k + 1], rank) == Gathers(cfg, entries[..k], rank)
         + (if Gathered(cfg, entries[k]) then [GatherOf(cfg, entries[k], rank)] else [])
    ensures GatherCount(cfg, entries[..k + 1]) == GatherCount(cfg, entries[..k]) + (if Gathered(cfg, entries[k]) then 1 else 0)
  {
    assert entries[..k + 1][..k] == entries[..k];
  }

  /** The value a tensor's receive leaves in the dictionary, given the message it got. */
  function Placed(cfg: Config, key: string, meta: Meta, message: Payload): Value
    requires cfg.Valid()
  {
    var n := Numel(meta.shape);
    if n > 0 && UsesAllGather(cfg, key, n) then Tensor(meta.(shape := [n / cfg.Size()]), message) else Tensor(meta, message)
  }

  lemma PlacedIsReceived(cfg: Config, e: Entry, rank: nat)
    requires cfg.Valid() && rank < cfg.Size() && e.value.Tensor? && |e.value.data| == Numel(e.value.meta.shape)
    ensures Placed(cfg, e.key, e.value.meta, if |e.value.data| == 0 then [] else Sent(cfg, e, rank)) == Received(cfg, e, rank)
  {
    hide Numel, Slice;
    if |e.value.data| == 0 {
      assert e.value.data == [];
    }
  }

  /**
   `irecv_tensor_dict` after every handle has been waited for. The `n`-th receive posted on a channel
   gets the `n`-th message sent on it.
   */
  method IRecv(cfg: Config, metas: seq<MetaEntry>, rank: nat, cpu: seq<Payload>, device: seq<Payload>, ghost entries: seq<Entry>)
    returns (dict: map<string, Value>, gathers: seq<Gather>)
    requires cfg.Valid() && rank < cfg.Size() && WellFormed(entries) && metas == Split(entries)
    requires cpu == Wire(cfg, entries, rank, Cpu) && device == Wire(cfg, entries, rank, Cuda)
    ensures HoldsReceived(dict, cfg, entries, rank)
    ensures gathers == Gathers(cfg, entries, rank)
  {
    hide Numel, Slice, Wire, Gathers, UsesAllGather, Received, Sent;
    dict, gathers := map[], [];
    var nextCpu, nextDevice := 0, 0;
    assert Wire(cfg, entries[..0], rank, Cpu) == [] && Wire(cfg, entries[..0], rank, Cuda) == [] && Gathers(cfg, entries[..0], rank) == [] by {
      NothingYet(cfg, entries, rank);
    }
    for k := 0 to |metas|
      invariant nextCpu == |Wire(cfg, entries[..k], rank, Cpu)| && nextDevice == |Wire(cfg, entries[..k], rank, Cuda)|
      invariant HoldsReceived(dict, cfg, entries[..k], rank)
      invariant gathers == Gathers(cfg, entries[..k], rank)
    {
      ghost var e := entries[k];
      StepTo(cfg, entries, k, rank);
      ghost var before := dict;
      match metas[k] {
        case ObjectMeta(key, id) =>
          dict := dict[key := Object(id)];
          ReceivedObject(cfg, e, rank);
        case TensorMeta(key, meta) =>
          PlacedIsReceived(cfg, e, rank);
          var n := Numel(meta.shape);
          var message := [];
          if n > 0 {
            if meta.device.Cpu? {
              NextMessage(cfg, entries, k, rank, Cpu);
              message := cpu[nextCpu];
              nextCpu := nextCpu + 1;
            } else {
              NextMessage(cfg, entries, k, rank, Cuda);
              message := device[nextDevice];
              nextDevice := nextDevice + 1;
            }
            if UsesAllGather(cfg, key, n) {
              gathers := gathers + [Gather(key, message, meta.shape)];
              SentSlice(cfg, e, rank);
            }
          }
          dict := dict[key := Placed(cfg, key, meta, message)];
      }
      assert dict == before[e.key := Received(cfg, e, rank)];
      ExtendHolds(before, cfg, entries, k, rank);
    }
    assert entries[..|entries|] == entries;
  }

  lemma NothingYet(cfg: Config, entries: seq<Entry>, rank: nat)
    requires cfg.Valid() && rank < cfg.Size()
    ensures Wire(cfg, entries[..0], rank, Cpu) == [] && Wire(cfg, entries[..0], rank, Cuda) == [] && Gathers(cfg, entries[..0], rank) == []
  {
  }

  lemma ReceivedObject(cfg: Config, e: Entry, rank: nat)
    requires cfg.Valid() && rank < cfg.Size() && e.value.Object?
    ensures Received(cfg, e, rank) == e.value
  {
  }

  lemma SentSlice(cfg: Config, e: Entry, rank: nat)
    requires cfg.Valid() && rank < cfg.Size() && e.value.Tensor? && UsesAllGather(cfg, e.key, |e.value.data|)
    ensures Sent(cfg, e, rank) == Slice(e.value.data, cfg.Size(), rank)
  {
  }

  lemma ExtendHolds(dict: map<string, Value>, cfg: Config, entries: seq<Entry>, k: nat, rank: nat)
    requires cfg.Valid() && rank < cfg.Size() && k < |entries| && WellFormed(entries)
    requires HoldsReceived(dict, cfg, entries[..k], rank)
    ensures HoldsReceived(dict[entries[k].key := Received(cfg, entries[k], rank)], cfg, entries[..k + 1], rank)
  {
    hide Numel, Received;
    var d := dict[entries[k].key := Received(cfg, entries[k], rank)];
    forall key | key in d
      ensures HasKey(entries[..k + 1], key)
    {
      if key == entries[k].key {
        assert entries[..k + 1][k].key == key;
      } else {
        var j :| 0 <= j < k && entries[..k][j].key == key;
        assert entries[..k + 1][j].key == key;
      }
    }
    forall j | 0 <= j < k
      ensures entries[j].key in dict && dict[entries[j].key] == Received(cfg, entries[j], rank)
    {
      assert entries[..k][j] == entries[j];
    }
  }

  // ---------------------------------------------------------------- the whole exchange

  /** The dictionary a program would have had by passing the entries directly. */
  ghost predicate IsDict(dict: map<string, Value>, entries: seq<Entry>) {
    && (forall key | key in dict :: HasKey(entries, key))
    && (forall k | 0 <= k < |entries| :: entries[k].key in dict && dict[entries[k].key] == entries[k].value)
  }

  /** Ranks hold the same keys and metadata, and the same data where slices are gathered. */
  ghost predicate Replicated(cfg: Config, senders: seq<seq<Entry>>)
    requires cfg.Valid()
  {
    && |senders| == cfg.Size()
    && (forall r | 0 <= r < |senders| :: WellFormed(senders[r]) && |senders[r]| == |senders[0]|)
    && (forall r, k | 0 <= r < |senders| && 0 <= k < |senders[0]| :: MetaOf(senders[r][k]) == MetaOf(senders[0][k]))
    && (forall r, k | 0 <= r < |senders| && 0 <= k < |senders[0]| ::
          Gathered(cfg, senders[0][k]) ==> senders[r][k] == senders[0][k])
  }

  lemma {:induction false} CountIsLength(cfg: Config, entries: seq<Entry>, rank: nat)
    requires cfg.Valid() && rank < cfg.Size()
    ensures |Gathers(cfg, entries, rank)| == GatherCount(cfg, entries)
  {
    if entries != [] {
      CountIsLength(cfg, entries[..|entries| - 1], rank);
    }
  }

  lemma {:induction false} CountMonotone(cfg: Config, entries: seq<Entry>, j: nat, k: nat)
    requires cfg.Valid() && j <= k <= |entries|
    ensures GatherCount(cfg, entries[..j]) <= GatherCount(cfg, entries[..k])
  {
    if j < k {
      CountMonotone(cfg, entries, j, k - 1);
      CountStep(cfg, entries, k - 1);
    }
  }

  /** The entry behind the `j`-th gather, and where an entry's gather stands in the list. */
  lemma {:induction false} EntryOfGather(cfg: Config, entries: seq<Entry>, j: nat) returns (k: nat)
    requires cfg.Valid() && j < GatherCount(cfg, entries)
    ensures k < |entries| && Gathered(cfg, entries[k]) && GatherCount(cfg, entries[..k]) == j
  {
    var last := |entries| - 1;
    if j < GatherCount(cfg, entries[..last]) {
      k := EntryOfGather(cfg, entries[..last], j);
      assert entries[..last][..k] == entries[..k];
    } else {
      k := last;
    }
  }

  lemma {:induction false} GatherAt(cfg: Config, entries: seq<Entry>, k: nat, rank: nat)
    requires cfg.Valid() && rank < cfg.Size() && k < |entries| && Gathered(cfg, entries[k])
    ensures GatherCount(cfg, entries[..k]) < |Gathers(cfg, entries, rank)|
    ensures Gathers(cfg, entries, rank)[GatherCount(cfg, entries[..k])] == GatherOf(cfg, entries[k], rank)
  {
    var last := |entries| - 1;
    CountIsLength(cfg, entries[..last], rank);
    if k < last {
      GatherAt(cfg, entries[..last], k, rank);
      assert entries[..last][..k] == entries[..k];
    }
  }

  lemma {:induction false} SameCounts(cfg: Config, a: seq<Entry>, b: seq<Entry>)
    requires cfg.Valid() && |a| == |b| && WellFormed(a) && WellFormed(b)
    requires forall k | 0 <= k < |a| :: MetaOf(a[k]) == MetaOf(b[k])
    ensures GatherCount(cfg, a) == GatherCount(cfg, b)
  {
    hide Numel;
    if a != [] {
      SameCounts(cfg, a[..|a| - 1], b[..|b| - 1]);
      assert MetaOf(a[|a| - 1]) == MetaOf(b[|a| - 1]);
    }
  }

  /** The all-gather behind the `j`-th postprocess: every rank's captured slice, in rank order. */
  function GatheredParts(all: seq<seq<Gather>>, j: nat): (parts: seq<Payload>)
    requires forall q | 0 <= q < |all| :: j < |all[q]|
    ensures |parts| == |all|
  {
    seq(|all|, q requires 0 <= q < |all| => all[q][j].slice)
  }

  ghost predicate AllGathers(cfg: Config, senders: seq<seq<Entry>>, all: seq<seq<Gather>>)
    requires cfg.Valid()
  {
    |all| == |senders| == cfg.Size() && forall q | 0 <= q < |all| :: all[q] == Gathers(cfg, senders[q], q)
  }

  /** Every rank's `j`-th gather is for the same entry, and together they hold its whole tensor. */
  lemma GatherRestores(cfg: Config, senders: seq<seq<Entry>>, all: seq<seq<Gather>>, rank: nat, k: nat)
    requires cfg.Valid() && Replicated(cfg, senders) && AllGathers(cfg, senders, all)
    requires rank < |senders| && k < |senders[rank]| && Gathered(cfg, senders[rank][k])
    requires !Unsliceable(cfg, senders[rank][k])
    ensures var j := GatherCount(cfg, senders[rank][..k]);
            && (forall q | 0 <= q < |all| :: j < |all[q]|)
            && Concat(GatheredParts(all, j)) == senders[rank][k].value.data
  {
    hide Numel, Slice;
    var j := GatherCount(cfg, senders[rank][..k]);
    var e := senders[rank][k];
    var size := cfg.Size();
    forall q | 0 <= q < |all|
      ensures j < |all[q]| && all[q][j].slice == Slice(e.value.data, size, q)
    {
      assert MetaOf(senders[q][k]) == MetaOf(senders[0][k]) == MetaOf(senders[rank][k]);
      assert Gathered(cfg, senders[0][k]);
      assert senders[q][k] == e;
      forall i | 0 <= i < k
        ensures MetaOf(senders[q][..k][i]) == MetaOf(senders[rank][..k][i])
      {
        assert MetaOf(senders[q][i]) == MetaOf(senders[0][i]) == MetaOf(senders[rank][i]);
      }
      SameCounts(cfg, senders[q][..k], senders[rank][..k]);
      GatherAt(cfg, senders[q], k, q);
    }
    assert GatheredParts(all, j) == Slices(e.value.data, size, size);
    SlicesConcat(e.value.data, size);
  }

  /** Runs one rank's postprocess functions, in order. */
  method Postprocess(cfg: Config, received: map<string, Value>, all: seq<seq<Gather>>, rank: nat, ghost senders: seq<seq<Entry>>)
    returns (dict: map<string, Value>)
    requires cfg.Valid() && Replicated(cfg, senders) && AllGathers(cfg, senders, all) && rank < cfg.Size()
    requires forall k | 0 <= k < |senders[rank]| :: !Unsliceable(cfg, senders[rank][k])
    requires HoldsReceived(received, cfg, senders[rank], rank)
    ensures IsDict(dict, senders[rank])
  {
    hide Numel, Slice, Concat, Gathers, GatherCount, UsesAllGather;
    ghost var entries := senders[rank];
    dict := received;
    CountIsLength(cfg, entries, rank);
    for j := 0 to |all[rank]|
      invariant forall key | key in dict :: HasKey(entries, key)
      invariant forall k | 0 <= k < |entries| :: entries[k].key in dict && dict[entries[k].key] ==
                  if Gathered(cfg, entries[k]) && GatherCount(cfg, entries[..k]) < j then entries[k].value else Received(cfg, entries[k], rank)
    {
      ghost var k := EntryOfGather(cfg, entries, j);
      GatherRestores(cfg, senders, all, rank, k);
      GatherAt(cfg, entries, k, rank);
      var g := all[rank][j];
      var full := Concat(GatheredParts(all, j));
      ghost var before := dict;
      dict := dict[g.key := Tensor(dict[g.key].meta.(shape := g.shape), full)];
      assert dict == before[entries[k].key := entries[k].value];
      forall i | 0 <= i < |entries| && i != k && Gathered(cfg, entries[i])
        ensures GatherCount(cfg, entries[..i]) != j
      {
        DifferentGathers(cfg, entries, i, k);
      }
    }
    forall k | 0 <= k < |entries| && Gathered(cfg, entries[k])
      ensures GatherCount(cfg, entries[..k]) < |all[rank]|
    {
      GatherAt(cfg, entries, k, rank);
    }
  }

  lemma DifferentGathers(cfg: Config, entries: seq<Entry>, i: nat, k: nat)
    requires cfg.Valid() && i < |entries| && k < |entries| && i != k
    requires Gathered(cfg, entries[i]) && Gathered(cfg, entries[k])
    ensures GatherCount(cfg, entries[..i]) != GatherCount(cfg, entries[..k])
  {
    var a, b := if i < k then i else k, if i < k then k else i;
    CountStep(cfg, entries, a);
    CountMonotone(cfg, entries, a + 1, b);
  }

  lemma CountStep(cfg: Config, entries: seq<Entry>, k: nat)
    requires cfg.Valid() && k < |entries|
    ensures GatherCount(cfg, entries[..k + 1]) == GatherCount(cfg, entries[..k]) + (if Gathered(cfg, entries[k]) then 1 else 0)
  {
    assert entries[..k + 1][..k] == entries[..k];
  }

  /** An override asks for slices of a tensor whose elements the gather group does not divide. */
  predicate AskedInVain(cfg: Config, e: Entry)
    requires cfg.Valid()
  {
    && cfg.groupSize.Some? && cfg.overrides.Some? && e.key in cfg.overrides.value && cfg.overrides.value[e.key]
    && e.value.Tensor? && |e.value.data| % cfg.groupSize.value != 0
  }

  lemma OnlyInVain(cfg: Config, e: Entry)
    requires cfg.Valid()
    ensures Unsliceable(cfg, e) <==> AskedInVain(cfg, e)
  {
  }

  /**
   Every rank of one stage sends its dictionary to its peer in the next; the peers wait and then run
   their gathers. It fails exactly when an override asks to slice a tensor that does not divide;
   otherwise every peer ends with its sender's dictionary.
   */
  method Exchange(cfg: Config, senders: seq<seq<Entry>>) returns (ok: bool, dicts: seq<map<string, Value>>)
    requires cfg.Valid() && Replicated(cfg, senders)
    ensures ok <==> forall k | 0 <= k < |senders[0]| :: !AskedInVain(cfg, senders[0][k])
    ensures cfg.overrides.None? ==> ok
    ensures ok ==> |dicts| == |senders| && forall r | 0 <= r < |senders| :: IsDict(dicts[r], senders[r])
  {
    hide Numel, Slice, Gathers, UsesAllGather, Wire, HoldsReceived, IsDict, Unsliceable, AskedInVain;
    forall k | 0 <= k < |senders[0]|
      ensures Unsliceable(cfg, senders[0][k]) <==> AskedInVain(cfg, senders[0][k])
      ensures cfg.overrides.None? ==> !AskedInVain(cfg, senders[0][k])
    {
      OnlyInVain(cfg, senders[0][k]);
      NoOverride(cfg, senders[0][k]);
    }
    var received: seq<map<string, Value>>, all: seq<seq<Gather>> := [], [];
    for r := 0 to |senders|
      invariant |received| == |all| == r
      invariant r > 0 ==> forall k | 0 <= k < |senders[0]| :: !Unsliceable(cfg, senders[0][k])
      invariant forall q | 0 <= q < r :: HoldsReceived(received[q], cfg, senders[q], q)
      invariant forall q | 0 <= q < r :: all[q] == Gathers(cfg, senders[q], q)
    {
      SameFate(cfg, senders, r);
      var sent, metas, cpu, device := ISend(cfg, senders[r], r);
      if !sent {
        return false, [];
      }
      var dict, gathers := IRecv(cfg, metas, r, cpu, device, senders[r]);
      received, all := received + [dict], all + [gathers];
    }
    dicts := [];
    for r := 0 to |senders|
      invariant |dicts| == r
      invariant forall q | 0 <= q < r :: IsDict(dicts[q], senders[q])
    {
      SameFate(cfg, senders, r);
      var dict := Postprocess(cfg, received[r], all, r, senders);
      dicts := dicts + [dict];
    }
    ok := true;
  }

  lemma NoOverride(cfg: Config, e: Entry)
    requires cfg.Valid()
    ensures cfg.overrides.None? ==> !AskedInVain(cfg, e)
  {
  }

  lemma SameFate(cfg: Config, senders: seq<seq<Entry>>, r: nat)
    requires cfg.Valid() && Replicated(cfg, senders) && r < |senders|
    ensures |senders[r]| == |senders[0]|
    ensures forall k | 0 <= k < |senders[0]| :: Unsliceable(cfg, senders[r][k]) <==> Unsliceable(cfg, senders[0][k])
  {
    hide Numel;
    forall k | 0 <= k < |senders[0]|
      ensures Unsliceable(cfg, senders[r][k]) <==> Unsliceable(cfg, senders[0][k])
    {
      assert MetaOf(senders[r][k]) == MetaOf(senders[0][k]);
    }
  }
}
