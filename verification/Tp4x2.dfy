/**
 Two four-way expert groups inside eight-way tensor parallelism: every rank must still end with the
 full shared-expert sum plus the full routed sum.
 */
module Tp4x2 {
  import opened Options
  import opened Sums

  datatype Switches = Switches(routed: bool, shared: bool, fuseReduce: bool)

  predicate RoutedEnabled(s: Switches, tpSize: nat) {
    s.routed && tpSize == 8
  }

  predicate SharedEnabled(s: Switches, tpSize: nat) {
    RoutedEnabled(s, tpSize) && s.shared
  }

  predicate FuseEnabled(s: Switches, tpSize: nat) {
    SharedEnabled(s, tpSize) && s.fuseReduce
  }

  // ---------------------------------------------------------------- building a block on one rank

  /** The rows of the intermediate dimension that a rank holds. */
  datatype Slice = Slice(lo: nat, hi: nat)

  function SliceOf(rank: nat, size: nat, n: nat): Slice
    requires size > 0
  {
    Slice(rank * (n / size), rank * (n / size) + n / size)
  }

  /** One rank's block, and the process state it was built from. */
  datatype Block = Block(tpSize: nat, tp4x2: bool, tp4x2Shared: bool, fuseReduce: bool, shared: Option<Slice>, routed: Slice)

  /** What a rank builds when every size divides. */
  function BlockOf(s: Switches, tpSize: nat, rank: nat, sharedSize: nat, moeSize: nat): Block
    requires tpSize > 0
  {
    var sharedTp, sharedRank := if SharedEnabled(s, tpSize) then 4 else tpSize, if SharedEnabled(s, tpSize) then rank % 4 else rank;
    var routedTp, routedRank := if RoutedEnabled(s, tpSize) then 4 else tpSize, if RoutedEnabled(s, tpSize) then rank % 4 else rank;
    Block(tpSize, RoutedEnabled(s, tpSize), SharedEnabled(s, tpSize), FuseEnabled(s, tpSize),
          if sharedSize > 0 then Some(SliceOf(sharedRank, sharedTp, sharedSize)) else None,
          SliceOf(routedRank, routedTp, moeSize))
  }

  /** Which of the block's modes are on: only with eight ranks, and each only on top of the one before. */
  ghost predicate HasModes(block: Block, s: Switches) {
    && block.tp4x2 == (s.routed && block.tpSize == 8)
    && block.tp4x2Shared == (s.routed && s.shared && block.tpSize == 8)
    && block.fuseReduce == (s.routed && s.shared && s.fuseReduce && block.tpSize == 8)
  }

  /** The `rank % parts`-th of `parts` equal slices of `size` rows. */
  ghost predicate HasRows(slice: Slice, parts: nat, rank: nat, size: nat) {
    && parts > 0 && size % parts == 0
    && slice.lo == rank % parts * (size / parts) && slice.hi == slice.lo + size / parts
  }

  lemma BlockHas(s: Switches, tpSize: nat, rank: nat, sharedSize: nat, moeSize: nat)
    requires rank < tpSize && Divides(s, tpSize, sharedSize, moeSize)
    ensures var block := BlockOf(s, tpSize, rank, sharedSize, moeSize);
            && HasModes(block, s)
            && HasRows(block.routed, if s.routed && tpSize == 8 then 4 else tpSize, rank, moeSize)
            && (sharedSize > 0 ==>
                  HasRows(block.shared.value, if s.routed && s.shared && tpSize == 8 then 4 else tpSize, rank, sharedSize))
  {
    hide SliceOf, HasRows;
    SliceHas(RoutedEnabled(s, tpSize), tpSize, rank, moeSize);
    SliceHas(SharedEnabled(s, tpSize), tpSize, rank, sharedSize);
  }

  lemma SliceHas(four: bool, tpSize: nat, rank: nat, size: nat)
    requires rank < tpSize && size % (if four then 4 else tpSize) == 0
    ensures HasRows(SliceOf(if four then rank % 4 else rank, if four then 4 else tpSize, size), if four then 4 else tpSize, rank, size)
  {
    if !four {
      assert rank % tpSize == rank;
    }
  }

  predicate Divides(s: Switches, tpSize: nat, sharedSize: nat, moeSize: nat)
    requires tpSize > 0
  {
    && sharedSize % (if SharedEnabled(s, tpSize) then 4 else tpSize) == 0
    && moeSize % (if RoutedEnabled(s, tpSize) then 4 else tpSize) == 0
  }

  const GROUPS: seq<seq<nat>> := [[0, 1, 2, 3], [4, 5, 6, 7]]

  /** The process globals a block's construction goes through: the linear layers' view of the group, and the 4x2 group. */
  class Process {
    const globalRank: nat
    const tpRank: nat
    const tpSize: nat
    const initialized: bool
    var linearWorldSize: nat
    var linearRank: nat
    var group: Option<seq<nat>>

    ghost predicate Valid()
      reads this
    {
      && tpSize > 0 && tpRank < tpSize
      && linearWorldSize == tpSize && linearRank == tpRank
      && (group.Some? ==> OwnGroup(globalRank, group.value))
    }

    constructor (globalRank: nat, tpRank: nat, tpSize: nat, initialized: bool)
      requires tpRank < tpSize
      ensures Valid() && group.None?
      ensures this.globalRank == globalRank && this.tpRank == tpRank && this.tpSize == tpSize && this.initialized == initialized
    {
      this.globalRank, this.tpRank, this.tpSize, this.initialized := globalRank, tpRank, tpSize, initialized;
      linearWorldSize, linearRank, group := tpSize, tpRank, None;
    }

    /** A parallel MLP reads the group's size and the rank from the linear layers' module. */
    method BuildMlp(size: nat) returns (slice: Option<Slice>)
      requires linearWorldSize > 0
      ensures slice == if size % linearWorldSize == 0 then Some(SliceOf(linearRank, linearWorldSize, size)) else None
    {
      if size % linearWorldSize != 0 {
        return None;
      }
      slice := Some(SliceOf(linearRank, linearWorldSize, size));
    }

    /** The linear context: inside it the layers see four ranks; it is undone even if the build fails. */
    method BuildShared(enabled: bool, size: nat) returns (slice: Option<Slice>)
      requires Valid()
      modifies this`linearWorldSize, this`linearRank
      ensures Valid()
      ensures var tp, rank := if enabled then 4 else tpSize, if enabled then tpRank % 4 else tpRank;
              slice == if size % tp == 0 then Some(SliceOf(rank, tp, size)) else None
    {
      if !enabled {
        slice := BuildMlp(size);
        return;
      }
      var oldWorldSize, oldRank := linearWorldSize, linearRank;
      linearWorldSize, linearRank := 4, tpRank % 4;
      slice := BuildMlp(size);
      linearWorldSize, linearRank := oldWorldSize, oldRank;
    }

    /** Creates the group once; a rank outside both rows of the list finds none and the build fails. */
    method InitGroup() returns (ok: bool)
      requires Valid()
      modifies this`group
      ensures Valid()
      ensures ok <==> (!initialized || old(group).Some? || globalRank < 8)
      ensures ok && initialized ==> group.Some?
      ensures old(group).Some? || !initialized || !ok ==> group == old(group)
    {
      if !initialized || group.Some? {
        return true;
      }
      var mine: Option<seq<nat>> := None;
      for g := 0 to 2
        invariant mine.Some? <==> globalRank < 4 * g
        invariant mine.Some? ==> OwnGroup(globalRank, mine.value)
      {
        if globalRank in GROUPS[g] {
          mine := Some(GROUPS[g]);
        }
      }
      if mine.None? {
        return false;
      }
      group := mine;
      ok := true;
    }

    /** `Qwen3NextSparseMoeBlock.__init__`: which slices this rank loads, or a failed assertion. */
    method Build(s: Switches, sharedSize: nat, moeSize: nat) returns (block: Option<Block>)
      requires Valid()
      modifies this
      ensures Valid()
      ensures block.Some? <==> Divides(s, tpSize, sharedSize, moeSize)
                               && (RoutedEnabled(s, tpSize) && initialized && old(group).None? ==> globalRank < 8)
      ensures block.Some? ==> block.value == BlockOf(s, tpSize, tpRank, sharedSize, moeSize)
      ensures block.Some? ==> block.value.tpSize == tpSize && HasModes(block.value, s)
      ensures block.Some? ==> HasRows(block.value.routed, if s.routed && tpSize == 8 then 4 else tpSize, tpRank, moeSize)
      ensures block.Some? ==> (block.value.shared.Some? <==> sharedSize > 0)
      ensures block.Some? && sharedSize > 0 ==>
        HasRows(block.value.shared.value, if s.routed && s.shared && tpSize == 8 then 4 else tpSize, tpRank, sharedSize)
      ensures block.Some? && RoutedEnabled(s, tpSize) && initialized ==> group.Some?
    {
      var shared: Option<Slice> := None;
      if sharedSize > 0 {
        shared := BuildShared(SharedEnabled(s, tpSize), sharedSize);
        if shared.None? {
          return None;
        }
      }
      var routedTp := if RoutedEnabled(s, tpSize) then 4 else tpSize;
      if moeSize % routedTp != 0 {
        return None;
      }
      if RoutedEnabled(s, tpSize) {
        var ok := InitGroup();
        if !ok {
          return None;
        }
      }
      var routed := SliceOf(if RoutedEnabled(s, tpSize) then tpRank % 4 else tpRank, routedTp, moeSize);
      BlockHas(s, tpSize, tpRank, sharedSize, moeSize);
      hide HasRows;
      block := Some(Block(tpSize, RoutedEnabled(s, tpSize), SharedEnabled(s, tpSize), FuseEnabled(s, tpSize), shared, routed));
    }
  }

  /** A rank's group is its row of the list: the four ranks from 4 * (rank / 4). */
  ghost predicate OwnGroup(rank: nat, group: seq<nat>) {
    rank < 8 && group == GROUPS[rank / 4]
  }

  // ---------------------------------------------------------------- running the block on all ranks

  /** One output element's sum over a slice of the intermediate dimension. */
  function Partial(term: int -> real, slice: Slice): real {
    Sum(term, slice.lo, slice.hi)
  }

  function At(xs: seq<real>): int -> real {
    r => if 0 <= r < |xs| then xs[r] else 0.0
  }

  /** The reduction over a list of ranks. */
  function GroupSum(xs: seq<real>, ranks: seq<nat>): real {
    if ranks == [] then 0.0 else GroupSum(xs, ranks[..|ranks| - 1]) + At(xs)(ranks[|ranks| - 1])
  }

  function AllReduce(xs: seq<real>): (ys: seq<real>)
    ensures |ys| == |xs|
  {
    seq(|xs|, _ => Sum(At(xs), 0, |xs|))
  }

  function GroupAllReduce(xs: seq<real>, groups: seq<Option<seq<nat>>>): (ys: seq<real>)
    requires |groups| == |xs|
    ensures |ys| == |xs|
  {
    seq(|xs|, r requires 0 <= r < |xs| => if groups[r].None? then xs[r] else GroupSum(xs, groups[r].value))
  }

  function Plus(xs: seq<real>, ys: seq<real>): (zs: seq<real>)
    requires |xs| == |ys|
    ensures |zs| == |xs|
  {
    seq(|xs|, r requires 0 <= r < |xs| => xs[r] + ys[r])
  }

  /** The ranks' slices add up to the whole dimension. */
  lemma ShardsAddUp(term: int -> real, part: int -> real, base: int, size: nat, n: nat)
    requires size > 0 && n % size == 0
    requires forall c: nat | c < size :: part(base + c) == Partial(term, SliceOf(c, size, n))
    ensures Sum(part, base, base + size) == Sum(term, 0, n)
  {
    var mine := c => part(base + c);
    SumShift(part, mine, base, 0, size);
    forall c | 0 <= c < size
      ensures mine(c) == Sum(term, c * (n / size), c * (n / size) + n / size)
    {
      assert mine(c) == Partial(term, SliceOf(c, size, n));
    }
    SumBlocks(term, mine, n / size, size);
    assert size * (n / size) == n;
  }

  lemma {:induction false} RunSum(xs: seq<real>, ranks: seq<nat>, base: nat)
    requires forall k | 0 <= k < |ranks| :: ranks[k] == base + k
    ensures GroupSum(xs, ranks) == Sum(At(xs), base, base + |ranks|)
  {
    if ranks != [] {
      RunSum(xs, ranks[..|ranks| - 1], base);
    }
  }

  lemma RowSum(xs: seq<real>, rank: nat)
    requires rank < 8
    ensures GroupSum(xs, GROUPS[rank / 4]) == Sum(At(xs), rank / 4 * 4, rank / 4 * 4 + 4)
  {
    var row: seq<nat> := GROUPS[rank / 4];
    assert row == if rank < 4 then [0, 1, 2, 3] else [4, 5, 6, 7];
    RunSum(xs, row, rank / 4 * 4);
  }

  /** Four-way slices held by both groups: the group reduction is the full sum on every rank. */
  lemma GroupReduceIsFull(term: int -> real, n: nat, xs: seq<real>, groups: seq<Option<seq<nat>>>)
    requires |xs| == |groups| == 8 && n % 4 == 0
    requires forall r | 0 <= r < 8 :: xs[r] == Partial(term, SliceOf(r % 4, 4, n))
    requires forall r | 0 <= r < 8 :: groups[r].Some? && OwnGroup(r, groups[r].value)
    ensures forall r | 0 <= r < 8 :: GroupAllReduce(xs, groups)[r] == Sum(term, 0, n)
  {
    hide Sum, Partial, SliceOf, GroupSum;
    forall r | 0 <= r < 8
      ensures GroupAllReduce(xs, groups)[r] == Sum(term, 0, n)
    {
      RowSum(xs, r);
      RowSlices(term, n, xs, r / 4);
      ShardsAddUp(term, At(xs), r / 4 * 4, 4, n);
    }
  }

  lemma RowSlices(term: int -> real, n: nat, xs: seq<real>, row: nat)
    requires |xs| == 8 && row < 2
    requires forall r | 0 <= r < 8 :: xs[r] == Partial(term, SliceOf(r % 4, 4, n))
    ensures forall c: nat | c < 4 :: At(xs)(row * 4 + c) == Partial(term, SliceOf(c, 4, n))
  {
    hide Partial, SliceOf;
    forall c: nat | c < 4
      ensures At(xs)(row * 4 + c) == Partial(term, SliceOf(c, 4, n))
    {
      assert xs[row * 4 + c] == Partial(term, SliceOf((row * 4 + c) % 4, 4, n));
    }
  }

  lemma ReduceIsFull(term: int -> real, n: nat, xs: seq<real>)
    requires |xs| > 0 && n % |xs| == 0
    requires forall r | 0 <= r < |xs| :: xs[r] == Partial(term, SliceOf(r, |xs|, n))
    ensures forall r | 0 <= r < |xs| :: AllReduce(xs)[r] == Sum(term, 0, n)
  {
    ShardsAddUp(term, At(xs), 0, |xs|, n);
  }

  lemma GroupSumPlus(xs: seq<real>, ys: seq<real>, ranks: seq<nat>)
    requires |xs| == |ys|
    ensures GroupSum(Plus(xs, ys), ranks) == GroupSum(xs, ranks) + GroupSum(ys, ranks)
  {
    if ranks != [] {
      GroupSumPlus(xs, ys, ranks[..|ranks| - 1]);
    }
  }

  /** Reducing a local sum is summing the reductions. */
  lemma ReducePlus(xs: seq<real>, ys: seq<real>, groups: seq<Option<seq<nat>>>)
    requires |xs| == |ys| == |groups|
    ensures GroupAllReduce(Plus(xs, ys), groups) == Plus(GroupAllReduce(xs, groups), GroupAllReduce(ys, groups))
    ensures AllReduce(Plus(xs, ys)) == Plus(AllReduce(xs), AllReduce(ys))
  {
    forall r | 0 <= r < |xs|
      ensures GroupAllReduce(Plus(xs, ys), groups)[r] == Plus(GroupAllReduce(xs, groups), GroupAllReduce(ys, groups))[r]
    {
      if groups[r].Some? {
        GroupSumPlus(xs, ys, groups[r].value);
      }
    }
    SumAdd(At(xs), At(ys), At(Plus(xs, ys)), 0, |xs|);
  }

  /** All ranks were built with the same switches and sizes, and are in their groups. */
  ghost predicate Built(blocks: seq<Block>, groups: seq<Option<seq<nat>>>, s: Switches, sharedSize: nat, moeSize: nat) {
    && |blocks| == |groups| > 0
    && Divides(s, |blocks|, sharedSize, moeSize)
    && (forall r | 0 <= r < |blocks| :: blocks[r] == BlockOf(s, |blocks|, r, sharedSize, moeSize))
    && (RoutedEnabled(s, |blocks|) ==> forall r | 0 <= r < 8 :: groups[r].Some? && OwnGroup(r, groups[r].value))
  }

  function Ones(n: nat, x: real): (xs: seq<real>)
    ensures |xs| == n && forall r | 0 <= r < n :: xs[r] == x
  {
    seq(n, _ => x)
  }

  function RoutedParts(blocks: seq<Block>, term: int -> real): (xs: seq<real>)
    ensures |xs| == |blocks|
  {
    seq(|blocks|, r requires 0 <= r < |blocks| => Partial(term, blocks[r].routed))
  }

  function SharedParts(blocks: seq<Block>, term: int -> real): (xs: seq<real>)
    requires forall r | 0 <= r < |blocks| :: blocks[r].shared.Some?
    ensures |xs| == |blocks|
  {
    seq(|blocks|, r requires 0 <= r < |blocks| => Partial(term, blocks[r].shared.value))
  }

  /** The reductions of the routed parts that the block's mode uses. */
  lemma RoutedReduced(blocks: seq<Block>, groups: seq<Option<seq<nat>>>, term: int -> real, s: Switches, sharedSize: nat, moeSize: nat)
    requires Built(blocks, groups, s, sharedSize, moeSize)
    ensures blocks[0].tp4x2 ==> GroupAllReduce(RoutedParts(blocks, term), groups) == Ones(|blocks|, Sum(term, 0, moeSize))
    ensures !blocks[0].tp4x2 ==> AllReduce(RoutedParts(blocks, term)) == Ones(|blocks|, Sum(term, 0, moeSize))
  {
    hide Sum, SliceOf, OwnGroup, GroupAllReduce;
    var xs := RoutedParts(blocks, term);
    if blocks[0].tp4x2 {
      GroupReduceIsFull(term, moeSize, xs, groups);
    } else {
      ReduceIsFull(term, moeSize, xs);
    }
  }

  lemma SharedReduced(blocks: seq<Block>, groups: seq<Option<seq<nat>>>, term: int -> real, s: Switches, sharedSize: nat, moeSize: nat)
    requires Built(blocks, groups, s, sharedSize, moeSize) && sharedSize > 0
    ensures forall r | 0 <= r < |blocks| :: blocks[r].shared.Some?
    ensures blocks[0].tp4x2Shared ==> GroupAllReduce(SharedParts(blocks, term), groups) == Ones(|blocks|, Sum(term, 0, sharedSize))
    ensures !blocks[0].tp4x2Shared ==> AllReduce(SharedParts(blocks, term)) == Ones(|blocks|, Sum(term, 0, sharedSize))
  {
    hide Sum, SliceOf, OwnGroup, GroupAllReduce;
    assert forall r | 0 <= r < |blocks| :: blocks[r].shared.Some?;
    var xs := SharedParts(blocks, term);
    if blocks[0].tp4x2Shared {
      GroupReduceIsFull(term, sharedSize, xs, groups);
    } else {
      ReduceIsFull(term, sharedSize, xs);
    }
  }

  /**
   `Qwen3NextSparseMoeBlock.forward` on every rank, for one output element: `sharedTerm` and
   `routedTerm` are what each intermediate row adds. Every mode gives every rank both full sums.
   */
  method Forward(blocks: seq<Block>, groups: seq<Option<seq<nat>>>, sharedTerm: int -> real, routedTerm: int -> real,
                 ghost s: Switches, ghost sharedSize: nat, ghost moeSize: nat) returns (out: seq<real>)
    requires Built(blocks, groups, s, sharedSize, moeSize)
    ensures out == Ones(|blocks|, Sum(sharedTerm, 0, sharedSize) + Sum(routedTerm, 0, moeSize))
  {
    hide Sum, SliceOf, BlockOf, Divides, OwnGroup, GroupAllReduce, AllReduce, RoutedParts, SharedParts, Plus;
    var block := blocks[0];
    Modes(blocks, groups, s, sharedSize, moeSize);
    var routed := RoutedParts(blocks, routedTerm);
    RoutedReduced(blocks, groups, routedTerm, s, sharedSize, moeSize);
    if block.shared.None? {
      NoShared(sharedTerm);
      if block.tp4x2 {
        out := GroupAllReduce(routed, groups);
      } else if block.tpSize > 1 {
        out := AllReduce(routed);
      } else {
        OneRank(routed);
        out := routed;
      }
      return;
    }
    SharedReduced(blocks, groups, sharedTerm, s, sharedSize, moeSize);
    var shared := SharedParts(blocks, sharedTerm);
    ReducePlus(shared, routed, groups);
    PlusOnes(|blocks|, Sum(sharedTerm, 0, sharedSize), Sum(routedTerm, 0, moeSize));
    if !block.tp4x2 {
      out := Plus(shared, routed);
      if block.tpSize > 1 {
        out := AllReduce(out);
      } else {
        OneRank(out);
      }
    } else if block.fuseReduce {
      out := GroupAllReduce(Plus(shared, routed), groups);
    } else {
      shared := if block.tp4x2Shared then GroupAllReduce(shared, groups) else AllReduce(shared);
      routed := GroupAllReduce(routed, groups);
      out := Plus(shared, routed);
    }
  }

  /** All ranks run the same branch; a fused reduce implies four-way shared slices, and those four-way routed ones. */
  lemma Modes(blocks: seq<Block>, groups: seq<Option<seq<nat>>>, s: Switches, sharedSize: nat, moeSize: nat)
    requires Built(blocks, groups, s, sharedSize, moeSize)
    ensures blocks[0].tpSize == |blocks|
    ensures blocks[0].fuseReduce ==> blocks[0].tp4x2Shared
    ensures blocks[0].tp4x2Shared ==> blocks[0].tp4x2
    ensures blocks[0].shared.None? <==> sharedSize == 0
    ensures forall r | 0 <= r < |blocks| :: blocks[r].shared.Some? <==> sharedSize > 0
  {
  }

  lemma PlusOnes(n: nat, x: real, y: real)
    ensures Plus(Ones(n, x), Ones(n, y)) == Ones(n, x + y)
  {
  }

  lemma NoShared(term: int -> real)
    ensures Sum(term, 0, 0) == 0.0
  {
  }

  lemma OneRank(xs: seq<real>)
    requires |xs| == 1
    ensures AllReduce(xs) == xs
  {
    SumLast(At(xs), 0, 1);
  }
}
