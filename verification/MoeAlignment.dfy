/**
 How the routes of a batch are laid out over GEMM blocks, and why a launch grid shrunk to one block
 per route still reaches every padded expert block.
 */
module MoeAlignment {
  import opened Options
  import opened DivMod

  /** Output of the block aligner, or of the naive layout when `sorted` is absent. */
  datatype Alignment = Alignment(sorted: Option<seq<nat>>, expertIds: seq<int>, postPadded: nat)

  /**
   What the block aligner promises for routes whose (local) experts are `experts`: a whole number of
   blocks, one expert a block, each block holding some route, each local route in exactly one place,
   and every other entry a padding value that is no route. An expert of -1 is not local.
   */
  ghost predicate IsSorted(al: Alignment, experts: seq<int>, bm: nat)
    requires bm > 0
  {
    && al.sorted.Some?
    && (var ids := al.sorted.value;
        && al.postPadded <= |ids| && al.postPadded % bm == 0 && al.postPadded / bm <= |al.expertIds|
        && (forall x | 0 <= x < al.postPadded && ids[x] < |experts| :: experts[ids[x]] == al.expertIds[x / bm])
        && (forall x, y | 0 <= x < y < al.postPadded && ids[x] < |experts| :: ids[x] != ids[y])
        && (forall b | 0 <= b < al.postPadded / bm :: BlockHasRoute(ids, al.postPadded, |experts|, bm, b))
        && (forall r | 0 <= r < |experts| && experts[r] != -1 :: r in ids[..al.postPadded]))
  }

  ghost predicate BlockHasRoute(ids: seq<nat>, n: nat, routes: nat, bm: nat, b: int)
    requires n <= |ids| && bm > 0
  {
    exists x | 0 <= x < n && x / bm == b :: ids[x] < routes
  }

  /** The naive layout: block `r` holds route `r` alone. */
  ghost predicate IsNaive(al: Alignment, experts: seq<int>, bm: nat) {
    al.sorted.None? && al.expertIds == experts && al.postPadded >= |experts| * bm
  }

  ghost predicate IsAligned(al: Alignment, experts: seq<int>, bm: nat)
    requires bm > 0
  {
    IsSorted(al, experts, bm) || IsNaive(al, experts, bm)
  }

  /** The route in slot `i` of block `pm`; `routes` itself stands for padding. */
  function SlotRoute(al: Alignment, routes: nat, bm: nat, pm: nat, i: nat): nat
    requires al.sorted.Some? ==> pm * bm + i < |al.sorted.value|
  {
    if al.sorted.Some? then al.sorted.value[pm * bm + i]
    else if i == 0 then pm else routes
  }

  /** The row count the launch grid is sized by. */
  function LaunchRows(al: Alignment, tokens: nat, topK: nat, bm: nat): nat {
    match al.sorted
    case Some(ids) => if tokens < bm then Min(|ids|, tokens * topK * bm) else |ids|
    case None => tokens * topK * bm
  }

  /** Routes that some block of the layout holds. */
  predicate Placed(al: Alignment, r: int)
    requires al.sorted.Some? ==> al.postPadded <= |al.sorted.value|
  {
    al.sorted.Some? ==> r >= 0 && r in al.sorted.value[..al.postPadded]
  }

  // ---------------------------------------------------------------- the contract can be met

  /** The routes before `n` that name a local expert, in order. */
  function LocalBefore(experts: seq<int>, n: nat): (routes: seq<nat>)
    requires n <= |experts|
    ensures forall i | 0 <= i < |routes| :: routes[i] < n && experts[routes[i]] != -1
  {
    if n == 0 then []
    else if experts[n - 1] == -1 then LocalBefore(experts, n - 1)
    else LocalBefore(experts, n - 1) + [n - 1]
  }

  function LocalRoutes(experts: seq<int>): seq<nat> { LocalBefore(experts, |experts|) }

  lemma {:induction false} LocalIncrease(experts: seq<int>, n: nat, i: nat, j: nat)
    requires n <= |experts| && i < j < |LocalBefore(experts, n)|
    ensures LocalBefore(experts, n)[i] < LocalBefore(experts, n)[j]
  {
    if experts[n - 1] == -1 || j + 1 < |LocalBefore(experts, n)| {
      LocalIncrease(experts, n - 1, i, j);
    }
  }

  lemma {:induction false} LocalComplete(experts: seq<int>, n: nat, r: nat) returns (i: nat)
    requires r < n <= |experts| && experts[r] != -1
    ensures i < |LocalBefore(experts, n)| && LocalBefore(experts, n)[i] == r
  {
    if r == n - 1 {
      i := |LocalBefore(experts, n - 1)|;
    } else {
      i := LocalComplete(experts, n - 1, r);
    }
  }

  /** Slot `x` when each route has a block of its own: the route, then padding. */
  function OwnBlockSlot(routes: seq<nat>, pad: nat, bm: nat, x: nat): nat
    requires bm > 0
  {
    if x % bm == 0 && x / bm < |routes| then routes[x / bm] else pad
  }

  function OwnBlocks(routes: seq<nat>, pad: nat, bm: nat): (slots: seq<nat>)
    ensures |slots| == |routes| * bm
    ensures bm > 0 ==> forall x | 0 <= x < |slots| :: slots[x] == OwnBlockSlot(routes, pad, bm, x)
  {
    seq(|routes| * bm, x requires 0 <= x => if bm > 0 then OwnBlockSlot(routes, pad, bm, x) else pad)
  }

  /** An aligner that gives every local route a block of its own, padded with the number of routes. */
  function OneBlockEach(experts: seq<int>, bm: nat): Alignment {
    var routes := LocalRoutes(experts);
    var slots := OwnBlocks(routes, |experts|, bm);
    Alignment(Some(slots), seq(|routes|, i requires 0 <= i < |routes| => experts[routes[i]]), |slots|)
  }

  /** A slot that holds a route. */
  lemma SlotHolds(experts: seq<int>, bm: nat, x: nat)
    requires bm > 0 && x < |LocalRoutes(experts)| * bm
    requires OwnBlocks(LocalRoutes(experts), |experts|, bm)[x] < |experts|
    ensures 0 <= x / bm < |LocalRoutes(experts)| && x == x / bm * bm
    ensures OwnBlocks(LocalRoutes(experts), |experts|, bm)[x] == LocalRoutes(experts)[x / bm]
  {
    SlotSplit(x, bm);
    var routes := LocalRoutes(experts);
    assert OwnBlocks(routes, |experts|, bm)[x] == OwnBlockSlot(routes, |experts|, bm, x);
    hide LocalRoutes, OwnBlocks;
  }

  lemma SlotSplit(x: nat, bm: nat)
    requires bm > 0
    ensures x / bm >= 0 && x == x / bm * bm + x % bm
  {
    DivAtLeast(x, bm, 0);
  }

  /** The slot of a route. */
  lemma RouteSlotIs(experts: seq<int>, bm: nat, i: nat)
    requires bm > 0 && i < |LocalRoutes(experts)|
    ensures 0 <= i * bm < |LocalRoutes(experts)| * bm && i * bm / bm == i
    ensures OwnBlocks(LocalRoutes(experts), |experts|, bm)[i * bm] == LocalRoutes(experts)[i]
  {
    BlockStart(i, bm, |LocalRoutes(experts)|);
  }

  /** So the block aligner's contract can be met, with routes of missing experts left out. */
  lemma OneBlockEachIsSorted(experts: seq<int>, bm: nat)
    requires bm > 0
    ensures IsSorted(OneBlockEach(experts, bm), experts, bm)
    ensures forall r | 0 <= r < |experts| && experts[r] == -1 :: !Placed(OneBlockEach(experts, bm), r)
  {
    var routes := LocalRoutes(experts);
    var ids, n := OwnBlocks(routes, |experts|, bm), |routes| * bm;
    DivUnique(n, bm, |routes|, 0);
    hide LocalBefore, OwnBlocks, OwnBlockSlot;
    assert ids[..n] == ids;
    forall x | 0 <= x < n && ids[x] < |experts|
      ensures experts[ids[x]] != -1 && experts[ids[x]] == OneBlockEach(experts, bm).expertIds[x / bm]
    {
      SlotHolds(experts, bm, x);
    }
    forall x, y | 0 <= x < y < n && ids[x] < |experts|
      ensures ids[x] != ids[y]
    {
      DistinctSlots(experts, bm, x, y);
    }
    forall i | 0 <= i < |routes|
      ensures BlockHasRoute(ids, n, |experts|, bm, i)
    {
      RouteSlotIs(experts, bm, i);
    }
    forall r | 0 <= r < |experts| && experts[r] != -1
      ensures r in ids
    {
      var i := LocalComplete(experts, |experts|, r);
      RouteSlotIs(experts, bm, i);
    }
  }

  lemma DistinctSlots(experts: seq<int>, bm: nat, x: nat, y: nat)
    requires bm > 0 && x < y < |LocalRoutes(experts)| * bm
    requires OwnBlocks(LocalRoutes(experts), |experts|, bm)[x] < |experts|
    ensures OwnBlocks(LocalRoutes(experts), |experts|, bm)[x] != OwnBlocks(LocalRoutes(experts), |experts|, bm)[y]
  {
    hide LocalBefore, OwnBlocks, OwnBlockSlot;
    SlotHolds(experts, bm, x);
    if OwnBlocks(LocalRoutes(experts), |experts|, bm)[y] < |experts| {
      SlotHolds(experts, bm, y);
      DivMonotone(x, y, bm);
      LocalIncrease(experts, |experts|, x / bm, y / bm);
    }
  }

  lemma BlockStart(i: nat, bm: nat, blocks: nat)
    requires bm > 0 && i < blocks
    ensures 0 <= i * bm < blocks * bm && i * bm / bm == i && i * bm % bm == 0
  {
    MulGe(blocks, i + 1, bm);
    MulGe(i, 0, bm);
    assert (i + 1) * bm == i * bm + bm;
    DivUnique(i * bm, bm, i, 0);
  }

  // ---------------------------------------------------------------- the shrunk grid

  lemma DistinctBound(s: seq<int>, n: nat)
    requires forall i | 0 <= i < |s| :: 0 <= s[i] < n
    requires forall i, j | 0 <= i < j < |s| :: s[i] != s[j]
    ensures |s| <= n
  {
    var elements := Elements(s);
    assert Below(n) == elements + (Below(n) - elements);
  }

  ghost function Below(n: nat): (s: set<int>)
    ensures |s| == n && forall x :: x in s <==> 0 <= x < n
  {
    if n == 0 then {} else Below(n - 1) + {n - 1}
  }

  ghost function Elements(s: seq<int>): (e: set<int>)
    requires forall i, j | 0 <= i < j < |s| :: s[i] != s[j]
    ensures |e| == |s| && forall x :: x in e <==> x in s
  {
    if s == [] then {} else
    var n := |s| - 1;
    assert s == s[..n] + [s[n]];
    Elements(s[..n]) + {s[n]}
  }

  /** Every padded block holds a route of its own, so there are no more blocks than routes. */
  lemma BlocksAtMostRoutes(al: Alignment, experts: seq<int>, bm: nat)
    requires bm > 0 && IsSorted(al, experts, bm)
    ensures al.postPadded <= |experts| * bm
  {
    var n := al.postPadded / bm;
    OneRouteEach(al, experts, bm, n);
    MulGe(|experts|, n, bm);
  }

  lemma OneRouteEach(al: Alignment, experts: seq<int>, bm: nat, n: nat)
    requires bm > 0 && IsSorted(al, experts, bm) && n == al.postPadded / bm
    ensures n <= |experts|
  {
    var ids := al.sorted.value;
    var at := RoutePerBlock(al, experts, bm, n);
    var routes := seq(n, b requires 0 <= b < n => ids[at[b]] as int);
    forall b, b' | 0 <= b < b' < n
      ensures routes[b] != routes[b']
    {
      assert at[b] / bm == b && at[b'] / bm == b';
      DifferentSlots(al, experts, bm, at[b], at[b']);
    }
    DistinctBound(routes, |experts|);
  }

  lemma DifferentSlots(al: Alignment, experts: seq<int>, bm: nat, x: nat, y: nat)
    requires bm > 0 && IsSorted(al, experts, bm) && x < al.postPadded && y < al.postPadded && x != y
    requires al.sorted.value[x] < |experts|
    ensures al.sorted.value[x] != al.sorted.value[y]
  {
  }

  lemma {:induction false} RoutePerBlock(al: Alignment, experts: seq<int>, bm: nat, n: nat) returns (at: seq<int>)
    requires bm > 0 && IsSorted(al, experts, bm) && n <= al.postPadded / bm
    ensures |at| == n
    ensures forall b | 0 <= b < n :: 0 <= at[b] < al.postPadded && at[b] / bm == b && al.sorted.value[at[b]] < |experts|
  {
    if n == 0 {
      at := [];
    } else {
      at := RoutePerBlock(al, experts, bm, n - 1);
      assert BlockHasRoute(al.sorted.value, al.postPadded, |experts|, bm, n - 1);
      var x :| 0 <= x < al.postPadded && x / bm == n - 1 && al.sorted.value[x] < |experts|;
      at := at + [x];
    }
  }

  /** The launch grid reaches every padded block, shrunk or not. */
  lemma LaunchReachesAll(al: Alignment, experts: seq<int>, bm: nat, tokens: nat, topK: nat)
    requires bm > 0 && IsSorted(al, experts, bm) && tokens * topK == |experts|
    ensures al.postPadded <= LaunchRows(al, tokens, topK, bm)
  {
    BlocksAtMostRoutes(al, experts, bm);
  }

  /** Block that holds a placed route. */
  ghost function BlockOf(al: Alignment, experts: seq<int>, bm: nat, r: nat): (pm: nat)
    requires bm > 0 && IsAligned(al, experts, bm) && r < |experts| && Placed(al, r)
    ensures pm * bm < al.postPadded && pm < |al.expertIds| && al.expertIds[pm] == experts[r]
    ensures exists i | 0 <= i < bm :: (al.sorted.Some? ==> pm * bm + i < al.postPadded)
              && SlotRoute(al, |experts|, bm, pm, i) == r
  {
    if al.sorted.Some? then
      var x :| 0 <= x < al.postPadded && al.sorted.value[x] == r;
      SortedBlockOf(al, experts, bm, x);
      x / bm
    else
      NaiveBlockOf(al, experts, bm, r);
      r
  }

  lemma SortedBlockOf(al: Alignment, experts: seq<int>, bm: nat, x: nat)
    requires bm > 0 && IsSorted(al, experts, bm) && x < al.postPadded && al.sorted.value[x] < |experts|
    ensures 0 <= x / bm * bm < al.postPadded && 0 <= x / bm < |al.expertIds| && al.expertIds[x / bm] == experts[al.sorted.value[x]]
    ensures exists i | 0 <= i < bm :: x / bm * bm + i < al.postPadded
              && SlotRoute(al, |experts|, bm, x / bm, i) == al.sorted.value[x]
  {
    SlotOfIndex(x, bm, al.postPadded);
    assert SlotRoute(al, |experts|, bm, x / bm, x % bm) == al.sorted.value[x];
  }

  lemma NaiveBlockOf(al: Alignment, experts: seq<int>, bm: nat, r: nat)
    requires bm > 0 && IsNaive(al, experts, bm) && r < |experts|
    ensures 0 <= r * bm < al.postPadded && r < |al.expertIds| && al.expertIds[r] == experts[r]
    ensures exists i | 0 <= i < bm :: SlotRoute(al, |experts|, bm, r, i) == r
  {
    BlockStart(r, bm, |experts|);
    assert SlotRoute(al, |experts|, bm, r, 0) == r;
  }

  lemma SlotOfIndex(x: nat, bm: nat, n: nat)
    requires bm > 0 && x < n && n % bm == 0
    ensures 0 <= x / bm < n / bm && x / bm * bm + x % bm == x && x / bm * bm < n
  {
    DivAtLeast(x, bm, n / bm);
    DivAtLeast(x, bm, 0);
  }

  /** A padded block lies wholly inside the padded length. */
  lemma BlockInside(pm: nat, bm: nat, n: nat)
    requires bm > 0 && pm * bm < n && n % bm == 0
    ensures pm * bm + bm <= n && pm < n / bm
  {
    DivAtLeast(n, bm, pm + 1);
    if n / bm <= pm {
      MulGe(pm, n / bm, bm);
    }
    assert (pm + 1) * bm == pm * bm + bm;
  }
}
