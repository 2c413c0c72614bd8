/**
 The grouped-expert GEMM kernel and its launch. Whatever the layout of routes over blocks and the
 order programs run in, each placed route's output row is its token's row times its expert's matrix.
 */
module FusedMoeKernel {
  import opened Options
  import opened Sums
  import opened DivMod
  import opened Swizzle
  import opened FlatMatrix
  import opened Gemm
  import opened Matmul
  import opened MoeAlignment

  /**
   One grouped GEMM: row r of the result belongs to route r, which reads row r / topK of `a`.
   `experts` is the local expert of each route, or -1; `scale` is the routed weight when applied.
   */
  datatype Grouped = Grouped(
    a: seq<seq<real>>, w: seq<seq<seq<real>>>, bias: Option<seq<seq<real>>>, scale: Option<seq<real>>,
    experts: seq<int>, topK: nat, K: nat, N: nat)

  ghost predicate ValidGrouped(g: Grouped) {
    && g.topK > 0 && |g.experts| == |g.a| * g.topK
    && IsMatrix(g.a, |g.a|, g.K)
    && (forall e | 0 <= e < |g.w| :: IsMatrix(g.w[e], g.N, g.K))
    && (forall r | 0 <= r < |g.experts| :: -1 <= g.experts[r] < |g.w|)
    && (g.bias.Some? ==> IsMatrix(g.bias.value, |g.w|, g.N))
    && (g.scale.Some? ==> |g.scale.value| == |g.experts|)
  }

  function Routes(g: Grouped): nat { |g.experts| }

  lemma RouteToken(g: Grouped, r: int)
    requires ValidGrouped(g) && 0 <= r < Routes(g)
    ensures 0 <= r / g.topK < |g.a|
  {
    DivAtLeast(r, g.topK, 0);
    DivAtLeast(r, g.topK, |g.a|);
  }

  /** Bias, then routed weight, applied to an accumulated dot product. */
  function Epilogue(g: Grouped, e: int, r: int, n: int, dot: real): real
    requires ValidGrouped(g) && 0 <= e < |g.w| && 0 <= r < Routes(g) && 0 <= n < g.N
  {
    var biased := if g.bias.Some? then dot + g.bias.value[e][n] else dot;
    if g.scale.Some? then Times(biased, g.scale.value[r]) else biased
  }

  /** Cell (route r, column n) of the result: zero for a route whose expert is not local. */
  function RouteValue(g: Grouped, r: int, n: int): real
    requires ValidGrouped(g) && 0 <= r < Routes(g) && 0 <= n < g.N
  {
    RouteToken(g, r);
    var e := g.experts[r];
    if e == -1 then 0.0 else Epilogue(g, e, r, n, RowDot(g.a[r / g.topK], g.w[e][n]))
  }

  function Prescribed(g: Grouped): (int, int) -> real
    requires ValidGrouped(g)
  {
    (r, n) => if 0 <= r < Routes(g) && 0 <= n < g.N then RouteValue(g, r, n) else 0.0
  }

  function LaunchM(g: Grouped, al: Alignment, blk: Blocks): int
    requires blk.m > 0
  {
    CeilDiv(LaunchRows(al, |g.a|, g.topK, blk.m), blk.m)
  }

  function LaunchN(g: Grouped, blk: Blocks): int
    requires blk.n > 0
  {
    CeilDiv(g.N, blk.n)
  }

  ghost predicate ValidLaunch(g: Grouped, al: Alignment, blk: Blocks) {
    ValidGrouped(g) && Positive4(blk) && IsAligned(al, g.experts, blk.m)
  }

  /** The routes a block's slots hold; padding slots hold the route count itself. */
  function BlockRoutes(g: Grouped, al: Alignment, blk: Blocks, pm: nat): (at: seq<int>)
    requires al.sorted.Some? ==> pm * blk.m + blk.m <= |al.sorted.value|
    ensures |at| == blk.m
  {
    seq(blk.m, i requires 0 <= i < blk.m => SlotRoute(al, Routes(g), blk.m, pm, i) as int)
  }

  /** Every route in a running block has the block's expert. */
  lemma BlockExpert(g: Grouped, al: Alignment, blk: Blocks, pm: nat)
    requires ValidLaunch(g, al, blk) && pm * blk.m < al.postPadded
    requires al.sorted.None? ==> pm < Routes(g)
    ensures pm < |al.expertIds| && (al.sorted.Some? ==> pm * blk.m + blk.m <= al.postPadded)
    ensures -1 <= al.expertIds[pm] < |g.w|
    ensures forall i | 0 <= i < blk.m && SlotRoute(al, Routes(g), blk.m, pm, i) < Routes(g) ::
              g.experts[SlotRoute(al, Routes(g), blk.m, pm, i)] == al.expertIds[pm]
  {
    if al.sorted.Some? {
      BlockInside(pm, blk.m, al.postPadded);
      assert BlockHasRoute(al.sorted.value, al.postPadded, Routes(g), blk.m, pm);
      forall i | 0 <= i < blk.m && SlotRoute(al, Routes(g), blk.m, pm, i) < Routes(g)
        ensures g.experts[SlotRoute(al, Routes(g), blk.m, pm, i)] == al.expertIds[pm]
      {
        DivUnique(pm * blk.m + i, blk.m, pm, i);
        SortedSlotExpert(al, g.experts, blk.m, pm * blk.m + i);
      }
    }
  }

  lemma SortedSlotExpert(al: Alignment, experts: seq<int>, bm: nat, x: nat)
    requires bm > 0 && IsSorted(al, experts, bm) && x < al.postPadded && al.sorted.value[x] < |experts|
    ensures x / bm < |al.expertIds| && experts[al.sorted.value[x]] == al.expertIds[x / bm]
  {
    SlotOfIndex(x, bm, al.postPadded);
  }

  /** A zero row stands in for the masked loads of a padding slot. */
  function LoadRow(g: Grouped, r: int): (row: seq<real>)
    requires ValidGrouped(g) && r >= 0
    ensures |row| == g.K
  {
    if r < Routes(g) then RouteToken(g, r); g.a[r / g.topK] else seq(g.K, k => 0.0)
  }

  method ComputeBlock(g: Grouped, blk: Blocks, at: seq<int>, e: int, col0: nat) returns (tile: seq<seq<real>>)
    requires ValidGrouped(g) && Positive4(blk) && g.N > 0 && -1 <= e < |g.w|
    requires |at| == blk.m && forall i | 0 <= i < blk.m :: at[i] >= 0
    requires forall i | 0 <= i < blk.m && at[i] < Routes(g) :: g.experts[at[i]] == e
    ensures |tile| == blk.m && forall i | 0 <= i < blk.m :: |tile[i]| == blk.n
    ensures forall i, j | 0 <= i < blk.m && at[i] < Routes(g) && 0 <= j < blk.n && col0 + j < g.N ::
              tile[i][j] == Prescribed(g)(at[i], col0 + j)
  {
    hide RowDot, Epilogue;
    if e == -1 {
      tile := seq(blk.m, i => seq(blk.n, j => 0.0));
      return;
    }
    var aRows := seq(blk.m, i requires 0 <= i < blk.m => LoadRow(g, at[i]));
    var bRows := seq(blk.n, j requires 0 <= j => g.w[e][(col0 + j) % g.N]);
    var acc := KLoop(aRows, bRows, g.K, blk.k);
    tile := seq(blk.m, i requires 0 <= i < blk.m => seq(blk.n, j requires 0 <= j < blk.n =>
      if at[i] < Routes(g) then Epilogue(g, e, at[i], (col0 + j) % g.N, acc[i][j]) else 0.0));
    forall i, j | 0 <= i < blk.m && at[i] < Routes(g) && 0 <= j < blk.n && col0 + j < g.N
      ensures tile[i][j] == Prescribed(g)(at[i], col0 + j)
    {
      Unwrapped(col0 + j, g.N);
      RouteToken(g, at[i]);
      assert aRows[i] == g.a[at[i] / g.topK] && bRows[j] == g.w[e][col0 + j];
    }
  }

  method FusedMoeProgram(g: Grouped, al: Alignment, blk: Blocks, pid: int, c: array<real>)
    requires ValidLaunch(g, al, blk) && Fits(c.Length, Routes(g), g.N)
    requires 0 <= pid < LaunchM(g, al, blk) * LaunchN(g, blk)
    modifies c
    ensures OnlyPrescribed(c, Routes(g), g.N, Prescribed(g))
    ensures forall r, n | 0 <= r < Routes(g) && 0 <= n < g.N && Placed(al, r) && RouteProgram(g, al, blk, r, n) == pid ::
              Holds(c, Routes(g), g.N, Prescribed(g), r, n)
    ensures forall r, n | 0 <= r < Routes(g) && 0 <= n < g.N && !Placed(al, r) ::
              Cell(c, Routes(g), g.N, r, n) == old(Cell(c, Routes(g), g.N, r, n))
    ensures TailKept(c, Routes(g), g.N)
  {
    hide Tile, ProgramOf, CeilDiv, RouteValue, Cell, BlockOf, RouteProgram, LaunchRows;
    MoeTileOrigin(g, al, blk, pid);
    var (pm, pn) := Tile(pid, LaunchM(g, al, blk), LaunchN(g, blk), blk.group);
    forall r, n | 0 <= r < Routes(g) && 0 <= n < g.N && Placed(al, r) && RouteProgram(g, al, blk, r, n) == pid
      ensures BlockOf(al, g.experts, blk.m, r) == pm && pm * blk.m < al.postPadded
      ensures pn * blk.n <= n < pn * blk.n + blk.n
    {
      RouteTile(g, al, blk, r, n);
    }
    if pm * blk.m >= al.postPadded {
      return;
    }
    BlockExpert(g, al, blk, pm);
    var at := BlockRoutes(g, al, blk, pm);
    var tile := ComputeBlock(g, blk, at, al.expertIds[pm], pn * blk.n);
    StoreTile(c, Routes(g), g.N, at, pn * blk.n, blk.n, tile, Prescribed(g));
    forall r, n | 0 <= r < Routes(g) && 0 <= n < g.N && Placed(al, r) && RouteProgram(g, al, blk, r, n) == pid
      ensures Holds(c, Routes(g), g.N, Prescribed(g), r, n)
    {
      RouteInBlock(g, al, blk, r);
    }
    forall r | 0 <= r < Routes(g) && !Placed(al, r)
      ensures r !in at
    {
      UnplacedNotInBlock(g, al, blk, pm, r);
    }
  }

  /** The one program that stores cell (route r, column n). */
  ghost function RouteProgram(g: Grouped, al: Alignment, blk: Blocks, r: int, n: int): int
    requires ValidLaunch(g, al, blk) && 0 <= r < Routes(g) && 0 <= n < g.N && Placed(al, r)
  {
    ProgramOf(BlockOf(al, g.experts, blk.m, r), n / blk.n, LaunchM(g, al, blk), LaunchN(g, blk), blk.group)
  }

  lemma MoeTileOrigin(g: Grouped, al: Alignment, blk: Blocks, pid: int)
    requires ValidLaunch(g, al, blk) && 0 <= pid < LaunchM(g, al, blk) * LaunchN(g, blk)
    ensures g.N > 0 && LaunchN(g, blk) > 0
    ensures var (pm, pn) := Tile(pid, LaunchM(g, al, blk), LaunchN(g, blk), blk.group);
            pm >= 0 && pn >= 0 && pm * blk.m >= 0 && pn * blk.n >= 0
            && (al.sorted.None? ==> pm < Routes(g))
  {
    var numM, numN := LaunchM(g, al, blk), LaunchN(g, blk);
    CeilNonneg(LaunchRows(al, |g.a|, g.topK, blk.m), blk.m);
    CeilNonneg(g.N, blk.n);
    BothPositive(numM, numN);
    GridNonempty(g.N, blk.n);
    TileInGrid(pid, numM, numN, blk.group);
    var (pm, pn) := Tile(pid, numM, numN, blk.group);
    MulGe(pm, 0, blk.m);
    MulGe(pn, 0, blk.n);
    if al.sorted.None? {
      CeilAtMost(Routes(g) * blk.m, blk.m, Routes(g));
    }
  }

  /** The grid contains the storing program, and its tile holds the cell. */
  lemma RouteTile(g: Grouped, al: Alignment, blk: Blocks, r: int, n: int)
    requires ValidLaunch(g, al, blk) && 0 <= r < Routes(g) && 0 <= n < g.N && Placed(al, r)
    ensures 0 <= RouteProgram(g, al, blk, r, n) < LaunchM(g, al, blk) * LaunchN(g, blk) && LaunchN(g, blk) > 0
    ensures var (pm, pn) := Tile(RouteProgram(g, al, blk, r, n), LaunchM(g, al, blk), LaunchN(g, blk), blk.group);
            pm == BlockOf(al, g.experts, blk.m, r) && pm * blk.m < al.postPadded
            && pn * blk.n <= n < pn * blk.n + blk.n
  {
    var pm := BlockOf(al, g.experts, blk.m, r);
    PlacedBlockLaunched(g, al, blk, r);
    BlockInGrid(n, g.N, blk.n);
    ProgramInGrid(pm, n / blk.n, LaunchM(g, al, blk), LaunchN(g, blk), blk.group);
    InBlock(n, blk.n);
  }

  lemma PlacedBlockLaunched(g: Grouped, al: Alignment, blk: Blocks, r: int)
    requires ValidLaunch(g, al, blk) && 0 <= r < Routes(g) && Placed(al, r)
    ensures BlockOf(al, g.experts, blk.m, r) < LaunchM(g, al, blk)
  {
    var pm, rows := BlockOf(al, g.experts, blk.m, r), LaunchRows(al, |g.a|, g.topK, blk.m);
    if al.sorted.Some? {
      LaunchReachesAll(al, g.experts, blk.m, |g.a|, g.topK);
    } else {
      MulGe(Routes(g), pm + 1, blk.m);
      assert (pm + 1) * blk.m == pm * blk.m + blk.m;
    }
    assert pm * blk.m < rows;
    CeilAtMost(rows, blk.m, pm);
  }

  lemma RouteInBlock(g: Grouped, al: Alignment, blk: Blocks, r: int)
    requires ValidLaunch(g, al, blk) && 0 <= r < Routes(g) && Placed(al, r)
    ensures var pm := BlockOf(al, g.experts, blk.m, r);
            (al.sorted.Some? ==> pm * blk.m + blk.m <= |al.sorted.value|) && r in BlockRoutes(g, al, blk, pm)
  {
    var pm := BlockOf(al, g.experts, blk.m, r);
    if al.sorted.Some? {
      BlockInside(pm, blk.m, al.postPadded);
    }
    var i :| 0 <= i < blk.m && (al.sorted.Some? ==> pm * blk.m + i < al.postPadded)
          && SlotRoute(al, Routes(g), blk.m, pm, i) == r;
    assert BlockRoutes(g, al, blk, pm)[i] == r;
  }

  lemma UnplacedNotInBlock(g: Grouped, al: Alignment, blk: Blocks, pm: nat, r: int)
    requires ValidLaunch(g, al, blk) && pm * blk.m < al.postPadded && 0 <= r < Routes(g) && !Placed(al, r)
    requires al.sorted.Some? ==> pm * blk.m + blk.m <= al.postPadded
    ensures r !in BlockRoutes(g, al, blk, pm)
  {
    var ids := al.sorted.value;
    forall i | 0 <= i < blk.m
      ensures BlockRoutes(g, al, blk, pm)[i] != r
    {
      assert ids[pm * blk.m + i] == ids[..al.postPadded][pm * blk.m + i];
    }
  }

  /** The programs of a launch, one after the other. */
  method RunPrograms(g: Grouped, al: Alignment, blk: Blocks, order: seq<int>, c: array<real>)
    requires ValidLaunch(g, al, blk) && Fits(c.Length, Routes(g), g.N)
    requires forall i | 0 <= i < |order| :: 0 <= order[i] < LaunchM(g, al, blk) * LaunchN(g, blk)
    requires forall pid | 0 <= pid < LaunchM(g, al, blk) * LaunchN(g, blk) :: pid in order
    modifies c
    ensures forall r, n | 0 <= r < Routes(g) && 0 <= n < g.N && Placed(al, r) ::
              Cell(c, Routes(g), g.N, r, n) == RouteValue(g, r, n)
    ensures forall r, n | 0 <= r < Routes(g) && 0 <= n < g.N && !Placed(al, r) ::
              Cell(c, Routes(g), g.N, r, n) == old(Cell(c, Routes(g), g.N, r, n))
    ensures TailKept(c, Routes(g), g.N)
  {
    hide Cell, RouteProgram, LaunchM, LaunchN, RouteValue;
    for i := 0 to |order|
      invariant forall r, n | 0 <= r < Routes(g) && 0 <= n < g.N && Placed(al, r)
                  && RouteProgram(g, al, blk, r, n) in order[..i] :: Holds(c, Routes(g), g.N, Prescribed(g), r, n)
      invariant forall r, n | 0 <= r < Routes(g) && 0 <= n < g.N && !Placed(al, r) ::
                  Cell(c, Routes(g), g.N, r, n) == old(Cell(c, Routes(g), g.N, r, n))
      invariant TailKept(c, Routes(g), g.N)
    {
      label Before:
      FusedMoeProgram(g, al, blk, order[i], c);
      assert order[..i + 1] == order[..i] + [order[i]];
      forall r, n | 0 <= r < Routes(g) && 0 <= n < g.N && Placed(al, r)
                  && RouteProgram(g, al, blk, r, n) in order[..i + 1]
        ensures Holds(c, Routes(g), g.N, Prescribed(g), r, n)
      {
        if RouteProgram(g, al, blk, r, n) != order[i] {
          assert old@Before(Holds(c, Routes(g), g.N, Prescribed(g), r, n));
        }
      }
    }
    forall r, n | 0 <= r < Routes(g) && 0 <= n < g.N && Placed(al, r)
      ensures Cell(c, Routes(g), g.N, r, n) == RouteValue(g, r, n)
    {
      RouteTile(g, al, blk, r, n);
      assert order[..|order|] == order;
      assert Holds(c, Routes(g), g.N, Prescribed(g), r, n);
    }
  }

  /** The flat buffer after a launch, from the contents `before`: placed routes' rows, and all else as it was. */
  function AfterLaunch(g: Grouped, al: Alignment, before: seq<real>, x: int): real
    requires ValidGrouped(g) && (al.sorted.Some? ==> al.postPadded <= |al.sorted.value|)
  {
    if g.N > 0 && 0 <= x < Routes(g) * g.N && Placed(al, x / g.N) then Prescribed(g)(x / g.N, x % g.N)
    else if 0 <= x < |before| then before[x] else 0.0
  }

  /** Every placed route's row is computed and nothing else in the buffer is touched, in any program order. */
  method LaunchFusedMoe(g: Grouped, al: Alignment, blk: Blocks, order: seq<int>, c: array<real>)
    requires ValidLaunch(g, al, blk) && Fits(c.Length, Routes(g), g.N)
    requires forall i | 0 <= i < |order| :: 0 <= order[i] < LaunchM(g, al, blk) * LaunchN(g, blk)
    requires forall pid | 0 <= pid < LaunchM(g, al, blk) * LaunchN(g, blk) :: pid in order
    modifies c
    ensures forall r, n | 0 <= r < Routes(g) && 0 <= n < g.N && Placed(al, r) ::
              Cell(c, Routes(g), g.N, r, n) == RouteValue(g, r, n)
    ensures forall r, n | 0 <= r < Routes(g) && 0 <= n < g.N && !Placed(al, r) ::
              Cell(c, Routes(g), g.N, r, n) == old(Cell(c, Routes(g), g.N, r, n))
    ensures forall x: nat | x < c.Length :: c[x] == AfterLaunch(g, al, old(c[..]), x)
  {
    RunPrograms(g, al, blk, order, c);
    hide RouteValue, LaunchM, LaunchN, Placed, ValidLaunch;
    forall x: nat | x < c.Length
      ensures c[x] == AfterLaunch(g, al, old(c[..]), x)
    {
      if x < Routes(g) * g.N {
        FlatIndex(Routes(g), g.N, x);
        if Placed(al, x / g.N) {
          assert Cell(c, Routes(g), g.N, x / g.N, x % g.N) == RouteValue(g, x / g.N, x % g.N);
        } else {
          assert Cell(c, Routes(g), g.N, x / g.N, x % g.N) == old(Cell(c, Routes(g), g.N, x / g.N, x % g.N));
        }
      }
    }
  }
}
