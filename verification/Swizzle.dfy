/** The grouped ordering of GEMM programs: a bijection between program ids and output tiles. */
module Swizzle {
  import opened DivMod

  /** Rows of tiles in the group that starts at row `first`. */
  function GroupRows(numM: int, group: int, first: int): int { Min(numM - first, group) }

  ghost predicate ValidGrid(numM: int, numN: int, group: int) {
    numM >= 0 && numN >= 0 && group > 0
  }

  function First(pid: int, numN: int, group: int): int
    requires numN > 0 && group > 0
  {
    Positive(group, numN);
    pid / (group * numN) * group
  }

  lemma Positive(a: int, b: int)
    requires a > 0 && b > 0
    ensures a * b > 0
  {
  }

  /** The part of a group's programs, and the group's tile rows, that a program id falls in. */
  lemma WithinGroup(pid: int, numM: int, numN: int, group: int)
    requires numN > 0 && group > 0 && 0 <= pid < numM * numN
    ensures group * numN > 0
    ensures 0 <= First(pid, numN, group) < numM
    ensures 0 <= pid % (group * numN) < GroupRows(numM, group, First(pid, numN, group)) * numN
  {
    Positive(group, numN);
    var width := group * numN;
    var g := pid / width;
    DivAtLeast(pid, width, 0);
    assert g * width == g * group * numN;
    if g * group >= numM {
      MulGe(g * group, numM, numN);
    }
    assert (numM - g * group) * numN == numM * numN - g * width;
  }

  /** pid -> (pid_m, pid_n), as every GEMM kernel computes it. */
  function Tile(pid: int, numM: int, numN: int, group: int): (int, int)
    requires numN > 0 && group > 0 && 0 <= pid < numM * numN
  {
    WithinGroup(pid, numM, numN, group);
    var within := pid % (group * numN);
    var first := First(pid, numN, group);
    var rows := GroupRows(numM, group, first);
    (first + within % rows, within / rows)
  }

  /** The program that computes a tile. */
  function ProgramOf(pm: int, pn: int, numM: int, numN: int, group: int): int
    requires group > 0
  {
    var first := pm / group * group;
    pm / group * (group * numN) + pn * GroupRows(numM, group, first) + (pm - first)
  }

  lemma TileInGrid(pid: int, numM: int, numN: int, group: int)
    requires numN > 0 && group > 0 && 0 <= pid < numM * numN
    ensures 0 <= Tile(pid, numM, numN, group).0 < numM
    ensures 0 <= Tile(pid, numM, numN, group).1 < numN
    ensures ProgramOf(Tile(pid, numM, numN, group).0, Tile(pid, numM, numN, group).1, numM, numN, group) == pid
  {
    WithinGroup(pid, numM, numN, group);
    var width := group * numN;
    var g, within := pid / width, pid % width;
    var first := First(pid, numN, group);
    var rows := GroupRows(numM, group, first);
    Split(within, rows, numN);
    DivUnique(first + within % rows, group, g, within % rows);
  }

  lemma Split(within: int, rows: int, numN: int)
    requires rows > 0 && 0 <= within < rows * numN
    ensures 0 <= within / rows < numN && within / rows * rows + within % rows == within
  {
    DivAtLeast(within, rows, 0);
    DivAtLeast(within, rows, numN);
    assert numN * rows == rows * numN;
  }

  lemma ProgramInGrid(pm: int, pn: int, numM: int, numN: int, group: int)
    requires group > 0 && 0 <= pm < numM && 0 <= pn < numN
    ensures 0 <= ProgramOf(pm, pn, numM, numN, group) < numM * numN
    ensures Tile(ProgramOf(pm, pn, numM, numN, group), numM, numN, group) == (pm, pn)
  {
    var g, off := pm / group, pm % group;
    var first := g * group;
    var rows := GroupRows(numM, group, first);
    DivAtLeast(pm, group, 0);
    MulGe(g, 0, group);
    Positive(group, numN);
    var width := group * numN;
    var within := pn * rows + off;
    WithinRows(pn, rows, off, numN);
    MulGe(group, rows, numN);
    assert within < width;
    var pid := g * width + within;
    assert pid == ProgramOf(pm, pn, numM, numN, group);
    DivUnique(pid, width, g, within);
    DivUnique(within, rows, pn, off);
    GroupInside(g, group, rows, numM, numN, within);
  }

  lemma GroupInside(g: int, group: int, rows: int, numM: int, numN: int, within: int)
    requires g * group >= 0 && g * group + rows <= numM && numN >= 0 && 0 <= within < rows * numN
    ensures 0 <= g * (group * numN) + within < numM * numN
  {
    var first := g * group;
    assert g * (group * numN) == first * numN;
    assert first * numN + rows * numN == (first + rows) * numN;
    MulGe(numM, first + rows, numN);
    MulGe(first, 0, numN);
  }

  lemma WithinRows(pn: int, rows: int, off: int, numN: int)
    requires 0 <= pn < numN && 0 <= off < rows
    ensures 0 <= pn * rows + off < rows * numN
  {
    MulGe(numN, pn + 1, rows);
    MulGe(pn, 0, rows);
    assert (pn + 1) * rows == pn * rows + rows;
  }
}
