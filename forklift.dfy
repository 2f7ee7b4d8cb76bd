/**
 * The paper-roll floor map (4/forklift): a row-major grid of cells, each holding a roll
 * or empty, from which the forklift removes every roll that has fewer than `t` rolls
 * among its eight neighbours, pass after pass, until a pass removes nothing.
 */
module Forklift {
  import opened Wrappers
  import opened Ascii
  import Layout

  /**
   * A width x height grid stored row after row: cell (x, y) is cells[y * width + x],
   * written Layout.Offset(x, y, width).
   */
  datatype Grid = Grid(width: nat, height: nat, cells: seq<bool>)
  {
    predicate Valid() {
      |cells| == height * width
    }

    predicate InBounds(x: int, y: int) {
      0 <= x < width && 0 <= y < height
    }

    /** Whether (x, y) holds a roll; nothing lies off the grid. */
    function At(x: int, y: int): bool
      requires Valid()
    {
      if !InBounds(x, y) then false
      else
        Layout.OffsetInRange(x, y, width, height);
        cells[Layout.Offset(x, y, width)]
    }

    /** The grid with the roll at (x, y), if any, taken away. */
    function Free(x: int, y: int): (g: Grid)
      requires Valid() && InBounds(x, y)
      ensures g.Valid() && g.width == width && g.height == height
    {
      Layout.OffsetInRange(x, y, width, height);
      Grid(width, height, cells[Layout.Offset(x, y, width) := false])
    }
  }

  /** Cell (x, y) of the grid is entry y * width + x of its row-major cells. */
  lemma AtRowMajor(g: Grid, x: int, y: int)
    requires g.Valid() && g.InBounds(x, y)
    ensures 0 <= y * g.width + x < |g.cells| && g.At(x, y) == g.cells[y * g.width + x]
  {
    Layout.OffsetInRange(x, y, g.width, g.height);
    Layout.OffsetIsProduct(x, y, g.width);
  }

  /** Freeing (x, y) empties that cell and leaves every other cell, on or off the grid, as it was. */
  lemma FreeClearsOneCell(g: Grid, x: int, y: int)
    requires g.Valid() && g.InBounds(x, y)
    ensures forall a, b :: g.Free(x, y).At(a, b) == (g.At(a, b) && (a != x || b != y))
  {
    forall a, b ensures g.Free(x, y).At(a, b) == (g.At(a, b) && (a != x || b != y)) {
      if g.InBounds(a, b) {
        Layout.OffsetInRange(a, b, g.width, g.height);
        Layout.OffsetInRange(x, y, g.width, g.height);
        if Layout.Offset(a, b, g.width) == Layout.Offset(x, y, g.width) {
          Layout.OffsetInjective(a, b, x, y, g.width);
        }
      }
    }
  }

  // ---------------------------------------------------------------------------
  // Counting rolls

  /** The number of rolls (true cells) among s[0] .. s[n - 1]. */
  function OccupiedUpTo(s: seq<bool>, n: nat): nat
    requires n <= |s|
  {
    if n == 0 then 0 else OccupiedUpTo(s, n - 1) + (if s[n - 1] then 1 else 0)
  }

  /** The number of rolls (true cells) in a sequence of cells. */
  function Occupied(s: seq<bool>): nat {
    OccupiedUpTo(s, |s|)
  }

  lemma {:induction false} ClearOccupiedUpTo(s: seq<bool>, i: nat, n: nat)
    requires i < |s| && n <= |s|
    ensures OccupiedUpTo(s[i := false], n) == OccupiedUpTo(s, n) - (if i < n && s[i] then 1 else 0)
  {
    if n > 0 {
      ClearOccupiedUpTo(s, i, n - 1);
    }
  }

  /** Clearing one cell removes exactly one roll if it held one, and none otherwise. */
  lemma ClearOccupied(s: seq<bool>, i: nat)
    requires i < |s|
    ensures Occupied(s[i := false]) == Occupied(s) - (if s[i] then 1 else 0)
  {
    ClearOccupiedUpTo(s, i, |s|);
  }

  /** `after` arises from `before` by clearing cells only: no empty cell gained a roll. */
  predicate OnlyCleared(after: seq<bool>, before: seq<bool>) {
    |after| == |before| && forall i :: 0 <= i < |after| && after[i] ==> before[i]
  }

  // ---------------------------------------------------------------------------
  // Neighbours

  /** 1 when (x, y) holds a roll, else 0. */
  function Roll(g: Grid, x: int, y: int): nat
    requires g.Valid()
  {
    if g.At(x, y) then 1 else 0
  }

  /** What the offset (dx, dy) adds to the count of `count_neighbors`: nothing for the cell itself. */
  function OffsetRoll(g: Grid, x: int, y: int, dx: int, dy: int): nat
    requires g.Valid()
  {
    if dx == 0 && dy == 0 then 0 else Roll(g, x + dx, y + dy)
  }

  /** The dx of offset number i (0 <= i < 9), in the order of `count_neighbors`: dx outer, dy inner. */
  function OffsetDx(i: int): int {
    if i < 3 then -1 else if i < 6 then 0 else 1
  }

  /** The dy of offset number i. */
  function OffsetDy(i: int): int {
    i - 3 * (OffsetDx(i) + 1) - 1
  }

  /** What the first k of the nine offsets add up to, in the order `count_neighbors` visits them. */
  function OffsetsCount(g: Grid, x: int, y: int, k: nat): nat
    requires g.Valid() && k <= 9
  {
    if k == 0 then 0 else OffsetsCount(g, x, y, k - 1) + OffsetRoll(g, x, y, OffsetDx(k - 1), OffsetDy(k - 1))
  }

  /** The number of rolls around (x, y): all nine offsets, the centre adding nothing. */
  function NeighborCount(g: Grid, x: int, y: int): nat
    requires g.Valid()
  {
    OffsetsCount(g, x, y, 9)
  }

  /** The neighbour count is the number of rolls among the eight cells around (x, y), so at most 8. */
  lemma NeighborCountIsEightCells(g: Grid, x: int, y: int)
    requires g.Valid()
    ensures NeighborCount(g, x, y) ==
              Roll(g, x - 1, y - 1) + Roll(g, x - 1, y) + Roll(g, x - 1, y + 1)
              + Roll(g, x, y - 1) + Roll(g, x, y + 1)
              + Roll(g, x + 1, y - 1) + Roll(g, x + 1, y) + Roll(g, x + 1, y + 1)
    ensures NeighborCount(g, x, y) <= 8
  {
    OffsetsCountStep(g, x, y, -1, -1);
    OffsetsCountStep(g, x, y, -1, 0);
    OffsetsCountStep(g, x, y, -1, 1);
    OffsetsCountStep(g, x, y, 0, -1);
    OffsetsCountStep(g, x, y, 0, 0);
    OffsetsCountStep(g, x, y, 0, 1);
    OffsetsCountStep(g, x, y, 1, -1);
    OffsetsCountStep(g, x, y, 1, 0);
    OffsetsCountStep(g, x, y, 1, 1);
  }

  /** Offset (dx, dy) is the one `count_neighbors` adds after the 3 * (dx + 1) + (dy + 1) before it. */
  lemma OffsetsCountStep(g: Grid, x: int, y: int, dx: int, dy: int)
    requires g.Valid() && -1 <= dx <= 1 && -1 <= dy <= 1
    ensures OffsetsCount(g, x, y, 3 * (dx + 1) + (dy + 1) + 1)
         == OffsetsCount(g, x, y, 3 * (dx + 1) + (dy + 1)) + OffsetRoll(g, x, y, dx, dy)
  {
    var i := 3 * (dx + 1) + (dy + 1);
    assert OffsetDx(i) == dx && OffsetDy(i) == dy;
  }

  // ---------------------------------------------------------------------------
  // Which rolls can go

  /** A roll the forklift can take: (x, y) holds a roll with fewer than t rolls around it. */
  predicate Freeable(g: Grid, t: nat, x: int, y: int)
    requires g.Valid()
  {
    g.At(x, y) && NeighborCount(g, x, y) < t
  }

  /** No roll of the grid can be taken. */
  predicate Settled(g: Grid, t: nat)
    requires g.Valid()
  {
    forall x, y :: 0 <= x < g.width && 0 <= y < g.height ==> !Freeable(g, t, x, y)
  }

  /** The freeable cells among (x, 0) .. (x, k - 1). */
  function ColumnFreeCount(g: Grid, t: nat, x: int, k: nat): nat
    requires g.Valid()
  {
    if k == 0 then 0 else ColumnFreeCount(g, t, x, k - 1) + (if Freeable(g, t, x, k - 1) then 1 else 0)
  }

  /** The freeable cells of columns 0 .. k - 1. */
  function FreeCountUpTo(g: Grid, t: nat, k: nat): nat
    requires g.Valid()
  {
    if k == 0 then 0 else FreeCountUpTo(g, t, k - 1) + ColumnFreeCount(g, t, k - 1, g.height)
  }

  /** The freeable cells of the grid. */
  function FreeCount(g: Grid, t: nat): nat
    requires g.Valid()
  {
    FreeCountUpTo(g, t, g.width)
  }

  lemma {:induction false} ColumnFreeCountZero(g: Grid, t: nat, x: int, k: nat)
    requires g.Valid()
    ensures ColumnFreeCount(g, t, x, k) == 0 <==> forall y :: 0 <= y < k ==> !Freeable(g, t, x, y)
  {
    if k > 0 {
      ColumnFreeCountZero(g, t, x, k - 1);
    }
  }

  lemma {:induction false} FreeCountUpToZero(g: Grid, t: nat, k: nat)
    requires g.Valid() && k <= g.width
    ensures FreeCountUpTo(g, t, k) == 0 <==> forall x, y :: 0 <= x < k && 0 <= y < g.height ==> !Freeable(g, t, x, y)
  {
    if k > 0 {
      FreeCountUpToZero(g, t, k - 1);
      ColumnFreeCountZero(g, t, k - 1, g.height);
    }
  }

  /** `count_free` returns 0 exactly when no roll can be taken. */
  lemma FreeCountZeroIffSettled(g: Grid, t: nat)
    requires g.Valid()
    ensures FreeCount(g, t) == 0 <==> Settled(g, t)
  {
    FreeCountUpToZero(g, t, g.width);
  }

  // ---------------------------------------------------------------------------
  // The marking pass: x outer, y inner, each visit seeing the rolls already taken

  /** One visit of `count_and_mark_free`: take the roll at (x, y) if the grid as it now is allows. */
  function Visit(g: Grid, t: nat, x: int, y: int): (g': Grid)
    requires g.Valid() && g.InBounds(x, y)
    ensures g'.Valid() && g'.width == g.width && g'.height == g.height
  {
    if Freeable(g, t, x, y) then g.Free(x, y) else g
  }

  /** The visits of (x, 0) .. (x, k - 1), in that order. */
  function ColumnPass(g: Grid, t: nat, x: int, k: nat): (g': Grid)
    requires g.Valid() && 0 <= x < g.width && k <= g.height
    ensures g'.Valid() && g'.width == g.width && g'.height == g.height
  {
    if k == 0 then g else Visit(ColumnPass(g, t, x, k - 1), t, x, k - 1)
  }

  /** The column passes of columns 0 .. k - 1, in that order. */
  function PassUpTo(g: Grid, t: nat, k: nat): (g': Grid)
    requires g.Valid() && k <= g.width
    ensures g'.Valid() && g'.width == g.width && g'.height == g.height
  {
    if k == 0 then g else ColumnPass(PassUpTo(g, t, k - 1), t, k - 1, g.height)
  }

  /** One whole pass of `count_and_mark_free`. */
  function Pass(g: Grid, t: nat): (g': Grid)
    requires g.Valid()
    ensures g'.Valid() && g'.width == g.width && g'.height == g.height
  {
    PassUpTo(g, t, g.width)
  }

  /** A visit takes one roll when the cell is freeable and none otherwise. */
  lemma VisitOccupied(g: Grid, t: nat, x: int, y: int)
    requires g.Valid() && g.InBounds(x, y)
    ensures Occupied(Visit(g, t, x, y).cells) == Occupied(g.cells) - (if Freeable(g, t, x, y) then 1 else 0)
    ensures OnlyCleared(Visit(g, t, x, y).cells, g.cells)
  {
    Layout.OffsetInRange(x, y, g.width, g.height);
    ClearOccupied(g.cells, Layout.Offset(x, y, g.width));
  }

  lemma {:induction false} ColumnPassShrinks(g: Grid, t: nat, x: int, k: nat)
    requires g.Valid() && 0 <= x < g.width && k <= g.height
    ensures Occupied(ColumnPass(g, t, x, k).cells) <= Occupied(g.cells)
    ensures OnlyCleared(ColumnPass(g, t, x, k).cells, g.cells)
  {
    if k > 0 {
      ColumnPassShrinks(g, t, x, k - 1);
      VisitOccupied(ColumnPass(g, t, x, k - 1), t, x, k - 1);
    }
  }

  lemma {:induction false} PassUpToShrinks(g: Grid, t: nat, k: nat)
    requires g.Valid() && k <= g.width
    ensures Occupied(PassUpTo(g, t, k).cells) <= Occupied(g.cells)
    ensures OnlyCleared(PassUpTo(g, t, k).cells, g.cells)
  {
    if k > 0 {
      PassUpToShrinks(g, t, k - 1);
      ColumnPassShrinks(PassUpTo(g, t, k - 1), t, k - 1, g.height);
    }
  }

  /** A pass never puts a roll anywhere, so it never raises the number of rolls. */
  lemma PassShrinks(g: Grid, t: nat)
    requires g.Valid()
    ensures Occupied(Pass(g, t).cells) <= Occupied(g.cells)
    ensures OnlyCleared(Pass(g, t).cells, g.cells)
  {
    PassUpToShrinks(g, t, g.width);
  }

  /** A column without freeable cells is left as it was. */
  lemma {:induction false} ColumnPassUnchanged(g: Grid, t: nat, x: int, k: nat)
    requires g.Valid() && 0 <= x < g.width && k <= g.height
    requires ColumnFreeCount(g, t, x, k) == 0
    ensures ColumnPass(g, t, x, k) == g
  {
    if k > 0 {
      ColumnPassUnchanged(g, t, x, k - 1);
      assert !Freeable(g, t, x, k - 1);
    }
  }

  /** A column pass that takes nothing found no freeable cell in the column. */
  lemma {:induction false} ColumnPassIdle(g: Grid, t: nat, x: int, k: nat)
    requires g.Valid() && 0 <= x < g.width && k <= g.height
    requires Occupied(ColumnPass(g, t, x, k).cells) == Occupied(g.cells)
    ensures ColumnFreeCount(g, t, x, k) == 0
  {
    if k > 0 {
      var before := ColumnPass(g, t, x, k - 1);
      assert Occupied(before.cells) == Occupied(g.cells) && !Freeable(before, t, x, k - 1) by {
        ColumnPassShrinks(g, t, x, k - 1);
        VisitOccupied(before, t, x, k - 1);
      }
      assert ColumnFreeCount(g, t, x, k - 1) == 0 by {
        ColumnPassIdle(g, t, x, k - 1);
      }
      assert before == g by {
        ColumnPassUnchanged(g, t, x, k - 1);
      }
    }
  }

  /** Columns without freeable cells are left as they were. */
  lemma {:induction false} PassUpToUnchanged(g: Grid, t: nat, k: nat)
    requires g.Valid() && k <= g.width
    requires FreeCountUpTo(g, t, k) == 0
    ensures PassUpTo(g, t, k) == g
  {
    if k > 0 {
      PassUpToUnchanged(g, t, k - 1);
      ColumnPassUnchanged(g, t, k - 1, g.height);
    }
  }

  /** Column passes that take nothing found no freeable cell in those columns. */
  lemma {:induction false} PassUpToIdle(g: Grid, t: nat, k: nat)
    requires g.Valid() && k <= g.width
    requires Occupied(PassUpTo(g, t, k).cells) == Occupied(g.cells)
    ensures FreeCountUpTo(g, t, k) == 0
  {
    if k > 0 {
      var before := PassUpTo(g, t, k - 1);
      assert Occupied(before.cells) == Occupied(g.cells) by {
        PassUpToShrinks(g, t, k - 1);
        ColumnPassShrinks(before, t, k - 1, g.height);
      }
      assert FreeCountUpTo(g, t, k - 1) == 0 by {
        PassUpToIdle(g, t, k - 1);
      }
      assert before == g by {
        PassUpToUnchanged(g, t, k - 1);
      }
      ColumnPassIdle(g, t, k - 1, g.height);
    }
  }

  /**
   * A pass takes no roll exactly when `count_free` is 0 (so the loop of
   * `count_and_mark_exhaust` stops exactly on a settled grid), and such a pass changes nothing.
   */
  lemma PassIdleIffNoneFree(g: Grid, t: nat)
    requires g.Valid()
    ensures Occupied(Pass(g, t).cells) == Occupied(g.cells) <==> FreeCount(g, t) == 0
    ensures FreeCount(g, t) == 0 ==> Pass(g, t) == g
  {
    if FreeCount(g, t) == 0 {
      PassUpToUnchanged(g, t, g.width);
    }
    if Occupied(Pass(g, t).cells) == Occupied(g.cells) {
      PassUpToIdle(g, t, g.width);
    }
  }

  /** Passes repeated until one takes nothing: what `count_and_mark_exhaust` leaves behind. */
  function Exhaust(g: Grid, t: nat): (g': Grid)
    requires g.Valid()
    ensures g'.Valid() && g'.width == g.width && g'.height == g.height
    decreases Occupied(g.cells)
  {
    var next := Pass(g, t);
    PassShrinks(g, t);
    if Occupied(next.cells) == Occupied(g.cells) then next else Exhaust(next, t)
  }

  /** After the passes no roll can be taken, and every cell that ends up holding a roll held one before. */
  lemma {:induction false} ExhaustSettles(g: Grid, t: nat)
    requires g.Valid()
    ensures FreeCount(Exhaust(g, t), t) == 0 && Settled(Exhaust(g, t), t)
    ensures OnlyCleared(Exhaust(g, t).cells, g.cells)
    decreases Occupied(g.cells)
  {
    var next := Pass(g, t);
    PassShrinks(g, t);
    PassIdleIffNoneFree(g, t);
    if Occupied(next.cells) != Occupied(g.cells) {
      ExhaustSettles(next, t);
    }
    FreeCountZeroIffSettled(Exhaust(g, t), t);
  }

  // ---------------------------------------------------------------------------
  // The map object

  /** `FloorMap`: the grid's dimensions are fixed, its cells are cleared in place. */
  class FloorMap {
    const width: nat
    const height: nat
    const cells: array<bool>

    predicate Valid() {
      cells.Length == height * width
    }

    /** The map as a grid value. */
    function Contents(): Grid
      reads cells
    {
      Grid(width, height, cells[..])
    }

    /** The map a parse produced. */
    constructor (g: Grid)
      requires g.Valid()
      ensures Valid() && Contents() == g && fresh(cells)
    {
      width := g.width;
      height := g.height;
      cells := new bool[|g.cells|](i requires 0 <= i < |g.cells| => g.cells[i]);
      new;
      assert cells[..] == g.cells;
    }

    /** `map_val`: false off the grid, the stored cell on it. */
    function MapVal(x: int, y: int): (v: bool)
      requires Valid()
      reads cells
      ensures !(0 <= x < width && 0 <= y < height) ==> !v
      ensures v == Contents().At(x, y)
    {
      if x < 0 || x >= width || y < 0 || y >= height then false
      else
        Layout.IndexInRange(x, y, width, height);
        Layout.OffsetIsProduct(x, y, width);
        cells[y * width + x]
    }

    /** `free_val`: clears cell (x, y) and nothing else. */
    method FreeVal(x: int, y: int)
      requires Valid() && 0 <= x < width && 0 <= y < height
      modifies cells
      ensures 0 <= y * width + x < cells.Length
      ensures cells[..] == old(cells[..])[y * width + x := false]
      ensures Contents() == old(Contents()).Free(x, y)
    {
      Layout.IndexInRange(x, y, width, height);
      Layout.OffsetIsProduct(x, y, width);
      cells[y * width + x] := false;
    }

    /** `count_neighbors`: the rolls among the eight cells around (x, y). */
    method CountNeighbors(x: int, y: int) returns (n: nat)
      requires Valid() && 0 <= x < width && 0 <= y < height
      ensures n == NeighborCount(Contents(), x, y) && n <= 8
    {
      ghost var g := Contents();
      n := 0;
      for dx := -1 to 2
        invariant n == OffsetsCount(g, x, y, 3 * (dx + 1))
      {
        for dy := -1 to 2
          invariant n == OffsetsCount(g, x, y, 3 * (dx + 1) + (dy + 1))
        {
          var v := MapVal(x + dx, y + dy);
          OffsetsCountStep(g, x, y, dx, dy);
          n := n + if dx == 0 && dy == 0 then 0 else if v then 1 else 0;
        }
      }
      NeighborCountIsEightCells(g, x, y);
    }

    /** `count_free`: how many rolls could be taken, without taking any. */
    method CountFree(t: nat) returns (count: nat)
      requires Valid()
      ensures count == FreeCount(Contents(), t)
    {
      ghost var g := Contents();
      count := 0;
      for x := 0 to width
        invariant count == FreeCountUpTo(g, t, x)
      {
        for y := 0 to height
          invariant count == FreeCountUpTo(g, t, x) + ColumnFreeCount(g, t, x, y)
        {
          if MapVal(x, y) {
            var n := CountNeighbors(x, y);
            if n < t {
              count := count + 1;
            }
          }
        }
      }
    }

    /** One visit: take the roll at (x, y) if the map as it now is allows. */
    method MarkCell(t: nat, x: int, y: int) returns (taken: bool)
      requires Valid() && 0 <= x < width && 0 <= y < height
      modifies cells
      ensures Contents() == Visit(old(Contents()), t, x, y)
      ensures taken == Freeable(old(Contents()), t, x, y)
    {
      taken := false;
      if MapVal(x, y) {
        var n := CountNeighbors(x, y);
        if n < t {
          taken := true;
          FreeVal(x, y);
        }
      }
    }

    /**
     * `count_and_mark_free`: one pass, x outer and y inner, taking every roll that is
     * freeable when visited; returns how many rolls it took.
     */
    method CountAndMarkFree(t: nat) returns (freed: nat)
      requires Valid()
      modifies cells
      ensures Contents() == Pass(old(Contents()), t)
      ensures freed == Occupied(old(cells[..])) - Occupied(cells[..])
    {
      ghost var g0 := Contents();
      freed := 0;
      for x := 0 to width
        invariant Contents() == PassUpTo(g0, t, x)
        invariant freed == Occupied(g0.cells) - Occupied(cells[..])
      {
        ghost var start := Contents();
        for y := 0 to height
          invariant Contents() == ColumnPass(start, t, x, y)
          invariant freed == Occupied(g0.cells) - Occupied(cells[..])
        {
          ghost var before := Contents();
          VisitOccupied(before, t, x, y);
          var taken := MarkCell(t, x, y);
          if taken {
            freed := freed + 1;
          }
        }
      }
    }

    /**
     * `count_and_mark_exhaust`: passes until one takes nothing; returns how many rolls
     * were taken in all, and leaves a map where no roll can be taken.
     */
    method CountAndMarkExhaust(t: nat) returns (total: nat)
      requires Valid()
      modifies cells
      ensures Contents() == Exhaust(old(Contents()), t)
      ensures total == Occupied(old(cells[..])) - Occupied(cells[..])
      ensures FreeCount(Contents(), t) == 0
      ensures forall i :: 0 <= i < cells.Length && cells[i] ==> old(cells[i])
    {
      ghost var g0 := Contents();
      total := 0;
      while true
        invariant Exhaust(Contents(), t) == Exhaust(g0, t)
        invariant total == Occupied(g0.cells) - Occupied(cells[..])
        decreases Occupied(cells[..])
      {
        ghost var before := Contents();
        var passFreed := CountAndMarkFree(t);
        PassShrinks(before, t);
        if passFreed == 0 {
          break;
        }
        total := total + passFreed;
      }
      ExhaustSettles(g0, t);
    }
  }

  // ---------------------------------------------------------------------------
  // Reading the map

  datatype MapError =
    | NoLines
    | UnexpectedInput(c: byte)
    | LineTooWide(expected: nat)
    | MismatchedWidth(got: nat, expected: nat)

  /** A map byte: '@' is a roll, '.' an empty cell. */
  predicate IsCell(c: byte) {
    c == AT || c == DOT
  }

  predicate MapLine(line: seq<byte>) {
    forall k :: 0 <= k < |line| ==> IsCell(line[k])
  }

  /** The cells of one line of the map. */
  function Row(line: seq<byte>): (r: seq<bool>)
    requires MapLine(line)
    ensures |r| == |line|
    ensures forall k :: 0 <= k < |line| ==> r[k] == (line[k] == AT)
  {
    seq(|line|, k requires 0 <= k < |line| => line[k] == AT)
  }

  /**
   * The input rule: at least one line, every byte '@' or '.', and every line after the
   * first as wide as the first, except that the last line may be empty.
   */
  predicate WellFormed(lines: seq<seq<byte>>) {
    && |lines| >= 1
    && (forall i :: 0 <= i < |lines| ==> MapLine(lines[i]))
    && (forall i :: 1 <= i < |lines| ==>
          |lines[i]| == |lines[0]| || (i == |lines| - 1 && |lines[i]| == 0))
  }

  /** The number of rows: every line but a final empty one. */
  function RowCount(lines: seq<seq<byte>>): nat
    requires |lines| >= 1
  {
    if |lines| >= 2 && |lines[|lines| - 1]| == 0 then |lines| - 1 else |lines|
  }

  /** `process_line`: the cells of one line, at most `expected` of them when given. */
  method ProcessLine(line: seq<byte>, expected: Option<nat>) returns (r: Result<seq<bool>, MapError>)
    ensures r.Ok? <==> MapLine(line) && (expected.Some? ==> |line| <= expected.value)
    ensures r.Ok? ==> r.value == Row(line)
  {
    var row: seq<bool> := [];
    var w := 0;
    for k := 0 to |line|
      invariant w == k == |row|
      invariant MapLine(line[..k])
      invariant forall m :: 0 <= m < k ==> row[m] == (line[m] == AT)
      invariant expected.Some? ==> w <= expected.value
    {
      var c := line[k];
      if c == AT {
        row := row + [true];
      } else if c == DOT {
        row := row + [false];
      } else {
        return Err(UnexpectedInput(c));
      }
      w := w + 1;
      if expected.Some? && w > expected.value {
        return Err(LineTooWide(expected.value));
      }
      assert line[..k + 1] == line[..k] + [c];
    }
    assert line[..|line|] == line;
    return Ok(row);
  }

  /** The cell rows of lines 0 .. n - 1. */
  function Rows(lines: seq<seq<byte>>, n: nat): seq<seq<bool>>
    requires n <= |lines| && forall i :: 0 <= i < n ==> MapLine(lines[i])
  {
    seq(n, i requires 0 <= i < n => Row(lines[i]))
  }

  /** The cells of lines 0 .. n - 1, stored row after row. */
  function Stored(lines: seq<seq<byte>>, n: nat): seq<bool>
    requires n <= |lines| && forall i :: 0 <= i < n ==> MapLine(lines[i])
  {
    Layout.Flatten(Rows(lines, n))
  }

  /** Storing one more line appends its cells. */
  lemma StoredStep(lines: seq<seq<byte>>, n: nat)
    requires 0 < n <= |lines| && forall i :: 0 <= i < n ==> MapLine(lines[i])
    ensures Stored(lines, n) == Stored(lines, n - 1) + Row(lines[n - 1])
  {
    assert Rows(lines, n)[..n - 1] == Rows(lines, n - 1);
  }

  /** Lines of width w store n * w cells. */
  lemma StoredLength(lines: seq<seq<byte>>, n: nat, w: nat)
    requires n <= |lines| && forall i :: 0 <= i < n ==> MapLine(lines[i]) && |lines[i]| == w
    ensures |Stored(lines, n)| == n * w
  {
    Layout.FlattenLength(Rows(lines, n), w);
  }

  /** Byte x of line y is stored at y * w + x. */
  lemma {:induction false} StoredCell(lines: seq<seq<byte>>, n: nat, w: nat, y: nat, x: nat)
    requires n <= |lines| && forall i :: 0 <= i < n ==> MapLine(lines[i]) && |lines[i]| == w
    requires y < n && x < w
    ensures y * w + x < |Stored(lines, n)| && Stored(lines, n)[y * w + x] == (lines[y][x] == AT)
  {
    StoredLength(lines, n - 1, w);
    StoredLength(lines, n, w);
    StoredStep(lines, n);
    if y < n - 1 {
      StoredCell(lines, n - 1, w, y, x);
    } else {
      assert y * w == (n - 1) * w;
    }
  }

  /** What `new_from_lines` builds from well-formed lines. */
  function Parsed(lines: seq<seq<byte>>): Grid
    requires WellFormed(lines)
  {
    Grid(|lines[0]|, RowCount(lines), Stored(lines, RowCount(lines)))
  }

  /** The parsed map holds a roll at (x, y) exactly where line y has '@' at column x. */
  lemma ParsedMap(lines: seq<seq<byte>>)
    requires WellFormed(lines)
    ensures Parsed(lines).Valid()
    ensures forall x, y :: Parsed(lines).InBounds(x, y) ==> Parsed(lines).At(x, y) == (lines[y][x] == AT)
  {
    var n, w := RowCount(lines), |lines[0]|;
    var g := Parsed(lines);
    assert forall i :: 0 <= i < n ==> MapLine(lines[i]) && |lines[i]| == w;
    StoredLength(lines, n, w);
    forall x, y | g.InBounds(x, y) ensures g.At(x, y) == (lines[y][x] == AT) {
      StoredCell(lines, n, w, y, x);
      Layout.OffsetIsProduct(x, y, w);
    }
  }

  /**
   * The line rule of `new_from_lines`: the first line fixes the width, every later line
   * must match it (a final empty line ends the input), and the cells are stored row
   * after row, '@' as a roll.
   */
  method NewFromLines(lines: seq<seq<byte>>) returns (r: Result<Grid, MapError>)
    ensures r.Ok? <==> WellFormed(lines)
    ensures r.Ok? ==> r.value.Valid() && r.value == Parsed(lines)
  {
    if |lines| == 0 {
      return Err(NoLines);
    }
    var first := ProcessLine(lines[0], None);
    if first.Err? {
      return Err(first.error);
    }
    var width := |first.value|;
    var cells := first.value;
    var nlines := 1;
    StoredStep(lines, 1);
    while nlines < |lines|
      invariant 1 <= nlines <= |lines|
      invariant width == |lines[0]|
      invariant forall i :: 0 <= i < nlines ==> MapLine(lines[i]) && |lines[i]| == width
      invariant nlines == |lines| >= 2 ==> |lines[nlines - 1]| > 0
      invariant cells == Stored(lines, nlines)
      invariant |cells| == nlines * width
    {
      var processed := ProcessLine(lines[nlines], Some(width));
      if processed.Err? {
        return Err(processed.error);
      }
      var w := |processed.value|;
      if w == 0 && nlines + 1 == |lines| {
        break;
      }
      if w != width {
        return Err(MismatchedWidth(w, width));
      }
      cells := cells + processed.value;
      StoredStep(lines, nlines + 1);
      assert (nlines + 1) * width == nlines * width + width;
      nlines := nlines + 1;
    }
    return Ok(Grid(width, nlines, cells));
  }

  /** The bytes of a string of ASCII characters. */
  function AsciiBytes(s: string): (b: seq<byte>)
    requires forall i :: 0 <= i < |s| ==> s[i] as int < 256
    ensures |b| == |s| && forall i :: 0 <= i < |s| ==> b[i] as int == s[i] as int
  {
    seq(|s|, i requires 0 <= i < |s| => s[i] as byte)
  }

  /** The ten-line sample map of the tests. */
  function SampleLines(): seq<seq<byte>> {
    [
      AsciiBytes("..@@.@@@@."),
      AsciiBytes("@@@.@.@.@@"),
      AsciiBytes("@@@@@.@.@@"),
      AsciiBytes("@.@@@@..@."),
      AsciiBytes("@@.@@@@.@@"),
      AsciiBytes(".@@@@@@@.@"),
      AsciiBytes(".@.@.@.@@@"),
      AsciiBytes("@.@@@.@@@@"),
      AsciiBytes(".@@@@@@@@."),
      AsciiBytes("@.@.@@@.@.")
    ]
  }

  /** The sample is a well-formed map whose corner (0, 0) has rolls below and diagonally below it only. */
  lemma SampleCornerCells()
    ensures WellFormed(SampleLines())
    ensures var g := Parsed(SampleLines());
            g.Valid() && !g.At(1, 0) && g.At(0, 1) && g.At(1, 1)
  {
    var lines := SampleLines();
    assert WellFormed(lines);
    ParsedMap(lines);
    assert lines[0][1] == DOT && lines[1][0] == AT && lines[1][1] == AT;
  }

  /** So the corner (0, 0) of the sample has two rolls around it. */
  lemma SampleCorner()
    ensures WellFormed(SampleLines()) && Parsed(SampleLines()).Valid()
    ensures NeighborCount(Parsed(SampleLines()), 0, 0) == 2
  {
    SampleCornerCells();
    NeighborCountIsEightCells(Parsed(SampleLines()), 0, 0);
  }

  /** The test on the sample: read it, then count the rolls around the corner (0, 0). */
  method SampleCornerNeighbors() returns (n: nat)
    ensures n == 2
  {
    var lines := SampleLines();
    SampleCorner();
    var parsed := NewFromLines(lines);
    var floor := new FloorMap(parsed.value);
    n := floor.CountNeighbors(0, 0);
  }
}
