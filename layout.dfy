/** Row-major layout of a rectangle of cells in one flat sequence, as the solvers' `Vec`s hold them. */
module Layout {

  /** The rows of a rectangle laid out one after the other. */
  function Flatten<T>(rows: seq<seq<T>>): seq<T>
  {
    if rows == [] then [] else Flatten(rows[..|rows| - 1]) + rows[|rows| - 1]
  }

  /** Appending a row to the rows appends its cells to the flat layout. */
  lemma FlattenAppend<T>(rows: seq<seq<T>>, row: seq<T>)
    ensures Flatten(rows + [row]) == Flatten(rows) + row
  {
    assert (rows + [row])[..|rows|] == rows;
  }

  /** Cell (x, y) of a width-w rectangle lies at y * w + x, inside the flat sequence. */
  lemma IndexInRange(x: int, y: int, w: int, h: int)
    requires 0 <= x < w && 0 <= y < h
    ensures 0 <= y * w + x < h * w
  {
    assert y * w <= (h - 1) * w by {
      MulMonotone(y, h - 1, w);
    }
    assert (h - 1) * w + w == h * w;
  }

  /** Every cell of column x of a width-w, height-h rectangle lies inside the flat sequence. */
  lemma ColumnInRange(x: int, w: int, h: int)
    requires 0 <= x < w
    ensures forall y :: 0 <= y < h ==> 0 <= y * w + x < h * w
  {
    forall y | 0 <= y < h ensures 0 <= y * w + x < h * w {
      IndexInRange(x, y, w, h);
    }
  }

  /**
   * The flat position of cell (x, y) of a width-w rectangle, counted one row at a time;
   * it is y * w + x (OffsetIsProduct).
   */
  function Offset(x: int, y: nat, w: int): int {
    if y == 0 then x else Offset(x, y - 1, w) + w
  }

  lemma {:induction false} OffsetIsProduct(x: int, y: nat, w: int)
    ensures Offset(x, y, w) == y * w + x
  {
    if y > 0 {
      OffsetIsProduct(x, y - 1, w);
      assert (y - 1) * w + w == y * w;
    }
  }

  /** Cell (x, y) of a width-w, height-h rectangle lies inside its h * w flat cells. */
  lemma OffsetInRange(x: int, y: nat, w: int, h: int)
    requires 0 <= x < w && y < h
    ensures 0 <= Offset(x, y, w) < h * w
  {
    OffsetIsProduct(x, y, w);
    IndexInRange(x, y, w, h);
  }

  /** Distinct in-range cells have distinct flat positions. */
  lemma OffsetInjective(x: int, y: nat, x': int, y': nat, w: int)
    requires 0 <= x < w && 0 <= x' < w
    requires Offset(x, y, w) == Offset(x', y', w)
    ensures x == x' && y == y'
  {
    OffsetIsProduct(x, y, w);
    OffsetIsProduct(x', y', w);
    IndexInjective(x, y, x', y', w);
  }

  /** Two in-range cells share a flat index only if they are the same cell. */
  lemma IndexInjective(x: int, y: int, x': int, y': int, w: int)
    requires 0 <= x < w && 0 <= x' < w && 0 <= y && 0 <= y'
    requires y * w + x == y' * w + x'
    ensures x == x' && y == y'
  {
    if y < y' {
      RowsApart(y, y', w);
    } else if y' < y {
      RowsApart(y', y, w);
    }
  }

  /** A later row starts at least one full row after an earlier one. */
  lemma RowsApart(y: int, y': int, w: int)
    requires 0 <= y < y' && 0 <= w
    ensures y * w + w <= y' * w
  {
    MulMonotone(y + 1, y', w);
    assert (y + 1) * w == y * w + w;
  }

  lemma MulMonotone(a: int, b: int, w: int)
    requires 0 <= a <= b && 0 <= w
    ensures a * w <= b * w
  {
  }

  /** Rows that all have width w flatten to |rows| * w cells. */
  lemma {:induction false} FlattenLength<T>(rows: seq<seq<T>>, w: nat)
    requires forall y :: 0 <= y < |rows| ==> |rows[y]| == w
    ensures |Flatten(rows)| == |rows| * w
  {
    if rows != [] {
      var n := |rows| - 1;
      FlattenLength(rows[..n], w);
      assert n * w + w == |rows| * w;
    }
  }
}
