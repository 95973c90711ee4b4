/**
 * `EqualWidthGrid` (CareScreen.kt): a layout that gives every child the same
 * width, fills rows of `columns` children left to right, gives every row the
 * height of the tallest child, and separates columns and rows by `spacing`.
 * Sizes are whole pixels, as after `roundToPx()`.
 */
module Grid {

  /**
   * Kotlin's `Int / Int`, which truncates toward zero: the remainder `a - q * b`
   * takes the sign of `a` and is smaller than `b` in size.
   */
  function TruncDiv(a: int, b: int): (q: int)
    requires b > 0
    ensures a >= 0 ==> 0 <= a - q * b < b
    ensures a < 0 ==> -b < a - q * b <= 0
  {
    if a >= 0 then a / b
    else
      var p := (-a) / b;
      assert -a == p * b + (-a) % b;
      -p
  }

  /** `(maxWidth - (columns - 1) * spacing) / columns`. */
  function ColumnWidth(maxWidth: int, columns: int, spacing: int): int
    requires columns >= 1
  {
    TruncDiv(maxWidth - (columns - 1) * spacing, columns)
  }

  /** `ceil(n.toFloat() / columns).toInt()`: the number of rows, the last one possibly short. */
  function Rows(n: nat, columns: int): (rows: nat)
    requires columns >= 1
    ensures (rows - 1) * columns < n <= rows * columns || (n == 0 && rows == 0)
  {
    (n + columns - 1) / columns
  }

  /** `maxOfOrNull { it.height } ?: 0`. */
  function RowHeight(heights: seq<int>): (h: int)
    ensures forall i :: 0 <= i < |heights| ==> heights[i] <= h
    ensures heights == [] ==> h == 0
    ensures heights != [] ==> h in heights
  {
    if heights == [] then 0
    else if |heights| == 1 then heights[0]
    else
      var rest := RowHeight(heights[1..]);
      assert rest in heights;
      if heights[0] >= rest then heights[0] else rest
  }

  /** `rows * rowHeight + (rows - 1) * spacing`. */
  function TotalHeight(n: nat, columns: int, rowHeight: int, spacing: int): int
    requires columns >= 1
  {
    Rows(n, columns) * rowHeight + (Rows(n, columns) - 1) * spacing
  }

  /** With no children the reported height is minus one spacing. */
  lemma EmptyGridHeight(columns: int, rowHeight: int, spacing: int)
    requires columns >= 1
    ensures TotalHeight(0, columns, rowHeight, spacing) == -spacing
  {
  }

  datatype Position = Position(x: int, y: int)

  lemma {:induction false} MulNonneg(x: int, y: int)
    requires x >= 0 && y >= 0
    ensures x * y >= 0
    decreases x
  {
    if x > 0 {
      MulNonneg(x - 1, y);
      assert x * y == (x - 1) * y + y;
    }
  }

  lemma MulMonotone(a: int, b: int, c: int)
    requires a <= b && c >= 0
    ensures a * c <= b * c
  {
    MulNonneg(b - a, c);
    assert b * c - a * c == (b - a) * c;
  }

  /** Row `r`, column `k` is child `r * columns + k`. */
  lemma DivModRow(r: nat, columns: int, k: nat)
    requires columns >= 1 && k < columns
    ensures (r * columns + k) / columns == r && (r * columns + k) % columns == k
  {
    var a := r * columns + k;
    var q := a / columns;
    var m := a % columns;
    assert a == q * columns + m && 0 <= m < columns;
    if q > r {
      MulMonotone(r + 1, q, columns);
      assert false;
    } else if q < r {
      MulMonotone(q + 1, r, columns);
      assert false;
    }
  }

  /**
   * The placement block: `chunked(columns)` row by row, each child at the current
   * `x`, `x` advancing by a column and a spacing, `y` by a row and a spacing.
   */
  method Place(n: nat, columns: int, columnWidth: int, rowHeight: int, spacing: int) returns (placed: seq<Position>)
    requires columns >= 1
    ensures |placed| == n
    ensures forall i :: 0 <= i < n ==>
      placed[i] == Position((i % columns) * (columnWidth + spacing), (i / columns) * (rowHeight + spacing))
  {
    placed := [];
    var y := 0;
    var row: nat := 0;
    while row * columns < n
      invariant |placed| == row * columns <= n + columns
      invariant row * columns <= n || |placed| == n
      invariant y == row * (rowHeight + spacing)
      invariant forall i :: 0 <= i < |placed| ==>
        placed[i] == Position((i % columns) * (columnWidth + spacing), (i / columns) * (rowHeight + spacing))
      decreases n - |placed|
    {
      var x := 0;
      var k: nat := 0;
      while k < columns && row * columns + k < n
        invariant k <= columns
        invariant |placed| == row * columns + k <= n
        invariant x == k * (columnWidth + spacing)
        invariant forall i :: 0 <= i < |placed| ==>
          placed[i] == Position((i % columns) * (columnWidth + spacing), (i / columns) * (rowHeight + spacing))
      {
        DivModRow(row, columns, k);
        placed := placed + [Position(x, y)];
        x := x + columnWidth + spacing;
        k := k + 1;
      }
      if k < columns {
        return;
      }
      y := y + rowHeight + spacing;
      row := row + 1;
    }
  }

  /**
   * When the spacing is not negative and the width leaves room for the gaps,
   * every child's right edge stays within `maxWidth`.
   */
  lemma RightEdgeInside(maxWidth: int, columns: int, spacing: int, i: nat)
    requires columns >= 1 && spacing >= 0 && maxWidth >= (columns - 1) * spacing
    ensures var w := ColumnWidth(maxWidth, columns, spacing);
      w >= 0 && (i % columns) * (w + spacing) + w <= maxWidth
  {
    var a := maxWidth - (columns - 1) * spacing;
    var w := ColumnWidth(maxWidth, columns, spacing);
    assert w == a / columns;
    assert a == w * columns + a % columns;
    var c := i % columns;
    MulMonotone(c, columns - 1, w + spacing);
    assert (columns - 1) * (w + spacing) + w == w * columns + (columns - 1) * spacing;
  }

  /** Every child's bottom edge stays within the reported height. */
  lemma BottomEdgeInside(n: nat, columns: int, rowHeight: int, spacing: int, i: nat)
    requires columns >= 1 && rowHeight + spacing >= 0 && i < n
    ensures (i / columns) * (rowHeight + spacing) + rowHeight <= TotalHeight(n, columns, rowHeight, spacing)
  {
    var rows := Rows(n, columns);
    var r := i / columns;
    assert i == r * columns + i % columns;
    if r >= rows {
      MulMonotone(rows, r, columns);
      assert false;
    }
    MulMonotone(r, rows - 1, rowHeight + spacing);
    assert (rows - 1) * (rowHeight + spacing) + rowHeight == rows * rowHeight + (rows - 1) * spacing;
  }

  /**
   * Two different children never overlap: either their rows or their columns
   * are at least a cell apart.
   */
  lemma NoOverlap(columns: int, columnWidth: int, rowHeight: int, spacing: int, i: nat, j: nat)
    requires columns >= 1 && spacing >= 0 && columnWidth >= 0 && rowHeight >= 0 && i != j
    ensures var a := Position((i % columns) * (columnWidth + spacing), (i / columns) * (rowHeight + spacing));
      var b := Position((j % columns) * (columnWidth + spacing), (j / columns) * (rowHeight + spacing));
      a.x + columnWidth <= b.x || b.x + columnWidth <= a.x || a.y + rowHeight <= b.y || b.y + rowHeight <= a.y
  {
    var ri, rj, ci, cj := i / columns, j / columns, i % columns, j % columns;
    assert i == ri * columns + ci && j == rj * columns + cj;
    var cell, row := columnWidth + spacing, rowHeight + spacing;
    if ri == rj {
      if ci < cj {
        MulMonotone(ci + 1, cj, cell);
        assert (ci + 1) * cell == ci * cell + cell;
      } else {
        MulMonotone(cj + 1, ci, cell);
        assert (cj + 1) * cell == cj * cell + cell;
      }
    } else if ri < rj {
      MulMonotone(ri + 1, rj, row);
      assert (ri + 1) * row == ri * row + row;
    } else {
      MulMonotone(rj + 1, ri, row);
      assert (rj + 1) * row == rj * row + row;
    }
  }
}
