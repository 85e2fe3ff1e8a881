/** Where in the cell grid a pointer is. Arithmetic is over the reals; rounding is not modelled. */
module PointerCells {
  import opened Arithmetic

  datatype Geometry = Geometry(left: real, top: real, width: real, height: real, scaleX: real, scaleY: real, cols: int, rows: int)

  datatype Position = Position(col: int, row: int, xPx: int, yPx: int)

  /** JavaScript rounds a half up. */
  function Round(r: real): int { (r + 0.5).Floor }

  function Scale(scale: real): real { if scale > 0.0 then scale else 1.0 }

  function Cell(offset: real, extent: real, count: int): int
    requires extent != 0.0
  {
    MinInt(count - 1, MaxInt(0, ((offset / extent) * count as real).Floor))
  }

  function PointerPosition(clientX: real, clientY: real, g: Geometry): Position {
    var x, y := MaxReal(0.0, clientX - g.left), MaxReal(0.0, clientY - g.top);
    var xPx, yPx := Round(x * Scale(g.scaleX)), Round(y * Scale(g.scaleY));
    if g.width <= 0.0 || g.height <= 0.0 || g.cols <= 0 || g.rows <= 0 then Position(0, 0, xPx, yPx)
    else Position(Cell(x, g.width, g.cols), Cell(y, g.height, g.rows), xPx, yPx)
  }

  /** The cells divide the extent evenly: cell `cell` of `count` holds this offset. */
  predicate Contains(offset: real, extent: real, count: int, cell: int) {
    cell as real * extent <= offset * count as real < (cell + 1) as real * extent
  }

  lemma Ratio(offset: real, extent: real, count: int)
    requires extent > 0.0
    ensures ((offset / extent) * count as real) * extent == offset * count as real
  {
    assert (offset / extent) * extent == offset;
  }

  lemma Compared(q: real, extent: real, scaled: real, c: real)
    requires extent > 0.0 && q * extent == scaled
    ensures c <= q <==> c * extent <= scaled
    ensures q < c <==> scaled < c * extent
  {
    if c <= q { Ordered(c, q, extent); } else { Ordered(q, c, extent); }
  }

  lemma Ordered(a: real, b: real, c: real)
    requires c > 0.0 && a <= b
    ensures a * c <= b * c && (a < b ==> a * c < b * c)
  {
  }

  /** The offset's cell is the one of the grid that contains it, if any does; past the end it is the last. */
  lemma CellIff(offset: real, extent: real, count: int, cell: int)
    requires offset >= 0.0 && extent > 0.0 && 0 <= cell < count
    ensures Cell(offset, extent, count) == cell
      <==> Contains(offset, extent, count, cell) || (cell == count - 1 && offset * count as real >= count as real * extent)
  {
    var q := (offset / extent) * count as real;
    var scaled := offset * count as real;
    Ratio(offset, extent, count);
    NotNegative(offset, count as real);
    Compared(q, extent, scaled, 0.0);
    Compared(q, extent, scaled, cell as real);
    Compared(q, extent, scaled, (cell + 1) as real);
    Compared(q, extent, scaled, count as real);
    assert 0.0 * extent == 0.0;
    Clamped(q, count, cell);
  }

  lemma Clamped(q: real, count: int, cell: int)
    requires q >= 0.0 && 0 <= cell < count
    ensures MinInt(count - 1, MaxInt(0, q.Floor)) == cell
      <==> cell as real <= q < (cell + 1) as real || (cell == count - 1 && q >= count as real)
  {
  }

  /** Whatever the pointer does, the position is in the grid (the first cell of a grid without cells), at no
      negative pixel; left of or above the view it is in the first column or row. */
  lemma PositionInGrid(clientX: real, clientY: real, g: Geometry)
    ensures var p := PointerPosition(clientX, clientY, g);
      && 0 <= p.col < MaxInt(1, g.cols) && 0 <= p.row < MaxInt(1, g.rows) && p.xPx >= 0 && p.yPx >= 0
      && (clientX <= g.left ==> p.col == 0 && p.xPx == 0) && (clientY <= g.top ==> p.row == 0 && p.yPx == 0)
  {
    var x, y := MaxReal(0.0, clientX - g.left), MaxReal(0.0, clientY - g.top);
    NotNegative(x, Scale(g.scaleX));
    NotNegative(y, Scale(g.scaleY));
    if g.width > 0.0 && g.height > 0.0 && g.cols > 0 && g.rows > 0 {
      First(g.width, g.cols);
      First(g.height, g.rows);
    }
  }

  lemma NotNegative(a: real, b: real)
    requires a >= 0.0 && b > 0.0
    ensures a * b >= 0.0 && (a == 0.0 ==> a * b == 0.0)
  {
  }

  lemma First(extent: real, count: int)
    requires extent > 0.0 && count > 0
    ensures Cell(0.0, extent, count) == 0
  {
    assert 0.0 / extent == 0.0;
  }
}
