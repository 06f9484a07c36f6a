/**
 * Engine schematic (day3/solve.ts): the grid of cells read from the input
 * lines, and the neighbourhood of a cell. A cell is a digit (Number), a '.'
 * (Space) or anything else (Symbol); numbers are runs of digit cells in a row.
 */
module SchematicGrid {
  import opened Text
  import opened Collections

  datatype Kind = Number | Space | Symbol

  /** A cell position (type CellPos). */
  datatype Pos = Pos(row: int, col: int)

  /** A grid cell (type Cell): `value` is present exactly on Number cells. */
  datatype Cell = Cell(kind: Kind, isStar: bool, value: Option<nat>, pos: Pos)

  /**
   * A number found in a row (type PartNumber): it spans the columns startCol
   * to endCol of its row, both included.
   */
  datatype PartNumber = PartNumber(row: int, startCol: int, endCol: int, length: int, value: nat)

  // ---------------------------------------------------------------------------
  // parseMap

  /** The callback of parseMap: the cell for character `c` at `pos`. */
  function Classify(c: char, pos: Pos): (cell: Cell)
    ensures cell.pos == pos
    ensures cell.kind == Number <==> IsDigit(c)
    ensures cell.kind == Space <==> c == '.'
    ensures cell.isStar <==> c == '*'
    ensures cell.isStar ==> cell.kind == Symbol
    ensures cell.kind == Number ==> cell.value.Some? && cell.value.value < 10 && DigitChar(cell.value.value) == c
    ensures cell.kind != Number ==> cell.value == None
  {
    if !IsDigit(c) then
      Cell(if c == '.' then Space else Symbol, c == '*', None, pos)
    else
      DigitRoundTrip(c, 0);
      Cell(Number, false, Some(DigitValue(c)), pos)
  }

  /** parseMap: one cell per character of line `rowIdx`, at its own position. */
  function ParseMap(x: string, rowIdx: int): (cells: seq<Cell>)
    ensures |cells| == |x|
    ensures forall c :: 0 <= c < |x| ==> cells[c] == Classify(x[c], Pos(rowIdx, c))
  {
    seq(|x|, c requires 0 <= c < |x| => Classify(x[c], Pos(rowIdx, c)))
  }

  /** The parser of the solver: parseMap applied to every line with its index. */
  function ParseGrid(lines: seq<string>): (grid: seq<seq<Cell>>)
    ensures |grid| == |lines|
    ensures forall r :: 0 <= r < |lines| ==> grid[r] == ParseMap(lines[r], r)
  {
    seq(|lines|, r requires 0 <= r < |lines| => ParseMap(lines[r], r))
  }

  /**
   * Every cell knows its own position, a Number cell holds one decimal digit
   * and a star is a Symbol.
   */
  predicate WellFormedGrid(grid: seq<seq<Cell>>)
  {
    forall r, c :: 0 <= r < |grid| && 0 <= c < |grid[r]| ==>
      grid[r][c].pos == Pos(r, c) &&
      (grid[r][c].kind == Number ==> grid[r][c].value.Some? && grid[r][c].value.value < 10) &&
      (grid[r][c].isStar ==> grid[r][c].kind == Symbol)
  }

  /** A parsed grid is well formed, has the shape of the input, and classifies every character. */
  lemma ParseGridWellFormed(lines: seq<string>)
    ensures WellFormedGrid(ParseGrid(lines))
    ensures forall r, c :: 0 <= r < |lines| && 0 <= c < |lines[r]| ==>
      c < |ParseGrid(lines)[r]| &&
      (ParseGrid(lines)[r][c].kind == Number <==> IsDigit(lines[r][c])) &&
      (ParseGrid(lines)[r][c].kind == Symbol <==> !IsDigit(lines[r][c]) && lines[r][c] != '.') &&
      (ParseGrid(lines)[r][c].isStar <==> lines[r][c] == '*')
  {
    var grid := ParseGrid(lines);
    forall r, c | 0 <= r < |grid| && 0 <= c < |grid[r]|
      ensures grid[r][c] == Classify(lines[r][c], Pos(r, c))
    {
      assert grid[r] == ParseMap(lines[r], r);
    }
  }

  // ---------------------------------------------------------------------------
  // findNeighbours

  function Max(a: int, b: int): int { if a >= b then a else b }

  function Min(a: int, b: int): int { if a <= b then a else b }

  /** Two distinct positions at most one row and one column apart (Chebyshev distance 1). */
  predicate Touching(p: Pos, q: Pos)
  {
    p != q && -1 <= p.row - q.row <= 1 && -1 <= p.col - q.col <= 1
  }

  /** Row-major order: `p` is visited before `q`. */
  predicate Before(p: Pos, q: Pos)
  {
    p.row < q.row || (p.row == q.row && p.col < q.col)
  }

  /** The first row and one past the last row the outer loop visits. */
  function RowLo(pos: Pos): int { Max(0, pos.row - 1) }

  function RowEnd(pos: Pos, height: int): int { Max(RowLo(pos), Min(pos.row + 1, height - 1) + 1) }

  /** The first column and one past the last column the inner loop visits. */
  function ColLo(pos: Pos): int { Max(0, pos.col - 1) }

  function ColEnd(pos: Pos, width: int): int { Max(ColLo(pos), Min(pos.col + 1, width - 1) + 1) }

  /** The positions (y, lo) .. (y, x - 1) other than `pos`, in column order. */
  function RowSweep(pos: Pos, y: int, lo: int, x: int): seq<Pos>
    requires lo <= x
    decreases x - lo
  {
    if x == lo then []
    else RowSweep(pos, y, lo, x - 1) + (if Pos(y, x - 1) == pos then [] else [Pos(y, x - 1)])
  }

  /** The rows lo .. y - 1 of the sweep around `pos` in a grid `width` columns wide. */
  function Sweep(pos: Pos, width: int, lo: int, y: int): seq<Pos>
    requires lo <= y
    decreases y - lo
  {
    if y == lo then []
    else Sweep(pos, width, lo, y - 1) + RowSweep(pos, y - 1, ColLo(pos), ColEnd(pos, width))
  }

  /**
   * The result of findNeighbours for `pos` in a grid of `height` rows whose row
   * `pos.row` is `width` cells wide.
   */
  function Neighbours(pos: Pos, height: int, width: int): seq<Pos>
  {
    Sweep(pos, width, RowLo(pos), RowEnd(pos, height))
  }

  /**
   * findNeighbours: visits the rows around `pos` and, in each, the columns
   * around it, clipped to the grid, and collects every position but `pos`.
   */
  method FindNeighbours(pos: Pos, grid: seq<seq<Cell>>) returns (result: seq<Pos>)
    requires 0 <= pos.row < |grid|
    ensures result == Neighbours(pos, |grid|, |grid[pos.row]|)
  {
    var row := grid[pos.row];
    result := [];
    var yLo, yHi := Max(0, pos.row - 1), Min(pos.row + 1, |grid| - 1);
    var xLo, xHi := Max(0, pos.col - 1), Min(pos.col + 1, |row| - 1);
    var y := yLo;
    while y <= yHi
      invariant yLo <= y <= yHi + 1
      invariant result == Sweep(pos, |row|, yLo, y)
    {
      ghost var rowsBefore := result;
      var x := xLo;
      while x <= xHi
        invariant xLo <= x <= ColEnd(pos, |row|)
        invariant result == rowsBefore + RowSweep(pos, y, xLo, x)
      {
        if !(x == pos.col && y == pos.row) {
          result := result + [Pos(y, x)];
        }
        assert rowsBefore + RowSweep(pos, y, xLo, x + 1) ==
          rowsBefore + RowSweep(pos, y, xLo, x) + (if Pos(y, x) == pos then [] else [Pos(y, x)]);
        x := x + 1;
      }
      assert x == ColEnd(pos, |row|);
      y := y + 1;
    }
  }

  lemma {:induction false} RowSweepMembers(pos: Pos, y: int, lo: int, x: int)
    requires lo <= x
    ensures forall p :: p in RowSweep(pos, y, lo, x) <==> p.row == y && lo <= p.col < x && p != pos
    decreases x - lo
  {
    if x != lo {
      RowSweepMembers(pos, y, lo, x - 1);
    }
  }

  lemma {:induction false} SweepMembers(pos: Pos, width: int, lo: int, y: int)
    requires lo <= y
    ensures forall p :: p in Sweep(pos, width, lo, y) <==>
      lo <= p.row < y && ColLo(pos) <= p.col < ColEnd(pos, width) && p != pos
    decreases y - lo
  {
    if y != lo {
      SweepMembers(pos, width, lo, y - 1);
      RowSweepMembers(pos, y - 1, ColLo(pos), ColEnd(pos, width));
    }
  }

  /**
   * The neighbours are exactly the positions inside the grid (columns bounded
   * by the width of the centre row) that touch `pos`.
   */
  lemma NeighboursMembers(pos: Pos, height: int, width: int)
    ensures forall p :: p in Neighbours(pos, height, width) <==>
      0 <= p.row < height && 0 <= p.col < width && Touching(p, pos)
  {
    SweepMembers(pos, width, RowLo(pos), RowEnd(pos, height));
  }

  /** Positions in strictly increasing row-major order. */
  predicate Ordered(ps: seq<Pos>)
  {
    forall i, j :: 0 <= i < j < |ps| ==> Before(ps[i], ps[j])
  }

  lemma {:induction false} RowSweepOrdered(pos: Pos, y: int, lo: int, x: int)
    requires lo <= x
    ensures Ordered(RowSweep(pos, y, lo, x))
    decreases x - lo
  {
    if x != lo {
      RowSweepOrdered(pos, y, lo, x - 1);
      RowSweepMembers(pos, y, lo, x - 1);
    }
  }

  lemma {:induction false} SweepOrdered(pos: Pos, width: int, lo: int, y: int)
    requires lo <= y
    ensures Ordered(Sweep(pos, width, lo, y))
    decreases y - lo
  {
    if y != lo {
      var a := Sweep(pos, width, lo, y - 1);
      var b := RowSweep(pos, y - 1, ColLo(pos), ColEnd(pos, width));
      SweepOrdered(pos, width, lo, y - 1);
      RowSweepOrdered(pos, y - 1, ColLo(pos), ColEnd(pos, width));
      SweepMembers(pos, width, lo, y - 1);
      RowSweepMembers(pos, y - 1, ColLo(pos), ColEnd(pos, width));
      forall i, j | 0 <= i < j < |a + b| ensures Before((a + b)[i], (a + b)[j]) {
        if i < |a| && j >= |a| {
          assert a[i] in a && b[j - |a|] in b;
        }
      }
    }
  }

  /** The neighbours come in row-major order, so none is listed twice. */
  lemma NeighboursOrdered(pos: Pos, height: int, width: int)
    ensures Ordered(Neighbours(pos, height, width))
    ensures forall i, j :: 0 <= i < j < |Neighbours(pos, height, width)| ==>
      Neighbours(pos, height, width)[i] != Neighbours(pos, height, width)[j]
  {
    SweepOrdered(pos, width, RowLo(pos), RowEnd(pos, height));
  }

  lemma {:induction false} RowSweepLength(pos: Pos, y: int, lo: int, x: int)
    requires lo <= x
    ensures |RowSweep(pos, y, lo, x)| == (x - lo) - (if y == pos.row && lo <= pos.col < x then 1 else 0)
    decreases x - lo
  {
    if x != lo {
      RowSweepLength(pos, y, lo, x - 1);
    }
  }

  lemma {:induction false} SweepLength(pos: Pos, width: int, lo: int, y: int)
    requires lo <= y
    ensures |Sweep(pos, width, lo, y)| ==
      (y - lo) * (ColEnd(pos, width) - ColLo(pos)) -
      (if lo <= pos.row < y && ColLo(pos) <= pos.col < ColEnd(pos, width) then 1 else 0)
    decreases y - lo
  {
    if y != lo {
      SweepLength(pos, width, lo, y - 1);
      RowSweepLength(pos, y - 1, ColLo(pos), ColEnd(pos, width));
      OneMoreRow(y - 1 - lo, ColEnd(pos, width) - ColLo(pos));
    }
  }

  lemma OneMoreRow(m: int, w: int)
    ensures m * w + w == (m + 1) * w
  {
  }

  /** A cell has at most eight neighbours. */
  lemma NeighboursAtMostEight(pos: Pos, height: int, width: int)
    ensures |Neighbours(pos, height, width)| <= 8
  {
    var h, w := RowEnd(pos, height) - RowLo(pos), ColEnd(pos, width) - ColLo(pos);
    SweepLength(pos, width, RowLo(pos), RowEnd(pos, height));
    assert 0 <= h <= 3 && 0 <= w <= 3;
    SmallProduct(h, w);
  }

  lemma SmallProduct(h: int, w: int)
    requires 0 <= h <= 3 && 0 <= w <= 3
    ensures h * w <= 6 || (h == 3 && w == 3 && h * w == 9)
  {
    if h == 3 && w == 3 {
    } else if h <= 2 && w <= 2 {
      assert h * w <= 2 * w <= 4;
    } else if h == 3 {
      assert h * w == 3 * w;
    } else {
      assert h * w == h * 3;
    }
  }

  // ---------------------------------------------------------------------------
  // isAdjacent

  /** The span of `t` contains `p`. */
  predicate Covers(t: PartNumber, p: Pos)
  {
    t.row == p.row && t.startCol <= p.col <= t.endCol
  }

  /** isAdjacent: some neighbour lies on the row of `t` between its startCol and endCol. */
  method IsAdjacent(t: PartNumber, neighbours: seq<Pos>) returns (adjacent: bool)
    ensures adjacent <==> exists i :: 0 <= i < |neighbours| && Covers(t, neighbours[i])
  {
    for i := 0 to |neighbours|
      invariant forall j :: 0 <= j < i ==> !Covers(t, neighbours[j])
    {
      if t.row == neighbours[i].row && t.startCol <= neighbours[i].col && t.endCol >= neighbours[i].col {
        return true;
      }
    }
    return false;
  }

  /** What part 2 filters on: the value isAdjacent returns. */
  predicate AdjacentTo(t: PartNumber, neighbours: seq<Pos>)
  {
    exists i :: 0 <= i < |neighbours| && Covers(t, neighbours[i])
  }

  /**
   * A number whose span is inside the grid is adjacent to a cell `s` outside
   * its span exactly when `s` lies within one row of it and within one column
   * of its span.
   */
  lemma AdjacentToNeighbours(t: PartNumber, s: Pos, height: int, width: int)
    requires 0 <= t.row < height && 0 <= t.startCol <= t.endCol < width
    requires !Covers(t, s)
    ensures AdjacentTo(t, Neighbours(s, height, width)) <==>
      -1 <= t.row - s.row <= 1 && t.startCol - 1 <= s.col <= t.endCol + 1
  {
    var ns := Neighbours(s, height, width);
    NeighboursMembers(s, height, width);
    if -1 <= t.row - s.row <= 1 && t.startCol - 1 <= s.col <= t.endCol + 1 {
      var c := if s.col < t.startCol then t.startCol else if s.col > t.endCol then t.endCol else s.col;
      assert Pos(t.row, c) in ns;
      var i :| 0 <= i < |ns| && ns[i] == Pos(t.row, c);
      assert Covers(t, ns[i]);
    }
    if AdjacentTo(t, ns) {
      var i :| 0 <= i < |ns| && Covers(t, ns[i]);
      assert ns[i] in ns;
    }
  }
}
