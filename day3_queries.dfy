/**
 * part1 and part2 of day3/solve.ts: the sum of the part numbers (the numbers
 * with a cell next to a symbol) and the sum of the gear ratios (the product
 * of the two numbers next to a star, for stars next to exactly two numbers).
 */
module SchematicQueries {
  import opened Collections
  import opened SchematicGrid
  import opened SchematicScan

  // ---------------------------------------------------------------------------
  // part1

  /** The filter callback of part1: some column of the span of `t` is a valid location. */
  predicate OverValidLocation(t: PartNumber, validLocations: set<Pos>)
  {
    exists i :: t.startCol <= i <= t.endCol && Pos(t.row, i) in validLocations
  }

  /** The loop of the filter callback of part1, which stops at the first valid location. */
  method IsPartNumber(t: PartNumber, validLocations: set<Pos>) returns (isValid: bool)
    ensures isValid <==> OverValidLocation(t, validLocations)
  {
    isValid := false;
    var i := t.startCol;
    while i <= t.endCol
      invariant t.startCol <= i
      invariant forall j :: t.startCol <= j < i ==> Pos(t.row, j) !in validLocations
      decreases t.endCol - i
    {
      if Pos(t.row, i) in validLocations {
        isValid := true;
        break;
      }
      i := i + 1;
    }
  }

  /** The numbers the filter of part1 keeps, in their order. */
  function GoodNumbers(numbers: seq<PartNumber>, validLocations: set<Pos>): seq<PartNumber>
  {
    if numbers == [] then []
    else
      var kept := GoodNumbers(numbers[..|numbers| - 1], validLocations);
      var t := numbers[|numbers| - 1];
      if OverValidLocation(t, validLocations) then kept + [t] else kept
  }

  /** The values of the numbers, in order. */
  function Values(numbers: seq<PartNumber>): (vs: seq<int>)
    ensures |vs| == |numbers|
  {
    seq(|numbers|, i requires 0 <= i < |numbers| => numbers[i].value)
  }

  /** The answer to part 1: the sum of the values of the part numbers. */
  function Part1Value(grid: seq<seq<Cell>>): int
    requires WellFormedGrid(grid)
  {
    Sum(Values(GoodNumbers(AllTokens(grid), ValidLocations(grid))))
  }

  /** part1: filters the numbers by their spans and adds up the values of those kept. */
  method Part1(grid: seq<seq<Cell>>) returns (answer: int)
    requires WellFormedGrid(grid)
    ensures answer == Part1Value(grid)
  {
    var validLocations, numbers := GenerateNumbersAndValidLocations(grid);
    var goodNumbers: seq<PartNumber> := [];
    for k := 0 to |numbers|
      invariant goodNumbers == GoodNumbers(numbers[..k], validLocations)
    {
      var isValid := IsPartNumber(numbers[k], validLocations);
      assert numbers[..k + 1][..k] == numbers[..k];
      if isValid {
        goodNumbers := goodNumbers + [numbers[k]];
      }
    }
    assert numbers[..|numbers|] == numbers;
    answer := Sum(Values(goodNumbers));
  }

  /** The filter keeps exactly the numbers over a valid location. */
  lemma {:induction false} GoodNumbersMembers(numbers: seq<PartNumber>, validLocations: set<Pos>)
    ensures forall t :: t in GoodNumbers(numbers, validLocations) <==>
      t in numbers && OverValidLocation(t, validLocations)
    ensures |GoodNumbers(numbers, validLocations)| <= |numbers|
  {
    if numbers != [] {
      var init := numbers[..|numbers| - 1];
      GoodNumbersMembers(init, validLocations);
      assert numbers == init + [numbers[|numbers| - 1]];
    }
  }

  /** Appending a number appends its value. */
  lemma ValuesSnoc(numbers: seq<PartNumber>, t: PartNumber)
    ensures Values(numbers + [t]) == Values(numbers) + [t.value]
  {
  }

  /** The kept values add up to no less than zero and no more than all the values. */
  lemma {:induction false} GoodNumbersSum(numbers: seq<PartNumber>, validLocations: set<Pos>)
    ensures 0 <= Sum(Values(GoodNumbers(numbers, validLocations))) <= Sum(Values(numbers))
    decreases |numbers|
  {
    if numbers != [] {
      var init, t := numbers[..|numbers| - 1], numbers[|numbers| - 1];
      GoodNumbersSum(init, validLocations);
      assert numbers == init + [t];
      ValuesSnoc(init, t);
      SumAppend(Values(init), [t.value]);
      var kept := GoodNumbers(init, validLocations);
      ValuesSnoc(kept, t);
      SumAppend(Values(kept), [t.value]);
    }
  }

  /** Part 1 is at least zero and at most the sum of every number of the grid. */
  lemma Part1Bounds(grid: seq<seq<Cell>>)
    requires WellFormedGrid(grid)
    ensures 0 <= Part1Value(grid) <= Sum(Values(AllTokens(grid)))
  {
    GoodNumbersSum(AllTokens(grid), ValidLocations(grid));
  }

  /**
   * A number of the grid counts towards part 1 exactly when some column of
   * its span touches a symbol.
   */
  lemma Part1Counted(grid: seq<seq<Cell>>, t: PartNumber)
    requires WellFormedGrid(grid) && t in AllTokens(grid)
    ensures t in GoodNumbers(AllTokens(grid), ValidLocations(grid)) <==>
      exists i, r, k :: t.startCol <= i <= t.endCol && SymbolTouches(grid, r, k, Pos(t.row, i))
  {
    GoodNumbersMembers(AllTokens(grid), ValidLocations(grid));
    ValidLocationsMembers(grid);
  }

  /** Without symbols there are no part numbers. */
  lemma Part1NoSymbols(grid: seq<seq<Cell>>)
    requires WellFormedGrid(grid)
    requires forall r, c :: 0 <= r < |grid| && 0 <= c < |grid[r]| ==> grid[r][c].kind != Symbol
    ensures Part1Value(grid) == 0
  {
    ValidLocationsMembers(grid);
    assert ValidLocations(grid) == {};
    NothingValid(AllTokens(grid));
  }

  /** With no valid location the filter keeps nothing. */
  lemma {:induction false} NothingValid(numbers: seq<PartNumber>)
    ensures GoodNumbers(numbers, {}) == []
  {
    if numbers != [] {
      NothingValid(numbers[..|numbers| - 1]);
    }
  }

  /** A row without Number cells has no runs. */
  lemma {:induction false} NoRunStarts(row: seq<Cell>, c: nat)
    requires c <= |row|
    requires forall k :: 0 <= k < |row| ==> row[k].kind != Number
    ensures RunStarts(row, c) == []
  {
    if c > 0 {
      NoRunStarts(row, c - 1);
    }
  }

  /** A grid without Number cells has no numbers. */
  lemma {:induction false} NoTokens(grid: seq<seq<Cell>>, n: nat)
    requires WellFormedGrid(grid) && n <= |grid|
    requires forall r, c :: 0 <= r < |grid| && 0 <= c < |grid[r]| ==> grid[r][c].kind != Number
    ensures GridTokens(grid, n) == []
  {
    if n > 0 {
      NoTokens(grid, n - 1);
      NoRunStarts(grid[n - 1], |grid[n - 1]|);
    }
  }

  /** Without digits there are no part numbers. */
  lemma Part1NoDigits(grid: seq<seq<Cell>>)
    requires WellFormedGrid(grid)
    requires forall r, c :: 0 <= r < |grid| && 0 <= c < |grid[r]| ==> grid[r][c].kind != Number
    ensures Part1Value(grid) == 0
  {
    NoTokens(grid, |grid|);
  }

  // ---------------------------------------------------------------------------
  // part2

  /** grid.flat(): the cells row after row. */
  function Flat<T>(parts: seq<seq<T>>): seq<T>
  {
    if parts == [] then [] else Flat(parts[..|parts| - 1]) + parts[|parts| - 1]
  }

  /** An element of a joined list comes from one of the lists joined. */
  lemma {:induction false} FlatMember<T>(parts: seq<seq<T>>, x: T) returns (i: nat)
    requires x in Flat(parts)
    ensures i < |parts| && x in parts[i]
    decreases |parts|
  {
    var k := |parts| - 1;
    if x in parts[k] {
      i := k;
    } else {
      i := FlatMember(parts[..k], x);
    }
  }

  /** Every element of one of the lists joined is in the joined list. */
  lemma {:induction false} FlatContains<T>(parts: seq<seq<T>>, i: nat, x: T)
    requires i < |parts| && x in parts[i]
    ensures x in Flat(parts)
    decreases |parts|
  {
    var k := |parts| - 1;
    if i < k {
      assert parts[..k][i] == parts[i];
      FlatContains(parts[..k], i, x);
    }
  }

  /** The filter on isStar. */
  function StarCells(cells: seq<Cell>): seq<Cell>
  {
    if cells == [] then []
    else
      var kept := StarCells(cells[..|cells| - 1]);
      if cells[|cells| - 1].isStar then kept + [cells[|cells| - 1]] else kept
  }

  function Stars(grid: seq<seq<Cell>>): seq<Cell>
  {
    StarCells(Flat(grid))
  }

  /** The numbers isAdjacent accepts for `neighbours`, in their order. */
  function AdjacentNumbers(numbers: seq<PartNumber>, neighbours: seq<Pos>): seq<PartNumber>
  {
    if numbers == [] then []
    else
      var kept := AdjacentNumbers(numbers[..|numbers| - 1], neighbours);
      var t := numbers[|numbers| - 1];
      if AdjacentTo(t, neighbours) then kept + [t] else kept
  }

  /** The gear ratio of a star with the numbers next to it: their product if there are exactly two, else 0. */
  function GearRatio(adjacent: seq<PartNumber>): int
  {
    if |adjacent| == 2 then adjacent[0].value * adjacent[1].value else 0
  }

  /** The callback of stars.map in part2. */
  function StarRatio(grid: seq<seq<Cell>>, numbers: seq<PartNumber>, star: Cell): int
    requires 0 <= star.pos.row < |grid|
  {
    GearRatio(AdjacentNumbers(numbers, Neighbours(star.pos, |grid|, |grid[star.pos.row]|)))
  }

  predicate InGrid(grid: seq<seq<Cell>>, p: Pos)
  {
    0 <= p.row < |grid| && 0 <= p.col < |grid[p.row]|
  }

  function GearRatios(grid: seq<seq<Cell>>, numbers: seq<PartNumber>, stars: seq<Cell>): (ratios: seq<int>)
    requires forall i :: 0 <= i < |stars| ==> 0 <= stars[i].pos.row < |grid|
    ensures |ratios| == |stars|
  {
    seq(|stars|, i requires 0 <= i < |stars| => StarRatio(grid, numbers, stars[i]))
  }

  /** The answer to part 2: the sum of the gear ratios of all stars. */
  function Part2Value(grid: seq<seq<Cell>>): int
    requires WellFormedGrid(grid)
  {
    StarRows(grid);
    Sum(GearRatios(grid, AllTokens(grid), Stars(grid)))
  }

  /** The filter of part2 on isAdjacent. */
  method FilterAdjacent(numbers: seq<PartNumber>, neighbours: seq<Pos>) returns (adjacent: seq<PartNumber>)
    ensures adjacent == AdjacentNumbers(numbers, neighbours)
  {
    adjacent := [];
    for k := 0 to |numbers|
      invariant adjacent == AdjacentNumbers(numbers[..k], neighbours)
    {
      var isNext := IsAdjacent(numbers[k], neighbours);
      assert numbers[..k + 1][..k] == numbers[..k];
      if isNext {
        adjacent := adjacent + [numbers[k]];
      }
    }
    assert numbers[..|numbers|] == numbers;
  }

  /** part2: the gear ratio of every star, added up. */
  method Part2(grid: seq<seq<Cell>>) returns (answer: int)
    requires WellFormedGrid(grid)
    ensures answer == Part2Value(grid)
  {
    var validLocations, numbers := GenerateNumbersAndValidLocations(grid);
    var stars := Stars(grid);
    StarRows(grid);
    var gearRatios: seq<int> := [];
    for k := 0 to |stars|
      invariant |gearRatios| == k
      invariant forall i :: 0 <= i < k ==> gearRatios[i] == StarRatio(grid, numbers, stars[i])
    {
      var neighbours := FindNeighbours(stars[k].pos, grid);
      var adjacentPartNumbers := FilterAdjacent(numbers, neighbours);
      var ratio := if |adjacentPartNumbers| == 2 then adjacentPartNumbers[0].value * adjacentPartNumbers[1].value else 0;
      gearRatios := gearRatios + [ratio];
    }
    assert gearRatios == GearRatios(grid, numbers, stars);
    answer := Sum(gearRatios);
  }

  /** The cells of grid.flat() are the cells of the grid. */
  lemma FlatMembers(grid: seq<seq<Cell>>)
    ensures forall cell :: cell in Flat(grid) <==>
      exists r, c :: 0 <= r < |grid| && 0 <= c < |grid[r]| && grid[r][c] == cell
  {
    forall cell
      ensures cell in Flat(grid) <==> exists r, c :: 0 <= r < |grid| && 0 <= c < |grid[r]| && grid[r][c] == cell
    {
      if cell in Flat(grid) {
        var r := FlatMember(grid, cell);
        var c :| 0 <= c < |grid[r]| && grid[r][c] == cell;
      }
      if exists r, c :: 0 <= r < |grid| && 0 <= c < |grid[r]| && grid[r][c] == cell {
        var r, c :| 0 <= r < |grid| && 0 <= c < |grid[r]| && grid[r][c] == cell;
        FlatContains(grid, r, cell);
      }
    }
  }

  /** The filter on isStar keeps exactly the star cells. */
  lemma {:induction false} StarCellsMembers(cells: seq<Cell>)
    ensures forall cell :: cell in StarCells(cells) <==> cell in cells && cell.isStar
  {
    if cells != [] {
      var init := cells[..|cells| - 1];
      StarCellsMembers(init);
      assert cells == init + [cells[|cells| - 1]];
    }
  }

  /** The stars are exactly the star cells of the grid. */
  lemma StarsMembers(grid: seq<seq<Cell>>)
    ensures forall cell :: cell in Stars(grid) <==>
      cell.isStar && exists r, c :: 0 <= r < |grid| && 0 <= c < |grid[r]| && grid[r][c] == cell
  {
    FlatMembers(grid);
    StarCellsMembers(Flat(grid));
  }

  /** Every star of a well-formed grid sits where its position says. */
  lemma StarsInGrid(grid: seq<seq<Cell>>)
    requires WellFormedGrid(grid)
    ensures forall i :: 0 <= i < |Stars(grid)| ==>
      InGrid(grid, Stars(grid)[i].pos) &&
      grid[Stars(grid)[i].pos.row][Stars(grid)[i].pos.col] == Stars(grid)[i] &&
      Stars(grid)[i].isStar
  {
    StarsMembers(grid);
    forall i | 0 <= i < |Stars(grid)|
      ensures InGrid(grid, Stars(grid)[i].pos) && grid[Stars(grid)[i].pos.row][Stars(grid)[i].pos.col] == Stars(grid)[i]
    {
      var star := Stars(grid)[i];
      assert star in Stars(grid);
      var r, c :| 0 <= r < |grid| && 0 <= c < |grid[r]| && grid[r][c] == star;
    }
  }

  /** Every star lies on a row of the grid. */
  lemma StarRows(grid: seq<seq<Cell>>)
    requires WellFormedGrid(grid)
    ensures forall i :: 0 <= i < |Stars(grid)| ==> 0 <= Stars(grid)[i].pos.row < |grid|
  {
    StarsInGrid(grid);
  }

  /** Without stars there are no gear ratios. */
  lemma Part2NoStars(grid: seq<seq<Cell>>)
    requires WellFormedGrid(grid)
    requires forall r, c :: 0 <= r < |grid| && 0 <= c < |grid[r]| ==> !grid[r][c].isStar
    ensures Part2Value(grid) == 0
  {
    FlatMembers(grid);
    forall i | 0 <= i < |Flat(grid)|
      ensures !Flat(grid)[i].isStar
    {
      assert Flat(grid)[i] in Flat(grid);
    }
    NoStarCells(Flat(grid));
  }

  /** Without star cells the filter on isStar keeps nothing. */
  lemma {:induction false} NoStarCells(cells: seq<Cell>)
    requires forall i :: 0 <= i < |cells| ==> !cells[i].isStar
    ensures StarCells(cells) == []
  {
    if cells != [] {
      NoStarCells(cells[..|cells| - 1]);
    }
  }

  /** Without digits no star has an adjacent number, so there are no gear ratios. */
  lemma Part2NoDigits(grid: seq<seq<Cell>>)
    requires WellFormedGrid(grid)
    requires forall r, c :: 0 <= r < |grid| && 0 <= c < |grid[r]| ==> grid[r][c].kind != Number
    ensures Part2Value(grid) == 0
  {
    NoTokens(grid, |grid|);
    StarRows(grid);
    var ratios := GearRatios(grid, AllTokens(grid), Stars(grid));
    forall i | 0 <= i < |ratios|
      ensures ratios[i] == 0
    {
      assert AdjacentNumbers([], Neighbours(Stars(grid)[i].pos, |grid|, |grid[Stars(grid)[i].pos.row]|)) == [];
    }
    SumNonNegative(ratios);
    SumBounded(ratios, 0);
  }

  /** Gear ratios are never negative, so neither is part 2. */
  lemma Part2NonNegative(grid: seq<seq<Cell>>)
    requires WellFormedGrid(grid)
    ensures Part2Value(grid) >= 0
  {
    StarRows(grid);
    SumNonNegative(GearRatios(grid, AllTokens(grid), Stars(grid)));
  }

  /** Every number of a row is the number of one of its runs. */
  lemma RowTokensFrom(row: seq<Cell>, r: int, t: PartNumber) returns (s: nat)
    requires DigitsValid(row) && t in RowTokens(row, r)
    ensures RunStart(row, s) && t == TokenAt(row, r, s)
  {
    var starts := RunStarts(row, |row|);
    var i :| 0 <= i < |starts| && Tokens(row, r, starts)[i] == t;
    TokensAt(row, r, starts, i);
    s := starts[i];
  }

  /** `t` is the number of the run from `s` in row r. */
  predicate RunToken(grid: seq<seq<Cell>>, r: int, s: int, t: PartNumber)
  {
    0 <= r < |grid| && 0 <= s && DigitsValid(grid[r]) && RunStart(grid[r], s) && t == TokenAt(grid[r], r, s)
  }

  /** Every number of the grid is the number of a run of one of its rows. */
  lemma GridTokensFrom(grid: seq<seq<Cell>>, n: nat, t: PartNumber) returns (r: nat, s: nat)
    requires WellFormedGrid(grid) && n <= |grid| && t in GridTokens(grid, n)
    ensures r < n && RunToken(grid, r, s, t)
  {
    GridTokensFlat(grid, n);
    r := FlatMember(RowLists(grid, n), t);
    WellFormedRow(grid, r);
    s := LastRowToken(grid, r, t);
  }

  /** The numbers the scan records for row r of the grid. */
  function GridRow(grid: seq<seq<Cell>>, r: nat): seq<PartNumber>
    requires WellFormedGrid(grid) && r < |grid|
  {
    WellFormedRow(grid, r);
    RowTokens(grid[r], r)
  }

  /** The numbers of rows 0 .. n - 1, one list per row. */
  function RowLists(grid: seq<seq<Cell>>, n: nat): (parts: seq<seq<PartNumber>>)
    requires WellFormedGrid(grid) && n <= |grid|
    ensures |parts| == n
    ensures forall r :: 0 <= r < n ==> parts[r] == GridRow(grid, r)
  {
    if n == 0 then [] else RowLists(grid, n - 1) + [GridRow(grid, n - 1)]
  }

  /** The numbers of the first n rows are the rows' lists joined in order. */
  lemma {:induction false} GridTokensFlat(grid: seq<seq<Cell>>, n: nat)
    requires WellFormedGrid(grid) && n <= |grid|
    ensures GridTokens(grid, n) == Flat(RowLists(grid, n))
  {
    if n > 0 {
      GridTokensFlat(grid, n - 1);
      assert RowLists(grid, n)[..n - 1] == RowLists(grid, n - 1);
    }
  }

  lemma LastRowToken(grid: seq<seq<Cell>>, r: nat, t: PartNumber) returns (s: nat)
    requires r < |grid| && DigitsValid(grid[r]) && t in RowTokens(grid[r], r)
    ensures RunToken(grid, r, s, t)
  {
    s := RowTokensFrom(grid[r], r, t);
  }

  /** Every grid row has as many cells as the first. */
  predicate Rectangular(grid: seq<seq<Cell>>)
  {
    forall r :: 0 <= r < |grid| ==> |grid[r]| == |grid[0]|
  }

  /**
   * In a rectangular grid, a number of the grid whose span is not empty is
   * among the numbers next to a star exactly when the star is within one row
   * of it and within one column of its span.
   */
  lemma GearAdjacency(grid: seq<seq<Cell>>, star: Cell, t: PartNumber)
    requires WellFormedGrid(grid) && Rectangular(grid)
    requires star in Stars(grid) && t in AllTokens(grid) && t.startCol <= t.endCol
    ensures InGrid(grid, star.pos)
    ensures t in AdjacentNumbers(AllTokens(grid), Neighbours(star.pos, |grid|, |grid[star.pos.row]|)) <==>
      -1 <= t.row - star.pos.row <= 1 && t.startCol - 1 <= star.pos.col <= t.endCol + 1
  {
    StarsMembers(grid);
    var sr, sc :| 0 <= sr < |grid| && 0 <= sc < |grid[sr]| && grid[sr][sc] == star;
    var r, s := GridTokensFrom(grid, |grid|, t);
    StarOffRun(grid, sr, sc, r, s);
    AdjacentToNeighbours(t, star.pos, |grid|, |grid[sr]|);
    AdjacentNumbersMembers(AllTokens(grid), Neighbours(star.pos, |grid|, |grid[sr]|));
  }

  /**
   * The number of the run from `s` in row r lies inside its row and does not
   * cover the star at (sr, sc).
   */
  lemma StarOffRun(grid: seq<seq<Cell>>, sr: nat, sc: nat, r: nat, s: nat)
    requires WellFormedGrid(grid) && sr < |grid| && sc < |grid[sr]| && grid[sr][sc].isStar
    requires r < |grid| && DigitsValid(grid[r]) && RunStart(grid[r], s)
    ensures grid[sr][sc].pos == Pos(sr, sc)
    ensures TokenAt(grid[r], r, s).row == r && 0 <= TokenAt(grid[r], r, s).startCol
    ensures TokenAt(grid[r], r, s).endCol < |grid[r]|
    ensures !Covers(TokenAt(grid[r], r, s), Pos(sr, sc))
  {
    var t := TokenAt(grid[r], r, s);
    TokenShape(grid[r], r, s);
    assert t.endCol < RunEnd(grid[r], s);
    assert s <= sc < RunEnd(grid[r], s) ==> grid[r][sc].kind == Number;
  }

  /** The filter on isAdjacent keeps exactly the numbers adjacent to the neighbours. */
  lemma {:induction false} AdjacentNumbersMembers(numbers: seq<PartNumber>, neighbours: seq<Pos>)
    ensures forall t :: t in AdjacentNumbers(numbers, neighbours) <==> t in numbers && AdjacentTo(t, neighbours)
  {
    if numbers != [] {
      var init := numbers[..|numbers| - 1];
      AdjacentNumbersMembers(init, neighbours);
      assert numbers == init + [numbers[|numbers| - 1]];
    }
  }
}
