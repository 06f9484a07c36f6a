/**
 * A one-row schematic, "12*34", worked through part1 and part2 of
 * day3/solve.ts. The run 34 reaches the last column, so it is recorded with
 * endCol 3 and length 1; the star still touches its first digit.
 */
module SchematicSample {
  import opened Text
  import opened Collections
  import opened SchematicGrid
  import opened SchematicScan
  import opened SchematicQueries

  /** The cells parseMap gives for "12*34" as row 0. */
  const SmallRow: seq<Cell> := [
    Cell(Number, false, Some(1), Pos(0, 0)),
    Cell(Number, false, Some(2), Pos(0, 1)),
    Cell(Symbol, true, None, Pos(0, 2)),
    Cell(Number, false, Some(3), Pos(0, 3)),
    Cell(Number, false, Some(4), Pos(0, 4))
  ]

  /** The number closed by the star: columns 0 .. 1, value 12. */
  const Twelve := PartNumber(0, 0, 1, 2, 12)

  /** The number that reaches the last column: recorded with endCol 3 and length 1, value 34. */
  const ThirtyFour := PartNumber(0, 3, 3, 1, 34)

  lemma SmallGridParsed()
    ensures ParseGrid(["12*34"]) == [SmallRow]
  {
    var line := "12*34";
    assert line[0] == '1' && line[1] == '2' && line[2] == '*' && line[3] == '3' && line[4] == '4';
    var row := ParseGrid([line])[0];
    assert row == ParseMap(line, 0);
    assert row[0] == SmallRow[0] && row[1] == SmallRow[1] && row[2] == SmallRow[2];
    assert row[3] == SmallRow[3] && row[4] == SmallRow[4];
    assert row == SmallRow;
  }

  /** Every cell of the row sits at its own position, digits below ten, the star a symbol. */
  lemma SmallWellFormed()
    ensures WellFormedGrid([SmallRow])
  {
    var grid: seq<seq<Cell>> := [SmallRow];
    forall r, c | 0 <= r < |grid| && 0 <= c < |grid[r]|
      ensures grid[r][c].pos == Pos(r, c)
      ensures grid[r][c].kind == Number ==> grid[r][c].value.Some? && grid[r][c].value.value < 10
      ensures grid[r][c].isStar ==> grid[r][c].kind == Symbol
    {
      assert grid[r] == SmallRow;
    }
  }

  /** The runs of the row start at columns 0 and 3, and end at 2 and at the row's end. */
  lemma SmallRuns()
    ensures RunStarts(SmallRow, 5) == [0, 3]
    ensures RunEnd(SmallRow, 0) == 2 && RunEnd(SmallRow, 3) == 5
  {
    var row := SmallRow;
    assert RunStarts(row, 1) == [0];
    assert RunStarts(row, 2) == [0];
    assert RunStarts(row, 3) == [0];
    assert RunStarts(row, 4) == [0, 3];
    assert RunEnd(row, 2) == 2 && RunEnd(row, 1) == 2;
    assert RunEnd(row, 5) == 5 && RunEnd(row, 4) == 5;
  }

  /** The texts of the runs read as 12 and 34. */
  lemma SmallValues()
    ensures DigitsValid(SmallRow)
    ensures DecimalValue(DigitText(SmallRow, 0, 2)) == 12
    ensures DecimalValue(DigitText(SmallRow, 3, 5)) == 34
  {
    var row := SmallRow;
    assert DigitText(row, 0, 1) == ['1'];
    assert DigitText(row, 0, 2) == ['1', '2'];
    assert DigitText(row, 3, 4) == ['3'];
    assert DigitText(row, 3, 5) == ['3', '4'];
    DecimalValuePair('1', '2');
    DecimalValuePair('3', '4');
  }

  /** The run at column 0 is recorded as 12, and the one at column 3 as 34. */
  lemma SmallTokenAt()
    ensures DigitsValid(SmallRow) && RunStart(SmallRow, 0) && RunStart(SmallRow, 3)
    ensures TokenAt(SmallRow, 0, 0) == Twelve && TokenAt(SmallRow, 0, 3) == ThirtyFour
  {
    SmallRuns();
    SmallValues();
  }

  /** The runs starting at columns 0 and 3 are recorded as 12 and then 34. */
  lemma SmallTokenList()
    ensures DigitsValid(SmallRow) && RunStart(SmallRow, 0) && RunStart(SmallRow, 3)
    ensures Tokens(SmallRow, 0, [0, 3]) == [Twelve, ThirtyFour]
  {
    SmallTokenAt();
    assert Tokens(SmallRow, 0, [0]) == [Twelve];
    assert [0, 3][..1] == [0];
  }

  /** The scan of the row records 12 and then 34, with the last-column shape for 34. */
  lemma SmallRowTokens()
    ensures DigitsValid(SmallRow)
    ensures RowTokens(SmallRow, 0) == [Twelve, ThirtyFour]
  {
    SmallRuns();
    SmallTokenList();
  }

  /** The scan of the grid records 12 and then 34. */
  lemma SmallTokens()
    ensures WellFormedGrid([SmallRow])
    ensures AllTokens([SmallRow]) == [Twelve, ThirtyFour]
  {
    SmallWellFormed();
    SmallRowTokens();
    var grid := [SmallRow];
    assert GridTokens(grid, 1) == GridTokens(grid, 0) + RowTokens(SmallRow, 0);
  }

  /** The star at (0, 2) of a one-row grid five cells wide has neighbours (0, 1) and (0, 3). */
  lemma SmallNeighbours()
    ensures Neighbours(Pos(0, 2), 1, 5) == [Pos(0, 1), Pos(0, 3)]
  {
    var star := Pos(0, 2);
    assert RowLo(star) == 0 && RowEnd(star, 1) == 1;
    assert ColLo(star) == 1 && ColEnd(star, 5) == 4;
    assert RowSweep(star, 0, 1, 2) == [Pos(0, 1)];
    assert RowSweep(star, 0, 1, 3) == [Pos(0, 1)];
    assert RowSweep(star, 0, 1, 4) == [Pos(0, 1), Pos(0, 3)];
    assert Sweep(star, 5, 0, 1) == Sweep(star, 5, 0, 0) + RowSweep(star, 0, 1, 4);
  }

  /** The star makes (0, 1) and (0, 3) valid locations. */
  lemma SmallValid()
    ensures Pos(0, 1) in ValidLocations([SmallRow]) && Pos(0, 3) in ValidLocations([SmallRow])
  {
    var grid := [SmallRow];
    ValidLocationsMembers(grid);
    assert SymbolTouches(grid, 0, 2, Pos(0, 1)) && SymbolTouches(grid, 0, 2, Pos(0, 3));
  }

  /** Both numbers lie over a valid location, so the filter of part1 keeps both. */
  lemma SmallGood()
    ensures WellFormedGrid([SmallRow])
    ensures GoodNumbers(AllTokens([SmallRow]), ValidLocations([SmallRow])) == [Twelve, ThirtyFour]
  {
    SmallTokens();
    SmallValid();
    var valid := ValidLocations([SmallRow]);
    assert OverValidLocation(Twelve, valid);
    assert OverValidLocation(ThirtyFour, valid);
    assert [Twelve, ThirtyFour][..1] == [Twelve];
    assert GoodNumbers([Twelve], valid) == [Twelve];
  }

  /** The kept numbers sum to 12 + 34 = 46. */
  lemma SmallSum()
    ensures Sum(Values([Twelve, ThirtyFour])) == 46
  {
    assert Values([Twelve, ThirtyFour]) == [12, 34];
    assert [12, 34][..1] == [12];
  }

  /** Part 1 of the one-row grid: 12 + 34 = 46. */
  lemma SmallPart1()
    ensures WellFormedGrid(ParseGrid(["12*34"]))
    ensures Part1Value(ParseGrid(["12*34"])) == 46
  {
    SmallGridParsed();
    SmallGood();
    SmallSum();
  }

  /** The star is the only star of the grid. */
  lemma SmallStars()
    ensures Stars([SmallRow]) == [SmallRow[2]]
  {
    var row := SmallRow;
    var grid: seq<seq<Cell>> := [row];
    assert grid[..0] == [];
    assert Flat(grid) == row;
    var none: seq<Cell> := [];
    assert row[..1] == [row[0]] && row[..1][..0] == none;
    assert StarCells(row[..1]) == [];
    assert row[..2][..1] == row[..1] && StarCells(row[..2]) == [];
    assert row[..3][..2] == row[..2] && StarCells(row[..3]) == [row[2]];
    assert row[..4][..3] == row[..3] && StarCells(row[..4]) == [row[2]];
    assert row[..5][..4] == row[..4] && StarCells(row[..5]) == [row[2]];
    assert row[..5] == row;
  }

  /** The star touches both numbers: its gear ratio is 12 · 34 = 408. */
  lemma SmallRatio()
    ensures StarRatio([SmallRow], [Twelve, ThirtyFour], SmallRow[2]) == 408
  {
    SmallNeighbours();
    var ns := [Pos(0, 1), Pos(0, 3)];
    assert Covers(Twelve, ns[0]) && Covers(ThirtyFour, ns[1]);
    assert [Twelve, ThirtyFour][..1] == [Twelve];
    assert AdjacentNumbers([Twelve], ns) == [Twelve];
    assert AdjacentNumbers([Twelve, ThirtyFour], ns) == [Twelve, ThirtyFour];
  }

  /** The only star has gear ratio 408, so part 2 is 408. */
  lemma SmallPart2()
    ensures WellFormedGrid(ParseGrid(["12*34"]))
    ensures Part2Value(ParseGrid(["12*34"])) == 408
  {
    SmallGridParsed();
    SmallTokens();
    SmallStars();
    SmallRatio();
    var grid := [SmallRow];
    StarRows(grid);
    var ratios := GearRatios(grid, AllTokens(grid), Stars(grid));
    assert ratios == [408];
    assert Sum([408]) == 408;
  }
}
