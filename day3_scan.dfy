/**
 * generateNumbersAndValidLocations (day3/solve.ts): one pass over the grid
 * that collects the numbers of every row, in order, and the set of positions
 * next to a symbol.
 *
 * The pass is specified against a declarative account of a row: its maximal
 * runs of Number cells (RunStarts, RunEnd) and the number recorded for each
 * (TokenAt). A run closed by a Space or a Symbol spans its cells exactly; a
 * run that reaches the last column is recorded with endCol one short of its
 * last digit, as day3/solve.ts:148 writes it, while its value still reads
 * every digit.
 */
module SchematicScan {
  import opened Text
  import opened Collections
  import opened SchematicGrid

  /** Every Number cell of the row holds one decimal digit. */
  predicate DigitsValid(row: seq<Cell>)
  {
    forall c :: 0 <= c < |row| && row[c].kind == Number ==> row[c].value.Some? && row[c].value.value < 10
  }

  predicate IsNumberAt(row: seq<Cell>, c: int)
  {
    0 <= c < |row| && row[c].kind == Number
  }

  /** Column `s` begins a maximal run of Number cells. */
  predicate RunStart(row: seq<Cell>, s: int)
  {
    IsNumberAt(row, s) && !IsNumberAt(row, s - 1)
  }

  /** One past the last cell of the run of Number cells from `s`. */
  function RunEnd(row: seq<Cell>, s: nat): (e: nat)
    requires s <= |row|
    ensures s <= e <= |row|
    ensures forall c :: s <= c < e ==> row[c].kind == Number
    ensures e == |row| || row[e].kind != Number
    decreases |row| - s
  {
    if s < |row| && row[s].kind == Number then RunEnd(row, s + 1) else s
  }

  /** The first cell of the run of Number cells that reaches column `j` from the left. */
  function RunStartOf(row: seq<Cell>, j: nat): (s: nat)
    requires j < |row|
    ensures s <= j
    ensures forall c :: s <= c < j ==> row[c].kind == Number
    ensures !IsNumberAt(row, s - 1)
  {
    if j > 0 && row[j - 1].kind == Number then RunStartOf(row, j - 1) else j
  }

  /** The run starts before column `c`, from left to right. */
  function RunStarts(row: seq<Cell>, c: nat): (starts: seq<nat>)
    requires c <= |row|
    ensures forall i :: 0 <= i < |starts| ==> starts[i] < c && RunStart(row, starts[i])
  {
    if c == 0 then []
    else RunStarts(row, c - 1) + (if RunStart(row, c - 1) then [c - 1] else [])
  }

  /** `${cell.value}` for the cells s .. e - 1, concatenated. */
  function DigitText(row: seq<Cell>, s: nat, e: nat): (text: string)
    requires s <= e <= |row| && DigitsValid(row)
    requires forall c :: s <= c < e ==> row[c].kind == Number
    ensures |text| == e - s && AllDigits(text)
    decreases e - s
  {
    if e == s then [] else DigitText(row, s, e - 1) + [DigitChar(row[e - 1].value.value)]
  }

  /** The text of a run holds, at each place, the digit of the cell there. */
  lemma {:induction false} DigitTextChars(row: seq<Cell>, s: nat, e: nat)
    requires s <= e <= |row| && DigitsValid(row)
    requires forall c :: s <= c < e ==> row[c].kind == Number
    ensures forall i :: 0 <= i < e - s ==> DigitText(row, s, e)[i] == DigitChar(row[s + i].value.value)
    decreases e - s
  {
    if e > s {
      DigitTextChars(row, s, e - 1);
    }
  }

  /**
   * The column at which the pass records the run from `s`: the cell after the
   * run, or the last column when the run reaches the end of the row.
   */
  function CloseCol(row: seq<Cell>, s: nat): int
    requires s <= |row|
  {
    var e := RunEnd(row, s);
    if e < |row| then e else |row| - 1
  }

  /** The number the pass records, in row `r`, for the run that starts at `s`. */
  function TokenAt(row: seq<Cell>, r: int, s: nat): PartNumber
    requires DigitsValid(row) && RunStart(row, s)
  {
    var close := CloseCol(row, s);
    PartNumber(r, s, close - 1, close - s, DecimalValue(DigitText(row, s, RunEnd(row, s))))
  }

  /** The numbers recorded for the runs that start at `starts`, in that order. */
  function Tokens(row: seq<Cell>, r: int, starts: seq<nat>): (ts: seq<PartNumber>)
    requires DigitsValid(row)
    requires forall i :: 0 <= i < |starts| ==> RunStart(row, starts[i])
    ensures |ts| == |starts|
  {
    if starts == [] then []
    else Tokens(row, r, starts[..|starts| - 1]) + [TokenAt(row, r, starts[|starts| - 1])]
  }

  /** The numbers of row `r`: one per maximal run, from left to right. */
  function RowTokens(row: seq<Cell>, r: int): seq<PartNumber>
    requires DigitsValid(row)
  {
    Tokens(row, r, RunStarts(row, |row|))
  }

  lemma WellFormedRow(grid: seq<seq<Cell>>, r: nat)
    requires WellFormedGrid(grid) && r < |grid|
    ensures DigitsValid(grid[r])
    ensures forall c :: 0 <= c < |grid[r]| ==> grid[r][c].pos == Pos(r, c)
  {
  }

  /** The numbers of rows 0 .. n - 1, row after row. */
  function GridTokens(grid: seq<seq<Cell>>, n: nat): seq<PartNumber>
    requires WellFormedGrid(grid) && n <= |grid|
  {
    if n == 0 then []
    else
      WellFormedRow(grid, n - 1);
      GridTokens(grid, n - 1) + RowTokens(grid[n - 1], n - 1)
  }

  function AllTokens(grid: seq<seq<Cell>>): seq<PartNumber>
    requires WellFormedGrid(grid)
  {
    GridTokens(grid, |grid|)
  }

  /** The set of the elements of `ps`. */
  function Elements(ps: seq<Pos>): set<Pos>
  {
    set p | p in ps
  }

  /** What the cell at (r, c) adds to the valid locations: its neighbours if it is a symbol. */
  function CellFootprint(grid: seq<seq<Cell>>, r: nat, c: nat): set<Pos>
    requires r < |grid| && c < |grid[r]|
  {
    if grid[r][c].kind == Symbol then Elements(Neighbours(Pos(r, c), |grid|, |grid[r]|)) else {}
  }

  function RowFootprint(grid: seq<seq<Cell>>, r: nat, c: nat): set<Pos>
    requires r < |grid| && c <= |grid[r]|
  {
    if c == 0 then {} else RowFootprint(grid, r, c - 1) + CellFootprint(grid, r, c - 1)
  }

  function Footprint(grid: seq<seq<Cell>>, n: nat): set<Pos>
    requires n <= |grid|
  {
    if n == 0 then {} else Footprint(grid, n - 1) + RowFootprint(grid, n - 1, |grid[n - 1]|)
  }

  /** The positions a number must touch to be a part number. */
  function ValidLocations(grid: seq<seq<Cell>>): set<Pos>
  {
    Footprint(grid, |grid|)
  }

  // ---------------------------------------------------------------------------
  // The pass

  /** After column c - 1 the pass is inside a run. */
  predicate Open(row: seq<Cell>, c: nat)
  {
    0 < c <= |row| && row[c - 1].kind == Number
  }

  /**
   * The runs already recorded when the pass reaches column `c`: those that
   * start before the open run, if there is one that is not at the row's end.
   */
  function Closed(row: seq<Cell>, c: nat): (closed: seq<nat>)
    requires c <= |row|
    ensures forall i :: 0 <= i < |closed| ==> RunStart(row, closed[i])
  {
    RunStarts(row, if Open(row, c) && c < |row| then RunStartOf(row, c - 1) else c)
  }

  /**
   * generateNumbersAndValidLocations: returns the positions next to some
   * symbol and the numbers of every row, in row order and, within a row, from
   * left to right.
   */
  method GenerateNumbersAndValidLocations(grid: seq<seq<Cell>>)
    returns (validLocations: set<Pos>, numbers: seq<PartNumber>)
    requires WellFormedGrid(grid)
    ensures validLocations == ValidLocations(grid)
    ensures numbers == AllTokens(grid)
  {
    validLocations := {};
    numbers := [];
    for rowIdx := 0 to |grid|
      invariant validLocations == Footprint(grid, rowIdx)
      invariant numbers == GridTokens(grid, rowIdx)
    {
      WellFormedRow(grid, rowIdx);
      validLocations, numbers := ScanRow(grid, rowIdx, validLocations, numbers);
    }
  }

  /**
   * The callback of grid.map in generateNumbersAndValidLocations: a scan of
   * row `rowIdx` that adds its numbers and the neighbours of its symbols.
   */
  method ScanRow(grid: seq<seq<Cell>>, rowIdx: nat, validLocations: set<Pos>, numbers: seq<PartNumber>)
    returns (locations: set<Pos>, found: seq<PartNumber>)
    requires WellFormedGrid(grid) && rowIdx < |grid|
    requires DigitsValid(grid[rowIdx])
    ensures locations == validLocations + RowFootprint(grid, rowIdx, |grid[rowIdx]|)
    ensures found == numbers + RowTokens(grid[rowIdx], rowIdx)
  {
    var row := grid[rowIdx];
    locations, found := validLocations, numbers;
    var numberBuilder: string := "";
    var numberStartCol: Option<nat> := None;
    ghost var closed: seq<nat> := [];
    for colIdx := 0 to |row|
      invariant locations == validLocations + RowFootprint(grid, rowIdx, colIdx)
      invariant closed == Closed(row, colIdx)
      invariant found == numbers + Tokens(row, rowIdx, closed)
      invariant OpenRun(row, colIdx, numberStartCol, numberBuilder)
    {
      var cell := grid[rowIdx][colIdx];
      if cell.kind == Symbol {
        found, closed, numberStartCol, numberBuilder :=
          EndRun(row, rowIdx, colIdx, numbers, found, closed, numberStartCol, numberBuilder);
        locations := MarkNeighbours(grid, rowIdx, colIdx, validLocations, locations);
      } else if cell.kind == Number {
        FootprintStep(grid, rowIdx, colIdx, validLocations, locations);
        found, closed, numberStartCol, numberBuilder :=
          ReadDigit(row, rowIdx, colIdx, numbers, found, closed, numberStartCol, numberBuilder);
      } else {
        FootprintStep(grid, rowIdx, colIdx, validLocations, locations);
        found, closed, numberStartCol, numberBuilder :=
          EndRun(row, rowIdx, colIdx, numbers, found, closed, numberStartCol, numberBuilder);
      }
    }
    assert closed == RunStarts(row, |row|);
  }

  /**
   * What the scan knows of the run it is in when it reaches column c: where
   * the run started and the digits read so far, or nothing if no run is open.
   */
  ghost predicate OpenRun(row: seq<Cell>, c: nat, start: Option<nat>, builder: string)
    requires DigitsValid(row) && c <= |row|
  {
    start == (if Open(row, c) then Some(RunStartOf(row, c - 1)) else None) &&
    builder == (if Open(row, c) then DigitText(row, RunStartOf(row, c - 1), c) else "")
  }

  /** A Space or a Symbol at column c leaves no run open after it. */
  lemma NoRunAfter(row: seq<Cell>, c: nat)
    requires DigitsValid(row) && c < |row| && row[c].kind != Number
    ensures OpenRun(row, c + 1, None, "")
  {
  }

  /** A Space or a Symbol at column c with no run open records nothing. */
  lemma IdleStep(row: seq<Cell>, c: nat)
    requires DigitsValid(row) && c < |row| && row[c].kind != Number
    requires OpenRun(row, c, None, "")
    ensures Closed(row, c + 1) == Closed(row, c)
  {
    StepOtherClosed(row, c);
  }

  /**
   * A Space or a Symbol at column c ends the open run from `start`: it is the
   * next run recorded, with endCol c - 1 and all the digits read.
   */
  lemma CloseRun(row: seq<Cell>, r: int, c: nat, start: nat, builder: string)
    requires DigitsValid(row) && c < |row| && row[c].kind != Number
    requires OpenRun(row, c, Some(start), builder)
    ensures AllDigits(builder) && RunStart(row, start)
    ensures Closed(row, c + 1) == Closed(row, c) + [start]
    ensures TokenAt(row, r, start) == PartNumber(r, start, c - 1, c - start, DecimalValue(builder))
  {
    assert Open(row, c) && start == RunStartOf(row, c - 1);
    CloseFacts(row, r, c, start, builder);
  }

  /** The run open before a Space or a Symbol at c is the one recorded there, with all its digits. */
  lemma CloseFacts(row: seq<Cell>, r: int, c: nat, start: nat, builder: string)
    requires DigitsValid(row) && c < |row| && row[c].kind != Number
    requires Open(row, c) && start == RunStartOf(row, c - 1)
    requires builder == DigitText(row, start, c)
    ensures RunStart(row, start)
    ensures Closed(row, c + 1) == Closed(row, c) + [start]
    ensures TokenAt(row, r, start) == PartNumber(r, start, c - 1, c - start, DecimalValue(builder))
  {
    StepOtherClosed(row, c);
    ClosedBy(row, r, start, c);
  }

  /**
   * A Number cell at column colIdx: the run is extended by the cell's digit
   * and, at the last column, stored.
   */
  method ReadDigit(row: seq<Cell>, rowIdx: int, colIdx: nat, numbers: seq<PartNumber>, found: seq<PartNumber>,
                   ghost closed: seq<nat>, numberStartCol: Option<nat>, numberBuilder: string)
    returns (found': seq<PartNumber>, ghost closed': seq<nat>, start: Option<nat>, builder: string)
    requires DigitsValid(row) && colIdx < |row| && row[colIdx].kind == Number
    requires closed == Closed(row, colIdx) && found == numbers + Tokens(row, rowIdx, closed)
    requires OpenRun(row, colIdx, numberStartCol, numberBuilder)
    ensures closed' == Closed(row, colIdx + 1) && found' == numbers + Tokens(row, rowIdx, closed')
    ensures OpenRun(row, colIdx + 1, start, builder)
  {
    start, builder := ExtendRun(row, colIdx, numberStartCol, numberBuilder);
    found', closed' := found, closed;
    if colIdx == |row| - 1 {
      EdgeFacts(row, rowIdx, start.value, builder);
      found', closed' := StoreNumber(row, rowIdx, colIdx, numbers, found, closed, start.value, builder);
    }
  }

  /**
   * A run starts at colIdx if none is open, and the cell's digit is appended
   * to the run's text.
   */
  method ExtendRun(row: seq<Cell>, colIdx: nat, numberStartCol: Option<nat>, numberBuilder: string)
    returns (start: Option<nat>, builder: string)
    requires DigitsValid(row) && colIdx < |row| && row[colIdx].kind == Number
    requires OpenRun(row, colIdx, numberStartCol, numberBuilder)
    ensures AllDigits(builder) && OpenRun(row, colIdx + 1, start, builder)
    ensures colIdx < |row| - 1 ==> Closed(row, colIdx + 1) == Closed(row, colIdx)
  {
    start := numberStartCol;
    if start.None? {
      start := Some(colIdx);
    }
    builder := numberBuilder + [DigitChar(row[colIdx].value.value)];
    NumberOpenRun(row, colIdx, numberStartCol, numberBuilder, start, builder);
    if colIdx < |row| - 1 {
      StepNumberClosed(row, colIdx);
    }
  }

  lemma NumberOpenRun(row: seq<Cell>, c: nat, start: Option<nat>, builder: string, start': Option<nat>, builder': string)
    requires DigitsValid(row) && c < |row| && row[c].kind == Number
    requires OpenRun(row, c, start, builder)
    requires start' == if start.None? then Some(c) else start
    requires builder' == builder + [DigitChar(row[c].value.value)]
    ensures OpenRun(row, c + 1, start', builder') && AllDigits(builder')
  {
    NumberOpens(row, c);
    if !Open(row, c) {
      assert builder' == DigitText(row, c, c + 1);
    }
  }

  lemma NumberOpens(row: seq<Cell>, c: nat)
    requires c < |row| && row[c].kind == Number
    ensures Open(row, c + 1)
    ensures RunStartOf(row, c) == if Open(row, c) then RunStartOf(row, c - 1) else c
  {
  }

  /** The run that reaches the last column is recorded there, one column short, with all its digits. */
  lemma EdgeFacts(row: seq<Cell>, r: int, start: nat, builder: string)
    requires DigitsValid(row) && |row| > 0 && row[|row| - 1].kind == Number
    requires OpenRun(row, |row|, Some(start), builder)
    ensures RunStart(row, start)
    ensures Closed(row, |row|) == Closed(row, |row| - 1) + [start]
    ensures TokenAt(row, r, start) == PartNumber(r, start, |row| - 2, |row| - 1 - start, DecimalValue(builder))
  {
    StepNumberClosed(row, |row| - 1);
    ClosedBy(row, r, start, |row|);
  }

  /** A cell that is not a symbol adds nothing to the valid locations. */
  lemma FootprintStep(grid: seq<seq<Cell>>, r: nat, c: nat, base: set<Pos>, locations: set<Pos>)
    requires r < |grid| && c < |grid[r]| && grid[r][c].kind != Symbol
    requires locations == base + RowFootprint(grid, r, c)
    ensures locations == base + RowFootprint(grid, r, c + 1)
  {
  }

  /**
   * The Symbol at (r, c): the loop over its neighbours adds each one to the
   * valid locations.
   */
  method MarkNeighbours(grid: seq<seq<Cell>>, r: nat, c: nat, base: set<Pos>, validLocations: set<Pos>)
    returns (locations: set<Pos>)
    requires WellFormedGrid(grid) && r < |grid| && c < |grid[r]| && grid[r][c].kind == Symbol
    requires validLocations == base + RowFootprint(grid, r, c)
    ensures locations == base + RowFootprint(grid, r, c + 1)
  {
    var neighbours := FindNeighbours(grid[r][c].pos, grid);
    locations := validLocations;
    for k := 0 to |neighbours|
      invariant locations == validLocations + Elements(neighbours[..k])
    {
      assert neighbours[..k + 1] == neighbours[..k] + [neighbours[k]];
      locations := locations + {neighbours[k]};
    }
    assert neighbours[..|neighbours|] == neighbours;
  }

  /**
   * A Space or a Symbol at column colIdx: the open run, if any, is stored and
   * no run is open any more.
   */
  method EndRun(row: seq<Cell>, rowIdx: int, colIdx: nat, numbers: seq<PartNumber>, found: seq<PartNumber>,
                ghost closed: seq<nat>, numberStartCol: Option<nat>, numberBuilder: string)
    returns (found': seq<PartNumber>, ghost closed': seq<nat>, start: Option<nat>, builder: string)
    requires DigitsValid(row) && colIdx < |row| && row[colIdx].kind != Number
    requires closed == Closed(row, colIdx) && found == numbers + Tokens(row, rowIdx, closed)
    requires OpenRun(row, colIdx, numberStartCol, numberBuilder)
    ensures closed' == Closed(row, colIdx + 1) && found' == numbers + Tokens(row, rowIdx, closed')
    ensures OpenRun(row, colIdx + 1, start, builder)
  {
    if numberStartCol.Some? {
      CloseRun(row, rowIdx, colIdx, numberStartCol.value, numberBuilder);
      found', closed' := StoreNumber(row, rowIdx, colIdx, numbers, found, closed, numberStartCol.value, numberBuilder);
    } else {
      IdleStep(row, colIdx);
      found', closed' := found, closed;
    }
    start, builder := None, "";
    NoRunAfter(row, colIdx);
  }

  /**
   * numbers.add({...}) at column colIdx for the run from `start` whose digits
   * are `builder`: the numbers of the runs in `closed` are followed by the
   * number of that run.
   */
  method StoreNumber(row: seq<Cell>, rowIdx: int, colIdx: int, numbers: seq<PartNumber>, found: seq<PartNumber>,
                     ghost closed: seq<nat>, start: nat, builder: string)
    returns (found': seq<PartNumber>, ghost closed': seq<nat>)
    requires DigitsValid(row) && AllDigits(builder) && RunStart(row, start)
    requires forall i :: 0 <= i < |closed| ==> RunStart(row, closed[i])
    requires found == numbers + Tokens(row, rowIdx, closed)
    requires TokenAt(row, rowIdx, start) == PartNumber(rowIdx, start, colIdx - 1, colIdx - start, DecimalValue(builder))
    ensures closed' == closed + [start]
    ensures found' == numbers + Tokens(row, rowIdx, closed')
  {
    var number := PartNumber(rowIdx, start, colIdx - 1, colIdx - start, DecimalValue(builder));
    Record(row, rowIdx, numbers, found, closed, start, number);
    found', closed' := found + [number], closed + [start];
  }

  /** Recording the number of the run from `s` extends the recorded numbers by it. */
  lemma Record(row: seq<Cell>, r: int, numbers: seq<PartNumber>, found: seq<PartNumber>,
               before: seq<nat>, s: nat, token: PartNumber)
    requires DigitsValid(row) && RunStart(row, s)
    requires forall i :: 0 <= i < |before| ==> RunStart(row, before[i])
    requires found == numbers + Tokens(row, r, before)
    requires TokenAt(row, r, s) == token
    ensures found + [token] == numbers + Tokens(row, r, before + [s])
  {
    TokensSnoc(row, r, before, s);
  }

  lemma TokensSnoc(row: seq<Cell>, r: int, starts: seq<nat>, s: nat)
    requires DigitsValid(row) && RunStart(row, s)
    requires forall i :: 0 <= i < |starts| ==> RunStart(row, starts[i])
    ensures Tokens(row, r, starts + [s]) == Tokens(row, r, starts) + [TokenAt(row, r, s)]
  {
    assert (starts + [s])[..|starts|] == starts;
  }

  /** The run from `s` whose cells end at `e` has RunEnd `e`. */
  lemma {:induction false} RunEndAt(row: seq<Cell>, s: nat, e: nat)
    requires s <= e <= |row|
    requires forall c :: s <= c < e ==> row[c].kind == Number
    requires e == |row| || row[e].kind != Number
    ensures RunEnd(row, s) == e
    decreases e - s
  {
    if s < e {
      RunEndAt(row, s + 1, e);
    }
  }

  /** Past the start `s` of a run, and within the run, `s` is the last run start. */
  lemma {:induction false} RunStartsSkip(row: seq<Cell>, s: nat, c: nat)
    requires RunStart(row, s) && s < c <= |row|
    requires forall k :: s <= k < c ==> row[k].kind == Number
    ensures RunStarts(row, c) == RunStarts(row, s) + [s]
    decreases c - s
  {
    if c > s + 1 {
      RunStartsSkip(row, s, c - 1);
      assert !RunStart(row, c - 1);
    }
  }

  lemma StepOtherClosed(row: seq<Cell>, c: nat)
    requires c < |row| && row[c].kind != Number
    ensures Closed(row, c + 1) == Closed(row, c) + if Open(row, c) then [RunStartOf(row, c - 1)] else []
  {
    assert RunStarts(row, c + 1) == RunStarts(row, c);
    if Open(row, c) {
      RunStartsSkip(row, RunStartOf(row, c - 1), c);
    }
  }

  /**
   * The run from `s` that ends before column e, or at the last column, is
   * recorded at column `close` with endCol close - 1 and all its digits.
   */
  lemma ClosedBy(row: seq<Cell>, r: int, s: nat, e: nat)
    requires DigitsValid(row) && s < e <= |row|
    requires forall c :: s <= c < e ==> row[c].kind == Number
    requires e == |row| || row[e].kind != Number
    requires !IsNumberAt(row, s - 1)
    ensures RunStart(row, s)
    ensures var close := if e < |row| then e else |row| - 1;
      TokenAt(row, r, s) == PartNumber(r, s, close - 1, close - s, DecimalValue(DigitText(row, s, e)))
  {
    RunEndAt(row, s, e);
  }

  lemma StepNumberClosed(row: seq<Cell>, c: nat)
    requires c < |row| && row[c].kind == Number
    ensures Closed(row, c + 1) == Closed(row, c) + if c == |row| - 1 then [RunStartOf(row, c)] else []
  {
    if c == |row| - 1 {
      RunStartsSkip(row, RunStartOf(row, c), c + 1);
    }
  }
  // ---------------------------------------------------------------------------
  // What the recorded numbers and the valid locations are

  /** RunStarts lists exactly the run starts before column c, in increasing order. */
  lemma {:induction false} RunStartsMembers(row: seq<Cell>, c: nat)
    requires c <= |row|
    ensures forall s :: s in RunStarts(row, c) <==> 0 <= s < c && RunStart(row, s)
    ensures forall i, j :: 0 <= i < j < |RunStarts(row, c)| ==> RunStarts(row, c)[i] < RunStarts(row, c)[j]
  {
    if c > 0 {
      var prev := RunStarts(row, c - 1);
      RunStartsMembers(row, c - 1);
      if RunStart(row, c - 1) {
        assert RunStarts(row, c) == prev + [c - 1];
      } else {
        assert RunStarts(row, c) == prev;
      }
    }
  }

  /** Every Number cell lies in the span of the run of one recorded start. */
  lemma NumberCellInRun(row: seq<Cell>, c: nat)
    requires IsNumberAt(row, c)
    ensures RunStartOf(row, c) in RunStarts(row, |row|)
    ensures RunStartOf(row, c) <= c < RunEnd(row, RunStartOf(row, c))
  {
    var s := RunStartOf(row, c);
    RunStartsMembers(row, |row|);
    assert RunStart(row, s);
    RunEndPast(row, s, c);
  }

  /** A run that reaches column c extends past it. */
  lemma {:induction false} RunEndPast(row: seq<Cell>, s: nat, c: nat)
    requires s <= c < |row|
    requires forall k :: s <= k <= c ==> row[k].kind == Number
    ensures c < RunEnd(row, s)
    decreases c - s
  {
    if s < c {
      RunEndPast(row, s + 1, c);
    }
  }

  /**
   * The number recorded for the run from `s`: it starts at `s`; a run ended by
   * a Space or a Symbol is spanned exactly, while a run that reaches the last
   * column gets endCol |row| - 2 and length |row| - 1 - s, one short of its
   * digits; its value has at most as many digits as the run.
   */
  lemma TokenShape(row: seq<Cell>, r: int, s: nat)
    requires DigitsValid(row) && RunStart(row, s)
    ensures TokenAt(row, r, s).row == r && TokenAt(row, r, s).startCol == s
    ensures RunEnd(row, s) < |row| ==>
      TokenAt(row, r, s).endCol == RunEnd(row, s) - 1 && TokenAt(row, r, s).length == RunEnd(row, s) - s
    ensures RunEnd(row, s) == |row| ==>
      TokenAt(row, r, s).endCol == |row| - 2 && TokenAt(row, r, s).length == |row| - 1 - s
    ensures TokenAt(row, r, s).value < Pow10(RunEnd(row, s) - s)
  {
  }

  /** A one-digit run is recorded with that digit as its value. */
  lemma SingleDigitToken(row: seq<Cell>, r: int, s: nat)
    requires DigitsValid(row) && RunStart(row, s) && !IsNumberAt(row, s + 1)
    ensures TokenAt(row, r, s).value == row[s].value.value
  {
    assert RunEnd(row, s + 1) == s + 1;
    var d := row[s].value.value;
    assert DigitText(row, s, s + 1) == [DigitChar(d)];
    DigitRoundTrip(DigitChar(d), d);
  }

  /**
   * The numbers of a row are recorded from left to right, and none overlaps
   * the next: each ends before the next one starts.
   */
  lemma RowTokensApart(row: seq<Cell>, r: int)
    requires DigitsValid(row)
    ensures forall i, j :: 0 <= i < j < |RowTokens(row, r)| ==>
      RowTokens(row, r)[i].endCol < RowTokens(row, r)[j].startCol
  {
    var starts := RunStarts(row, |row|);
    RunStartsMembers(row, |row|);
    forall i, j | 0 <= i < j < |RowTokens(row, r)|
      ensures RowTokens(row, r)[i].endCol < RowTokens(row, r)[j].startCol
    {
      TokensAt(row, r, starts, i);
      TokensAt(row, r, starts, j);
      TokenShape(row, r, starts[i]);
      TokenShape(row, r, starts[j]);
      RunEndBefore(row, starts[i], starts[j]);
    }
  }

  /** Tokens records, at index i, the number of the i-th start. */
  lemma {:induction false} TokensAt(row: seq<Cell>, r: int, starts: seq<nat>, i: nat)
    requires DigitsValid(row)
    requires forall k :: 0 <= k < |starts| ==> RunStart(row, starts[k])
    requires i < |starts|
    ensures Tokens(row, r, starts)[i] == TokenAt(row, r, starts[i])
    decreases |starts|
  {
    if i < |starts| - 1 {
      TokensAt(row, r, starts[..|starts| - 1], i);
    }
  }

  /** A run ends before the start of any later run. */
  lemma RunEndBefore(row: seq<Cell>, s: nat, t: nat)
    requires RunStart(row, s) && RunStart(row, t) && s < t
    ensures RunEnd(row, s) < t
  {
  }

  /** A symbol at (r, c) puts position p among the valid locations. */
  predicate SymbolTouches(grid: seq<seq<Cell>>, r: int, c: int, p: Pos)
  {
    0 <= r < |grid| && 0 <= c < |grid[r]| && grid[r][c].kind == Symbol &&
    0 <= p.row < |grid| && 0 <= p.col < |grid[r]| && Touching(p, Pos(r, c))
  }

  lemma {:induction false} RowFootprintMembers(grid: seq<seq<Cell>>, r: nat, c: nat)
    requires r < |grid| && c <= |grid[r]|
    ensures forall p :: p in RowFootprint(grid, r, c) <==> exists k :: 0 <= k < c && SymbolTouches(grid, r, k, p)
  {
    if c > 0 {
      RowFootprintMembers(grid, r, c - 1);
      NeighboursMembers(Pos(r, c - 1), |grid|, |grid[r]|);
      forall p
        ensures p in RowFootprint(grid, r, c) <==> exists k :: 0 <= k < c && SymbolTouches(grid, r, k, p)
      {
        if p in RowFootprint(grid, r, c) && p !in RowFootprint(grid, r, c - 1) {
          assert SymbolTouches(grid, r, c - 1, p);
        }
        if exists k :: 0 <= k < c && SymbolTouches(grid, r, k, p) {
          var k :| 0 <= k < c && SymbolTouches(grid, r, k, p);
          if k == c - 1 {
            assert p in CellFootprint(grid, r, c - 1);
          }
        }
      }
    }
  }

  lemma {:induction false} FootprintMembers(grid: seq<seq<Cell>>, n: nat)
    requires n <= |grid|
    ensures forall p :: p in Footprint(grid, n) <==>
      exists r, k :: 0 <= r < n && SymbolTouches(grid, r, k, p)
  {
    if n > 0 {
      FootprintMembers(grid, n - 1);
      RowFootprintMembers(grid, n - 1, |grid[n - 1]|);
    }
  }

  /**
   * The valid locations are exactly the positions touching some symbol,
   * diagonals included, within the grid's height and the symbol row's width.
   */
  lemma ValidLocationsMembers(grid: seq<seq<Cell>>)
    ensures forall p :: p in ValidLocations(grid) <==> exists r, k :: SymbolTouches(grid, r, k, p)
  {
    FootprintMembers(grid, |grid|);
  }
}
