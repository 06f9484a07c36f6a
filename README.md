# Advent of Code 2023, days 1 to 4, in Dafny

This project models four TypeScript puzzle solvers. Each takes the lines of a
puzzle input and returns two answers.

- **Day 1, Trebuchet calibration** (`day1/solve.ts`, module `Calibration`).
  - Part 1 keeps the digits of each line, reads the first and the last as a two-digit number, and sums those values.
  - Part 2 also accepts the spelled-out words `one` … `nine`.
    - The first value is the leftmost match of the pattern.
    - The last is the group of `.*(…)`. Without the `s` flag, `.` stops at a line terminator (`\n`, `\r`, U+2028, U+2029). So the group is the last match before the first line terminator that follows the leftmost match. On a line without line terminators that is the match that starts furthest right, so overlapping words such as `twone` give 21.
  - Module `CalibrationSample` states the two puzzle samples the solver checks, 142 and 281, line by line.
- **Day 2, cube game** (`day2/solve.ts`, module `CubeGame`).
  - A game line `Game N: 3 blue, 4 red; …` becomes a game holding one cube set per `;`-separated draw.
  - Part 1 sums the ids of the games in which no draw exceeds 14 blue, 13 green and 12 red.
  - Part 2 sums the power of each game's minimum cube set. The power is the product of the three per-colour maxima.
- **Day 3, gear ratios** (`day3/solve.ts`; modules `SchematicGrid`, `SchematicScan`, `SchematicQueries` and, for a worked one-row grid, `SchematicSample`).
  - The schematic becomes a grid of cells. One imperative scan per row collects:
    - the part numbers, as digit runs;
    - the valid locations, as the neighbours of every symbol.
  - Part 1 sums the numbers with a column on a valid location.
  - Part 2 multiplies the pair of numbers next to every star that touches exactly two of them, and sums those products.
- **Day 4, scratchcards** (`day4/solve.ts`, module `Scratchcards`).
  - A card line gives the card number, the winning numbers and our numbers.
  - Part 1 scores 2^(k-1) points for k matches.
  - Part 2 starts with one copy of each card. Card n with k matches wins one copy of each of cards n+1 … n+k for every copy of n held. The answer counts the copies.
  - The `Map` of copies is modelled as a `Vault`: an insertion-ordered key list and a map.

Two supporting modules hold the shared pieces:
- `Text`: string splitting, trimming, whitespace splitting and decimal conversion, the parts of JavaScript's `String` and `parseInt`/`Number` the solvers use.
- `Collections`: lodash's `sum`, `uniq`, `intersection` and `range`.

Parsing happens on lines of a stated shape.
- The JavaScript functions return `NaN` or `undefined` on malformed text. The model instead requires its well-formedness predicates: `WellFormedGame`, `WellFormedCard` and `WellFormedGrid`.
- The loops of the source keep their form.
  - `findNeighbours`, `isAdjacent` and the scan of `generateNumbersAndValidLocations` are `method`s.
  - So are the part 1 filter loop of day 3, the part 2 loops of day 4 and the tuple loop of `parseSets`.
  - Each method is proved against a specification function, and the properties are proved about that function.

The number that ends on the last column of a day 3 row is recorded as the source writes it, at `day3/solve.ts:148-149`. Its `endCol` is the column before its last digit, and its `length` is one short. So that last digit never counts towards adjacency.
- `SchematicScan.TokenAt` uses `CloseCol` to give exactly this shape.
- `SchematicScan.TokenShape` and `SchematicScan.EdgeFacts` state it.

## Model

| member | source | states |
|---|---|---|
| Text.DigitRoundTrip | day1/solve.ts:23 | A digit character and its value convert to each other and back. |
| Text.DecimalValueLeading | day1/solve.ts:23 | Reading a digit string with one more leading digit adds that digit times the power of ten of the rest. |
| Text.DecimalValuePair | day1/solve.ts:23 | Reading the two-character string `ab` gives 10·a + b. |
| Text.NumberOf | day2/solve.ts:40 | Converting a string gives 0 for the empty string and otherwise a value below 10^length. |
| Text.SplitCount | day2/solve.ts:41 | `split` yields one more part than the separator occurs. |
| Text.JoinSplit | day2/solve.ts:27 | Joining the parts of a split with the separator gives back the string. |
| Text.SplitJoin | day2/solve.ts:27 | Splitting a join of separator-free parts gives back the parts. |
| Text.SplitPrefix | day2/solve.ts:37 | A separator-free prefix joins the first part of the split and leaves the others. |
| Text.Trim | day2/solve.ts:27 | `trim` removes exactly the leading and trailing whitespace. The result neither starts nor ends with whitespace and is the middle of the input. |
| Text.TrimUntouched | day2/solve.ts:27 | A string with no whitespace at either end trims to itself. |
| Text.TrimIdempotent | day2/solve.ts:27 | Trimming twice is trimming once. |
| Text.SplitWhitespace | day4/solve.ts:16 | `split(/\s+/)` yields at least one part, and no part contains whitespace. |
| Text.SplitWhitespaceShape | day4/solve.ts:16 | The first part is empty exactly when the text is empty or starts with whitespace. Without trailing whitespace every later part is non-empty. |
| Text.SplitWhitespaceWords | day4/solve.ts:16 | A trimmed string splits into non-empty words. |
| Text.SplitWhitespaceKeeps | day4/solve.ts:16 | The parts concatenated are the text with its whitespace removed, so nothing else is dropped or reordered. |
| Text.SplitWhitespaceWordPrefix | day4/solve.ts:16 | A whitespace-free prefix extends the first piece and leaves the later pieces unchanged. |
| Text.SplitWhitespaceGapPrefix | day4/solve.ts:16 | A whitespace run before text that starts with a word adds exactly one empty piece in front. |
| Text.SplitWhitespaceJoin | day4/solve.ts:16 | Whitespace-free words joined by non-empty whitespace runs split back into exactly those words, so the cuts fall at the whitespace runs and nowhere else. |
| Text.JoinWordsStart | day4/solve.ts:16 | Words joined by whitespace start with the first word, so not with whitespace. |
| Collections.SumAppend | day4/solve.ts:33 | The sum of a concatenation is the sum of the sums. |
| Collections.SumNonNegative | day4/solve.ts:57 | A sum of non-negative terms is non-negative and at least each term. |
| Collections.SumMonotone | day2/solve.ts:83 | Termwise smaller lists have a smaller sum. |
| Collections.SumUpdate | day4/solve.ts:52 | Replacing one term changes the sum by the difference. |
| Collections.Uniq | day4/solve.ts:15-18 | `uniq` keeps the same members, each once, and is no longer than its input. |
| Collections.UniqOfNoDup | day4/solve.ts:15-18 | `uniq` of a duplicate-free list is that list. |
| Collections.Intersection | day4/solve.ts:20 | `intersection` is duplicate-free. Its members are exactly those in both lists. It is no longer than the first list. |
| Collections.IntersectionLength | day4/solve.ts:20 | The intersection is no longer than either list when the second list is duplicate-free. |
| Collections.NoDupSubsetLength | day4/solve.ts:20 | A duplicate-free list whose members all lie in another duplicate-free list is no longer than it. |
| Collections.Range | day4/solve.ts:50 | `range(start, end)` has end − start elements, and element i is start + i. |
| Calibration.JustDigits | day1/solve.ts:16-18 | Removing the non-digits leaves only digits and never lengthens the line. |
| Calibration.JustDigitsAppend | day1/solve.ts:16-18 | Removing non-digits distributes over concatenation. |
| Calibration.JustDigitsEmpty | day1/solve.ts:16-18 | The digits of a line are empty exactly when the line has no digit. |
| Calibration.JustDigitsFirst | day1/solve.ts:21-23 | The first kept character is the first digit of the line. |
| Calibration.JustDigitsLast | day1/solve.ts:21-23 | The last kept character is the last digit of the line. |
| Calibration.DigitEnds | day1/solve.ts:20-24 | A line with a digit has a first digit and a last digit. |
| Calibration.CalibrationValue | day1/solve.ts:20-24 | The value is 10·(first digit) + (last digit) of the line, so at most 99. |
| Calibration.CalibrationSingleDigit | day1/solve.ts:20-24 | A line with a single digit d has value 11·d. |
| Calibration.Part1 | day1/solve.ts:26-28 | The sum of the calibration values is at most 99 per line. |
| Calibration.SpelledAtIsPrefix | day1/solve.ts:30 | A word matches at position i exactly when it is a prefix of the line from i. |
| Calibration.MatchFromText | day1/solve.ts:30 | A match found at a position is one of the nine words or a single digit, and it is spelled there. |
| Calibration.FirstMatchFrom | day1/solve.ts:59 | The scan finds the leftmost position from i where the pattern matches, or reports that there is none. |
| Calibration.LastMatchBefore | day1/solve.ts:60 | The scan finds the rightmost position before j where the pattern matches, or reports that there is none. |
| Calibration.SegmentEnd | day1/solve.ts:60 | The end of what `.` can cover from i: the first line terminator at or after i, or the end of the line. |
| Calibration.GreedyFrom | day1/solve.ts:60 | From start s, `.*` backs off to the last match before the segment end, if it starts at s or later; otherwise no match from s. |
| Calibration.DotStarMatch | day1/solve.ts:60 | Trying starts from s on, the result is a real match at a position of the line. |
| Calibration.MatchNotTerminator | day1/solve.ts:30 | No match starts on a line terminator. |
| Calibration.GreedyReaches | day1/solve.ts:60 | A start joined to the leftmost match without a line terminator between finds the last match before the leftmost match's segment end. |
| Calibration.GreedyCutOff | day1/solve.ts:60 | A start cut off from the leftmost match by a line terminator finds nothing. |
| Calibration.DotStarFrom | day1/solve.ts:60 | From every start up to the leftmost match, `.*(…)` yields the last match before the first line terminator after the leftmost match. |
| Calibration.ToDigit | day1/solve.ts:32-56 | Each of the nine words maps to its position in the list 1 … 9, and anything else maps to its first character's digit value. |
| Calibration.MatchAt | day1/solve.ts:30 | A match at a position is one of the nine words or a single digit, spelled there. |
| Calibration.MatchEnds | day1/solve.ts:59-60 | A line with a match has a leftmost match and a `.*(…)` match, both of them words or digits; they are the only such pair. |
| Calibration.TwoDigits | day1/solve.ts:61 | Writing two digits next to each other and reading them back gives 10·a + b. |
| Calibration.Part2Line | day1/solve.ts:58-62 | The value is 10·(value of the leftmost match) + (value of the last match before the first line terminator after it), at most 99. |
| Calibration.GreedyIsRightmost | day1/solve.ts:60 | On a line without line terminators the `.*(…)` group is exactly the rightmost match. |
| Calibration.Part2LineRightmost | day1/solve.ts:58-62 | On a line without line terminators the value is 10·(leftmost match) + (rightmost match). |
| Calibration.Part2LineCarriageReturn | day1/solve.ts:58-62 | On `1\r2` the value is 11, since `.` stops at the carriage return, while part 1 gives 12. |
| Calibration.MatchAtWithoutWords | day1/solve.ts:30 | With no spelled word in the line, a match is exactly a digit. |
| Calibration.Part2LineWithoutWords | day1/solve.ts:58-62 | With no spelled word and no line terminator, part 2 gives the same value as part 1. |
| Calibration.TwoneMatches | day1/solve.ts:30 | In `twone`, `two` matches at 0, `one` at 2, and nothing at 3 or 4. |
| Calibration.Part2LineOverlap | day1/solve.ts:58-62 | Overlapping words count at both ends: `twone` gives 21. |
| Calibration.Part2 | day1/solve.ts:64-66 | The sum of the part 2 values is at most 99 per line. |
| CalibrationSample.WordOpensAt | day1/solve.ts:30 | A word that matches at p puts its first two letters at p and p + 1. |
| CalibrationSample.NoMatchAt | day1/solve.ts:30 | Nothing matches at a letter that does not open one of the nine words with the letter after it. |
| CalibrationSample.OpeningsDiffer | day1/solve.ts:30 | The nine words differ in their first two letters. |
| CalibrationSample.ToDigitWord | day1/solve.ts:32-56 | toDigit maps the k-th word to k + 1. |
| CalibrationSample.WordMatchAt | day1/solve.ts:30 | A word spelled at p is what the alternation matches there. |
| CalibrationSample.MatchFromSkips | day1/solve.ts:30 | The alternation skips words that do not match and stops at the first that does. |
| CalibrationSample.DigitMatchAt | day1/solve.ts:30 | A digit at p is what the alternation matches there, and toDigit gives its value. |
| CalibrationSample.Sample1Line0 | day1/solve.ts:20-24 | `1abc2` has value 12. |
| CalibrationSample.Sample1Line1 | day1/solve.ts:20-24 | `pqr3stu8vwx` has value 38. |
| CalibrationSample.Sample1Line2 | day1/solve.ts:20-24 | `a1b2c3d4e5f` has value 15. |
| CalibrationSample.Sample1Line3 | day1/solve.ts:20-24 | `treb7uchet` has value 77. |
| CalibrationSample.Sample2Line0First | day1/solve.ts:59 | In `two1nine` the leftmost match is `two` at 0, and there is no line terminator. |
| CalibrationSample.Sample2Line0Last | day1/solve.ts:60 | In `two1nine` the rightmost match is `nine` at 4. |
| CalibrationSample.Sample2Line0 | day1/solve.ts:58-62 | `two1nine` has value 29. |
| CalibrationSample.Sample2Line1First | day1/solve.ts:59 | In `eightwothree` the leftmost match is `eight` at 0, and there is no line terminator. |
| CalibrationSample.Sample2Line1Last | day1/solve.ts:60 | In `eightwothree` the rightmost match is `three` at 7. |
| CalibrationSample.Sample2Line1 | day1/solve.ts:58-62 | `eightwothree` has value 83. |
| CalibrationSample.Sample2Line2First | day1/solve.ts:59 | In `abcone2threexyz` the leftmost match is `one` at 3, and there is no line terminator. |
| CalibrationSample.Sample2Line2Last | day1/solve.ts:60 | In `abcone2threexyz` the rightmost match is `three` at 7. |
| CalibrationSample.Sample2Line2 | day1/solve.ts:58-62 | `abcone2threexyz` has value 13. |
| CalibrationSample.Sample2Line3First | day1/solve.ts:59 | In `xtwone3four` the leftmost match is `two` at 1, and there is no line terminator. |
| CalibrationSample.Sample2Line3Last | day1/solve.ts:60 | In `xtwone3four` the rightmost match is `four` at 7. |
| CalibrationSample.Sample2Line3 | day1/solve.ts:58-62 | `xtwone3four` has value 24. |
| CalibrationSample.Sample2Line4First | day1/solve.ts:59 | In `4nineeightseven2` the leftmost match is `4` at 0, and there is no line terminator. |
| CalibrationSample.Sample2Line4Last | day1/solve.ts:60 | In `4nineeightseven2` the rightmost match is `2` at 15. |
| CalibrationSample.Sample2Line4 | day1/solve.ts:58-62 | `4nineeightseven2` has value 42. |
| CalibrationSample.Sample2Line5First | day1/solve.ts:59 | In `zoneight234` the leftmost match is `one` at 1, and there is no line terminator. |
| CalibrationSample.Sample2Line5Last | day1/solve.ts:60 | In `zoneight234` the rightmost match is `4` at 10. |
| CalibrationSample.Sample2Line5 | day1/solve.ts:58-62 | `zoneight234` has value 14. |
| CalibrationSample.Sample2Line6First | day1/solve.ts:59 | In `7pqrstsixteen` the leftmost match is `7` at 0, and there is no line terminator. |
| CalibrationSample.Sample2Line6Last | day1/solve.ts:60 | In `7pqrstsixteen` the rightmost match is `six` at 6. |
| CalibrationSample.Sample2Line6 | day1/solve.ts:58-62 | `7pqrstsixteen` has value 76. |
| CalibrationSample.Part1Values | day1/solve.ts:26-28 | part1 is the sum of the values its lines are known to have. |
| CalibrationSample.Part2Values | day1/solve.ts:64-66 | part2 is the sum of the values its lines are known to have. |
| CalibrationSample.Sample1Sum | day1/solve.ts:70 | The first sample's values 12, 38, 15, 77 add up to 142. |
| CalibrationSample.Sample2Sum | day1/solve.ts:72 | The second sample's values 29, 83, 13, 24, 42, 14, 76 add up to 281. |
| CalibrationSample.SamplePart1 | day1/solve.ts:70 | part1 on the four sample lines is 142. |
| CalibrationSample.SamplePart2 | day1/solve.ts:72 | part2 on the seven sample lines is 281. |
| CubeGame.CubeSet.With | day2/solve.ts:30 | `set[name] = n` sets that colour and leaves the other two unchanged. |
| CubeGame.SplitTrim | day2/solve.ts:27 | Split then trim yields one trimmed part per part of the split. |
| CubeGame.SetOfTuplesDefault | day2/solve.ts:21-25 | A colour that no tuple names stays 0. |
| CubeGame.SetOfTuplesLastWins | day2/solve.ts:28-31 | A colour takes the count of the last tuple that names it. |
| CubeGame.SetOfTuplesStep | day2/solve.ts:28-31 | Each tuple updates the set at its colour, and a tuple naming no colour leaves it unchanged. |
| CubeGame.ParseSets | day2/solve.ts:20-34 | The loop over the tuples yields the set the tuples specify. |
| CubeGame.ParseGame | day2/solve.ts:36-48 | A game holds one set per `;`-separated draw. |
| CubeGame.GameHead | day2/solve.ts:38 | `Game N` splits into `Game` and the id. |
| CubeGame.SplitPair | day2/solve.ts:37 | Splitting `a:b` on `:` yields `a` and `b` when neither contains `:`. |
| CubeGame.HalvesTrimmed | day2/solve.ts:37 | A game line splits into its head and its trimmed draws. |
| CubeGame.ParseGameOf | day2/solve.ts:36-48 | A line `Game id: rest` is well formed. It parses to id `id` with `count(;) + 1` sets. |
| CubeGame.ParseGameLayout | day2/solve.ts:36-48 | The same holds for a line assembled from `Game id` and its draws. |
| CubeGame.ParseGames | day2/solve.ts:50-52 | Each line becomes one game, and each game has at least one set. |
| CubeGame.BadSets | day2/solve.ts:59-65 | The bad sets are draws that exceed the limit, and there are no more of them than draws. |
| CubeGame.NoBadSets | day2/solve.ts:59-66 | A game has no bad set exactly when every draw is within 14 blue, 13 green and 12 red. |
| CubeGame.SumPossibleIdsBounds | day2/solve.ts:57-68 | The sum of possible ids is at most the sum of all ids. It equals that sum when every game is possible and is 0 when none is. |
| CubeGame.Part1 | day2/solve.ts:54-69 | Part 1 is 0 for no lines and at most the sum of the game ids. |
| CubeGame.MaxOf | day2/solve.ts:76-78 | `Math.max` of a non-empty list is an upper bound of the list and one of its elements. |
| CubeGame.Counts | day2/solve.ts:76-78 | The mapped list holds each draw's count of that colour. |
| CubeGame.MinimumSetIsLeast | day2/solve.ts:74-80 | The minimum set covers every draw in each colour and is at most any other set that does. |
| CubeGame.Part2 | day2/solve.ts:71-84 | Part 2 is 0 for no lines. |
| CubeGame.SampleGamePossible | day2/solve.ts:86 | In the five sample games, game k has id k + 1 and is possible unless it is game 3 or game 4. |
| CubeGame.SamplePart1 | day2/solve.ts:86 | The possible sample ids sum to 8. |
| CubeGame.SumOfSampleIds | day2/solve.ts:86 | Games with ids 1 … 5 of which exactly 3 and 4 are impossible give 8. |
| CubeGame.Game1Minimum | day2/solve.ts:86 | Sample game 1 needs 6 blue, 4 red and 2 green, power 48. |
| CubeGame.Game2Minimum | day2/solve.ts:86 | Sample game 2 needs 4 blue, 1 red and 3 green, power 12. |
| CubeGame.Game3Minimum | day2/solve.ts:86 | Sample game 3 needs 6 blue, 20 red and 13 green, power 1560. |
| CubeGame.Game4Minimum | day2/solve.ts:86 | Sample game 4 needs 15 blue, 14 red and 3 green, power 630. |
| CubeGame.Game5Minimum | day2/solve.ts:86 | Sample game 5 needs 2 blue, 6 red and 3 green, power 36. |
| CubeGame.SamplePowers | day2/solve.ts:86 | The sample powers are 48, 12, 1560, 630 and 36. |
| CubeGame.SumPowersOf | day2/solve.ts:82-83 | Known per-game powers add up to the sum of powers. |
| CubeGame.SamplePart2 | day2/solve.ts:86 | The powers of the sample games sum to 2286. |
| CubeGame.MinimumSetOf | day2/solve.ts:74-80 | A set that covers every draw and is attained in each colour is the minimum set. |
| SchematicGrid.Classify | day3/solve.ts:28-52 | A cell is a Number exactly for a digit, holding the digit's value. It is a Space exactly for `.`, and a star exactly for `*`. Every other character is a Symbol. |
| SchematicGrid.ParseMap | day3/solve.ts:28-52 | A row has one cell per character, classified at its own row and column. |
| SchematicGrid.ParseGrid | day3/solve.ts:223 | Row r of the grid is row r of the input, parsed. |
| SchematicGrid.ParseGridWellFormed | day3/solve.ts:28-52 | A parsed grid is well formed. Each cell records its own position and holds a value exactly when it is a digit. |
| SchematicGrid.FindNeighbours | day3/solve.ts:54-82 | The two loops push exactly the neighbour list of the position. |
| SchematicGrid.NeighboursMembers | day3/solve.ts:62-79 | The neighbours are exactly the in-grid positions that touch the position and are not it. |
| SchematicGrid.NeighboursOrdered | day3/solve.ts:62-79 | The neighbours come row by row, left to right, without repeats. |
| SchematicGrid.NeighboursAtMostEight | day3/solve.ts:62-79 | There are at most eight neighbours. |
| SchematicGrid.RowSweepLength | day3/solve.ts:67-78 | The inner loop yields one position per column, less the centre. |
| SchematicGrid.IsAdjacent | day3/solve.ts:84-95 | The result is true exactly when some neighbour lies on the number's row inside its column span. |
| SchematicGrid.AdjacentToNeighbours | day3/solve.ts:84-95 | A number with a non-empty span, not covering the star, is adjacent to the star's neighbours exactly when the star is within one row of it and one column of its span. |
| SchematicScan.RunEnd | day3/solve.ts:137-152 | A digit run extends to the first non-digit or the end of the row. |
| SchematicScan.RunStartOf | day3/solve.ts:138-140 | The run holding a digit starts after the last non-digit before it. |
| SchematicScan.DigitText | day3/solve.ts:141 | The number text built from a run is all digits, one per cell. |
| SchematicScan.DigitTextChars | day3/solve.ts:141 | Place i of the run text is the digit of cell s + i. |
| SchematicScan.GenerateNumbersAndValidLocations | day3/solve.ts:97-171 | The scan returns exactly the neighbours of every symbol as valid locations, and the numbers of all rows in row order. |
| SchematicScan.ScanRow | day3/solve.ts:107-168 | One row adds that row's symbol neighbours and that row's numbers, left to right. |
| SchematicScan.EndRun | day3/solve.ts:114-126 | A symbol or a space closes the open number, if any, and records it. |
| SchematicScan.ReadDigit | day3/solve.ts:137-152 | A digit opens or extends the run, and on the last column records the number. |
| SchematicScan.ExtendRun | day3/solve.ts:138-141 | The start column is set only at the first digit, and the digit is appended to the text. |
| SchematicScan.MarkNeighbours | day3/solve.ts:128-136 | Adding a symbol's neighbours extends the valid locations by exactly that symbol's footprint. |
| SchematicScan.StoreNumber | day3/solve.ts:117-123 | Storing a closed run appends its number. |
| SchematicScan.CloseRun | day3/solve.ts:155-162 | A run closed by a non-digit at column c ends at c − 1, has length c − start and the value of its text. |
| SchematicScan.EdgeFacts | day3/solve.ts:143-152 | A run reaching the last column is recorded with `endCol` the column before its last digit and a length one short. |
| SchematicScan.TokenShape | day3/solve.ts:143-162 | A recorded number starts at its run. It ends one before the run's end when the run is closed by a non-digit, and two before when the run reaches the row's end. |
| SchematicScan.SingleDigitToken | day3/solve.ts:141 | A one-digit run has that digit's value. |
| SchematicScan.RunStartsMembers | day3/solve.ts:111-167 | The runs met before column c are exactly the run starts below c, in increasing order. |
| SchematicScan.RowTokensApart | day3/solve.ts:111-167 | The numbers of a row come left to right with disjoint spans. |
| SchematicScan.ValidLocationsMembers | day3/solve.ts:114-136 | A position is a valid location exactly when it is a neighbour of some symbol cell. |
| SchematicScan.FootprintMembers | day3/solve.ts:107-136 | The locations gathered from the first n rows are the neighbours of their symbols. |
| SchematicQueries.IsPartNumber | day3/solve.ts:178-185 | The loop returns true exactly when some column of the span is a valid location. |
| SchematicQueries.Part1 | day3/solve.ts:173-194 | Part 1 is the sum of the values of the numbers over a valid location, in scan order. |
| SchematicQueries.GoodNumbersMembers | day3/solve.ts:177-186 | The filter keeps exactly the numbers over a valid location, and no more than it is given. |
| SchematicQueries.GoodNumbersSum | day3/solve.ts:188-191 | The kept values sum to between 0 and the sum of all values. |
| SchematicQueries.Part1Bounds | day3/solve.ts:173-194 | Part 1 is between 0 and the sum of every number in the grid. |
| SchematicQueries.Part1Counted | day3/solve.ts:173-194 | A number counts exactly when a column of its span touches a symbol. |
| SchematicQueries.Part1NoSymbols | day3/solve.ts:173-194 | A grid without symbols gives 0. |
| SchematicQueries.NoRunStarts | day3/solve.ts:137-152 | A row without digit cells has no runs. |
| SchematicQueries.NoTokens | day3/solve.ts:107-168 | A grid without digit cells yields no numbers. |
| SchematicQueries.Part1NoDigits | day3/solve.ts:173-194 | A grid without digits gives 0. |
| SchematicQueries.FilterAdjacent | day3/solve.ts:204-206 | The filter loop keeps the numbers the adjacency test accepts, in order. |
| SchematicQueries.Part2 | day3/solve.ts:196-216 | Part 2 is the sum, over the stars in grid order, of the product of the two adjacent numbers, or 0 unless there are exactly two. |
| SchematicQueries.FlatMember | day3/solve.ts:198 | An element of `flat()` comes from one of the lists flattened. |
| SchematicQueries.FlatContains | day3/solve.ts:198 | Every element of a list flattened is in `flat()`. |
| SchematicQueries.FlatMembers | day3/solve.ts:198 | `flat()` holds exactly the cells of the grid. |
| SchematicQueries.StarsMembers | day3/solve.ts:198-200 | The stars are exactly the star cells of the grid. |
| SchematicQueries.StarsInGrid | day3/solve.ts:198-200 | Every star sits at its recorded position in the grid. |
| SchematicQueries.Part2NoStars | day3/solve.ts:196-216 | A grid without stars gives 0. |
| SchematicQueries.Part2NoDigits | day3/solve.ts:196-216 | A grid without digits gives 0, since no star has an adjacent number. |
| SchematicQueries.Part2NonNegative | day3/solve.ts:202-215 | Gear ratios are never negative, so neither is part 2. |
| SchematicQueries.AdjacentNumbersMembers | day3/solve.ts:204-206 | The adjacency filter keeps exactly the numbers adjacent to the neighbours. |
| SchematicQueries.GridTokensFrom | day3/solve.ts:107-168 | Every number the scan finds is the number of a digit run of some row. |
| SchematicQueries.RowLists | day3/solve.ts:107-168 | One list of recorded numbers per row, each the row's own scan. |
| SchematicQueries.GridTokensFlat | day3/solve.ts:107-168 | The numbers of the first n rows are the rows' lists joined in order. |
| SchematicQueries.StarOffRun | day3/solve.ts:137-152 | A recorded number lies inside its row and never covers a star. |
| SchematicQueries.GearAdjacency | day3/solve.ts:202-206 | In a rectangular grid, a number with a non-empty span is among a star's adjacent numbers exactly when the star is within one row and one column of its span. |
| SchematicSample.SmallGridParsed | day3/solve.ts:28-52 | `12*34` parses to two digits, a star and two digits, each cell at its own column. |
| SchematicSample.SmallWellFormed | day3/solve.ts:28-52 | The parsed row of `12*34` is well formed: each cell at its own position, digits below ten, the star a symbol. |
| SchematicSample.SmallRuns | day3/solve.ts:137-165 | The runs of `12*34` start at columns 0 and 3 and end at column 2 and at the row end. |
| SchematicSample.SmallValues | day3/solve.ts:141 | The run texts read as 12 and 34. |
| SchematicSample.SmallTokenAt | day3/solve.ts:139-152 | The run at column 0 closes as 12 over columns 0 to 1. The run at column 3 closes at the row end as 34, with `endCol` 3 and length 1. |
| SchematicSample.SmallTokenList | day3/solve.ts:114-152 | The runs starting at columns 0 and 3 are recorded, in that order, as 12 and 34. |
| SchematicSample.SmallRowTokens | day3/solve.ts:114-152 | The scan of the row records 12 and then 34. |
| SchematicSample.SmallTokens | day3/solve.ts:114-152 | The scan records 12 over columns 0 to 1 with length 2. It records 34 with `endCol` 3 and length 1, because the run reaches the last column. |
| SchematicSample.SmallNeighbours | day3/solve.ts:54-82 | The star at (0, 2) of the one-row grid has neighbours (0, 1) and (0, 3). |
| SchematicSample.SmallValid | day3/solve.ts:114-136 | The star of `12*34` makes (0, 1) and (0, 3) valid locations. |
| SchematicSample.SmallGood | day3/solve.ts:177-186 | The filter of part 1 keeps both numbers of `12*34`. |
| SchematicSample.SmallSum | day3/solve.ts:188-191 | The numbers 12 and 34 sum to 46. |
| SchematicSample.SmallPart1 | day3/solve.ts:173-194 | Part 1 of `12*34` is 46. |
| SchematicSample.SmallStars | day3/solve.ts:198-200 | The star is the only star of `12*34`. |
| SchematicSample.SmallRatio | day3/solve.ts:202-213 | The star touches both numbers, so its gear ratio is 408. |
| SchematicSample.SmallPart2 | day3/solve.ts:196-216 | Part 2 of `12*34` is 408. |
| Scratchcards.Numbers | day4/solve.ts:16 | One number per whitespace-separated word, all non-negative. |
| Scratchcards.ScoreDoubles | day4/solve.ts:27 | No matches score 0 and one match scores 1. Each further match doubles the score, and the score is 0 only without matches. |
| Scratchcards.ParseCard | day4/solve.ts:12-29 | The winning and own numbers are duplicate-free with the members of their texts. The matches are exactly the numbers in both, and the score is that of the match count. |
| Scratchcards.ParseCards | day4/solve.ts:32 | Each line parses to its card. |
| Scratchcards.Scores | day4/solve.ts:33 | Each card contributes its score. |
| Scratchcards.Part1Zero | day4/solve.ts:31-35 | Part 1 is non-negative, at least each card's score, and 0 exactly when no card has a match. |
| Scratchcards.Vault.Values | day4/solve.ts:57 | `values()` lists each key's count in insertion order. |
| Scratchcards.PutValid | day4/solve.ts:42 | `set` keeps the vault consistent, stores the count, and leaves every other key alone. |
| Scratchcards.TotalPut | day4/solve.ts:52 | `set` changes the total by the new count minus the old one. |
| Scratchcards.TotalPutNew | day4/solve.ts:52 | Setting a new key adds its count to the total. |
| Scratchcards.InitVaultCounts | day4/solve.ts:41-43 | The initial vault holds exactly the card numbers, each once. |
| Scratchcards.InitVaultDistinct | day4/solve.ts:41-43 | With distinct card numbers the keys are the card numbers in order. |
| Scratchcards.InitVaultTotal | day4/solve.ts:41-43 | The initial total is the number of distinct cards. |
| Scratchcards.AddCopiesEffect | day4/solve.ts:50-53 | Card numbers start … end − 1 each gain n copies, with missing ones counted from 0. No other count changes. |
| Scratchcards.AddCopiesTotal | day4/solve.ts:50-53 | The range adds (end − start)·n copies in total. |
| Scratchcards.WinCopies | day4/solve.ts:50-53 | The range loop performs exactly those additions. |
| Scratchcards.CardStepEffect | day4/solve.ts:46-54 | A card with k matches held c times adds c copies to each of the next k cards, k·c in total. |
| Scratchcards.CascadeGrows | day4/solve.ts:45-55 | The cascade never removes a key or lowers a count. |
| Scratchcards.CascadeTotal | day4/solve.ts:45-55 | The cascade never lowers the total. |
| Scratchcards.CascadeNoMatches | day4/solve.ts:45-55 | Without matches the cascade changes nothing. |
| Scratchcards.CascadeStep | day4/solve.ts:45-55 | The cascade over one more card is one more card step. |
| Scratchcards.NumberHeld | day4/solve.ts:46 | When a card is reached its number is in the vault, so `get` is defined. |
| Scratchcards.CardsHeldAtLeastOnce | day4/solve.ts:37-59 | Every card is held at least once, and the answer is at least the number of distinct cards. |
| Scratchcards.CountCards | day4/solve.ts:39-58 | The two loops and the final sum compute the copies the cascade holds. |
| Scratchcards.Part2 | day4/solve.ts:37-59 | Part 2 is the number of copies held after the cascade over the parsed cards. |
| Scratchcards.SamplePart1 | day4/solve.ts:61 | Cards with 4, 2, 2, 1, 0 and 0 matches score 13. |
| Scratchcards.SampleInit | day4/solve.ts:61 | Six cards numbered 1 … 6 start with one copy each, 6 in total. |
| Scratchcards.SampleCascade | day4/solve.ts:45-55 | The cascade over six cards is the six card steps in order. |
| Scratchcards.SamplePart2 | day4/solve.ts:61 | The sample cards end with 30 copies. |

## Left out

- Reading the input file and `solve`/`parseLines` (`utils/typescript`) are I/O. `utils/typescript` is not part of this model. Every part takes the lines as a sequence.
- The regular-expression engine is replaced by explicit scans. The day 1 patterns are `FirstMatchFrom` and `DotStarMatch` over `MatchAt`; `/[^0-9]/` is `IsDigit`; `/\s+/` is `SplitWhitespace`.
- Calibration.Part2LineWithoutWords: holds only on lines without line terminators. On `1\r2` part 2 gives 11 and part 1 gives 12 (`Calibration.Part2LineCarriageReturn`).
- Whitespace is the ASCII set (space, tab, line feed, vertical tab, form feed, carriage return). The Unicode spaces that JavaScript's `trim` and `\s` also accept are not modelled.
- Malformed lines are excluded by the well-formedness preconditions instead of modelled. This covers lines where the source yields `NaN`, `undefined` or a `TypeError`: a line with no digit in day 1, a missing `:` or `|`, a non-numeric count. It also covers some lines the source would accept, such as a count `3x` (which `parseInt` reads as 3) or a card number `1e3`.
- `Math.max()` of an empty draw list (−Infinity) is excluded. Every parsed game has at least one draw (`CubeGame.ParseGames`).
- JavaScript numbers are IEEE doubles; everywhere in the model they are unbounded `int`/`nat`, and results above 2^53 are not modelled. This affects `Number(numberBuilder)` on long digit runs (`day3/solve.ts:122`, `:150`, `:161`), `parseInt` of ids and counts (`day2/solve.ts:29-30`, `:40`), the products of part 2 of days 2 and 3, `Math.pow` in `Scratchcards.Pow2`, the copy counts of `Scratchcards.CountCards`, and the sums of all four days.
- The unused `digitsMap` (`day1/solve.ts:4-14`, which maps `nine` to 0) is not modelled, because no code reads it.
- The day 1 samples are stated on the puzzle's sample lines (`CalibrationSample.SamplePart1`, `CalibrationSample.SamplePart2`). Those lines are not in the solver's source; only the answers 142 and 281 are.
- CubeGame.SamplePart1 and CubeGame.SamplePart2 are stated on the parsed sample games, not on the sample text, because that text is not in the source.
- The day 3 sample answers (4361 and 467835) for the ten-by-ten sample grid of the puzzle are not stated: unfolding the scan over its hundred cells is beyond what the model proves. The one-row grid `12*34` is worked end to end instead (`SchematicSample.SmallPart1`, `SchematicSample.SmallPart2`).
- `cellPosToKey` (`day3/solve.ts:24-26`) string keys are replaced by `Pos` values in a `set<Pos>`. The key is injective, so membership is the same.
- `Set<PartNumber>` holds objects by identity, so it never merges two numbers. It is modelled as a `seq` in insertion order.
- SchematicGrid.FindNeighbours bounds the columns by the width of the centre row, as the source does. SchematicQueries.GearAdjacency states the geometric characterisation only for rectangular grids.
- SchematicScan.EndRun, SchematicScan.ReadDigit, SchematicScan.ExtendRun, SchematicScan.StoreNumber and SchematicScan.MarkNeighbours are the branches of the scan's loop body, written as separate methods. The state they update is passed in and returned.
- SchematicQueries.Part2 is a method, not a function: the `stars.map` callback calls `findNeighbours`, which is modelled as a method.
- Collections.Uniq: lodash `uniq` keeps first occurrences in input order. The contract states the members, the absence of duplicates and the length bound, not that order. The solver uses only the members and the count of matches.
