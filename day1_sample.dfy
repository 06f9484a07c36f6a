/**
 * The puzzle's two samples for day1/solve.ts, whose answers the solver
 * checks as test1 (142) and test2 (281). Each sample line has its own lemma
 * naming where its first and last digit (or match) lie.
 */
module CalibrationSample {
  import opened Text
  import opened Collections
  import opened Calibration

  /** Some number word starts with the letters a, b. */
  predicate Opens(a: char, b: char)
  {
    (a == 'o' && b == 'n') || (a == 't' && (b == 'w' || b == 'h')) || (a == 'f' && (b == 'o' || b == 'i')) ||
    (a == 's' && (b == 'i' || b == 'e')) || (a == 'e' && b == 'i') || (a == 'n' && b == 'i')
  }

  /** A word spelled out at p puts its first two letters at p and p + 1. */
  lemma WordOpensAt(line: string, p: nat, k: nat)
    requires p < |line| && k < |NumberWords|
    ensures WordAt(line, p, k) ==> p + 1 < |line| && line[p] == NumberWords[k][0] && line[p + 1] == NumberWords[k][1]
  {
    if WordAt(line, p, k) {
      var w := NumberWords[k];
      assert k == 0 || k == 1 || k == 2 || k == 3 || k == 4 || k == 5 || k == 6 || k == 7 || k == 8;
      assert |w| >= 3;
      assert line[p] == w[0] && SpelledAt(line, p + 1, w[1..]);
      assert line[p + 1] == w[1];
    }
  }

  /** No alternative matches at p when line[p] is no digit and no word starts with the two letters there. */
  lemma NoMatchAt(line: string, p: nat)
    requires p < |line| && !IsDigit(line[p])
    requires p + 1 < |line| ==> !Opens(line[p], line[p + 1])
    ensures MatchAt(line, p).None?
  {
    forall k | 0 <= k < |NumberWords| ensures !WordAt(line, p, k) {
      var w := NumberWords[k];
      assert k == 0 || k == 1 || k == 2 || k == 3 || k == 4 || k == 5 || k == 6 || k == 7 || k == 8;
      assert Opens(w[0], w[1]);
      WordOpensAt(line, p, k);
    }
    MatchAtWithoutWords(line, p);
  }

  /** The nine words differ in their first two letters. */
  lemma OpeningsDiffer(j: nat, k: nat)
    requires j < k < |NumberWords|
    ensures NumberWords[j][0] != NumberWords[k][0] || NumberWords[j][1] != NumberWords[k][1]
  {
    var w := NumberWords;
    assert w[0][..2] == "on" && w[1][..2] == "tw" && w[2][..2] == "th" && w[3][..2] == "fo" && w[4][..2] == "fi";
    assert w[5][..2] == "si" && w[6][..2] == "se" && w[7][..2] == "ei" && w[8][..2] == "ni";
    assert w[j][0] == w[j][..2][0] && w[j][1] == w[j][..2][1];
    assert w[k][0] == w[k][..2][0] && w[k][1] == w[k][..2][1];
  }

  /** toDigit maps word k of the list to k + 1. */
  lemma ToDigitWord(k: nat)
    requires k < |NumberWords|
    ensures IsNumberText(NumberWords[k]) && ToDigit(NumberWords[k]) == k + 1
  {
    var d := ToDigit(NumberWords[k]);
    assert 1 <= d && NumberWords[d - 1] == NumberWords[k];
    if d - 1 != k {
      var lo, hi := if d - 1 < k then d - 1 else k, if d - 1 < k then k else d - 1;
      OpeningsDiffer(lo, hi);
    }
  }

  /** A word spelled out at p is what the pattern matches there: the words before it open differently. */
  lemma WordMatchAt(line: string, p: nat, k: nat)
    requires p < |line| && k < |NumberWords| && WordAt(line, p, k)
    ensures MatchAt(line, p) == Some(NumberWords[k])
    ensures IsNumberText(NumberWords[k]) && ToDigit(NumberWords[k]) == k + 1
  {
    var w := NumberWords[k];
    ToDigitWord(k);
    WordOpensAt(line, p, k);
    forall j | 0 <= j < k ensures !WordAt(line, p, j) {
      OpeningsDiffer(j, k);
      WordOpensAt(line, p, j);
    }
    MatchFromSkips(line, p, 0, k);
  }

  /** The alternatives from j on skip the words that do not match and stop at word k. */
  lemma {:induction false} MatchFromSkips(line: string, p: nat, j: nat, k: nat)
    requires p < |line| && j <= k < |NumberWords| && WordAt(line, p, k)
    requires forall i :: j <= i < k ==> !WordAt(line, p, i)
    ensures MatchFrom(line, p, j) == Some(NumberWords[k])
    decreases k - j
  {
    if j < k {
      MatchFromSkips(line, p, j + 1, k);
    }
  }

  /** A digit at p is what the pattern matches there: every word starts with a letter. */
  lemma DigitMatchAt(line: string, p: nat)
    requires p < |line| && IsDigit(line[p])
    ensures MatchAt(line, p) == Some([line[p]])
    ensures IsNumberText([line[p]]) && ToDigit([line[p]]) == DigitValue(line[p])
  {
    forall k | 0 <= k < |NumberWords| ensures !WordAt(line, p, k) {
      assert k == 0 || k == 1 || k == 2 || k == 3 || k == 4 || k == 5 || k == 6 || k == 7 || k == 8;
      assert !IsDigit(NumberWords[k][0]);
    }
    MatchAtWithoutWords(line, p);
    assert [line[p]] !in NumberWords;
  }


  /** "1abc2": the first digit is at 0 and the last at 4, giving 12. */
  lemma Sample1Line0(line: string)
    requires line == "1abc2"
    ensures HasDigit(line) && CalibrationValue(line) == 12
  {
    assert FirstDigitAt(line, 0) && LastDigitAt(line, 4);
  }

  /** "pqr3stu8vwx": the first digit is at 3 and the last at 7, giving 38. */
  lemma Sample1Line1(line: string)
    requires line == "pqr3stu8vwx"
    ensures HasDigit(line) && CalibrationValue(line) == 38
  {
    forall m | 0 <= m < 3 ensures !IsDigit(line[m]) {
      assert m == 0 || m == 1 || m == 2;
    }
    forall m | 7 < m < 11 ensures !IsDigit(line[m]) {
      assert m == 8 || m == 9 || m == 10;
    }
    assert FirstDigitAt(line, 3) && LastDigitAt(line, 7);
  }

  /** "a1b2c3d4e5f": the first digit is at 1 and the last at 9, giving 15. */
  lemma Sample1Line2(line: string)
    requires line == "a1b2c3d4e5f"
    ensures HasDigit(line) && CalibrationValue(line) == 15
  {
    forall m | 0 <= m < 1 ensures !IsDigit(line[m]) {
      assert m == 0;
    }
    forall m | 9 < m < 11 ensures !IsDigit(line[m]) {
      assert m == 10;
    }
    assert FirstDigitAt(line, 1) && LastDigitAt(line, 9);
  }

  /** "treb7uchet": the first digit is at 4 and the last at 4, giving 77. */
  lemma Sample1Line3(line: string)
    requires line == "treb7uchet"
    ensures HasDigit(line) && CalibrationValue(line) == 77
  {
    forall m | 0 <= m < 4 ensures !IsDigit(line[m]) {
      assert m == 0 || m == 1 || m == 2 || m == 3;
    }
    forall m | 4 < m < 10 ensures !IsDigit(line[m]) {
      assert m == 5 || m == 6 || m == 7 || m == 8 || m == 9;
    }
    assert FirstDigitAt(line, 4) && LastDigitAt(line, 4);
  }

  /** "two1nine": the leftmost match is "two" at 0, and the line holds no line terminator. */
  lemma Sample2Line0First(line: string)
    requires line == "two1nine"
    ensures LeftmostMatch(line, 0) && ToDigit(MatchAt(line, 0).value) == 2 && NoLineTerminator(line)
  {
    assert WordAt(line, 0, 1);
    WordMatchAt(line, 0, 1);
    forall m | 0 <= m < 8 ensures !IsLineTerminator(line[m]) {
      assert m == 0 || m == 1 || m == 2 || m == 3 || m == 4 || m == 5 || m == 6 || m == 7;
    }
  }

  /** "two1nine": the rightmost match is "nine" at 4. */
  lemma Sample2Line0Last(line: string)
    requires line == "two1nine"
    ensures RightmostMatch(line, 4) && ToDigit(MatchAt(line, 4).value) == 9
  {
    assert WordAt(line, 4, 8);
    WordMatchAt(line, 4, 8);
    NoMatchAt(line, 5);
    NoMatchAt(line, 6);
    NoMatchAt(line, 7);
    forall m | 5 <= m < 8 ensures MatchAt(line, m).None? {
      assert m == 5 || m == 6 || m == 7;
    }
  }

  /** "two1nine": "two" and "nine" give 29. */
  lemma Sample2Line0(line: string)
    requires line == "two1nine"
    ensures HasMatch(line) && Part2Line(line) == 29
  {
    Sample2Line0First(line);
    Sample2Line0Last(line);
    Part2LineRightmost(line, 0, 4);
  }

  /** "eightwothree": the leftmost match is "eight" at 0, and the line holds no line terminator. */
  lemma Sample2Line1First(line: string)
    requires line == "eightwothree"
    ensures LeftmostMatch(line, 0) && ToDigit(MatchAt(line, 0).value) == 8 && NoLineTerminator(line)
  {
    assert WordAt(line, 0, 7);
    WordMatchAt(line, 0, 7);
    forall m | 0 <= m < 12 ensures !IsLineTerminator(line[m]) {
      assert m == 0 || m == 1 || m == 2 || m == 3 || m == 4 || m == 5 || m == 6 || m == 7 || m == 8 || m == 9 || m == 10 || m == 11;
    }
  }

  /** "eightwothree": the rightmost match is "three" at 7. */
  lemma Sample2Line1Last(line: string)
    requires line == "eightwothree"
    ensures RightmostMatch(line, 7) && ToDigit(MatchAt(line, 7).value) == 3
  {
    assert WordAt(line, 7, 2);
    WordMatchAt(line, 7, 2);
    NoMatchAt(line, 8);
    NoMatchAt(line, 9);
    NoMatchAt(line, 10);
    NoMatchAt(line, 11);
    forall m | 8 <= m < 12 ensures MatchAt(line, m).None? {
      assert m == 8 || m == 9 || m == 10 || m == 11;
    }
  }

  /** "eightwothree": "eight" and "three" give 83. */
  lemma Sample2Line1(line: string)
    requires line == "eightwothree"
    ensures HasMatch(line) && Part2Line(line) == 83
  {
    Sample2Line1First(line);
    Sample2Line1Last(line);
    Part2LineRightmost(line, 0, 7);
  }

  /** "abcone2threexyz": the leftmost match is "one" at 3, and the line holds no line terminator. */
  lemma Sample2Line2First(line: string)
    requires line == "abcone2threexyz"
    ensures LeftmostMatch(line, 3) && ToDigit(MatchAt(line, 3).value) == 1 && NoLineTerminator(line)
  {
    assert WordAt(line, 3, 0);
    WordMatchAt(line, 3, 0);
    NoMatchAt(line, 0);
    NoMatchAt(line, 1);
    NoMatchAt(line, 2);
    forall m | 0 <= m < 3 ensures MatchAt(line, m).None? {
      assert m == 0 || m == 1 || m == 2;
    }
    forall m | 0 <= m < 15 ensures !IsLineTerminator(line[m]) {
      assert m == 0 || m == 1 || m == 2 || m == 3 || m == 4 || m == 5 || m == 6 || m == 7 || m == 8 || m == 9 || m == 10 || m == 11 || m == 12 || m == 13 || m == 14;
    }
  }

  /** "abcone2threexyz": the rightmost match is "three" at 7. */
  lemma Sample2Line2Last(line: string)
    requires line == "abcone2threexyz"
    ensures RightmostMatch(line, 7) && ToDigit(MatchAt(line, 7).value) == 3
  {
    assert WordAt(line, 7, 2);
    WordMatchAt(line, 7, 2);
    NoMatchAt(line, 8);
    NoMatchAt(line, 9);
    NoMatchAt(line, 10);
    NoMatchAt(line, 11);
    NoMatchAt(line, 12);
    NoMatchAt(line, 13);
    NoMatchAt(line, 14);
    forall m | 8 <= m < 15 ensures MatchAt(line, m).None? {
      assert m == 8 || m == 9 || m == 10 || m == 11 || m == 12 || m == 13 || m == 14;
    }
  }

  /** "abcone2threexyz": "one" and "three" give 13. */
  lemma Sample2Line2(line: string)
    requires line == "abcone2threexyz"
    ensures HasMatch(line) && Part2Line(line) == 13
  {
    Sample2Line2First(line);
    Sample2Line2Last(line);
    Part2LineRightmost(line, 3, 7);
  }

  /** "xtwone3four": the leftmost match is "two" at 1, and the line holds no line terminator. */
  lemma Sample2Line3First(line: string)
    requires line == "xtwone3four"
    ensures LeftmostMatch(line, 1) && ToDigit(MatchAt(line, 1).value) == 2 && NoLineTerminator(line)
  {
    assert WordAt(line, 1, 1);
    WordMatchAt(line, 1, 1);
    NoMatchAt(line, 0);
    forall m | 0 <= m < 1 ensures MatchAt(line, m).None? {
      assert m == 0;
    }
    forall m | 0 <= m < 11 ensures !IsLineTerminator(line[m]) {
      assert m == 0 || m == 1 || m == 2 || m == 3 || m == 4 || m == 5 || m == 6 || m == 7 || m == 8 || m == 9 || m == 10;
    }
  }

  /** "xtwone3four": the rightmost match is "four" at 7. */
  lemma Sample2Line3Last(line: string)
    requires line == "xtwone3four"
    ensures RightmostMatch(line, 7) && ToDigit(MatchAt(line, 7).value) == 4
  {
    assert WordAt(line, 7, 3);
    WordMatchAt(line, 7, 3);
    NoMatchAt(line, 8);
    NoMatchAt(line, 9);
    NoMatchAt(line, 10);
    forall m | 8 <= m < 11 ensures MatchAt(line, m).None? {
      assert m == 8 || m == 9 || m == 10;
    }
  }

  /** "xtwone3four": "two" and "four" give 24. */
  lemma Sample2Line3(line: string)
    requires line == "xtwone3four"
    ensures HasMatch(line) && Part2Line(line) == 24
  {
    Sample2Line3First(line);
    Sample2Line3Last(line);
    Part2LineRightmost(line, 1, 7);
  }

  /** "4nineeightseven2": the leftmost match is 4 at 0, and the line holds no line terminator. */
  lemma Sample2Line4First(line: string)
    requires line == "4nineeightseven2"
    ensures LeftmostMatch(line, 0) && ToDigit(MatchAt(line, 0).value) == 4 && NoLineTerminator(line)
  {
    DigitMatchAt(line, 0);
    forall m | 0 <= m < 16 ensures !IsLineTerminator(line[m]) {
      assert m == 0 || m == 1 || m == 2 || m == 3 || m == 4 || m == 5 || m == 6 || m == 7 || m == 8 || m == 9 || m == 10 || m == 11 || m == 12 || m == 13 || m == 14 || m == 15;
    }
  }

  /** "4nineeightseven2": the rightmost match is 2 at 15. */
  lemma Sample2Line4Last(line: string)
    requires line == "4nineeightseven2"
    ensures RightmostMatch(line, 15) && ToDigit(MatchAt(line, 15).value) == 2
  {
    DigitMatchAt(line, 15);
  }

  /** "4nineeightseven2": 4 and 2 give 42. */
  lemma Sample2Line4(line: string)
    requires line == "4nineeightseven2"
    ensures HasMatch(line) && Part2Line(line) == 42
  {
    Sample2Line4First(line);
    Sample2Line4Last(line);
    Part2LineRightmost(line, 0, 15);
  }

  /** "zoneight234": the leftmost match is "one" at 1, and the line holds no line terminator. */
  lemma Sample2Line5First(line: string)
    requires line == "zoneight234"
    ensures LeftmostMatch(line, 1) && ToDigit(MatchAt(line, 1).value) == 1 && NoLineTerminator(line)
  {
    assert WordAt(line, 1, 0);
    WordMatchAt(line, 1, 0);
    NoMatchAt(line, 0);
    forall m | 0 <= m < 1 ensures MatchAt(line, m).None? {
      assert m == 0;
    }
    forall m | 0 <= m < 11 ensures !IsLineTerminator(line[m]) {
      assert m == 0 || m == 1 || m == 2 || m == 3 || m == 4 || m == 5 || m == 6 || m == 7 || m == 8 || m == 9 || m == 10;
    }
  }

  /** "zoneight234": the rightmost match is 4 at 10. */
  lemma Sample2Line5Last(line: string)
    requires line == "zoneight234"
    ensures RightmostMatch(line, 10) && ToDigit(MatchAt(line, 10).value) == 4
  {
    DigitMatchAt(line, 10);
  }

  /** "zoneight234": "one" and 4 give 14. */
  lemma Sample2Line5(line: string)
    requires line == "zoneight234"
    ensures HasMatch(line) && Part2Line(line) == 14
  {
    Sample2Line5First(line);
    Sample2Line5Last(line);
    Part2LineRightmost(line, 1, 10);
  }

  /** "7pqrstsixteen": the leftmost match is 7 at 0, and the line holds no line terminator. */
  lemma Sample2Line6First(line: string)
    requires line == "7pqrstsixteen"
    ensures LeftmostMatch(line, 0) && ToDigit(MatchAt(line, 0).value) == 7 && NoLineTerminator(line)
  {
    DigitMatchAt(line, 0);
    forall m | 0 <= m < 13 ensures !IsLineTerminator(line[m]) {
      assert m == 0 || m == 1 || m == 2 || m == 3 || m == 4 || m == 5 || m == 6 || m == 7 || m == 8 || m == 9 || m == 10 || m == 11 || m == 12;
    }
  }

  /** "7pqrstsixteen": the rightmost match is "six" at 6. */
  lemma Sample2Line6Last(line: string)
    requires line == "7pqrstsixteen"
    ensures RightmostMatch(line, 6) && ToDigit(MatchAt(line, 6).value) == 6
  {
    assert WordAt(line, 6, 5);
    WordMatchAt(line, 6, 5);
    NoMatchAt(line, 7);
    NoMatchAt(line, 8);
    NoMatchAt(line, 9);
    NoMatchAt(line, 10);
    NoMatchAt(line, 11);
    NoMatchAt(line, 12);
    forall m | 7 <= m < 13 ensures MatchAt(line, m).None? {
      assert m == 7 || m == 8 || m == 9 || m == 10 || m == 11 || m == 12;
    }
  }

  /** "7pqrstsixteen": 7 and "six" give 76. */
  lemma Sample2Line6(line: string)
    requires line == "7pqrstsixteen"
    ensures HasMatch(line) && Part2Line(line) == 76
  {
    Sample2Line6First(line);
    Sample2Line6Last(line);
    Part2LineRightmost(line, 0, 6);
  }

  /** part1 adds up the values the lines are known to have. */
  lemma Part1Values(lines: seq<string>, values: seq<int>)
    requires |values| == |lines|
    requires forall k :: 0 <= k < |lines| ==> HasDigit(lines[k]) && CalibrationValue(lines[k]) == values[k]
    ensures Part1(lines) == Sum(values)
  {
    assert values == seq(|lines|, k requires 0 <= k < |lines| => CalibrationValue(lines[k]));
  }

  /** part2 adds up the values the lines are known to have. */
  lemma Part2Values(lines: seq<string>, values: seq<int>)
    requires |values| == |lines|
    requires forall k :: 0 <= k < |lines| ==> HasMatch(lines[k]) && Part2Line(lines[k]) == values[k]
    ensures Part2(lines) == Sum(values)
  {
    assert values == seq(|lines|, k requires 0 <= k < |lines| => Part2Line(lines[k]));
  }

  /** The first sample's values add up to 142. */
  lemma Sample1Sum()
    ensures Sum([12, 38, 15, 77]) == 142
  {
    assert Sum([12]) == 12 by { assert [12][..0] == []; }
    assert Sum([12, 38]) == 50 by { assert [12, 38][..1] == [12]; }
    assert Sum([12, 38, 15]) == 65 by { assert [12, 38, 15][..2] == [12, 38]; }
    assert Sum([12, 38, 15, 77]) == 142 by { assert [12, 38, 15, 77][..3] == [12, 38, 15]; }
  }

  /** The second sample's values add up to 281. */
  lemma Sample2Sum()
    ensures Sum([29, 83, 13, 24, 42, 14, 76]) == 281
  {
    assert Sum([29]) == 29 by { assert [29][..0] == []; }
    assert Sum([29, 83]) == 112 by { assert [29, 83][..1] == [29]; }
    assert Sum([29, 83, 13]) == 125 by { assert [29, 83, 13][..2] == [29, 83]; }
    assert Sum([29, 83, 13, 24]) == 149 by { assert [29, 83, 13, 24][..3] == [29, 83, 13]; }
    assert Sum([29, 83, 13, 24, 42]) == 191 by { assert [29, 83, 13, 24, 42][..4] == [29, 83, 13, 24]; }
    assert Sum([29, 83, 13, 24, 42, 14]) == 205 by { assert [29, 83, 13, 24, 42, 14][..5] == [29, 83, 13, 24, 42]; }
    assert Sum([29, 83, 13, 24, 42, 14, 76]) == 281 by { assert [29, 83, 13, 24, 42, 14, 76][..6] == [29, 83, 13, 24, 42, 14]; }
  }

  /** test1: part1 on the first sample, four lines, is 142. */
  lemma SamplePart1(lines: seq<string>)
    requires |lines| == 4 && lines[0] == "1abc2" && lines[1] == "pqr3stu8vwx" && lines[2] == "a1b2c3d4e5f"
    requires lines[3] == "treb7uchet"
    ensures forall k :: 0 <= k < |lines| ==> HasDigit(lines[k])
    ensures Part1(lines) == 142
  {
    var values := [12, 38, 15, 77];
    Sample1Line0(lines[0]);
    Sample1Line1(lines[1]);
    Sample1Line2(lines[2]);
    Sample1Line3(lines[3]);
    forall k | 0 <= k < |lines| ensures HasDigit(lines[k]) && CalibrationValue(lines[k]) == values[k] {
      assert k == 0 || k == 1 || k == 2 || k == 3;
    }
    Part1Values(lines, values);
    Sample1Sum();
  }

  /** test2: part2 on the second sample, seven lines with spelled numbers, is 281. */
  lemma SamplePart2(lines: seq<string>)
    requires |lines| == 7 && lines[0] == "two1nine" && lines[1] == "eightwothree"
    requires lines[2] == "abcone2threexyz" && lines[3] == "xtwone3four" && lines[4] == "4nineeightseven2"
    requires lines[5] == "zoneight234" && lines[6] == "7pqrstsixteen"
    ensures forall k :: 0 <= k < |lines| ==> HasMatch(lines[k])
    ensures Part2(lines) == 281
  {
    var values := [29, 83, 13, 24, 42, 14, 76];
    Sample2Line0(lines[0]);
    Sample2Line1(lines[1]);
    Sample2Line2(lines[2]);
    Sample2Line3(lines[3]);
    Sample2Line4(lines[4]);
    Sample2Line5(lines[5]);
    Sample2Line6(lines[6]);
    forall k | 0 <= k < |lines| ensures HasMatch(lines[k]) && Part2Line(lines[k]) == values[k] {
      assert k == 0 || k == 1 || k == 2 || k == 3 || k == 4 || k == 5 || k == 6;
    }
    Part2Values(lines, values);
    Sample2Sum();
  }
}
