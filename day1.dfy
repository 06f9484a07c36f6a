/**
 * Calibration values (day1/solve.ts). Each line yields a two-digit number made
 * of its first and last digit; in the second part the spelled-out words "one"
 * to "nine" count as digits too. The regular expressions of the original are
 * written out as explicit scans over the line.
 */
module Calibration {
  import opened Text
  import opened Collections

  // ---------------------------------------------------------------------------
  // Part 1: digits only

  /** line.replace(/[^0-9]/g, ''): the digit characters of `line`, in order. */
  function JustDigits(line: string): (ds: string)
    ensures AllDigits(ds)
    ensures |ds| <= |line|
  {
    if line == [] then "" else (if IsDigit(line[0]) then [line[0]] else "") + JustDigits(line[1..])
  }

  /** Filtering distributes over concatenation, so the digits keep their order. */
  lemma {:induction false} JustDigitsAppend(a: string, b: string)
    ensures JustDigits(a + b) == JustDigits(a) + JustDigits(b)
    decreases |a|
  {
    if a == [] {
      assert a + b == b;
    } else {
      var head := if IsDigit(a[0]) then [a[0]] else "";
      assert (a + b)[0] == a[0] && (a + b)[1..] == a[1..] + b;
      JustDigitsAppend(a[1..], b);
      assert JustDigits(a + b) == head + (JustDigits(a[1..]) + JustDigits(b));
      assert JustDigits(a) == head + JustDigits(a[1..]);
    }
  }

  predicate HasDigit(line: string)
  {
    exists i :: 0 <= i < |line| && IsDigit(line[i])
  }

  /** `i` is the position of the leftmost digit of `line`. */
  predicate FirstDigitAt(line: string, i: int)
  {
    0 <= i < |line| && IsDigit(line[i]) && forall j :: 0 <= j < i ==> !IsDigit(line[j])
  }

  /** `i` is the position of the rightmost digit of `line`. */
  predicate LastDigitAt(line: string, i: int)
  {
    0 <= i < |line| && IsDigit(line[i]) && forall j :: i < j < |line| ==> !IsDigit(line[j])
  }

  /** JustDigits comes out empty exactly when the line has no digit. */
  lemma {:induction false} JustDigitsEmpty(line: string)
    ensures JustDigits(line) == [] <==> !HasDigit(line)
    decreases |line|
  {
    if line != [] {
      JustDigitsEmpty(line[1..]);
      if !IsDigit(line[0]) {
        assert HasDigit(line) ==> HasDigit(line[1..]) by {
          if HasDigit(line) {
            var i :| 0 <= i < |line| && IsDigit(line[i]);
            assert line[1..][i - 1] == line[i];
          }
        }
        assert HasDigit(line[1..]) ==> HasDigit(line) by {
          if HasDigit(line[1..]) {
            var i :| 0 <= i < |line[1..]| && IsDigit(line[1..][i]);
            assert line[i + 1] == line[1..][i];
          }
        }
      }
    }
  }

  /** The first character JustDigits keeps is the leftmost digit of the line. */
  lemma {:induction false} JustDigitsFirst(line: string, i: int)
    requires FirstDigitAt(line, i)
    ensures |JustDigits(line)| > 0 && JustDigits(line)[0] == line[i]
    decreases |line|
  {
    if i > 0 {
      assert !IsDigit(line[0]);
      assert FirstDigitAt(line[1..], i - 1) by {
        forall j | 0 <= j < i - 1 ensures !IsDigit(line[1..][j]) {
          assert line[1..][j] == line[j + 1];
        }
      }
      JustDigitsFirst(line[1..], i - 1);
    }
  }

  /** The last character JustDigits keeps is the rightmost digit of the line. */
  lemma JustDigitsLast(line: string, i: int)
    requires LastDigitAt(line, i)
    ensures |JustDigits(line)| > 0 && JustDigits(line)[|JustDigits(line)| - 1] == line[i]
  {
    var head, tail := line[..i + 1], line[i + 1..];
    assert line == head + tail;
    JustDigitsAppend(head, tail);
    JustDigitsEmpty(tail);
    assert !HasDigit(tail) by {
      forall j | 0 <= j < |tail| ensures !IsDigit(tail[j]) {
        assert tail[j] == line[i + 1 + j];
      }
    }
    assert head == line[..i] + [line[i]];
    JustDigitsAppend(line[..i], [line[i]]);
  }

  /** A line with a digit has a leftmost and a rightmost one. */
  lemma {:induction false} DigitEnds(line: string) returns (i: nat, j: nat)
    requires HasDigit(line)
    ensures FirstDigitAt(line, i) && LastDigitAt(line, j)
    decreases |line|
  {
    var k :| 0 <= k < |line| && IsDigit(line[k]);
    i := k;
    while i > 0 && exists m :: 0 <= m < i && IsDigit(line[m])
      invariant 0 <= i <= k && IsDigit(line[i])
      decreases i
    {
      var m :| 0 <= m < i && IsDigit(line[m]);
      i := m;
    }
    j := k;
    while exists m :: j < m < |line| && IsDigit(line[m])
      invariant k <= j < |line| && IsDigit(line[j])
      decreases |line| - j
    {
      var m :| j < m < |line| && IsDigit(line[m]);
      j := m;
    }
  }

  /**
   * calibrationValue: the first and the last digit of the line read as a
   * two-digit number (a lone digit d is used twice, giving 11 * d). A line
   * without digits would read `undefined` and give NaN, so it is excluded.
   */
  function CalibrationValue(line: string): (v: nat)
    requires HasDigit(line)
    ensures v <= 99
    ensures forall i, j :: FirstDigitAt(line, i) && LastDigitAt(line, j) ==>
      v == 10 * DigitValue(line[i]) + DigitValue(line[j])
  {
    var digits := JustDigits(line);
    JustDigitsEmpty(line);
    var first, last := digits[0], digits[|digits| - 1];
    DecimalValuePair(first, last);
    assert forall i :: FirstDigitAt(line, i) ==> first == line[i] by {
      forall i | FirstDigitAt(line, i) ensures first == line[i] { JustDigitsFirst(line, i); }
    }
    assert forall j :: LastDigitAt(line, j) ==> last == line[j] by {
      forall j | LastDigitAt(line, j) ensures last == line[j] { JustDigitsLast(line, j); }
    }
    DecimalValue([first, last])
  }

  /** A line holding exactly one digit d calibrates to 11 * d. */
  lemma CalibrationSingleDigit(line: string, i: int)
    requires 0 <= i < |line| && IsDigit(line[i])
    requires forall j :: 0 <= j < |line| && j != i ==> !IsDigit(line[j])
    ensures HasDigit(line)
    ensures CalibrationValue(line) == 11 * DigitValue(line[i])
  {
    assert FirstDigitAt(line, i) && LastDigitAt(line, i);
  }

  /** part1: the sum of the lines' calibration values. */
  function Part1(lines: seq<string>): (total: nat)
    requires forall k :: 0 <= k < |lines| ==> HasDigit(lines[k])
    ensures total <= 99 * |lines|
  {
    var values := seq(|lines|, k requires 0 <= k < |lines| => CalibrationValue(lines[k]));
    SumNonNegative(values);
    SumBounded(values, 99);
    Sum(values)
  }

  // ---------------------------------------------------------------------------
  // Part 2: digits and number words

  const NumberWords: seq<string> := ["one", "two", "three", "four", "five", "six", "seven", "eight", "nine"]

  /** Text the pattern (one|two|three|four|five|six|seven|eight|nine|\d) can match. */
  predicate IsNumberText(s: string)
  {
    s in NumberWords || (|s| == 1 && IsDigit(s[0]))
  }

  /** The text `w` occurs at position `i` of `line`, compared character by character as a regex literal is. */
  predicate SpelledAt(line: string, i: nat, w: string)
    requires i <= |line|
    decreases |w|
  {
    w == [] || (i < |line| && line[i] == w[0] && SpelledAt(line, i + 1, w[1..]))
  }

  /** Character-by-character matching is the prefix test: `w` starts the rest of the line. */
  lemma {:induction false} SpelledAtIsPrefix(line: string, i: nat, w: string)
    requires i <= |line|
    ensures SpelledAt(line, i, w) <==> w <= line[i..]
    decreases |w|
  {
    if w != [] && i < |line| {
      SpelledAtIsPrefix(line, i + 1, w[1..]);
      assert line[i..] == [line[i]] + line[i + 1..];
      assert w == [w[0]] + w[1..];
    }
  }

  /** Number word `k` is spelled out at position `i` of `line`. */
  predicate WordAt(line: string, i: nat, k: nat)
    requires i <= |line| && k < |NumberWords|
  {
    SpelledAt(line, i, NumberWords[k])
  }

  /** The alternatives of the pattern from word `k` on, tried in order at position `i`. */
  function MatchFrom(line: string, i: nat, k: nat): (m: Option<string>)
    requires i < |line| && k <= |NumberWords|
    decreases |NumberWords| - k
  {
    if k < |NumberWords| then
      (if WordAt(line, i, k) then Some(NumberWords[k]) else MatchFrom(line, i, k + 1))
    else if IsDigit(line[i]) then Some([line[i]])
    else None
  }

  /** Whatever the alternatives match is number text spelled out at position `i`. */
  lemma {:induction false} MatchFromText(line: string, i: nat, k: nat)
    requires i < |line| && k <= |NumberWords|
    ensures var m := MatchFrom(line, i, k);
      m.Some? ==> IsNumberText(m.value) && SpelledAt(line, i, m.value)
    decreases |NumberWords| - k
  {
    if k < |NumberWords| && !WordAt(line, i, k) {
      MatchFromText(line, i, k + 1);
    }
  }

  /** What the pattern matches when it starts at position `i`, if anything. */
  function MatchAt(line: string, i: nat): (m: Option<string>)
    requires i < |line|
    ensures m.Some? ==> IsNumberText(m.value) && SpelledAt(line, i, m.value)
  {
    MatchFromText(line, i, 0);
    MatchFrom(line, i, 0)
  }

  /** `i` is where the unanchored pattern first matches: line.match(new RegExp(regex2)). */
  predicate LeftmostMatch(line: string, i: int)
  {
    0 <= i < |line| && MatchAt(line, i).Some? && forall j :: 0 <= j < i ==> MatchAt(line, j).None?
  }

  /** `i` is the match with the greatest start in the whole line. */
  predicate RightmostMatch(line: string, i: int)
  {
    0 <= i < |line| && MatchAt(line, i).Some? && forall j :: i < j < |line| ==> MatchAt(line, j).None?
  }

  /** The characters a regular expression's `.` does not match without the `s` flag. */
  predicate IsLineTerminator(c: char)
  {
    c == '\n' || c == '\r' || c == '\U{2028}' || c == '\U{2029}'
  }

  predicate NoLineTerminator(line: string)
  {
    forall k :: 0 <= k < |line| ==> !IsLineTerminator(line[k])
  }

  /** Where `.*` started at `i` has to stop: the first line terminator at or after `i`, or the end of the line. */
  function SegmentEnd(line: string, i: nat): (e: nat)
    requires i <= |line|
    ensures i <= e <= |line|
    ensures e < |line| ==> IsLineTerminator(line[e])
    ensures forall k :: i <= k < e ==> !IsLineTerminator(line[k])
    decreases |line| - i
  {
    if i == |line| || IsLineTerminator(line[i]) then i else SegmentEnd(line, i + 1)
  }

  /**
   * `j` is where the group of `.*(...)` lands: the match with the greatest
   * start in the stretch free of line terminators that holds the leftmost
   * match `i`.
   */
  predicate GreedyMatch(line: string, i: int, j: int)
  {
    LeftmostMatch(line, i) && i <= j < SegmentEnd(line, i) && MatchAt(line, j).Some? &&
    forall k :: j < k < SegmentEnd(line, i) ==> MatchAt(line, k).None?
  }

  predicate HasMatch(line: string)
  {
    exists i :: 0 <= i < |line| && MatchAt(line, i).Some?
  }

  /** Left-to-right scan for the first match at or after `i`, with its position. */
  function FirstMatchFrom(line: string, i: nat): (m: Option<(nat, string)>)
    requires i <= |line|
    ensures m.Some? ==> i <= m.value.0 < |line| && MatchAt(line, m.value.0) == Some(m.value.1)
    ensures m.Some? ==> forall j :: i <= j < m.value.0 ==> MatchAt(line, j).None?
    ensures m.None? ==> forall j :: i <= j < |line| ==> MatchAt(line, j).None?
    decreases |line| - i
  {
    if i == |line| then None
    else
      var here := MatchAt(line, i);
      if here.Some? then Some((i, here.value)) else FirstMatchFrom(line, i + 1)
  }

  /** Right-to-left scan for the match with the greatest start below `j`, with its position. */
  function LastMatchBefore(line: string, j: nat): (m: Option<(nat, string)>)
    requires j <= |line|
    ensures m.Some? ==> m.value.0 < j && MatchAt(line, m.value.0) == Some(m.value.1)
    ensures m.Some? ==> forall k :: m.value.0 < k < j ==> MatchAt(line, k).None?
    ensures m.None? ==> forall k :: 0 <= k < j ==> MatchAt(line, k).None?
    decreases j
  {
    if j == 0 then None
    else
      var here := MatchAt(line, j - 1);
      if here.Some? then Some((j - 1, here.value)) else LastMatchBefore(line, j - 1)
  }

  /**
   * `.*(...)` tried from start `s`: the greedy `.*` runs up to the next line
   * terminator and backs off until the group matches, so the group lands on
   * the last match in [s, SegmentEnd(line, s)), if there is one.
   */
  function GreedyFrom(line: string, s: nat): (m: Option<(nat, string)>)
    requires s <= |line|
    ensures m.Some? ==> s <= m.value.0 < SegmentEnd(line, s) && MatchAt(line, m.value.0) == Some(m.value.1)
    ensures m.Some? ==> forall k :: m.value.0 < k < SegmentEnd(line, s) ==> MatchAt(line, k).None?
    ensures m.None? ==> forall k :: s <= k < SegmentEnd(line, s) ==> MatchAt(line, k).None?
  {
    var last := LastMatchBefore(line, SegmentEnd(line, s));
    if last.Some? && s <= last.value.0 then last else None
  }

  /** line.match(/.*(...)/): the engine tries the starts from `s` on, left to right, and keeps the first that matches. */
  function DotStarMatch(line: string, s: nat): (m: Option<(nat, string)>)
    requires s <= |line|
    ensures m.Some? ==> s <= m.value.0 < |line| && MatchAt(line, m.value.0) == Some(m.value.1)
    decreases |line| - s
  {
    if s == |line| then None
    else
      var here := GreedyFrom(line, s);
      if here.Some? then here else DotStarMatch(line, s + 1)
  }

  /** Every alternative starts with a letter or a digit, so no match starts on a line terminator. */
  lemma MatchNotTerminator(line: string, i: nat)
    requires i < |line| && MatchAt(line, i).Some?
    ensures !IsLineTerminator(line[i])
  {
    var m := MatchAt(line, i).value;
    MatchFromText(line, i, 0);
    assert m != [] && line[i] == m[0];
    assert forall k :: 0 <= k < |NumberWords| ==> !IsLineTerminator(NumberWords[k][0]);
  }

  /** A start that reaches the leftmost match `p` without crossing a line terminator shares its segment and finds a match. */
  lemma GreedyReaches(line: string, s: nat, p: nat)
    requires LeftmostMatch(line, p) && s <= p
    requires forall k :: s <= k < p ==> !IsLineTerminator(line[k])
    ensures GreedyFrom(line, s) == LastMatchBefore(line, SegmentEnd(line, p)) && GreedyFrom(line, s).Some?
  {
    MatchNotTerminator(line, p);
    assert SegmentEnd(line, s) == SegmentEnd(line, p);
  }

  /** A start cut off from the leftmost match `p` by a line terminator at `k` finds no match. */
  lemma GreedyCutOff(line: string, s: nat, p: nat, k: nat)
    requires LeftmostMatch(line, p) && s <= k < p && IsLineTerminator(line[k])
    ensures GreedyFrom(line, s).None?
  {
    assert SegmentEnd(line, s) <= k;
  }

  /**
   * From any start at or before the leftmost match `p`, the engine ends with
   * the last match before the line terminator that follows `p`: the starts
   * cut off from `p` by a line terminator see no match at all.
   */
  lemma {:induction false} DotStarFrom(line: string, s: nat, p: nat)
    requires LeftmostMatch(line, p) && s <= p
    ensures DotStarMatch(line, s) == LastMatchBefore(line, SegmentEnd(line, p))
    decreases p - s
  {
    var e := SegmentEnd(line, s);
    if p < e {
      GreedyReaches(line, s, p);
      assert DotStarMatch(line, s) == GreedyFrom(line, s);
      assert DotStarMatch(line, s) == LastMatchBefore(line, SegmentEnd(line, p));
    } else {
      GreedyCutOff(line, s, p, e);
      assert DotStarMatch(line, s) == DotStarMatch(line, s + 1);
      DotStarFrom(line, s + 1, p);
      assert DotStarMatch(line, s) == LastMatchBefore(line, SegmentEnd(line, p));
    }
  }

  /** toDigit: a number word to its value 1..9, a digit character to its value 0..9. */
  function ToDigit(value: string): (d: nat)
    requires IsNumberText(value)
    ensures d <= 9
    ensures value in NumberWords ==> 1 <= d && NumberWords[d - 1] == value
    ensures value !in NumberWords ==> d == DigitValue(value[0])
  {
    match value
    case "one" => 1
    case "two" => 2
    case "three" => 3
    case "four" => 4
    case "five" => 5
    case "six" => 6
    case "seven" => 7
    case "eight" => 8
    case "nine" => 9
    case _ =>
      assert value == [value[0]];
      DecimalValue(value)
  }

  /**
   * part2Line: the leftmost match gives the tens digit, and the group of
   * `.*(...)` gives the units digit. That group is the last match before the
   * first line terminator after the leftmost match, so overlapping words such
   * as "twone" end in 1. A line with no match makes line.match return null
   * and throw, so it is excluded.
   */
  function Part2Line(line: string): (v: nat)
    requires HasMatch(line)
    ensures v <= 99
    ensures forall i, j :: GreedyMatch(line, i, j) ==>
      v == 10 * ToDigit(MatchAt(line, i).value) + ToDigit(MatchAt(line, j).value)
  {
    MatchEnds(line);
    var leftmost, greedy := FirstMatchFrom(line, 0).value, DotStarMatch(line, 0).value;
    var first := ToDigit(leftmost.1);
    var last := ToDigit(greedy.1);
    TwoDigits(first, last);
    DecimalValue([DigitChar(first), DigitChar(last)])
  }

  /** A line with a match has a leftmost match and a greedy one, found by the two scans, and no others. */
  lemma MatchEnds(line: string)
    requires HasMatch(line)
    ensures FirstMatchFrom(line, 0).Some? && DotStarMatch(line, 0).Some?
    ensures IsNumberText(FirstMatchFrom(line, 0).value.1) && IsNumberText(DotStarMatch(line, 0).value.1)
    ensures GreedyMatch(line, FirstMatchFrom(line, 0).value.0, DotStarMatch(line, 0).value.0)
    ensures forall i, j :: GreedyMatch(line, i, j) ==>
      i == FirstMatchFrom(line, 0).value.0 && j == DotStarMatch(line, 0).value.0
  {
    var firstMatch := FirstMatchFrom(line, 0);
    var p := firstMatch.value.0;
    assert LeftmostMatch(line, p);
    DotStarFrom(line, 0, p);
    MatchNotTerminator(line, p);
    var lastMatch := DotStarMatch(line, 0);
    MatchFromText(line, p, 0);
    MatchFromText(line, lastMatch.value.0, 0);
  }

  /** On a line without line terminators the group of `.*(...)` is the rightmost match of the line. */
  lemma GreedyIsRightmost(line: string, i: int, j: int)
    requires NoLineTerminator(line)
    requires LeftmostMatch(line, i)
    ensures GreedyMatch(line, i, j) <==> RightmostMatch(line, j)
  {
    assert SegmentEnd(line, i) == |line|;
  }

  /** On a line without line terminators part2Line reads the leftmost and the rightmost match. */
  lemma Part2LineRightmost(line: string, i: int, j: int)
    requires NoLineTerminator(line)
    requires LeftmostMatch(line, i) && RightmostMatch(line, j)
    ensures HasMatch(line)
    ensures IsNumberText(MatchAt(line, i).value) && IsNumberText(MatchAt(line, j).value)
    ensures Part2Line(line) == 10 * ToDigit(MatchAt(line, i).value) + ToDigit(MatchAt(line, j).value)
  {
    GreedyIsRightmost(line, i, j);
    MatchFromText(line, i, 0);
    MatchFromText(line, j, 0);
  }

  /** A carriage return stops `.*`: in "1\r2" the group lands on 1, so part 2 gives 11 where part 1 gives 12. */
  lemma Part2LineCarriageReturn()
    ensures HasDigit("1\r2") && HasMatch("1\r2")
    ensures Part2Line("1\r2") == 11 && CalibrationValue("1\r2") == 12
  {
    var line := "1\r2";
    assert IsDigit(line[0]) && !IsDigit(line[1]) && IsDigit(line[2]);
    MatchAtWithoutWords(line, 0);
    assert MatchAt(line, 0) == Some("1");
    assert SegmentEnd(line, 0) == 1;
    assert GreedyMatch(line, 0, 0);
    assert FirstDigitAt(line, 0) && LastDigitAt(line, 2);
  }

  /** The two-character text of digits a and b reads as 10 * a + b. */
  lemma TwoDigits(a: nat, b: nat)
    requires a <= 9 && b <= 9
    ensures AllDigits([DigitChar(a), DigitChar(b)])
    ensures DecimalValue([DigitChar(a), DigitChar(b)]) == 10 * a + b
  {
    DecimalValuePair(DigitChar(a), DigitChar(b));
    DigitRoundTrip('0', a);
    DigitRoundTrip('0', b);
  }

  /** Where no number word is spelled out, the pattern matches exactly the digit characters. */
  lemma MatchAtWithoutWords(line: string, p: nat)
    requires p < |line|
    requires forall k :: 0 <= k < |NumberWords| ==> !WordAt(line, p, k)
    ensures MatchAt(line, p) == if IsDigit(line[p]) then Some([line[p]]) else None
  {
    assert forall k :: 0 <= k <= |NumberWords| ==>
      MatchFrom(line, p, k) == if IsDigit(line[p]) then Some([line[p]]) else None;
  }

  /**
   * Without number words and line terminators only digits match and `.*`
   * reaches the end of the line, so part2Line agrees with calibrationValue
   * (Part2LineCarriageReturn shows the line terminators are needed).
   */
  lemma Part2LineWithoutWords(line: string)
    requires forall i, k :: 0 <= i < |line| && 0 <= k < |NumberWords| ==> !WordAt(line, i, k)
    requires NoLineTerminator(line)
    requires HasDigit(line)
    ensures HasMatch(line)
    ensures Part2Line(line) == CalibrationValue(line)
  {
    var i, j := DigitEnds(line);
    forall p | 0 <= p < |line|
      ensures MatchAt(line, p) == if IsDigit(line[p]) then Some([line[p]]) else None
    {
      MatchAtWithoutWords(line, p);
    }
    assert LeftmostMatch(line, i) && RightmostMatch(line, j);
    GreedyIsRightmost(line, i, j);
    assert ToDigit([line[i]]) == DigitValue(line[i]) by {
      assert [line[i]] !in NumberWords;
    }
    assert ToDigit([line[j]]) == DigitValue(line[j]) by {
      assert [line[j]] !in NumberWords;
    }
  }

  /** Overlapping words: "twone" reads as 2 then 1. */
  lemma Part2LineOverlap()
    ensures HasMatch("twone")
    ensures Part2Line("twone") == 21
  {
    TwoneMatches();
    assert SegmentEnd("twone", 0) == 5;
    assert GreedyMatch("twone", 0, 2);
  }

  /** In "twone" the pattern matches "two" at 0 and "one" at 2, and nothing after. */
  lemma TwoneMatches()
    ensures MatchAt("twone", 0) == Some("two") && MatchAt("twone", 2) == Some("one")
    ensures MatchAt("twone", 3).None? && MatchAt("twone", 4).None?
  {
    var line := "twone";
    assert WordAt(line, 0, 1);
    assert WordAt(line, 2, 0);
  }

  /** part2: the sum of the lines' part2Line values. */
  function Part2(lines: seq<string>): (total: nat)
    requires forall k :: 0 <= k < |lines| ==> HasMatch(lines[k])
    ensures total <= 99 * |lines|
  {
    var values := seq(|lines|, k requires 0 <= k < |lines| => Part2Line(lines[k]));
    SumNonNegative(values);
    SumBounded(values, 99);
    Sum(values)
  }
}
