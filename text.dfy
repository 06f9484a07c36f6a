/**
 * The JavaScript string operations the four solvers rely on, written out over
 * `string` (a sequence of characters): digit tests, the decimal reading that
 * `parseInt` and `Number` perform on well-formed text, `split` with a
 * one-character separator, `trim`, and `split(/\s+/)`.
 */
module Text {

  /** `c` is matched by the character class [0-9] (and by \d). */
  predicate IsDigit(c: char) { '0' <= c <= '9' }

  predicate AllDigits(s: string) { forall i :: 0 <= i < |s| ==> IsDigit(s[i]) }

  /** A non-empty run of decimal digits: text that parseInt and Number read in full. */
  predicate IsDecimal(s: string) { |s| > 0 && AllDigits(s) }

  function DigitValue(c: char): (d: nat)
    requires IsDigit(c)
    ensures d < 10
  {
    c as int - '0' as int
  }

  /** The text of a one-digit number, as a template literal `${d}` writes it. */
  function DigitChar(d: nat): (c: char)
    requires d < 10
    ensures IsDigit(c)
  {
    ('0' as int + d) as char
  }

  lemma DigitRoundTrip(c: char, d: nat)
    ensures IsDigit(c) ==> DigitChar(DigitValue(c)) == c
    ensures d < 10 ==> DigitValue(DigitChar(d)) == d
  {
  }

  function Pow10(n: nat): (p: nat)
    ensures p >= 1
  {
    if n == 0 then 1 else 10 * Pow10(n - 1)
  }

  /**
   * The number a string of decimal digits denotes (leading zeros allowed),
   * read the way parseInt accumulates it: each new digit shifts the value so far.
   */
  function DecimalValue(s: string): (n: nat)
    requires AllDigits(s)
    ensures n < Pow10(|s|)
  {
    if s == [] then 0 else DecimalValue(s[..|s| - 1]) * 10 + DigitValue(s[|s| - 1])
  }

  /** Appending a digit multiplies the value by ten and adds the digit. */
  lemma DecimalValueSnoc(s: string, c: char)
    requires AllDigits(s) && IsDigit(c)
    ensures AllDigits(s + [c])
    ensures DecimalValue(s + [c]) == DecimalValue(s) * 10 + DigitValue(c)
  {
    assert (s + [c])[..|s|] == s;
  }

  /** Positional reading: the leading digit is worth its value times ten to the number of digits after it. */
  lemma {:induction false} DecimalValueLeading(c: char, s: string)
    requires IsDigit(c) && AllDigits(s)
    ensures AllDigits([c] + s)
    ensures DecimalValue([c] + s) == DigitValue(c) * Pow10(|s|) + DecimalValue(s)
    decreases |s|
  {
    if s != [] {
      var init, last := s[..|s| - 1], s[|s| - 1];
      DecimalValueLeading(c, init);
      SnocParts(c, s);
      DecimalValueSnoc([c] + init, last);
      DecimalValueSnoc(init, last);
      Distribute(DigitValue(c), Pow10(|init|), DecimalValue(init), DigitValue(last));
    }
  }

  /** `s` and `[c] + s` as their first part followed by the last character of `s`. */
  lemma SnocParts(c: char, s: string)
    requires s != []
    ensures s == s[..|s| - 1] + [s[|s| - 1]]
    ensures [c] + s == ([c] + s[..|s| - 1]) + [s[|s| - 1]]
  {
  }

  lemma Distribute(d: int, p: int, v: int, e: int)
    ensures (d * p + v) * 10 + e == d * (10 * p) + (v * 10 + e)
  {
  }

  /** parseInt of a two-character digit string. */
  lemma DecimalValuePair(a: char, b: char)
    requires IsDigit(a) && IsDigit(b)
    ensures AllDigits([a, b])
    ensures DecimalValue([a, b]) == 10 * DigitValue(a) + DigitValue(b)
  {
    assert [a, b][..1] == [a];
    assert [a][..0] == [];
  }

  /** What JavaScript's Number() makes of a string without whitespace: 0 for "", else its decimal value. */
  function NumberOf(s: string): (n: nat)
    requires s == [] || IsDecimal(s)
    ensures s == [] ==> n == 0
    ensures s != [] ==> n < Pow10(|s|)
  {
    if s == [] then 0 else DecimalValue(s)
  }

  // ---------------------------------------------------------------------------
  // split with a one-character separator

  /** Number of occurrences of `c` in `s`. */
  function Count(s: string, c: char): nat
  {
    if s == [] then 0 else (if s[0] == c then 1 else 0) + Count(s[1..], c)
  }

  /** String.prototype.split(sep) for a one-character `sep`: the pieces between occurrences of `sep`. */
  function Split(s: string, sep: char): (parts: seq<string>)
    ensures |parts| >= 1
    ensures forall i :: 0 <= i < |parts| ==> sep !in parts[i]
    decreases |s|
  {
    if s == [] then [""]
    else
      var rest := Split(s[1..], sep);
      if s[0] == sep then [""] + rest
      else [[s[0]] + rest[0]] + rest[1..]
  }

  /** Array.prototype.join(sep): the pieces with `sep` between neighbours. */
  function Join(parts: seq<string>, sep: char): string
  {
    if parts == [] then ""
    else if |parts| == 1 then parts[0]
    else parts[0] + [sep] + Join(parts[1..], sep)
  }

  /** Splitting loses nothing: joining the pieces gives back the string. */
  lemma {:induction false} JoinSplit(s: string, sep: char)
    ensures Join(Split(s, sep), sep) == s
    decreases |s|
  {
    if s != [] {
      var rest := Split(s[1..], sep);
      JoinSplit(s[1..], sep);
      if s[0] == sep {
        assert Split(s, sep) == [""] + rest;
        assert ([""] + rest)[1..] == rest;
      } else {
        var parts := Split(s, sep);
        assert parts == [[s[0]] + rest[0]] + rest[1..];
        if |rest| == 1 {
          assert parts == [[s[0]] + rest[0]];
        } else {
          assert parts[1..] == rest[1..];
          assert Join(rest, sep) == rest[0] + [sep] + Join(rest[1..], sep);
        }
        assert s == [s[0]] + s[1..];
      }
    }
  }

  /** A piece without `sep` followed by any text: the piece opens the first part. */
  lemma {:induction false} SplitPrefix(p: string, t: string, sep: char)
    requires sep !in p
    ensures Split(p + t, sep) == [p + Split(t, sep)[0]] + Split(t, sep)[1..]
    decreases |p|
  {
    if p != [] {
      SplitPrefix(p[1..], t, sep);
      assert (p + t)[1..] == p[1..] + t;
      assert (p + t)[0] == p[0] && p[0] != sep;
      assert [p[0]] + (p[1..] + Split(t, sep)[0]) == p + Split(t, sep)[0];
    } else {
      assert p + t == t;
      assert p + Split(t, sep)[0] == Split(t, sep)[0];
      assert [Split(t, sep)[0]] + Split(t, sep)[1..] == Split(t, sep);
    }
  }

  /** Joining pieces that do not contain `sep`, then splitting, gives back the pieces. */
  lemma {:induction false} SplitJoin(parts: seq<string>, sep: char)
    requires |parts| >= 1
    requires forall i :: 0 <= i < |parts| ==> sep !in parts[i]
    ensures Split(Join(parts, sep), sep) == parts
    decreases |parts|
  {
    if |parts| == 1 {
      SplitPrefix(parts[0], "", sep);
      assert parts[0] + "" == parts[0];
    } else {
      var tail := Join(parts[1..], sep);
      SplitJoin(parts[1..], sep);
      assert Join(parts, sep) == parts[0] + ([sep] + tail);
      SplitPrefix(parts[0], [sep] + tail, sep);
      assert Split([sep] + tail, sep) == [""] + Split(tail, sep) by {
        assert ([sep] + tail)[1..] == tail;
      }
      assert parts[0] + "" == parts[0];
    }
  }

  /** There is one more piece than there are separators. */
  lemma {:induction false} SplitCount(s: string, sep: char)
    ensures |Split(s, sep)| == Count(s, sep) + 1
    decreases |s|
  {
    if s != [] {
      SplitCount(s[1..], sep);
    }
  }

  // ---------------------------------------------------------------------------
  // trim

  /** The whitespace this model recognises: space, tab, line feed, carriage return, vertical tab, form feed. */
  predicate IsWhitespace(c: char)
  {
    c == ' ' || c == '\t' || c == '\n' || c == '\r' || c == '\U{000B}' || c == '\U{000C}'
  }

  predicate NoWhitespace(s: string) { forall i :: 0 <= i < |s| ==> !IsWhitespace(s[i]) }

  /** The length of the whitespace run that opens `s`. */
  function LeadingSpace(s: string): (n: nat)
    ensures n <= |s|
    ensures forall k :: 0 <= k < n ==> IsWhitespace(s[k])
    ensures n == |s| || !IsWhitespace(s[n])
  {
    if s != [] && IsWhitespace(s[0]) then 1 + LeadingSpace(s[1..]) else 0
  }

  /** The length of the whitespace run that closes `s`. */
  function TrailingSpace(s: string): (n: nat)
    ensures n <= |s|
    ensures forall k :: |s| - n <= k < |s| ==> IsWhitespace(s[k])
    ensures n == |s| || !IsWhitespace(s[|s| - n - 1])
  {
    if s != [] && IsWhitespace(s[|s| - 1]) then 1 + TrailingSpace(s[..|s| - 1]) else 0
  }

  /**
   * String.prototype.trim: what is left of `s` between its leading and its
   * trailing whitespace, so only whitespace is removed, and only at the ends.
   */
  function Trim(s: string): (t: string)
    ensures t == [] || (!IsWhitespace(t[0]) && !IsWhitespace(t[|t| - 1]))
    ensures var a := LeadingSpace(s);
      a + |t| <= |s| && t == s[a..a + |t|] &&
      (forall k :: 0 <= k < a ==> IsWhitespace(s[k])) &&
      (forall k :: a + |t| <= k < |s| ==> IsWhitespace(s[k]))
  {
    var a := LeadingSpace(s);
    var b := TrailingSpace(s[a..]);
    s[a..|s| - b]
  }

  /** Text that neither starts nor ends with whitespace is left alone by trim. */
  lemma TrimUntouched(s: string)
    requires s == [] || (!IsWhitespace(s[0]) && !IsWhitespace(s[|s| - 1]))
    ensures Trim(s) == s
  {
  }

  /** Trimming twice is trimming once. */
  lemma TrimIdempotent(s: string)
    ensures Trim(Trim(s)) == Trim(s)
  {
    TrimUntouched(Trim(s));
  }

  // ---------------------------------------------------------------------------
  // split(/\s+/)

  /**
   * String.prototype.split(/\s+/): the pieces between maximal runs of whitespace.
   * Leading (trailing) whitespace gives an empty first (last) piece, and "" gives [""].
   */
  function SplitWhitespace(s: string): (parts: seq<string>)
    ensures |parts| >= 1
    ensures forall i :: 0 <= i < |parts| ==> NoWhitespace(parts[i])
    decreases |s|
  {
    if s == [] then [""]
    else
      var rest := SplitWhitespace(s[1..]);
      if IsWhitespace(s[0]) then
        (if |s| > 1 && IsWhitespace(s[1]) then rest else [""] + rest)
      else
        [[s[0]] + rest[0]] + rest[1..]
  }

  /** The first piece is empty exactly when the text is empty or starts with whitespace; later pieces are never empty unless the text ends with whitespace. */
  lemma {:induction false} SplitWhitespaceShape(s: string)
    ensures var parts := SplitWhitespace(s);
      parts[0] == [] <==> (s == [] || IsWhitespace(s[0]))
    ensures s == [] || !IsWhitespace(s[|s| - 1]) ==>
      forall i :: 1 <= i < |SplitWhitespace(s)| ==> SplitWhitespace(s)[i] != []
    decreases |s|
  {
    if s != [] {
      SplitWhitespaceShape(s[1..]);
      if |s| > 1 {
        assert s[1..][|s[1..]| - 1] == s[|s| - 1];
        assert s[1..][0] == s[1];
      }
    }
  }

  /** On trimmed, non-empty text every piece of split(/\s+/) is a non-empty word. */
  lemma SplitWhitespaceWords(s: string)
    requires s != [] && !IsWhitespace(s[0]) && !IsWhitespace(s[|s| - 1])
    ensures forall i :: 0 <= i < |SplitWhitespace(s)| ==> SplitWhitespace(s)[i] != []
  {
    SplitWhitespaceShape(s);
  }

  /** The non-whitespace characters of `s`, in order. */
  function Squeeze(s: string): (r: string)
    ensures NoWhitespace(r)
  {
    if s == [] then "" else (if IsWhitespace(s[0]) then "" else [s[0]]) + Squeeze(s[1..])
  }

  function Concat(parts: seq<string>): string
  {
    if parts == [] then "" else parts[0] + Concat(parts[1..])
  }

  /** split(/\s+/) drops the whitespace and keeps every other character, in order. */
  lemma {:induction false} SplitWhitespaceKeeps(s: string)
    ensures Concat(SplitWhitespace(s)) == Squeeze(s)
    decreases |s|
  {
    if s != [] {
      var rest := SplitWhitespace(s[1..]);
      SplitWhitespaceKeeps(s[1..]);
      assert Concat(rest) == rest[0] + Concat(rest[1..]);
      if IsWhitespace(s[0]) {
        if |s| > 1 && IsWhitespace(s[1]) {
        } else {
          assert Concat([""] + rest) == Concat(rest) by {
            assert ([""] + rest)[1..] == rest;
          }
        }
      } else {
        var parts := [[s[0]] + rest[0]] + rest[1..];
        assert parts[1..] == rest[1..];
      }
    }
  }

  predicate AllWhitespace(s: string) { forall i :: 0 <= i < |s| ==> IsWhitespace(s[i]) }

  /** words[0] + gaps[0] + words[1] + … + words[|gaps|]: words separated by whitespace runs. */
  function JoinWords(words: seq<string>, gaps: seq<string>): string
    requires |words| == |gaps| + 1
    decreases |gaps|
  {
    if gaps == [] then words[0] else words[0] + gaps[0] + JoinWords(words[1..], gaps[1..])
  }

  /** A whitespace-free prefix extends the first piece and leaves the others. */
  lemma {:induction false} SplitWhitespaceWordPrefix(w: string, t: string)
    requires NoWhitespace(w)
    ensures SplitWhitespace(w + t) == [w + SplitWhitespace(t)[0]] + SplitWhitespace(t)[1..]
    decreases |w|
  {
    var x := SplitWhitespace(t);
    if w == [] {
      assert w + t == t && w + x[0] == x[0];
      assert [x[0]] + x[1..] == x;
    } else {
      var w' := w[1..];
      assert (w + t)[1..] == w' + t;
      assert (w + t)[0] == w[0];
      SplitWhitespaceWordPrefix(w', t);
      assert [w[0]] + (w' + x[0]) == w + x[0];
    }
  }

  /** A whitespace run before text that starts with a word yields one empty piece. */
  lemma {:induction false} SplitWhitespaceGapPrefix(g: string, t: string)
    requires g != [] && AllWhitespace(g)
    requires t == [] || !IsWhitespace(t[0])
    ensures SplitWhitespace(g + t) == [""] + SplitWhitespace(t)
    decreases |g|
  {
    var s := g + t;
    assert s[0] == g[0] && s[1..] == g[1..] + t;
    if |g| == 1 {
      assert g[1..] + t == t;
    } else {
      assert s[1] == g[1];
      SplitWhitespaceGapPrefix(g[1..], t);
    }
  }

  /**
   * split(/\s+/) inverts JoinWords: words separated by non-empty whitespace
   * runs split back into exactly those words (the first and last may be
   * empty, standing for leading and trailing whitespace).
   */
  lemma {:induction false} SplitWhitespaceJoin(words: seq<string>, gaps: seq<string>)
    requires |words| == |gaps| + 1
    requires forall i :: 0 <= i < |words| ==> NoWhitespace(words[i])
    requires forall i :: 0 < i < |words| - 1 ==> words[i] != []
    requires forall i :: 0 <= i < |gaps| ==> gaps[i] != [] && AllWhitespace(gaps[i])
    ensures SplitWhitespace(JoinWords(words, gaps)) == words
    decreases |gaps|
  {
    if gaps == [] {
      SplitWhitespaceWordPrefix(words[0], "");
      assert words[0] + "" == words[0];
    } else {
      var t := JoinWords(words[1..], gaps[1..]);
      SplitWhitespaceJoin(words[1..], gaps[1..]);
      JoinWordsStart(words[1..], gaps[1..]);
      SplitWhitespaceGapPrefix(gaps[0], t);
      SplitWhitespaceWordPrefix(words[0], gaps[0] + t);
      assert words[0] + gaps[0] + t == words[0] + (gaps[0] + t);
      assert words[0] + "" == words[0];
      assert [words[0]] + words[1..] == words;
    }
  }

  /** A join starts with its first word, or with no character at all. */
  lemma JoinWordsStart(words: seq<string>, gaps: seq<string>)
    requires |words| == |gaps| + 1
    requires forall i :: 0 <= i < |words| ==> NoWhitespace(words[i])
    requires |words| > 1 ==> words[0] != []
    ensures var s := JoinWords(words, gaps); s == [] || !IsWhitespace(s[0])
  {
    if gaps != [] {
      assert JoinWords(words, gaps)[0] == words[0][0];
    }
  }
}
