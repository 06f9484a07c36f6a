/**
 * Cube game records (day2/solve.ts). A line "Game N: 3 blue, 4 red; 1 red, 2 green"
 * lists the sets of cubes revealed in game N. Part 1 sums the ids of the games
 * whose every set stays within fixed per-colour caps; part 2 sums, over all
 * games, the product of the per-colour maxima.
 */
module CubeGame {
  import opened Text
  import opened Collections

  datatype Colour = Blue | Red | Green

  /** One revealed set: how many cubes of each colour were shown (type Set). */
  datatype CubeSet = CubeSet(blue: nat, red: nat, green: nat)
  {
    function Get(c: Colour): nat
    {
      match c
      case Blue => blue
      case Red => red
      case Green => green
    }

    /** The assignment `set[name] = n` for a colour name. */
    function With(c: Colour, n: nat): (s: CubeSet)
      ensures s.Get(c) == n
      ensures forall d :: d != c ==> s.Get(d) == Get(d)
    {
      match c
      case Blue => this.(blue := n)
      case Red => this.(red := n)
      case Green => this.(green := n)
    }
  }

  datatype Game = Game(value: nat, sets: seq<CubeSet>)

  /** Part1Max: at most 14 blue, 12 red and 13 green cubes. */
  const Part1Max: CubeSet := CubeSet(14, 12, 13)

  function ColourNamed(name: string): (c: Option<Colour>)
  {
    if name == "blue" then Some(Blue)
    else if name == "red" then Some(Red)
    else if name == "green" then Some(Green)
    else None
  }

  // ---------------------------------------------------------------------------
  // parseSets

  /** str.split(sep).map((l) => l.trim()) */
  function SplitTrim(str: string, sep: char): (parts: seq<string>)
    ensures |parts| == |Split(str, sep)| >= 1
    ensures forall i :: 0 <= i < |parts| ==> parts[i] == Trim(Split(str, sep)[i])
  {
    var raw := Split(str, sep);
    seq(|raw|, i requires 0 <= i < |raw| => Trim(raw[i]))
  }

  /**
   * The tuples the model accepts: the count of a colour the tuple names is a
   * decimal number (parseInt would also read "3x" as 3). A tuple naming no
   * colour only sets an unrelated property.
   */
  predicate WellFormedTuple(tuple: string)
  {
    var pieces := Split(tuple, ' ');
    |pieces| > 1 && ColourNamed(pieces[1]).Some? ==> IsDecimal(pieces[0])
  }

  /** What `const [value, name] = tuple.split(' ')` assigns: a colour and its count, if `name` is a colour. */
  function TupleEntry(tuple: string): (e: Option<(Colour, nat)>)
    requires WellFormedTuple(tuple)
  {
    var pieces := Split(tuple, ' ');
    if |pieces| > 1 && ColourNamed(pieces[1]).Some? then
      Some((ColourNamed(pieces[1]).value, DecimalValue(pieces[0])))
    else
      None
  }

  predicate Names(tuple: string, c: Colour)
    requires WellFormedTuple(tuple)
  {
    TupleEntry(tuple).Some? && TupleEntry(tuple).value.0 == c
  }

  predicate WellFormedTuples(tuples: seq<string>)
  {
    forall i :: 0 <= i < |tuples| ==> WellFormedTuple(tuples[i])
  }

  /** The set after applying the tuples in order to the all-zero record. */
  function SetOfTuples(tuples: seq<string>): CubeSet
    requires WellFormedTuples(tuples)
  {
    if tuples == [] then CubeSet(0, 0, 0)
    else
      var before := SetOfTuples(tuples[..|tuples| - 1]);
      var entry := TupleEntry(tuples[|tuples| - 1]);
      if entry.Some? then before.With(entry.value.0, entry.value.1) else before
  }

  /** A colour no tuple names keeps its default of 0. */
  lemma {:induction false} SetOfTuplesDefault(tuples: seq<string>, c: Colour)
    requires WellFormedTuples(tuples)
    requires forall i :: 0 <= i < |tuples| ==> !Names(tuples[i], c)
    ensures SetOfTuples(tuples).Get(c) == 0
    decreases |tuples|
  {
    if tuples != [] {
      SetOfTuplesDefault(tuples[..|tuples| - 1], c);
    }
  }

  /** A colour takes the count of the last tuple that names it. */
  lemma {:induction false} SetOfTuplesLastWins(tuples: seq<string>, i: nat, c: Colour)
    requires WellFormedTuples(tuples)
    requires i < |tuples| && Names(tuples[i], c)
    requires forall j :: i < j < |tuples| ==> !Names(tuples[j], c)
    ensures SetOfTuples(tuples).Get(c) == TupleEntry(tuples[i]).value.1
    decreases |tuples|
  {
    if i < |tuples| - 1 {
      SetOfTuplesLastWins(tuples[..|tuples| - 1], i, c);
    }
  }

  predicate WellFormedSets(str: string)
  {
    WellFormedTuples(SplitTrim(str, ','))
  }

  /** The set a segment such as "3 blue, 4 red" describes. */
  function SetOf(str: string): CubeSet
    requires WellFormedSets(str)
  {
    SetOfTuples(SplitTrim(str, ','))
  }

  /**
   * parseSets: starts from zero counts and overwrites the named colour for each
   * comma-separated tuple in turn.
   */
  method ParseSets(str: string) returns (parsed: CubeSet)
    requires WellFormedSets(str)
    ensures parsed == SetOf(str)
  {
    parsed := CubeSet(0, 0, 0);
    var rawTuples := SplitTrim(str, ',');
    for i := 0 to |rawTuples|
      invariant parsed == SetOfTuples(rawTuples[..i])
    {
      SetOfTuplesStep(rawTuples, i);
      var entry := TupleEntry(rawTuples[i]);
      if entry.Some? {
        parsed := parsed.With(entry.value.0, entry.value.1);
      }
    }
    assert rawTuples[..|rawTuples|] == rawTuples;
  }

  /** One more tuple applies its entry on top of the set so far. */
  lemma SetOfTuplesStep(tuples: seq<string>, i: nat)
    requires WellFormedTuples(tuples) && i < |tuples|
    ensures WellFormedTuples(tuples[..i]) && WellFormedTuples(tuples[..i + 1])
    ensures var entry := TupleEntry(tuples[i]);
      SetOfTuples(tuples[..i + 1]) ==
        if entry.Some? then SetOfTuples(tuples[..i]).With(entry.value.0, entry.value.1) else SetOfTuples(tuples[..i])
  {
    assert tuples[..i + 1][..i] == tuples[..i];
  }

  // ---------------------------------------------------------------------------
  // parseGame, parseGames

  /**
   * The game lines the model accepts: a ':' separator, a decimal number after
   * "Game", and well-formed sets. The parser would also read some lines this
   * excludes (parseInt reads "3x" as 3).
   */
  predicate WellFormedGame(line: string)
  {
    var halves := SplitTrim(line, ':');
    |halves| >= 2 &&
    var words := Split(halves[0], ' ');
    |words| >= 2 && IsDecimal(words[1]) &&
    var rawSets := SplitTrim(halves[1], ';');
    forall i :: 0 <= i < |rawSets| ==> WellFormedSets(rawSets[i])
  }

  /** parseGame: the id from the word after "Game", one set per ';'-separated segment. */
  function ParseGame(line: string): (game: Game)
    requires WellFormedGame(line)
    ensures |game.sets| == Count(Trim(Split(line, ':')[1]), ';') + 1
  {
    var halves := SplitTrim(line, ':');
    var words := Split(halves[0], ' ');
    var rawSets := SplitTrim(halves[1], ';');
    SplitCount(halves[1], ';');
    Game(DecimalValue(words[1]), seq(|rawSets|, i requires 0 <= i < |rawSets| => SetOf(rawSets[i])))
  }

  /** The head "Game <id>" of a line in the puzzle's layout is read back as the word "Game" and the id. */
  lemma GameHead(id: string)
    requires IsDecimal(id)
    ensures ':' !in "Game " + id && Trim("Game " + id) == "Game " + id
    ensures var words := Split("Game " + id, ' '); |words| == 2 && words[0] == "Game" && words[1] == id
  {
    var head := "Game " + id;
    assert ' ' !in id && ':' !in id by {
      forall i | 0 <= i < |id| ensures id[i] != ' ' && id[i] != ':' {
        assert IsDigit(id[i]);
      }
    }
    assert !IsWhitespace(head[0]) && !IsWhitespace(head[|head| - 1]) by {
      assert IsDigit(head[|head| - 1]);
    }
    TrimUntouched(head);
    assert "Game" + [' '] + id == head;
    SplitPair("Game", id, ' ');
  }

  /** Two pieces without the separator, joined by it, split back into those two pieces. */
  lemma SplitPair(a: string, b: string, sep: char)
    requires sep !in a && sep !in b
    ensures var parts := Split(a + [sep] + b, sep); |parts| == 2 && parts[0] == a && parts[1] == b
  {
    assert Join([a, b], sep) == a + [sep] + b;
    SplitJoin([a, b], sep);
  }

  /** Step of ParseGameLayout: the trimmed halves of the line. */
  lemma HalvesTrimmed(line: string, head: string, rest: string)
    requires |Split(line, ':')| == 2 && Split(line, ':')[0] == head && Split(line, ':')[1] == rest
    requires Trim(head) == head
    ensures |SplitTrim(line, ':')| == 2
    ensures SplitTrim(line, ':')[0] == head && SplitTrim(line, ':')[1] == Trim(rest)
  {
  }

  /** Step of ParseGameLayout: what parseGame reads from those halves. */
  lemma ParseGameOf(line: string, head: string, id: string, rest: string)
    requires |SplitTrim(line, ':')| == 2
    requires SplitTrim(line, ':')[0] == head && SplitTrim(line, ':')[1] == Trim(rest)
    requires |Split(head, ' ')| == 2 && Split(head, ' ')[1] == id && IsDecimal(id)
    requires var rawSets := SplitTrim(Trim(rest), ';');
      forall i :: 0 <= i < |rawSets| ==> WellFormedSets(rawSets[i])
    ensures WellFormedGame(line)
    ensures ParseGame(line).value == DecimalValue(id)
    ensures |ParseGame(line).sets| == Count(Trim(rest), ';') + 1
  {
  }

  /**
   * A line "<head>:<rest>" whose head is "Game <id>" (as GameHead shows for the
   * puzzle's layout) parses to the game with that id and one set per
   * ';'-separated segment of the rest.
   */
  lemma ParseGameLayout(head: string, id: string, rest: string)
    requires ':' !in head && Trim(head) == head && IsDecimal(id)
    requires |Split(head, ' ')| == 2 && Split(head, ' ')[0] == "Game" && Split(head, ' ')[1] == id
    requires ':' !in rest
    requires var rawSets := SplitTrim(Trim(rest), ';');
      forall i :: 0 <= i < |rawSets| ==> WellFormedSets(rawSets[i])
    ensures WellFormedGame(head + ":" + rest)
    ensures ParseGame(head + ":" + rest).value == DecimalValue(id)
    ensures |ParseGame(head + ":" + rest).sets| == Count(Trim(rest), ';') + 1
  {
    var line := head + ":" + rest;
    SplitPair(head, rest, ':');
    HalvesTrimmed(line, head, rest);
    ParseGameOf(line, head, id, rest);
  }

  /** parseGames: one game per line. */
  function ParseGames(lines: seq<string>): (games: seq<Game>)
    requires forall k :: 0 <= k < |lines| ==> WellFormedGame(lines[k])
    ensures |games| == |lines|
    ensures forall k :: 0 <= k < |games| ==> |games[k].sets| >= 1
  {
    seq(|lines|, k requires 0 <= k < |lines| => ParseGame(lines[k]))
  }

  // ---------------------------------------------------------------------------
  // part1

  /** A set showing more cubes of some colour than Part1Max allows. */
  predicate Exceeds(s: CubeSet)
  {
    s.blue > Part1Max.blue || s.green > Part1Max.green || s.red > Part1Max.red
  }

  /** game.sets.filter(...): the sets that break a cap, in order. */
  function BadSets(sets: seq<CubeSet>): (bad: seq<CubeSet>)
    ensures |bad| <= |sets|
    ensures forall i :: 0 <= i < |bad| ==> Exceeds(bad[i])
  {
    if sets == [] then []
    else BadSets(sets[..|sets| - 1]) + (if Exceeds(sets[|sets| - 1]) then [sets[|sets| - 1]] else [])
  }

  /** No bad sets exactly when every set is within 14 blue, 13 green and 12 red (equal counts allowed). */
  lemma {:induction false} NoBadSets(sets: seq<CubeSet>)
    ensures |BadSets(sets)| == 0 <==>
      forall i :: 0 <= i < |sets| ==> sets[i].blue <= 14 && sets[i].green <= 13 && sets[i].red <= 12
    decreases |sets|
  {
    if sets != [] {
      var init := sets[..|sets| - 1];
      NoBadSets(init);
      assert forall i :: 0 <= i < |init| ==> init[i] == sets[i];
    }
  }

  predicate Possible(game: Game)
  {
    |BadSets(game.sets)| == 0
  }

  /** The filter over games followed by the reduce summing the ids. */
  function SumPossibleIds(games: seq<Game>): (total: nat)
  {
    if games == [] then 0
    else
      var last := games[|games| - 1];
      SumPossibleIds(games[..|games| - 1]) + (if Possible(last) then last.value else 0)
  }

  /** The sum of every game's id. */
  function SumIds(games: seq<Game>): (total: nat)
  {
    if games == [] then 0 else SumIds(games[..|games| - 1]) + games[|games| - 1].value
  }

  /** Only possible games count, so the answer never exceeds the sum of all ids, and reaches it when all are possible. */
  lemma {:induction false} SumPossibleIdsBounds(games: seq<Game>)
    ensures SumPossibleIds(games) <= SumIds(games)
    ensures (forall k :: 0 <= k < |games| ==> Possible(games[k])) ==> SumPossibleIds(games) == SumIds(games)
    ensures (forall k :: 0 <= k < |games| ==> !Possible(games[k])) ==> SumPossibleIds(games) == 0
    decreases |games|
  {
    if games != [] {
      var init := games[..|games| - 1];
      SumPossibleIdsBounds(init);
      assert forall k :: 0 <= k < |init| ==> init[k] == games[k];
    }
  }

  /** part1: the sum of the ids of the possible games. */
  function Part1(lines: seq<string>): (total: nat)
    requires forall k :: 0 <= k < |lines| ==> WellFormedGame(lines[k])
    ensures lines == [] ==> total == 0
    ensures total <= SumIds(ParseGames(lines))
  {
    SumPossibleIdsBounds(ParseGames(lines));
    SumPossibleIds(ParseGames(lines))
  }

  // ---------------------------------------------------------------------------
  // part2

  /** Math.max over a non-empty list of counts. */
  function MaxOf(xs: seq<nat>): (m: nat)
    requires |xs| > 0
    ensures forall i :: 0 <= i < |xs| ==> xs[i] <= m
    ensures exists i :: 0 <= i < |xs| && xs[i] == m
  {
    if |xs| == 1 then xs[0]
    else
      var m0 := MaxOf(xs[..|xs| - 1]);
      assert forall i :: 0 <= i < |xs| - 1 ==> xs[..|xs| - 1][i] == xs[i];
      if xs[|xs| - 1] > m0 then xs[|xs| - 1] else m0
  }

  function Counts(sets: seq<CubeSet>, c: Colour): (xs: seq<nat>)
    ensures |xs| == |sets|
    ensures forall i :: 0 <= i < |sets| ==> xs[i] == sets[i].Get(c)
  {
    seq(|sets|, i requires 0 <= i < |sets| => sets[i].Get(c))
  }

  /** The per-colour maximum over the game's sets (the `mins` of part2). */
  function MinimumSet(game: Game): (m: CubeSet)
    requires |game.sets| > 0
  {
    CubeSet(MaxOf(Counts(game.sets, Blue)), MaxOf(Counts(game.sets, Red)), MaxOf(Counts(game.sets, Green)))
  }

  /**
   * The minimum set is the least one that covers every revealed set: each set
   * fits inside it, and any set that covers them all is at least as large in
   * every colour.
   */
  lemma MinimumSetIsLeast(game: Game, cover: CubeSet)
    requires |game.sets| > 0
    ensures forall i, c :: 0 <= i < |game.sets| ==> game.sets[i].Get(c) <= MinimumSet(game).Get(c)
    ensures (forall i, c :: 0 <= i < |game.sets| ==> game.sets[i].Get(c) <= cover.Get(c)) ==>
      forall c :: MinimumSet(game).Get(c) <= cover.Get(c)
  {
    var m := MinimumSet(game);
    forall i, c | 0 <= i < |game.sets| ensures game.sets[i].Get(c) <= m.Get(c) {
      assert Counts(game.sets, c)[i] == game.sets[i].Get(c);
    }
    if forall i, c :: 0 <= i < |game.sets| ==> game.sets[i].Get(c) <= cover.Get(c) {
      forall c ensures m.Get(c) <= cover.Get(c) {
        var xs := Counts(game.sets, c);
        var i :| 0 <= i < |xs| && xs[i] == MaxOf(xs);
        assert m.Get(c) == MaxOf(xs);
      }
    }
  }

  /** min.blue * min.red * min.green */
  function Power(s: CubeSet): nat
  {
    s.blue * s.red * s.green
  }

  /** The sum of the powers of the games' minimum sets. */
  function SumPowers(games: seq<Game>): (total: nat)
    requires forall k :: 0 <= k < |games| ==> |games[k].sets| > 0
  {
    if games == [] then 0
    else SumPowers(games[..|games| - 1]) + Power(MinimumSet(games[|games| - 1]))
  }

  /** part2: the sum of the powers of the minimum sets. */
  function Part2(lines: seq<string>): (total: nat)
    requires forall k :: 0 <= k < |lines| ==> WellFormedGame(lines[k])
    ensures lines == [] ==> total == 0
  {
    SumPowers(ParseGames(lines))
  }

  // ---------------------------------------------------------------------------
  // The puzzle's sample, as parsed games

  const SampleGames: seq<Game> := [
    Game(1, [CubeSet(3, 4, 0), CubeSet(6, 1, 2), CubeSet(0, 0, 2)]),
    Game(2, [CubeSet(1, 0, 2), CubeSet(4, 1, 3), CubeSet(1, 0, 1)]),
    Game(3, [CubeSet(6, 20, 8), CubeSet(5, 4, 13), CubeSet(0, 1, 5)]),
    Game(4, [CubeSet(6, 3, 1), CubeSet(0, 6, 3), CubeSet(15, 14, 3)]),
    Game(5, [CubeSet(1, 6, 3), CubeSet(2, 1, 2)])
  ]

  /** Games 1, 2 and 5 are possible: their ids sum to 8. */
  lemma SamplePart1(games: seq<Game>)
    requires games == SampleGames
    ensures SumPossibleIds(games) == 8
  {
    forall k | 0 <= k < |games| ensures games[k].value == k + 1 && (Possible(games[k]) <==> k != 2 && k != 3) {
      SampleGamePossible(k);
    }
    SumOfSampleIds(games);
  }

  /** Game 3 shows 20 red cubes and game 4 shows 15 blue ones; every other set fits the bag. */
  lemma SampleGamePossible(k: nat)
    requires k < |SampleGames|
    ensures SampleGames[k].value == k + 1
    ensures Possible(SampleGames[k]) <==> k != 2 && k != 3
  {
    var sets := SampleGames[k].sets;
    NoBadSets(sets);
    if k == 2 {
      assert sets[0].red == 20;
    } else if k == 3 {
      assert sets[2].blue == 15;
    }
  }

  /** Five games numbered 1 to 5 of which the third and fourth are impossible give 8. */
  lemma SumOfSampleIds(games: seq<Game>)
    requires |games| == 5
    requires forall k :: 0 <= k < |games| ==> games[k].value == k + 1 && (Possible(games[k]) <==> k != 2 && k != 3)
    ensures SumPossibleIds(games) == 8
  {
    var g := games;
    assert SumPossibleIds(g[..1]) == 1 by { assert g[..1][..0] == []; }
    assert SumPossibleIds(g[..2]) == 3 by { assert g[..2][..1] == g[..1]; }
    assert SumPossibleIds(g[..3]) == 3 by { assert g[..3][..2] == g[..2]; }
    assert SumPossibleIds(g[..4]) == 3 by { assert g[..4][..3] == g[..3]; }
    assert g[..5] == g;
  }

  /** The powers of the sample games' minimum sets, 48, 12, 1560, 630 and 36, sum to 2286. */
  lemma SamplePart2(games: seq<Game>)
    requires games == SampleGames
    ensures forall k :: 0 <= k < |games| ==> |games[k].sets| > 0
    ensures SumPowers(games) == 2286
  {
    SampleSets(games);
    SamplePowers(games);
    SumPowersOf(games, [48, 12, 1560, 630, 36]);
    SamplePowersTotal();
  }

  /** The sample games' minimum sets have powers 48, 12, 1560, 630 and 36. */
  lemma SamplePowers(games: seq<Game>)
    requires games == SampleGames
    ensures forall k :: 0 <= k < |games| ==>
      |games[k].sets| > 0 && Power(MinimumSet(games[k])) == [48, 12, 1560, 630, 36][k]
  {
    forall k | 0 <= k < |games|
      ensures |games[k].sets| > 0 && Power(MinimumSet(games[k])) == [48, 12, 1560, 630, 36][k]
    {
      if k == 0 {
        Game1Minimum();
      } else if k == 1 {
        Game2Minimum();
      } else if k == 2 {
        Game3Minimum();
      } else if k == 3 {
        Game4Minimum();
      } else {
        Game5Minimum();
      }
    }
  }

  lemma SamplePowersTotal()
    ensures Sum([48, 12, 1560, 630, 36]) == 2286
  {
    var powers: seq<int> := [48, 12, 1560, 630, 36];
    assert Sum(powers[..1]) == 48 by { assert powers[..1][..0] == []; }
    assert Sum(powers[..2]) == 60 by { assert powers[..2][..1] == powers[..1]; }
    assert Sum(powers[..3]) == 1620 by { assert powers[..3][..2] == powers[..2]; }
    assert Sum(powers[..4]) == 2250 by { assert powers[..4][..3] == powers[..3]; }
    assert powers[..5] == powers;
  }

  /** Every sample game reveals at least one set. */
  lemma SampleSets(games: seq<Game>)
    requires games == SampleGames
    ensures forall k :: 0 <= k < |games| ==> |games[k].sets| > 0
  {
    forall k | 0 <= k < |games| ensures |games[k].sets| > 0 {
      if k == 0 {
      } else if k == 1 {
      } else if k == 2 {
      } else if k == 3 {
      } else {
      }
    }
  }

  /** The minimum set of game 1 is CubeSet(6, 4, 2), of power 48. */
  lemma Game1Minimum()
    ensures |SampleGames[0].sets| > 0
    ensures MinimumSet(SampleGames[0]) == CubeSet(6, 4, 2) && Power(CubeSet(6, 4, 2)) == 48
  {
    MinimumSetOf(SampleGames[0], CubeSet(6, 4, 2), 1, 0, 1);
  }

  /** The minimum set of game 2 is CubeSet(4, 1, 3), of power 12. */
  lemma Game2Minimum()
    ensures |SampleGames[1].sets| > 0
    ensures MinimumSet(SampleGames[1]) == CubeSet(4, 1, 3) && Power(CubeSet(4, 1, 3)) == 12
  {
    MinimumSetOf(SampleGames[1], CubeSet(4, 1, 3), 1, 1, 1);
  }

  /** The minimum set of game 3 is CubeSet(6, 20, 13), of power 1560. */
  lemma Game3Minimum()
    ensures |SampleGames[2].sets| > 0
    ensures MinimumSet(SampleGames[2]) == CubeSet(6, 20, 13) && Power(CubeSet(6, 20, 13)) == 1560
  {
    MinimumSetOf(SampleGames[2], CubeSet(6, 20, 13), 0, 0, 1);
  }

  /** The minimum set of game 4 is CubeSet(15, 14, 3), of power 630. */
  lemma Game4Minimum()
    ensures |SampleGames[3].sets| > 0
    ensures MinimumSet(SampleGames[3]) == CubeSet(15, 14, 3) && Power(CubeSet(15, 14, 3)) == 630
  {
    MinimumSetOf(SampleGames[3], CubeSet(15, 14, 3), 2, 2, 1);
  }

  /** The minimum set of game 5 is CubeSet(2, 6, 3), of power 36. */
  lemma Game5Minimum()
    ensures |SampleGames[4].sets| > 0
    ensures MinimumSet(SampleGames[4]) == CubeSet(2, 6, 3) && Power(CubeSet(2, 6, 3)) == 36
  {
    MinimumSetOf(SampleGames[4], CubeSet(2, 6, 3), 1, 0, 0);
  }

  /** The answer is the lodash-style sum of the games' powers. */
  lemma {:induction false} SumPowersOf(games: seq<Game>, powers: seq<int>)
    requires |games| == |powers|
    requires forall k :: 0 <= k < |games| ==> |games[k].sets| > 0 && Power(MinimumSet(games[k])) == powers[k]
    ensures SumPowers(games) == Sum(powers)
    decreases |games|
  {
    if games != [] {
      SumPowersOf(games[..|games| - 1], powers[..|powers| - 1]);
    }
  }

  /** A set that covers every revealed set and matches one of them in each colour is the minimum set. */
  lemma MinimumSetOf(game: Game, m: CubeSet, ib: nat, ir: nat, ig: nat)
    requires ib < |game.sets| && ir < |game.sets| && ig < |game.sets|
    requires forall i :: 0 <= i < |game.sets| ==>
      game.sets[i].blue <= m.blue && game.sets[i].red <= m.red && game.sets[i].green <= m.green
    requires game.sets[ib].blue == m.blue && game.sets[ir].red == m.red && game.sets[ig].green == m.green
    ensures MinimumSet(game) == m
  {
    forall i, c | 0 <= i < |game.sets| ensures game.sets[i].Get(c) <= m.Get(c) {
    }
    MinimumSetIsLeast(game, m);
    MinimumSetIsLeast(game, MinimumSet(game));
    assert game.sets[ib].Get(Blue) <= MinimumSet(game).Get(Blue);
    assert game.sets[ir].Get(Red) <= MinimumSet(game).Get(Red);
    assert game.sets[ig].Get(Green) <= MinimumSet(game).Get(Green);
  }
}
