/**
 * Scratchcards (day4/solve.ts). A line "Card 1: 41 48 83 | 83 86 6" lists the
 * winning numbers and the numbers we have. Part 1 scores each card by doubling
 * per match; part 2 lets a card with k matches win one more copy of each of the
 * next k cards for every copy of it held, and counts the cards held at the end.
 */
module Scratchcards {
  import opened Text
  import opened Collections

  datatype Card = Card(number: int, winningNums: seq<int>, ourNums: seq<int>, matchingNums: seq<int>, score: nat)

  // ---------------------------------------------------------------------------
  // parseCard

  /**
   * The number texts the model accepts: empty (Number reads it as 0) or decimal
   * digits. Number() also reads some texts this excludes, such as "1e3".
   */
  predicate NumberText(s: string)
  {
    s == [] || IsDecimal(s)
  }

  /** Every whitespace-separated word of `text` is a number. */
  predicate NumbersText(text: string)
  {
    var words := SplitWhitespace(text);
    forall i :: 0 <= i < |words| ==> NumberText(Trim(words[i]))
  }

  /** text.split(/\s+/).map((raw) => Number(raw.trim())) */
  function Numbers(text: string): (nums: seq<int>)
    requires NumbersText(text)
    ensures |nums| == |SplitWhitespace(text)|
    ensures forall i :: 0 <= i < |nums| ==> nums[i] >= 0
  {
    var words := SplitWhitespace(text);
    seq(|words|, i requires 0 <= i < |words| => NumberOf(Trim(words[i])))
  }

  function Pow2(n: nat): (p: nat)
    ensures p >= 1
  {
    if n == 0 then 1 else 2 * Pow2(n - 1)
  }

  /** A card with `k` matches is worth nothing for k = 0, else 2^(k-1) points. */
  function Score(k: nat): (points: nat)
  {
    if k > 0 then Pow2(k - 1) else 0
  }

  /** No match scores 0, the first match 1 point, and every further match doubles the score. */
  lemma ScoreDoubles(k: nat)
    ensures Score(0) == 0 && Score(1) == 1
    ensures k >= 1 ==> Score(k + 1) == 2 * Score(k)
    ensures Score(k) == 0 <==> k == 0
  {
  }

  /** The card lines the model accepts: a ':' and a '|' split it, and every field is a number text. */
  predicate WellFormedCard(line: string)
  {
    var halves := Split(line, ':');
    |halves| >= 2 &&
    var head := SplitWhitespace(Trim(halves[0]));
    |head| >= 2 && NumberText(head[1]) &&
    var sides := Split(Trim(halves[1]), '|');
    |sides| >= 2 && NumbersText(Trim(sides[0])) && NumbersText(Trim(sides[1]))
  }

  /** The winning numbers' text: the trimmed part between ':' and '|'. */
  function WinningText(line: string): string
    requires WellFormedCard(line)
  {
    Trim(Split(Trim(Split(line, ':')[1]), '|')[0])
  }

  /** The text of the numbers we have: the trimmed part after '|'. */
  function OurText(line: string): string
    requires WellFormedCard(line)
  {
    Trim(Split(Trim(Split(line, ':')[1]), '|')[1])
  }

  /**
   * parseCard: both lists without repeats, the numbers in both, and the score.
   * The card number is the word after "Card".
   */
  function ParseCard(line: string): (card: Card)
    requires WellFormedCard(line)
    ensures NoDup(card.winningNums) && NoDup(card.ourNums) && NoDup(card.matchingNums)
    ensures forall x :: x in card.winningNums <==> x in Numbers(WinningText(line))
    ensures forall x :: x in card.ourNums <==> x in Numbers(OurText(line))
    ensures forall x :: x in card.matchingNums <==> x in card.winningNums && x in card.ourNums
    ensures |card.matchingNums| <= |card.winningNums| && |card.matchingNums| <= |card.ourNums|
    ensures card.score == Score(|card.matchingNums|)
    ensures card.number >= 0
  {
    var winningNums := Uniq(Numbers(WinningText(line)));
    var ourNums := Uniq(Numbers(OurText(line)));
    var winners := Intersection(winningNums, ourNums);
    IntersectionLength(winningNums, ourNums);
    var head := SplitWhitespace(Trim(Split(line, ':')[0]));
    Card(NumberOf(head[1]), winningNums, ourNums, winners, Score(|winners|))
  }

  function ParseCards(lines: seq<string>): (cards: seq<Card>)
    requires forall k :: 0 <= k < |lines| ==> WellFormedCard(lines[k])
    ensures |cards| == |lines|
    ensures forall k :: 0 <= k < |lines| ==> cards[k] == ParseCard(lines[k])
  {
    seq(|lines|, k requires 0 <= k < |lines| => ParseCard(lines[k]))
  }

  // ---------------------------------------------------------------------------
  // part1

  function Scores(cards: seq<Card>): (scores: seq<int>)
    ensures |scores| == |cards|
    ensures forall k :: 0 <= k < |cards| ==> scores[k] == cards[k].score
  {
    seq(|cards|, k requires 0 <= k < |cards| => cards[k].score)
  }

  /** part1: the sum of the cards' scores. */
  function Part1(lines: seq<string>): (points: int)
    requires forall k :: 0 <= k < |lines| ==> WellFormedCard(lines[k])
  {
    Sum(Scores(ParseCards(lines)))
  }

  /** The points are 0 exactly when no card has a match, and no card is worth more than the total. */
  lemma Part1Zero(lines: seq<string>)
    requires forall k :: 0 <= k < |lines| ==> WellFormedCard(lines[k])
    ensures Part1(lines) >= 0
    ensures Part1(lines) == 0 <==> forall k :: 0 <= k < |lines| ==> ParseCard(lines[k]).matchingNums == []
    ensures forall k :: 0 <= k < |lines| ==> ParseCard(lines[k]).score <= Part1(lines)
  {
    var cards := ParseCards(lines);
    var scores := Scores(cards);
    SumNonNegative(scores);
    forall k | 0 <= k < |lines| ensures ParseCard(lines[k]).score == scores[k] {
    }
    if Part1(lines) == 0 {
      forall k | 0 <= k < |lines| ensures ParseCard(lines[k]).matchingNums == [] {
        ScoreDoubles(|cards[k].matchingNums|);
      }
    }
    if forall k :: 0 <= k < |lines| ==> ParseCard(lines[k]).matchingNums == [] {
      forall k | 0 <= k < |scores| ensures scores[k] <= 0 {
      }
      SumBounded(scores, 0);
    }
  }

  // ---------------------------------------------------------------------------
  // part2: the card vault

  /**
   * The JavaScript Map from card number to number of copies held: its keys in
   * insertion order, and the count under each key.
   */
  datatype Vault = Vault(keys: seq<int>, counts: map<int, nat>)
  {
    ghost predicate Valid()
    {
      NoDup(keys) && (forall k :: k in counts <==> k in keys) &&
      forall i :: 0 <= i < |keys| ==> keys[i] in counts
    }

    /** cardVault.get(k) ?? 0 */
    function Lookup(k: int): nat
    {
      if k in counts then counts[k] else 0
    }

    /** cardVault.set(k, v): a new key goes to the end of the key order, an existing one keeps its place. */
    function Put(k: int, v: nat): Vault
    {
      Vault(if k in counts then keys else keys + [k], counts[k := v])
    }

    /** Array.from(cardVault.values()): the counts in key order. */
    function Values(): (vs: seq<int>)
      ensures |vs| == |keys|
      ensures forall i :: 0 <= i < |keys| ==> vs[i] == Lookup(keys[i])
    {
      seq(|keys|, i requires 0 <= i < |keys| => Lookup(keys[i]))
    }

    /** sum(Array.from(cardVault.values())) */
    function Total(): int
    {
      Sum(Values())
    }
  }

  const EmptyVault := Vault([], map[])

  /** Setting a key keeps the key order free of repeats and in step with the counts. */
  lemma PutValid(v: Vault, k: int, n: nat)
    requires v.Valid()
    ensures v.Put(k, n).Valid()
    ensures v.Put(k, n).Lookup(k) == n
    ensures forall j :: j != k ==> v.Put(k, n).Lookup(j) == v.Lookup(j)
  {
  }

  /** Setting a key replaces its count in the total (an absent key counts as 0). */
  lemma TotalPut(v: Vault, k: int, n: nat)
    requires v.Valid()
    ensures v.Put(k, n).Total() == v.Total() - v.Lookup(k) + n
  {
    if k in v.counts {
      var p :| 0 <= p < |v.keys| && v.keys[p] == k;
      TotalPutExisting(v, k, n, p);
    } else {
      TotalPutNew(v, k, n);
    }
  }

  lemma TotalPutExisting(v: Vault, k: int, n: nat, p: nat)
    requires v.Valid() && p < |v.keys| && v.keys[p] == k
    ensures v.Put(k, n).Total() == v.Total() - v.Lookup(k) + n
  {
    var w := v.Put(k, n);
    assert w.keys == v.keys;
    forall i | 0 <= i < |v.keys| ensures w.Values()[i] == v.Values()[p := n][i] {
      assert v.keys[i] == k <==> i == p;
    }
    assert w.Values() == v.Values()[p := n];
    SumUpdate(v.Values(), p, n);
  }

  lemma TotalPutNew(v: Vault, k: int, n: nat)
    requires v.Valid() && k !in v.counts
    ensures v.Put(k, n).Total() == v.Total() + n
  {
    var w := v.Put(k, n);
    assert w.keys == v.keys + [k];
    forall i | 0 <= i < |v.keys| ensures w.Values()[i] == v.Values()[i] {
      assert v.keys[i] != k;
    }
    assert w.Values() == v.Values() + [n];
    SumAppend(v.Values(), [n]);
    assert Sum([n]) == n by {
      assert [n][..0] == [];
    }
  }

  /** The first loop of part2: every card number set to 1, in order. */
  function InitVault(cards: seq<Card>): Vault
  {
    if cards == [] then EmptyVault
    else InitVault(cards[..|cards| - 1]).Put(cards[|cards| - 1].number, 1)
  }

  /** The first loop leaves the vault's key order free of repeats and in step with its counts. */
  lemma {:induction false} InitVaultValid(cards: seq<Card>)
    ensures InitVault(cards).Valid()
    decreases |cards|
  {
    if cards != [] {
      InitVaultValid(cards[..|cards| - 1]);
      PutValid(InitVault(cards[..|cards| - 1]), cards[|cards| - 1].number, 1);
    }
  }

  /** After the first loop the listed card numbers, and only they, are held once each. */
  lemma {:induction false} InitVaultCounts(cards: seq<Card>)
    ensures InitVault(cards).Valid()
    ensures forall k :: k in InitVault(cards).counts <==> exists i :: 0 <= i < |cards| && cards[i].number == k
    ensures forall k :: k in InitVault(cards).counts ==> InitVault(cards).counts[k] == 1
    decreases |cards|
  {
    if cards != [] {
      var init := cards[..|cards| - 1];
      InitVaultCounts(init);
      PutValid(InitVault(init), cards[|cards| - 1].number, 1);
      forall k ensures k in InitVault(cards).counts <==> exists i :: 0 <= i < |cards| && cards[i].number == k {
        if exists i :: 0 <= i < |init| && init[i].number == k {
          var i :| 0 <= i < |init| && init[i].number == k;
          assert cards[i].number == k;
        }
        if exists i :: 0 <= i < |cards| && cards[i].number == k {
          var i :| 0 <= i < |cards| && cards[i].number == k;
          if i < |init| {
            assert init[i].number == k;
          }
        }
      }
    }
  }

  /** The inner loop over range(start, end): every card number in [start, end) gains n copies. */
  function AddCopies(v: Vault, start: int, end: int, n: nat): Vault
    requires start <= end
    decreases end - start
  {
    if end == start then v
    else
      var before := AddCopies(v, start, end - 1, n);
      before.Put(end - 1, before.Lookup(end - 1) + n)
  }

  /**
   * Exactly the card numbers start .. end-1 gain n copies, an absent one starting
   * from 0, and no other entry changes; no key is lost.
   */
  lemma {:induction false} AddCopiesEffect(v: Vault, start: int, end: int, n: nat)
    requires v.Valid() && start <= end
    ensures AddCopies(v, start, end, n).Valid()
    ensures forall k :: AddCopies(v, start, end, n).Lookup(k) == v.Lookup(k) + (if start <= k < end then n else 0)
    ensures forall k :: k in AddCopies(v, start, end, n).counts <==> k in v.counts || start <= k < end
    decreases end - start
  {
    if end != start {
      var before := AddCopies(v, start, end - 1, n);
      AddCopiesEffect(v, start, end - 1, n);
      PutValid(before, end - 1, before.Lookup(end - 1) + n);
    }
  }

  /** The inner loop adds n copies for each of the end - start card numbers. */
  lemma {:induction false} AddCopiesTotal(v: Vault, start: int, end: int, n: nat)
    requires v.Valid() && start <= end
    ensures AddCopies(v, start, end, n).Total() == v.Total() + (end - start) * n
    decreases end - start
  {
    if end != start {
      AddCopiesTotal(v, start, end - 1, n);
      AddCopiesStep(v, start, end, n);
      OneMore(end - 1 - start, n);
    }
  }

  /** The last card number of the range adds n to the total. */
  lemma AddCopiesStep(v: Vault, start: int, end: int, n: nat)
    requires v.Valid() && start < end
    ensures AddCopies(v, start, end, n).Total() == AddCopies(v, start, end - 1, n).Total() + n
  {
    var before := AddCopies(v, start, end - 1, n);
    AddCopiesValid(v, start, end - 1, n);
    TotalPut(before, end - 1, before.Lookup(end - 1) + n);
    assert AddCopies(v, start, end, n) == before.Put(end - 1, before.Lookup(end - 1) + n);
  }

  lemma {:induction false} AddCopiesValid(v: Vault, start: int, end: int, n: nat)
    requires v.Valid() && start <= end
    ensures AddCopies(v, start, end, n).Valid()
    decreases end - start
  {
    if end != start {
      var before := AddCopies(v, start, end - 1, n);
      AddCopiesValid(v, start, end - 1, n);
      PutValid(before, end - 1, before.Lookup(end - 1) + n);
    }
  }

  lemma OneMore(m: int, n: int)
    ensures m * n + n == (m + 1) * n
  {
  }

  /**
   * One pass of the second loop of part2: a card with k > 0 matches adds the
   * count held for its own number to each of the next k card numbers.
   */
  function CardStep(w: Vault, card: Card): Vault
  {
    if |card.matchingNums| > 0 then
      AddCopies(w, card.number + 1, card.number + 1 + |card.matchingNums|, w.Lookup(card.number))
    else w
  }

  /**
   * A card with k matches and c copies held adds c copies to exactly the card
   * numbers after it up to number + k, and k * c to the total.
   */
  lemma CardStepEffect(w: Vault, card: Card)
    requires w.Valid()
    ensures CardStep(w, card).Valid()
    ensures CardStep(w, card).Total() == w.Total() + |card.matchingNums| * w.Lookup(card.number)
    ensures forall j :: (CardStep(w, card).Lookup(j) ==
      w.Lookup(j) + if card.number < j <= card.number + |card.matchingNums| then w.Lookup(card.number) else 0)
    ensures forall j :: j in w.counts ==> j in CardStep(w, card).counts
  {
    var k, c := |card.matchingNums|, w.Lookup(card.number);
    if k > 0 {
      AddCopiesEffect(w, card.number + 1, card.number + 1 + k, c);
      AddCopiesTotal(w, card.number + 1, card.number + 1 + k, c);
      assert card.number + 1 + k - (card.number + 1) == k;
    }
  }

  /** The second loop of part2 over the cards, starting from vault `v`. */
  function Cascade(v: Vault, cards: seq<Card>): Vault
  {
    if cards == [] then v
    else CardStep(Cascade(v, cards[..|cards| - 1]), cards[|cards| - 1])
  }

  /** Counts never decrease and keys are never removed while the cascade runs. */
  lemma {:induction false} CascadeGrows(v: Vault, cards: seq<Card>)
    requires v.Valid()
    ensures Cascade(v, cards).Valid()
    ensures forall k :: k in v.counts ==> k in Cascade(v, cards).counts
    ensures forall k :: v.Lookup(k) <= Cascade(v, cards).Lookup(k)
    decreases |cards|
  {
    if cards != [] {
      CascadeGrows(v, cards[..|cards| - 1]);
      CardStepEffect(Cascade(v, cards[..|cards| - 1]), cards[|cards| - 1]);
    }
  }

  /** Each card with k matches adds k times its count at that point, so the total never goes down. */
  lemma {:induction false} CascadeTotal(v: Vault, cards: seq<Card>)
    requires v.Valid()
    ensures Cascade(v, cards).Total() >= v.Total()
    decreases |cards|
  {
    if cards != [] {
      var before := Cascade(v, cards[..|cards| - 1]);
      var card := cards[|cards| - 1];
      CascadeTotal(v, cards[..|cards| - 1]);
      CascadeGrows(v, cards[..|cards| - 1]);
      CardStepEffect(before, card);
      NonNegativeProduct(|card.matchingNums|, before.Lookup(card.number));
    }
  }

  lemma NonNegativeProduct(a: nat, b: nat)
    ensures a * b >= 0
  {
  }

  /** Cards without matches win nothing: the vault is left as it was. */
  lemma {:induction false} CascadeNoMatches(v: Vault, cards: seq<Card>)
    requires forall i :: 0 <= i < |cards| ==> cards[i].matchingNums == []
    ensures Cascade(v, cards) == v
    decreases |cards|
  {
    if cards != [] {
      CascadeNoMatches(v, cards[..|cards| - 1]);
    }
  }

  /** The number of scratchcards held once every card has been processed. */
  function CardsHeld(cards: seq<Card>): int
  {
    Cascade(InitVault(cards), cards).Total()
  }

  /**
   * part2: fills the vault with one copy of every card, lets each card in turn
   * win copies of the cards after it, and sums the copies held.
   */
  method Part2(lines: seq<string>) returns (total: int)
    requires forall k :: 0 <= k < |lines| ==> WellFormedCard(lines[k])
    ensures total == CardsHeld(ParseCards(lines))
  {
    var cards := ParseCards(lines);
    total := CountCards(cards);
  }

  /** The body of part2 once the cards are parsed: the two loops over the cards and the final sum. */
  method CountCards(cards: seq<Card>) returns (total: int)
    ensures total == CardsHeld(cards)
  {
    var cardVault := EmptyVault;
    for i := 0 to |cards|
      invariant cardVault == InitVault(cards[..i])
    {
      InitStep(cards, i);
      cardVault := cardVault.Put(cards[i].number, 1);
    }
    assert cards[..|cards|] == cards;
    ghost var initial := cardVault;
    InitVaultValid(cards);

    for i := 0 to |cards|
      invariant cardVault.Valid()
      invariant cardVault == Cascade(initial, cards[..i])
    {
      var numCards := cardVault.Lookup(cards[i].number);
      CascadeStep(initial, cards, i);
      CardStepEffect(cardVault, cards[i]);
      if |cards[i].matchingNums| > 0 {
        var start := cards[i].number + 1;
        var end := start + |cards[i].matchingNums|;
        cardVault := WinCopies(cardVault, start, end, numCards);
      }
    }
    assert cards[..|cards|] == cards;
    total := Sum(cardVault.Values());
  }

  /**
   * The loop over range(start, end) in part2: each card number in the range
   * gains numCards copies, starting from 0 when it has no entry yet.
   */
  method WinCopies(cardVault: Vault, start: int, end: int, numCards: nat) returns (updated: Vault)
    requires cardVault.Valid() && start <= end
    ensures updated == AddCopies(cardVault, start, end, numCards)
  {
    updated := cardVault;
    var cardNumbers := Range(start, end);
    for j := 0 to |cardNumbers|
      invariant updated.Valid()
      invariant updated == AddCopies(cardVault, start, start + j, numCards)
    {
      var existing := updated.Lookup(cardNumbers[j]);
      PutValid(updated, cardNumbers[j], existing + numCards);
      updated := updated.Put(cardNumbers[j], existing + numCards);
    }
  }

  /** Step of the first loop of part2. */
  lemma InitStep(cards: seq<Card>, i: nat)
    requires i < |cards|
    ensures InitVault(cards[..i + 1]) == InitVault(cards[..i]).Put(cards[i].number, 1)
  {
    assert cards[..i + 1][..i] == cards[..i];
  }

  /** Step of the second loop of part2. */
  lemma CascadeStep(v: Vault, cards: seq<Card>, i: nat)
    requires i < |cards|
    ensures Cascade(v, cards[..i + 1]) == CardStep(Cascade(v, cards[..i]), cards[i])
  {
    assert cards[..i + 1][..i] == cards[..i];
  }

  /**
   * When the second loop reaches a card, the vault holds an entry for its number,
   * so cardVault.get(card.number) is never undefined.
   */
  lemma NumberHeld(cards: seq<Card>, i: nat)
    requires i < |cards|
    ensures cards[i].number in Cascade(InitVault(cards), cards[..i]).counts
  {
    InitVaultCounts(cards);
    CascadeGrows(InitVault(cards), cards[..i]);
  }

  /** Every card is held at least once, so at least as many cards are held as there are distinct card numbers. */
  lemma CardsHeldAtLeastOnce(cards: seq<Card>)
    ensures forall i :: 0 <= i < |cards| ==> Cascade(InitVault(cards), cards).Lookup(cards[i].number) >= 1
    ensures CardsHeld(cards) >= InitVault(cards).Total()
  {
    InitVaultCounts(cards);
    CascadeGrows(InitVault(cards), cards);
    CascadeTotal(InitVault(cards), cards);
    forall i | 0 <= i < |cards| ensures Cascade(InitVault(cards), cards).Lookup(cards[i].number) >= 1 {
      assert InitVault(cards).Lookup(cards[i].number) == 1;
    }
  }

  // ---------------------------------------------------------------------------
  // The puzzle's sample: six cards with 4, 2, 2, 1, 0 and 0 matches

  /** The sample's cards are numbered 1 to 6 and have these many matches. */
  predicate SampleCards(cards: seq<Card>)
  {
    |cards| == 6 &&
    forall i :: 0 <= i < 6 ==> cards[i].number == i + 1 && |cards[i].matchingNums| == [4, 2, 2, 1, 0, 0][i]
  }

  /** Their scores are 8, 2, 2, 1, 0 and 0: 13 points. */
  lemma SamplePart1(cards: seq<Card>)
    requires SampleCards(cards)
    requires forall i :: 0 <= i < |cards| ==> cards[i].score == Score(|cards[i].matchingNums|)
    ensures Sum(Scores(cards)) == 13
  {
    var s := Scores(cards);
    assert s[0] == 8 && s[1] == 2 && s[2] == 2 && s[3] == 1 && s[4] == 0 && s[5] == 0;
    assert Sum(s[..1]) == 8 by { assert s[..1][..0] == []; }
    assert Sum(s[..2]) == 10 by { assert s[..2][..1] == s[..1]; }
    assert Sum(s[..3]) == 12 by { assert s[..3][..2] == s[..2]; }
    assert Sum(s[..4]) == 13 by { assert s[..4][..3] == s[..3]; }
    assert Sum(s[..5]) == 13 by { assert s[..5][..4] == s[..4]; }
    assert s[..6] == s;
  }

  /** With every count at 1, the total is the number of keys. */
  lemma InitVaultTotal(cards: seq<Card>)
    ensures InitVault(cards).Total() == |InitVault(cards).keys|
  {
    var v := InitVault(cards);
    InitVaultCounts(cards);
    var vs := v.Values();
    forall i | 0 <= i < |vs| ensures vs[i] == 1 {
      assert v.keys[i] in v.counts;
    }
    SumOnes(vs);
  }

  lemma {:induction false} SumOnes(xs: seq<int>)
    requires forall i :: 0 <= i < |xs| ==> xs[i] == 1
    ensures Sum(xs) == |xs|
    decreases |xs|
  {
    if xs != [] {
      SumOnes(xs[..|xs| - 1]);
    }
  }

  /** With distinct card numbers, the first loop makes one key per card, in card order. */
  lemma {:induction false} InitVaultDistinct(cards: seq<Card>)
    requires forall i, j :: 0 <= i < j < |cards| ==> cards[i].number != cards[j].number
    ensures |InitVault(cards).keys| == |cards|
    ensures forall i :: 0 <= i < |cards| ==> InitVault(cards).keys[i] == cards[i].number
    decreases |cards|
  {
    if cards != [] {
      var init := cards[..|cards| - 1];
      InitVaultDistinct(init);
      InitVaultCounts(init);
      var last := cards[|cards| - 1].number;
      forall i | 0 <= i < |init| ensures init[i].number != last {
        assert cards[i].number == init[i].number;
      }
    }
  }

  /**
   * Cards 2 to 5 win 1 copy each from card 1, cards 3 and 4 win 2 from card 2,
   * cards 4 and 5 win 4 from card 3, card 5 wins 8 from card 4: 30 cards in all.
   */
  lemma SamplePart2(cards: seq<Card>)
    requires SampleCards(cards)
    ensures CardsHeld(cards) == 30
  {
    var v0 := InitVault(cards);
    InitVaultValid(cards);
    SampleInit(cards);
    assert cards[0].number == 1 && |cards[0].matchingNums| == 4;
    var v1 := CardStep(v0, cards[0]);
    CardStepAt(v0, cards[0], 3);
    CardStepAt(v0, cards[0], 4);
    CardStepAt(v0, cards[0], 2);
    assert v1.Total() == 10 && v1.Lookup(2) == 2 && v1.Lookup(3) == 2 && v1.Lookup(4) == 2;
    assert cards[1].number == 2 && |cards[1].matchingNums| == 2;
    var v2 := CardStep(v1, cards[1]);
    CardStepAt(v1, cards[1], 4);
    CardStepAt(v1, cards[1], 3);
    assert v2.Total() == 14 && v2.Lookup(3) == 4 && v2.Lookup(4) == 4;
    assert cards[2].number == 3 && |cards[2].matchingNums| == 2;
    var v3 := CardStep(v2, cards[2]);
    CardStepAt(v2, cards[2], 4);
    assert v3.Total() == 22 && v3.Lookup(4) == 8;
    assert cards[3].number == 4 && |cards[3].matchingNums| == 1;
    var v4 := CardStep(v3, cards[3]);
    CardStepAt(v3, cards[3], 5);
    assert v4.Total() == 30;
    SampleCascade(v0, cards);
    assert CardStep(CardStep(v4, cards[4]), cards[5]) == v4;
  }

  /** CardStepEffect at a single card number j. */
  lemma CardStepAt(w: Vault, card: Card, j: int)
    requires w.Valid()
    ensures CardStep(w, card).Valid()
    ensures CardStep(w, card).Total() == w.Total() + |card.matchingNums| * w.Lookup(card.number)
    ensures CardStep(w, card).Lookup(j) ==
      w.Lookup(j) + if card.number < j <= card.number + |card.matchingNums| then w.Lookup(card.number) else 0
  {
    CardStepEffect(w, card);
  }

  /** The cascade over six cards is six card steps in order. */
  lemma SampleCascade(v: Vault, cards: seq<Card>)
    requires |cards| == 6
    ensures Cascade(v, cards) ==
      CardStep(CardStep(CardStep(CardStep(CardStep(CardStep(v, cards[0]), cards[1]), cards[2]), cards[3]), cards[4]), cards[5])
  {
    assert cards[..0] == [];
    CascadeStep(v, cards, 0);
    var w1 := CardStep(v, cards[0]);
    assert Cascade(v, cards[..1]) == w1;
    CascadeStep(v, cards, 1);
    var w2 := CardStep(w1, cards[1]);
    assert Cascade(v, cards[..2]) == w2;
    CascadeStep(v, cards, 2);
    var w3 := CardStep(w2, cards[2]);
    assert Cascade(v, cards[..3]) == w3;
    CascadeStep(v, cards, 3);
    var w4 := CardStep(w3, cards[3]);
    assert Cascade(v, cards[..4]) == w4;
    CascadeStep(v, cards, 4);
    var w5 := CardStep(w4, cards[4]);
    assert Cascade(v, cards[..5]) == w5;
    CascadeStep(v, cards, 5);
    assert cards[..6] == cards;
  }

  /** Before the second loop, the sample's six cards are held once each. */
  lemma SampleInit(cards: seq<Card>)
    requires SampleCards(cards)
    ensures InitVault(cards).Total() == 6
    ensures forall j :: 1 <= j <= 6 ==> InitVault(cards).Lookup(j) == 1
  {
    InitVaultDistinct(cards);
    InitVaultTotal(cards);
    InitVaultCounts(cards);
    forall j | 1 <= j <= 6 ensures InitVault(cards).Lookup(j) == 1 {
      assert cards[j - 1].number == j;
    }
  }
}
