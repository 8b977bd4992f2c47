/**
 * The hand scorer: card points (J, Q, K count 10, an ace 11, a numeric card
 * its number), then one ace after another is counted as 1 instead of 11
 * while the total is over 21.
 */
module Scoring {
  import opened Cards

  /** The values whose label is a number, 2 to 10. */
  predicate IsNumeric(v: Value) {
    v != Jack && v != Queen && v != King && v != Ace
  }

  /** The number a numeric value's label reads as. */
  function Pips(v: Value): (n: nat)
    requires IsNumeric(v)
    ensures 2 <= n <= 10
  {
    match v
    case Two => 2 case Three => 3 case Four => 4 case Five => 5
    case Six => 6 case Seven => 7 case Eight => 8 case Nine => 9
    case Ten => 10
  }

  /** The points a card adds before any ace is reduced: an ace counts 11. */
  function CardPoints(v: Value): (n: nat)
    ensures n == if v == Ace then 11 else if IsNumeric(v) then Pips(v) else 10
  {
    if v == Jack || v == Queen || v == King then 10
    else if v == Ace then 11
    else Pips(v)
  }

  /** The points of a card with an ace counted as 1. */
  function HardPoints(v: Value): (n: nat)
    ensures 1 <= n <= 10
    ensures n == CardPoints(v) - if v == Ace then 10 else 0
  {
    if v == Ace then 1 else CardPoints(v)
  }

  /** A card's points with an ace counted as 1. */
  function CardHardPoints(c: Card): nat {
    HardPoints(c.value)
  }

  /** 1 for an ace, 0 for any other card. */
  function CardAce(c: Card): nat {
    if c.value == Ace then 1 else 0
  }

  /** The sum of f over the cards of a hand. */
  function SumOf(hand: seq<Card>, f: Card -> nat): nat {
    if hand == [] then 0 else SumOf(hand[..|hand| - 1], f) + f(hand[|hand| - 1])
  }

  /** The hand's total with every ace counted as 1. */
  function HardTotal(hand: seq<Card>): nat {
    SumOf(hand, CardHardPoints)
  }

  /** The number of aces in the hand. */
  function AceCount(hand: seq<Card>): nat {
    SumOf(hand, CardAce)
  }

  /**
   * The score of a hand: its hard total, plus 10 when the hand holds an ace
   * that can be counted as 11 without going over 21. Two aces can never both
   * count 11 (that alone is 22), so this is the largest total of the form
   * hard + 10 * k, k aces counted high, that stays at most 21 (see
   * ScoreIsBestTotal); over 21 only when the hard total already is.
   */
  function Score(hand: seq<Card>): (r: nat)
    ensures r == HardTotal(hand) || (AceCount(hand) > 0 && r == HardTotal(hand) + 10)
    ensures r > 21 ==> r == HardTotal(hand)
  {
    if AceCount(hand) > 0 && HardTotal(hand) + 10 <= 21 then HardTotal(hand) + 10 else HardTotal(hand)
  }

  /** Appending one card adds its f value to the sum. */
  lemma SumOfAppend(hand: seq<Card>, c: Card, f: Card -> nat)
    ensures SumOf(hand + [c], f) == SumOf(hand, f) + f(c)
  {
    assert (hand + [c])[..|hand|] == hand;
  }

  /** The sum over a concatenation is the sum of the sums. */
  lemma {:induction false} SumOfConcat(a: seq<Card>, b: seq<Card>, f: Card -> nat)
    ensures SumOf(a + b, f) == SumOf(a, f) + SumOf(b, f)
    decreases |b|
  {
    if b == [] {
      assert a + b == a;
    } else {
      var n := |b| - 1;
      assert a + b == (a + b[..n]) + [b[n]];
      assert b == b[..n] + [b[n]];
      SumOfAppend(a + b[..n], b[n], f);
      SumOfAppend(b[..n], b[n], f);
      SumOfConcat(a, b[..n], f);
    }
  }

  /** Reordering a hand does not change any sum over it. */
  lemma {:induction false} SumOfPermutation(a: seq<Card>, b: seq<Card>, f: Card -> nat)
    requires multiset(a) == multiset(b)
    ensures SumOf(a, f) == SumOf(b, f)
    decreases |a|
  {
    if a == [] {
      assert |b| == |multiset(b)| == 0;
    } else {
      var n := |a| - 1;
      var x := a[n];
      assert a == a[..n] + [x];
      assert x in multiset(b);
      var i :| 0 <= i < |b| && b[i] == x;
      assert b == b[..i] + [x] + b[i + 1..];
      var rest := b[..i] + b[i + 1..];
      assert multiset(b) == multiset(rest) + multiset{x};
      assert multiset(rest) == multiset(b) - multiset{x};
      assert multiset(a[..n]) == multiset(a) - multiset{x};
      SumOfPermutation(a[..n], rest, f);
      SumOfConcat(b[..i] + [x], b[i + 1..], f);
      SumOfAppend(b[..i], x, f);
      SumOfConcat(b[..i], b[i + 1..], f);
    }
  }

  /** Every ace adds at least 1 to the hard total. */
  lemma {:induction false} AceCountBound(hand: seq<Card>)
    ensures AceCount(hand) <= HardTotal(hand)
  {
    if hand != [] {
      var n := |hand| - 1;
      assert hand == hand[..n] + [hand[n]];
      AppendTotals(hand[..n], hand[n]);
      AceCountBound(hand[..n]);
    }
  }

  /**
   * The score is hard + 10 * k for some number k of aces counted as 11, the
   * largest such total that is at most 21, and it is over 21 only when
   * every such total is.
   */
  lemma ScoreIsBestTotal(hand: seq<Card>)
    ensures exists k :: 0 <= k <= AceCount(hand) && Score(hand) == HardTotal(hand) + 10 * k
    ensures forall k :: 0 <= k <= AceCount(hand) && HardTotal(hand) + 10 * k <= 21 ==>
              HardTotal(hand) + 10 * k <= Score(hand)
    ensures Score(hand) > 21 ==> forall k :: 0 <= k <= AceCount(hand) ==> HardTotal(hand) + 10 * k > 21
  {
    AceCountBound(hand);
    if Score(hand) == HardTotal(hand) {
      assert HardTotal(hand) + 10 * 0 == Score(hand);
    } else {
      assert HardTotal(hand) + 10 * 1 == Score(hand);
    }
  }

  /** The score depends on which cards are in the hand, not on their order. */
  lemma ScoreOrderIndependent(a: seq<Card>, b: seq<Card>)
    requires multiset(a) == multiset(b)
    ensures Score(a) == Score(b)
  {
    SumOfPermutation(a, b, CardHardPoints);
    SumOfPermutation(a, b, CardAce);
  }

  /** Every card is worth at least one point, so a hand has at most as many cards as its hard total. */
  lemma {:induction false} HandSizeBound(hand: seq<Card>)
    ensures |hand| <= HardTotal(hand) <= Score(hand)
  {
    if hand != [] {
      var n := |hand| - 1;
      assert hand == hand[..n] + [hand[n]];
      SumOfAppend(hand[..n], hand[n], CardHardPoints);
      HandSizeBound(hand[..n]);
    }
  }

  /** Totals of a two-card hand. */
  lemma TwoCardTotals(a: Card, b: Card)
    ensures HardTotal([a, b]) == HardPoints(a.value) + HardPoints(b.value)
    ensures AceCount([a, b]) == (if a.value == Ace then 1 else 0) + (if b.value == Ace then 1 else 0)
  {
    SumOfAppend([a], b, CardHardPoints);
    SumOfAppend([a], b, CardAce);
    SumOfAppend([], a, CardHardPoints);
    SumOfAppend([], a, CardAce);
    assert [a] + [b] == [a, b];
    assert [] + [a] == [a];
  }

  /** No two-card hand is a bust: two aces score 12, any other pair at most 21. */
  lemma TwoCardHandNotBust(hand: seq<Card>)
    requires |hand| == 2
    ensures Score(hand) <= 21
  {
    assert hand == [hand[0], hand[1]];
    TwoCardTotals(hand[0], hand[1]);
  }

  /** Totals of a hand extended by one card. */
  lemma AppendTotals(hand: seq<Card>, c: Card)
    ensures HardTotal(hand + [c]) == HardTotal(hand) + HardPoints(c.value)
    ensures AceCount(hand + [c]) == AceCount(hand) + if c.value == Ace then 1 else 0
  {
    SumOfAppend(hand, c, CardHardPoints);
    SumOfAppend(hand, c, CardAce);
  }

  /** Worked scores: A is 11, A A is 12 (one ace counted as 1), A K is 21. */
  lemma ScoreExamples()
    ensures Score([Card(Hearts, Ace)]) == 11
    ensures Score([Card(Hearts, Ace), Card(Spades, Ace)]) == 12
    ensures Score([Card(Hearts, Ace), Card(Clubs, King)]) == 21
  {
    AppendTotals([], Card(Hearts, Ace));
    assert [] + [Card(Hearts, Ace)] == [Card(Hearts, Ace)];
    TwoCardTotals(Card(Hearts, Ace), Card(Spades, Ace));
    TwoCardTotals(Card(Hearts, Ace), Card(Clubs, King));
  }

  /** Worked three-card scores: A A 9 is 21, K Q 2 is a bust at 22. */
  lemma ThreeCardExamples()
    ensures Score([Card(Hearts, Ace), Card(Spades, Ace), Card(Diamonds, Nine)]) == 21
    ensures Score([Card(Hearts, King), Card(Spades, Queen), Card(Clubs, Two)]) == 22
  {
    var aces, picture := [Card(Hearts, Ace), Card(Spades, Ace)], [Card(Hearts, King), Card(Spades, Queen)];
    TwoCardTotals(aces[0], aces[1]);
    TwoCardTotals(picture[0], picture[1]);
    AppendTotals(aces, Card(Diamonds, Nine));
    assert aces + [Card(Diamonds, Nine)] == [Card(Hearts, Ace), Card(Spades, Ace), Card(Diamonds, Nine)];
    AppendTotals(picture, Card(Clubs, Two));
    assert picture + [Card(Clubs, Two)] == [Card(Hearts, King), Card(Spades, Queen), Card(Clubs, Two)];
  }

  /**
   * The scorer as the source runs it: one loop adds up the card points and
   * counts the aces, a second loop counts aces as 1 while the total is over 21.
   */
  method CalculateScore(hand: seq<Card>) returns (score: int)
    ensures score == Score(hand)
  {
    score := 0;
    var aceCount := 0;
    for i := 0 to |hand|
      invariant score == HardTotal(hand[..i]) + 10 * AceCount(hand[..i])
      invariant aceCount == AceCount(hand[..i])
    {
      var card := hand[i];
      if card.value == Jack || card.value == Queen || card.value == King {
        score := score + 10;
      } else if card.value == Ace {
        score := score + 11;
        aceCount := aceCount + 1;
      } else {
        score := score + Pips(card.value);
      }
      assert hand[..i + 1] == hand[..i] + [card];
      SumOfAppend(hand[..i], card, CardHardPoints);
      SumOfAppend(hand[..i], card, CardAce);
    }
    assert hand[..|hand|] == hand;
    AceCountBound(hand);
    while score > 21 && aceCount > 0
      invariant 0 <= aceCount <= AceCount(hand)
      invariant score == HardTotal(hand) + 10 * aceCount
      invariant aceCount < AceCount(hand) ==> score + 10 > 21
    {
      score := score - 10;
      aceCount := aceCount - 1;
    }
  }
}
