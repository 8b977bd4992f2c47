/**
 * The deck as a value: the base ordering built by the nested loops over
 * suits and values, the Fisher-Yates shuffle driven by caller-supplied
 * choices, and the order in which cards come off the top (the end).
 */
module Deck {
  import opened Cards

  /** The thirteen cards of one suit, in value order. */
  function SuitRow(s: Suit): (r: seq<Card>)
    ensures |r| == |VALUES|
  {
    seq(|VALUES|, v requires 0 <= v < |VALUES| => Card(s, VALUES[v]))
  }

  /** The rows of the given suits, one after another. */
  function Rows(suits: seq<Suit>): (r: seq<Card>)
    ensures |r| == |VALUES| * |suits|
    decreases |suits|
  {
    if suits == [] then [] else Rows(suits[..|suits| - 1]) + SuitRow(suits[|suits| - 1])
  }

  /** The 4 x 13 cartesian product, suit-major, in the order the deck is built. */
  function FullDeck(): (d: seq<Card>)
    ensures |d| == |SUITS| * |VALUES| == 52
  {
    seq(52, i requires 0 <= i < 52 => Card(SUITS[i / 13], VALUES[i % 13]))
  }

  /** Row i of the rows of `suits` holds the i-th suit with every value in order. */
  lemma {:induction false} RowsAt(suits: seq<Suit>, i: nat, v: nat)
    requires i < |suits| && v < |VALUES|
    ensures 13 * i + v < |Rows(suits)|
    ensures Rows(suits)[13 * i + v] == Card(suits[i], VALUES[v])
    decreases |suits|
  {
    var n := |suits| - 1;
    if i < n {
      RowsAt(suits[..n], i, v);
      assert suits[..n][i] == suits[i];
    }
  }

  /** Position 13 * s + v of the base deck holds the s-th suit with the v-th value. */
  lemma FullDeckAt(s: nat, v: nat)
    requires s < |SUITS| && v < |VALUES|
    ensures 13 * s + v < |FullDeck()|
    ensures FullDeck()[13 * s + v] == Card(SUITS[s], VALUES[v])
  {
    assert (13 * s + v) / 13 == s && (13 * s + v) % 13 == v;
  }

  /** The base deck is the rows of the four suits, one after another. */
  lemma FullDeckIsRows()
    ensures Rows(SUITS) == FullDeck()
  {
    var r, d := Rows(SUITS), FullDeck();
    forall k | 0 <= k < |d| ensures r[k] == d[k] {
      RowsAt(SUITS, k / 13, k % 13);
      FullDeckAt(k / 13, k % 13);
    }
  }

  /** The base deck holds every one of the 52 cards, each exactly once. */
  lemma FullDeckIsProduct()
    ensures Distinct(FullDeck())
    ensures forall c: Card :: c in FullDeck()
  {
    EnumerationsComplete();
    var d := FullDeck();
    forall i, j | 0 <= i < j < |d| ensures d[i] != d[j] {
      if i / 13 != j / 13 {
        assert d[i].suit != d[j].suit;
      } else {
        assert d[i].value != d[j].value;
      }
    }
    forall c: Card ensures c in d {
      FullDeckAt(SuitIndex(c.suit), ValueIndex(c.value));
    }
  }

  /** A sequence without repetitions holds each element at most once. */
  lemma {:induction false} DistinctMultiplicity<T>(s: seq<T>, x: T)
    requires Distinct(s)
    ensures multiset(s)[x] == if x in s then 1 else 0
  {
    if s != [] {
      var n := |s| - 1;
      assert s == s[..n] + [s[n]];
      assert Distinct(s[..n]);
      DistinctMultiplicity(s[..n], x);
      assert s[n] !in s[..n];
    }
  }

  /** Counted as a multiset, the base deck has every card with multiplicity one. */
  lemma FullDeckOnceEach(c: Card)
    ensures multiset(FullDeck())[c] == 1
  {
    FullDeckIsProduct();
    DistinctMultiplicity(FullDeck(), c);
  }

  /**
   * The random source: `choices[i]` is the index that position i is swapped
   * with, for every i from the last index down to 1 (choices[0] is unused).
   */
  predicate ValidChoices(choices: seq<nat>, n: nat) {
    |choices| == n && forall i :: 0 < i < n ==> choices[i] <= i
  }

  /** Exchange the elements at positions i and j. */
  function Swap<T>(s: seq<T>, i: nat, j: nat): (r: seq<T>)
    requires i < |s| && j < |s|
    ensures |r| == |s| && r[i] == s[j] && r[j] == s[i]
    ensures forall k :: 0 <= k < |s| && k != i && k != j ==> r[k] == s[k]
  {
    s[i := s[j]][j := s[i]]
  }

  /** The swap steps for positions i, i - 1, ..., 1, applied to s. */
  function ShuffleSteps<T>(s: seq<T>, choices: seq<nat>, i: int): (r: seq<T>)
    requires ValidChoices(choices, |s|) && i < |s|
    ensures |r| == |s|
    decreases i
  {
    if i <= 0 then s else ShuffleSteps(Swap(s, i, choices[i]), choices, i - 1)
  }

  /** The Fisher-Yates shuffle of s under the given choices. */
  function Shuffled<T>(s: seq<T>, choices: seq<nat>): (r: seq<T>)
    requires ValidChoices(choices, |s|)
    ensures |r| == |s|
  {
    ShuffleSteps(s, choices, |s| - 1)
  }

  /** Every swap step keeps the same cards, so any run of them does too. */
  lemma {:induction false} ShuffleStepsPermutes<T>(s: seq<T>, choices: seq<nat>, i: int)
    requires ValidChoices(choices, |s|) && i < |s|
    ensures |ShuffleSteps(s, choices, i)| == |s|
    ensures multiset(ShuffleSteps(s, choices, i)) == multiset(s)
    decreases i
  {
    if i > 0 {
      var t := Swap(s, i, choices[i]);
      assert multiset(t) == multiset(s);
      ShuffleStepsPermutes(t, choices, i - 1);
    }
  }

  /** Whatever the choices, the shuffle is a permutation of its input. */
  lemma ShuffledPermutes<T>(s: seq<T>, choices: seq<nat>)
    requires ValidChoices(choices, |s|)
    ensures |Shuffled(s, choices)| == |s|
    ensures multiset(Shuffled(s, choices)) == multiset(s)
  {
    ShuffleStepsPermutes(s, choices, |s| - 1);
  }

  /** Moving the top card of the deck onto a hand keeps the same cards in play. */
  lemma MoveCard(deck: seq<Card>, card: Card, hand: seq<Card>)
    ensures multiset(deck + [card]) + multiset(hand) == multiset(deck) + multiset(hand + [card])
  {
  }

  /**
   * Whenever the deck and the hands hold the base deck's cards, every card
   * is in exactly one place and only once.
   */
  lemma NoCardTwice(deck: seq<Card>, playerHand: seq<Card>, dealerHand: seq<Card>, c: Card)
    requires multiset(deck) + multiset(playerHand) + multiset(dealerHand) == multiset(FullDeck())
    ensures multiset(deck)[c] + multiset(playerHand)[c] + multiset(dealerHand)[c] == 1
  {
    FullDeckOnceEach(c);
    assert (multiset(deck) + multiset(playerHand) + multiset(dealerHand))[c] == 1;
  }

  /**
   * A shuffled full deck has 52 cards, and after the four opening deals the
   * rest of the deck and the two hands still hold exactly its cards.
   */
  lemma OpeningDealKeepsCards(deck: seq<Card>)
    requires multiset(deck) == multiset(FullDeck())
    ensures |deck| == 52
    ensures multiset(deck[..48]) + multiset([deck[51], deck[49]]) + multiset([deck[50], deck[48]])
      == multiset(FullDeck())
  {
    assert |deck| == |multiset(deck)| == |multiset(FullDeck())| == 52;
    TopFourCards(deck);
  }

  /** Taking the top four cards as two pairs, alternately, leaves the same cards in play. */
  lemma TopFourCards(deck: seq<Card>)
    requires |deck| >= 4
    ensures var n := |deck|;
      multiset(deck[..n - 4]) + multiset([deck[n - 1], deck[n - 3]]) + multiset([deck[n - 2], deck[n - 4]])
      == multiset(deck)
  {
    var n := |deck|;
    var rest, a, b, c, e := deck[..n - 4], deck[n - 4], deck[n - 3], deck[n - 2], deck[n - 1];
    assert deck == rest + [a, b, c, e];
    DealtPairs(a, b, c, e);
  }

  /** Four cards dealt alternately into two pairs are the same four cards. */
  lemma DealtPairs(a: Card, b: Card, c: Card, e: Card)
    ensures multiset([e, b]) + multiset([c, a]) == multiset([a, b, c, e])
  {
  }

  /** The first n cards popped off the top (end) of `deck`, in the order they are drawn. */
  function TopCards(deck: seq<Card>, n: nat): (r: seq<Card>)
    requires n <= |deck|
    ensures |r| == n
    ensures forall k :: 0 <= k < n ==> r[k] == deck[|deck| - 1 - k]
  {
    seq(n, k requires 0 <= k < n => deck[|deck| - 1 - k])
  }

  /**
   * Popping reads TopCards off one card at a time: the first n + 1 cards
   * popped are the last card, then the first n popped from what remains.
   */
  lemma TopCardsPopFirst(deck: seq<Card>, n: nat)
    requires n < |deck|
    ensures TopCards(deck, n + 1) == [deck[|deck| - 1]] + TopCards(deck[..|deck| - 1], n)
  {
  }

  /** Moving the top n cards of the deck onto a hand keeps the same cards in play. */
  lemma {:induction false} DrawnKeepsCards(deck: seq<Card>, hand: seq<Card>, n: nat)
    requires n <= |deck|
    ensures multiset(deck[..|deck| - n]) + multiset(hand + TopCards(deck, n)) == multiset(deck) + multiset(hand)
    decreases n
  {
    if n == 0 {
      assert deck[..|deck|] == deck;
      assert hand + TopCards(deck, 0) == hand;
    } else {
      DrawnKeepsCards(deck, hand, n - 1);
      var m := |deck| - n;
      assert deck[..m + 1] == deck[..m] + [deck[m]];
      assert hand + TopCards(deck, n) == (hand + TopCards(deck, n - 1)) + [deck[m]];
    }
  }

  /**
   * After n cards have come off the top of `start`, popping one more from
   * what remains leaves the next shorter prefix and extends the drawn cards.
   */
  lemma DrawStep(start: seq<Card>, n: nat, deck: seq<Card>, card: Card)
    requires n < |start| && start[..|start| - n] == deck + [card]
    ensures deck == start[..|start| - (n + 1)]
    ensures TopCards(start, n + 1) == TopCards(start, n) + [card]
  {
    assert card == start[|start| - 1 - n];
  }

  /** The deck and the hands hold 52 cards between them whenever they hold the base deck's cards. */
  lemma CardsInPlay(deck: seq<Card>, playerHand: seq<Card>, dealerHand: seq<Card>)
    requires multiset(deck) + multiset(playerHand) + multiset(dealerHand) == multiset(FullDeck())
    ensures |deck| + |playerHand| + |dealerHand| == 52
  {
    assert |multiset(FullDeck())| == 52;
  }
}
