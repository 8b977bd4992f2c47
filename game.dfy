/**
 * The game session: the deck, the two hands, the scores kept in step with
 * them, and the gameOver and dealerRevealed flags, driven by reset, Hit and
 * Stand, with the game resolved by an ordered chain of conditions.
 */
module Blackjack {
  import opened Cards
  import opened Deck
  import opened Scoring

  datatype Option<T> = None | Some(value: T)

  /** The messages that end a game. */
  datatype Outcome =
    | YouBust      // the player is over 21: the dealer wins
    | DealerBusts  // the dealer is over 21: the player wins
    | YouWin       // both stand, the player is higher
    | DealerWins   // both stand, the dealer is higher
    | Tie          // both stand on the same score

  /** Which hand a card is dealt to. */
  datatype Seat = Player | Dealer

  /**
   * The resolution chain, first match wins: a player bust, then a dealer
   * bust, then, once the dealer is revealed and on 17 or more, a comparison
   * of the scores. None when no condition holds yet.
   */
  function Resolution(playerScore: int, dealerScore: int, dealerRevealed: bool): (r: Option<Outcome>)
    ensures r == Some(YouBust) <==> playerScore > 21
    ensures r == Some(DealerBusts) <==> playerScore <= 21 && dealerScore > 21
    ensures r == Some(YouWin) <==>
      playerScore <= 21 && dealerScore <= 21 && dealerRevealed && dealerScore >= 17 && playerScore > dealerScore
    ensures r == Some(DealerWins) <==>
      playerScore <= 21 && dealerScore <= 21 && dealerRevealed && dealerScore >= 17 && playerScore < dealerScore
    ensures r == Some(Tie) <==>
      playerScore <= 21 && dealerScore <= 21 && dealerRevealed && dealerScore >= 17 && playerScore == dealerScore
    ensures r == None <==>
      playerScore <= 21 && dealerScore <= 21 && !(dealerRevealed && dealerScore >= 17)
  {
    if playerScore > 21 then Some(YouBust)
    else if dealerScore > 21 then Some(DealerBusts)
    else if dealerRevealed && dealerScore >= 17 then
      if playerScore > dealerScore then Some(YouWin)
      else if playerScore < dealerScore then Some(DealerWins)
      else Some(Tie)
    else None
  }

  /**
   * Once the dealer is revealed and on 17 or more, some condition of the
   * chain always holds, and the player wins exactly when not bust and either
   * the dealer is bust or the player is higher.
   */
  lemma RevealedAt17Resolves(playerScore: int, dealerScore: int)
    requires dealerScore >= 17
    ensures Resolution(playerScore, dealerScore, true).Some?
    ensures Resolution(playerScore, dealerScore, true) in {Some(DealerBusts), Some(YouWin)} <==>
      playerScore <= 21 && (dealerScore > 21 || playerScore > dealerScore)
  {
  }

  /** Each draw was made from a hand scoring below 17. */
  ghost predicate DrewWhileBelow17(hand: seq<Card>, drawn: seq<Card>) {
    forall m :: 0 <= m < |drawn| ==> Score(hand + drawn[..m]) < 17
  }

  /** Drawing once more from a hand below 17 keeps the dealer's policy. */
  lemma DrewWhileBelow17Step(hand: seq<Card>, drawn: seq<Card>, card: Card)
    requires DrewWhileBelow17(hand, drawn) && Score(hand + drawn) < 17
    ensures DrewWhileBelow17(hand, drawn + [card])
  {
    forall m | 0 <= m < |drawn| + 1 ensures Score(hand + (drawn + [card])[..m]) < 17 {
      if m < |drawn| {
        assert (drawn + [card])[..m] == drawn[..m];
      } else {
        assert (drawn + [card])[..m] == drawn;
      }
    }
  }

  /**
   * From hand0 and deck0, the dealer took the top n cards, in the order they
   * are popped, each while below 17, leaving the rest of the deck.
   */
  ghost predicate DealerDrew(hand0: seq<Card>, deck0: seq<Card>, hand: seq<Card>, deck: seq<Card>) {
    var n := |hand| - |hand0|;
    && 0 <= n <= |deck0|
    && hand == hand0 + TopCards(deck0, n)
    && deck == deck0[..|deck0| - n]
    && DrewWhileBelow17(hand0, TopCards(deck0, n))
  }

  /** Whatever the dealer drew came off the deck, so the cards in play are unchanged. */
  lemma DealerDrewKeepsCards(hand0: seq<Card>, deck0: seq<Card>, hand: seq<Card>, deck: seq<Card>, playerHand: seq<Card>)
    requires DealerDrew(hand0, deck0, hand, deck)
    ensures multiset(deck) + multiset(playerHand) + multiset(hand)
      == multiset(deck0) + multiset(playerHand) + multiset(hand0)
  {
    DrawnKeepsCards(deck0, hand0, |hand| - |hand0|);
    forall c ensures multiset(deck)[c] + multiset(hand)[c] == multiset(deck0)[c] + multiset(hand0)[c] {
      assert (multiset(deck) + multiset(hand))[c] == (multiset(deck0) + multiset(hand0))[c];
    }
  }

  class Game {
    var deck: seq<Card>
    var playerHand: seq<Card>
    var dealerHand: seq<Card>
    var playerScore: int
    var dealerScore: int
    var gameOver: bool
    var dealerRevealed: bool
    /** The message shown, if any; set when the game is resolved. */
    var outcome: Option<Outcome>

    /** The cards in play: deck and both hands together. */
    ghost function InPlay(): multiset<Card>
      reads this`deck, this`playerHand, this`dealerHand
    {
      multiset(deck) + multiset(playerHand) + multiset(dealerHand)
    }

    /**
     * The session invariant between actions: the deck and the hands hold
     * the 52 cards; the scores are those of the hands; while the game is on,
     * the dealer is unrevealed with two cards and the player is not bust;
     * the message is shown exactly when the game is over, and it is the
     * resolution of the current scores.
     */
    ghost predicate Valid()
      reads this
    {
      && InPlay() == multiset(FullDeck())
      && playerScore == Score(playerHand)
      && dealerScore == Score(dealerHand)
      && (!gameOver ==> !dealerRevealed && |dealerHand| == 2 && playerScore <= 21)
      && (gameOver <==> outcome.Some?)
      && (outcome.Some? ==> outcome == Resolution(playerScore, dealerScore, dealerRevealed))
    }

    /** The initial bindings, then the first reset. */
    constructor (choices: seq<nat>)
      requires ValidChoices(choices, 52)
      ensures Valid()
      ensures !gameOver && !dealerRevealed && outcome == None
      ensures var d := Shuffled(FullDeck(), choices);
        |d| == 52 && playerHand == [d[51], d[49]] && dealerHand == [d[50], d[48]] && deck == d[..48]
    {
      deck, playerHand, dealerHand := [], [], [];
      playerScore, dealerScore := 0, 0;
      gameOver, dealerRevealed := false, false;
      outcome := None;
      new;
      ResetGame(choices);
    }

    /** Build the base deck suit by suit, value by value, then shuffle it. */
    method CreateDeck(choices: seq<nat>)
      requires ValidChoices(choices, 52)
      modifies this`deck
      ensures deck == Shuffled(FullDeck(), choices)
    {
      BuildDeck();
      ShuffleDeck(choices);
    }

    /** The nested loops over suits and values that fill the deck in base order. */
    method BuildDeck()
      modifies this`deck
      ensures deck == FullDeck()
    {
      deck := [];
      for s := 0 to |SUITS|
        invariant deck == Rows(SUITS[..s])
      {
        for v := 0 to |VALUES|
          invariant deck == Rows(SUITS[..s]) + SuitRow(SUITS[s])[..v]
        {
          assert SuitRow(SUITS[s])[..v + 1] == SuitRow(SUITS[s])[..v] + [Card(SUITS[s], VALUES[v])];
          deck := deck + [Card(SUITS[s], VALUES[v])];
        }
        assert SUITS[..s + 1][..s] == SUITS[..s];
      }
      assert SUITS[..|SUITS|] == SUITS;
      FullDeckIsRows();
    }

    /** Fisher-Yates in place: for i from the last index down to 1, swap positions i and choices[i]. */
    method ShuffleDeck(choices: seq<nat>)
      requires ValidChoices(choices, |deck|)
      modifies this`deck
      ensures deck == Shuffled(old(deck), choices)
    {
      var i := |deck| - 1;
      while i > 0
        invariant -1 <= i < |deck| == |old(deck)|
        invariant ValidChoices(choices, |deck|)
        invariant ShuffleSteps(deck, choices, i) == Shuffled(old(deck), choices)
        decreases i
      {
        var j := choices[i];
        deck := deck[i := deck[j]][j := deck[i]];
        i := i - 1;
      }
    }

    /** Pop the top (last) card of the deck and push it onto the seat's hand. */
    method DealCard(seat: Seat) returns (card: Card)
      requires |deck| > 0
      modifies this`deck, this`playerHand, this`dealerHand
      ensures old(deck) == deck + [card]
      ensures seat == Player ==> playerHand == old(playerHand) + [card] && dealerHand == old(dealerHand)
      ensures seat == Dealer ==> dealerHand == old(dealerHand) + [card] && playerHand == old(playerHand)
    {
      card := deck[|deck| - 1];
      deck := deck[..|deck| - 1];
      if seat == Player {
        playerHand := playerHand + [card];
      } else {
        dealerHand := dealerHand + [card];
      }
    }

    /** Recompute both scores from the hands. */
    method UpdateScores()
      modifies this`playerScore, this`dealerScore
      ensures playerScore == Score(playerHand) && dealerScore == Score(dealerHand)
    {
      playerScore := CalculateScore(playerHand);
      dealerScore := CalculateScore(dealerHand);
    }

    /** A fresh deck, empty hands, both flags down, then the opening deal. */
    method ResetGame(choices: seq<nat>)
      requires ValidChoices(choices, 52)
      modifies this
      ensures Valid()
      ensures !gameOver && !dealerRevealed && outcome == None
      ensures var d := Shuffled(FullDeck(), choices);
        |d| == 52 && playerHand == [d[51], d[49]] && dealerHand == [d[50], d[48]] && deck == d[..48]
    {
      deck, playerHand, dealerHand := [], [], [];
      playerScore, dealerScore := 0, 0;
      gameOver, dealerRevealed := false, false;
      outcome := None;
      CreateDeck(choices);
      ShuffledPermutes(FullDeck(), choices);
      DealFromFullDeck();
    }

    /** StartGame on a full deck and empty hands, which sets up the invariant. */
    method DealFromFullDeck()
      requires multiset(deck) == multiset(FullDeck()) && playerHand == [] && dealerHand == []
      requires !gameOver && !dealerRevealed && outcome == None
      modifies this`deck, this`playerHand, this`dealerHand, this`playerScore, this`dealerScore
      ensures Valid()
      ensures var d := old(deck);
        |d| == 52 && playerHand == [d[51], d[49]] && dealerHand == [d[50], d[48]] && deck == d[..48]
    {
      ghost var d := deck;
      OpeningDealKeepsCards(d);
      TwoCardHandNotBust([d[51], d[49]]);
      StartGame();
      assert playerHand == [d[51], d[49]] && dealerHand == [d[50], d[48]] && deck == d[..48];
    }

    /** Deal player, dealer, player, dealer from the top of the deck, then score. */
    method StartGame()
      requires |deck| >= 4
      modifies this`deck, this`playerHand, this`dealerHand, this`playerScore, this`dealerScore
      ensures var d, n := old(deck), |old(deck)|;
        && playerHand == old(playerHand) + [d[n - 1], d[n - 3]]
        && dealerHand == old(dealerHand) + [d[n - 2], d[n - 4]]
        && deck == d[..n - 4]
      ensures playerScore == Score(playerHand) && dealerScore == Score(dealerHand)
    {
      DealOpening();
      UpdateScores();
    }

    /** The four opening deals, alternating player and dealer. */
    method DealOpening()
      requires |deck| >= 4
      modifies this`deck, this`playerHand, this`dealerHand
      ensures var d, n := old(deck), |old(deck)|;
        && playerHand == old(playerHand) + [d[n - 1], d[n - 3]]
        && dealerHand == old(dealerHand) + [d[n - 2], d[n - 4]]
        && deck == d[..n - 4]
    {
      ghost var d, p, h := deck, playerHand, dealerHand;
      var first := DealCard(Player);
      var second := DealCard(Dealer);
      var third := DealCard(Player);
      var fourth := DealCard(Dealer);
      assert d == deck + [fourth] + [third] + [second] + [first];
      assert first == d[|d| - 1] && second == d[|d| - 2] && third == d[|d| - 3] && fourth == d[|d| - 4];
      assert deck == d[..|d| - 4];
      assert playerHand == p + [first] + [third] == p + [first, third];
      assert dealerHand == h + [second] + [fourth] == h + [second, fourth];
    }

    /** Show the dealer's hidden card and rescore. */
    method RevealDealerHand()
      modifies this`dealerRevealed, this`playerScore, this`dealerScore
      ensures dealerRevealed
      ensures playerScore == Score(playerHand) && dealerScore == Score(dealerHand)
    {
      dealerRevealed := true;
      UpdateScores();
    }

    /** Resolve the game when a condition of the chain holds; otherwise change nothing. */
    method CheckGameOver()
      modifies this`gameOver, this`outcome
      ensures var r := Resolution(playerScore, dealerScore, dealerRevealed);
        if r.Some? then gameOver && outcome == r
        else gameOver == old(gameOver) && outcome == old(outcome)
    {
      var r := Resolution(playerScore, dealerScore, dealerRevealed);
      if r.Some? {
        outcome := r;
        gameOver := true;
      }
    }

    /**
     * The Hit button: while the game is on, deal the top card to the player,
     * rescore, and resolve. With the dealer unrevealed on two cards, the
     * game ends exactly when the player is bust.
     */
    method Hit()
      requires Valid()
      modifies this
      ensures Valid()
      ensures old(gameOver) ==> unchanged(this)
      ensures !old(gameOver) ==>
        && |old(deck)| > 0
        && deck == old(deck[..|deck| - 1])
        && playerHand == old(playerHand) + [old(deck[|deck| - 1])]
        && dealerHand == old(dealerHand)
        && !dealerRevealed
        && gameOver == (playerScore > 21)
        && outcome == (if playerScore > 21 then Some(YouBust) else None)
    {
      if !gameOver {
        HandSizeBound(playerHand);
        CardsInPlay(deck, playerHand, dealerHand);
        ghost var hand := playerHand;
        var card := DrawAndScore(Player);
        MoveCard(deck, card, hand);
        TwoCardHandNotBust(dealerHand);
        assert Resolution(playerScore, dealerScore, false) == if playerScore > 21 then Some(YouBust) else None;
        CheckGameOver();
      }
    }

    /** Deal the top card to the seat's hand and rescore, as Hit and the dealer's loop both do. */
    method DrawAndScore(seat: Seat) returns (card: Card)
      requires |deck| > 0
      modifies this`deck, this`playerHand, this`dealerHand, this`playerScore, this`dealerScore
      ensures old(deck) == deck + [card]
      ensures seat == Player ==> playerHand == old(playerHand) + [card] && dealerHand == old(dealerHand)
      ensures seat == Dealer ==> dealerHand == old(dealerHand) + [card] && playerHand == old(playerHand)
      ensures playerScore == Score(playerHand) && dealerScore == Score(dealerHand)
      ensures seat == Dealer ==> HardTotal(dealerHand) > HardTotal(old(dealerHand))
    {
      ghost var hand := if seat == Player then playerHand else dealerHand;
      card := DealCard(seat);
      SumOfAppend(hand, card, CardHardPoints);
      UpdateScores();
    }

    /**
     * The dealer's loop at Stand: while the dealer scores below 17, deal the
     * top card to the dealer and rescore. The dealer's hand grows by the top
     * cards of the deck in the order they are popped, each drawn while the
     * dealer was below 17, until the dealer scores 17 or more.
     */
    method DealerPlays()
      requires |deck| + |playerHand| + |dealerHand| == 52
      requires playerScore == Score(playerHand) <= 21
      requires dealerScore == Score(dealerHand)
      modifies this`deck, this`playerHand, this`dealerHand, this`playerScore, this`dealerScore
      ensures playerHand == old(playerHand) && playerScore == old(playerScore)
      ensures dealerScore == Score(dealerHand) >= 17
      ensures DealerDrew(old(dealerHand), old(deck), dealerHand, deck)
    {
      ghost var deck0, hand0, drawn: seq<Card> := deck, dealerHand, [];
      while dealerScore < 17
        invariant playerHand == old(playerHand) && playerScore == old(playerScore)
        invariant dealerScore == Score(dealerHand)
        invariant |drawn| <= |deck0| && drawn == TopCards(deck0, |drawn|)
        invariant dealerHand == hand0 + drawn
        invariant deck == deck0[..|deck0| - |drawn|]
        invariant DrewWhileBelow17(hand0, drawn)
        decreases 17 - HardTotal(dealerHand)
      {
        HandSizeBound(playerHand);
        HandSizeBound(dealerHand);
        ghost var before := dealerHand;
        var card := DrawAndScore(Dealer);
        assert dealerHand == before + [card];
        DrawStep(deck0, |drawn|, deck, card);
        DrewWhileBelow17Step(hand0, drawn, card);
        drawn := drawn + [card];
      }
      assert |dealerHand| - |hand0| == |drawn|;
    }

    /**
     * The Stand button: while the game is on, reveal the dealer, let the
     * dealer play, and resolve. The game is always over afterwards.
     */
    method Stand()
      requires Valid()
      modifies this
      ensures Valid()
      ensures old(gameOver) ==> unchanged(this)
      ensures !old(gameOver) ==>
        && DealerDrew(old(dealerHand), old(deck), dealerHand, deck)
        && playerHand == old(playerHand)
        && dealerRevealed && dealerScore >= 17 && gameOver
        && outcome == Resolution(playerScore, dealerScore, true)
    {
      if !gameOver {
        CardsInPlay(deck, playerHand, dealerHand);
        ghost var deck0, hand0 := deck, dealerHand;
        RevealDealerHand();
        DealerPlays();
        DealerDrewKeepsCards(hand0, deck0, dealerHand, deck, playerHand);
        assert Resolution(playerScore, dealerScore, dealerRevealed).Some?;
        CheckGameOver();
      }
    }
  }
}
