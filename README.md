# Blackjack rules engine, modelled and verified in Dafny

This project models the rules engine of a single-player browser blackjack game. The game keeps one session:

- a deck of the 52 cards;
- the player's hand and the dealer's hand;
- the two scores, which are recomputed from the hands after every change;
- a `gameOver` flag and a `dealerRevealed` flag;
- the message shown when the game ends.

The engine works as follows:

- **Restart** builds the 4 x 13 deck suit by suit and shuffles it with Fisher-Yates. It then deals player, dealer, player, dealer from the top of the deck, which is the end of the sequence.
- **Hit** deals one card to the player.
- **Stand** reveals the dealer. The dealer then draws while scoring below 17.
- After each action an ordered chain of conditions decides whether the game is over, and with which message.

The model is split into four modules:

- `Cards` (`cards.dfy`): suits, values and cards as datatypes.
- `Deck` (`deck.dfy`): the base deck order and the shuffle, as functions over sequences. It also holds the lemmas showing that dealing keeps the same cards in play.
- `Scoring` (`scoring.dfy`): the hand score. `Score` is the specification. `CalculateScore` is the scorer's two loops, proved equal to `Score`.
- `Blackjack` (`game.dfy`): the resolution chain, plus the class `Game`.

`Game` holds the session's globals as fields. Each function of the engine that reads or writes those globals, and each button handler, is a method of `Game`. `calculateScore` only reads the hand it is given, so it is `Scoring.CalculateScore`, outside the class. They keep the invariant `Valid()`, which states:

- the deck and the two hands together hold exactly the 52 cards;
- the scores are the scores of the hands;
- while the game is on, the dealer is unrevealed with two cards and the player is not bust;
- a message is shown exactly when the game is over, and it is the resolution of the current scores.

The shuffle's random source is a parameter `choices`. At step `i`, the card at `i` is swapped with the card at `choices[i]`, for any `choices[i]` in `0..i`. Dealing is modelled with the precondition that the deck is not empty. Every dealing site discharges that precondition as follows:

- the deck and the hands hold 52 cards between them;
- a hand has at most as many cards as its hard total;
- the player is at most 21 when hitting, and the dealer is below 17 when drawing.

## Model

| member | source | states |
|---|---|---|
| Cards.EnumerationsComplete | script.js:3-4 | The suit and value arrays have 4 and 13 entries, have no repeats, and list every suit and every value. |
| Deck.SuitRow | script.js:37-39 | The cards the inner loop pushes for one suit: that suit with each value in order, 13 cards. |
| Deck.Rows | script.js:36-39 | The cards the nested loops push for a list of suits: one row per suit in turn, 13 cards per suit. |
| Deck.FullDeck | script.js:34-40 | The base deck has 4 * 13 = 52 cards. |
| Deck.RowsAt | script.js:36-39 | In the suit-major rows of any list of suits, position 13 * i + v holds suit i with value v. |
| Deck.FullDeckAt | script.js:36-39 | Position 13 * s + v of the base deck is the card of the s-th suit and the v-th value. |
| Deck.FullDeckIsRows | script.js:36-39 | The base deck equals the nested loops' output: the row of each suit in turn, values in order. |
| Deck.FullDeckIsProduct | script.js:34-40 | The base deck has no repeated card and contains every (suit, value) card. |
| Deck.FullDeckOnceEach | script.js:34-40 | Counted as a multiset, the base deck holds every card exactly once. |
| Deck.Swap | script.js:47 | A swap exchanges positions i and j and leaves every other position and the length unchanged. |
| Deck.ShuffleSteps | script.js:45-48 | The swap loop run from index i down to 1, each step swapping i with choices[i]; it keeps the length. |
| Deck.Shuffled | script.js:44-49 | The whole shuffle: the swap loop from the last index down to 1; it keeps the length. |
| Deck.ShuffleStepsPermutes | script.js:45-48 | Any run of shuffle swap steps, under any choices j in 0..i, keeps the length and the multiset of cards. |
| Deck.ShuffledPermutes | script.js:44-49 | The whole shuffle is a permutation of its input for every valid choice sequence. |
| Deck.TopCards | script.js:52 | Definition: the deck's last n cards, last first. Its contract gives the length and each position. |
| Deck.TopCardsPopFirst | script.js:52 | The first n + 1 cards popped are the top card, then the first n cards popped from the rest of the deck. |
| Deck.MoveCard | script.js:51-55 | Popping the top card and pushing it onto a hand keeps the multiset of cards in play. |
| Deck.DrawnKeepsCards | script.js:203-208 | Moving the top n cards of the deck onto a hand, one at a time, keeps the multiset of cards in play. |
| Deck.DrawStep | script.js:205 | After n pops, the next `pop` leaves the next shorter prefix of the deck, and the card it returns is the (n + 1)-th card in popping order: the n + 1 cards popped so far are the first n followed by it. |
| Deck.TopFourCards | script.js:129-132 | Dealing the top four cards alternately to two hands keeps the multiset of cards in play. |
| Deck.DealtPairs | script.js:129-132 | Four cards split alternately into two pairs are the same four cards. |
| Deck.OpeningDealKeepsCards | script.js:124-125 | A shuffled full deck has 52 cards. After the opening deal, the 48 left and the two hands hold exactly the 52 cards. |
| Deck.CardsInPlay | script.js:5-7 | When the deck and the hands hold the base deck's cards, they number 52 in total. |
| Deck.NoCardTwice | script.js:5-7 | When the deck and the hands hold the base deck's cards, each card sits in exactly one of them, once. |
| Scoring.Pips | script.js:67-68 | A numeric card's label reads as a number from 2 to 10. |
| Scoring.CardPoints | script.js:61-68 | J, Q and K count 10, an ace counts 11, and a numeric card counts its number. |
| Scoring.HardPoints | script.js:61-68 | With an ace counted as 1, every card is worth 1 to 10 points, and exactly 10 less than its points for an ace. |
| Scoring.Score | script.js:57-78 | The score is the hard total, or the hard total plus 10 when the hand has an ace. It is over 21 only when it equals the hard total. |
| Scoring.ScoreIsBestTotal | script.js:57-78 | The score is hard + 10 * k for some 0 <= k <= #aces. It is the largest such value that is at most 21. It is over 21 only when every such value is. |
| Scoring.AceCountBound | script.js:63-65 | A hand's hard total is at least its number of aces. |
| Scoring.CalculateScore | script.js:57-78 | The two loops (sum with aces at 11, then take 10 off per ace while over 21) compute exactly `Score`. |
| Scoring.ScoreOrderIndependent | script.js:60-75 | Two hands with the same cards in any order have the same score. |
| Scoring.HandSizeBound | script.js:57-78 | A hand has at most as many cards as its hard total, which is at most its score. |
| Scoring.TwoCardTotals | script.js:60-69 | Hard total and ace count of a two-card hand. |
| Scoring.AppendTotals | script.js:60-69 | Adding a card adds its hard points to the hard total and adds 1 to the ace count for an ace. |
| Scoring.TwoCardHandNotBust | script.js:128-134 | Any two-card hand scores at most 21. |
| Scoring.ScoreExamples | script.js:57-78 | [A of hearts] = 11, [A of hearts, A of spades] = 12, [A of hearts, K of clubs] = 21. |
| Scoring.ThreeCardExamples | script.js:57-78 | [A of hearts, A of spades, 9 of diamonds] = 21, [K of hearts, Q of spades, 2 of clubs] = 22. |
| Blackjack.Resolution | script.js:160-181 | Each message fires exactly when its condition holds and every earlier condition fails: player bust, then dealer bust, then once revealed on 17 or more, higher / lower / equal. None exactly when no condition holds. |
| Blackjack.RevealedAt17Resolves | script.js:169-180 | With the dealer revealed on 17 or more, the chain always resolves. The player wins exactly when not bust and the dealer is bust or lower. |
| Blackjack.DrewWhileBelow17 | script.js:203-205 | Definition: every card drawn was drawn while the hand before it scored below 17. |
| Blackjack.DrewWhileBelow17Step | script.js:203 | Drawing once more from a dealer hand below 17 keeps "every draw was made below 17". |
| Blackjack.DealerDrew | script.js:203-208 | Definition: the dealer's new cards are the top n cards of the old deck in popping order, each drawn below 17, and the deck is what remains. |
| Blackjack.DealerDrewKeepsCards | script.js:203-208 | The dealer's draws keep the cards in play. |
| Blackjack.Game.Valid | script.js:5-11 | The session invariant on the globals, as listed above. Every handler keeps it. |
| Blackjack.Game.constructor | script.js:5-11 | The initial bindings followed by the first reset (line 218) give the state that `ResetGame` promises. |
| Blackjack.Game.CreateDeck | script.js:34-42 | The deck becomes the shuffle, under the given choices, of the 52-card base deck. |
| Blackjack.Game.BuildDeck | script.js:35-40 | The nested push loops leave the deck equal to the base deck. |
| Blackjack.Game.ShuffleDeck | script.js:44-49 | The in-place swap loop leaves the deck equal to `Shuffled` of the old deck. |
| Blackjack.Game.DealCard | script.js:51-55 | The old deck is the new deck plus the returned card. That card is pushed onto the chosen hand, and the other hand is unchanged. |
| Blackjack.Game.UpdateScores | script.js:80-82 | Both scores become the scores of their hands. |
| Blackjack.Game.ResetGame | script.js:109-126 | Afterwards `Valid()` holds and both flags are down with no message. With d the shuffled deck, the player holds [d[51], d[49]], the dealer holds [d[50], d[48]], and the deck is d[..48]. |
| Blackjack.Game.DealFromFullDeck | script.js:124-125 | Dealing the opening hands from a full shuffled deck establishes `Valid()`. |
| Blackjack.Game.StartGame | script.js:128-134 | The player gets the 1st and 3rd cards from the top, and the dealer the 2nd and 4th. Four cards leave the deck, and the scores are recomputed. |
| Blackjack.Game.DealOpening | script.js:129-132 | The four alternating deals, in that order, from the top of the deck. |
| Blackjack.Game.RevealDealerHand | script.js:151-158 | The dealer is revealed and the scores are recomputed. |
| Blackjack.Game.CheckGameOver | script.js:160-187 | When the chain resolves, the game is over with that message. Otherwise `gameOver` and the message are unchanged. |
| Blackjack.Game.Hit | script.js:189-197 | When over, no change. Otherwise the top card goes to the player, the dealer stays unrevealed, and the game ends, as a player bust, exactly when the player is over 21. `Valid()` is kept. |
| Blackjack.Game.DrawAndScore | script.js:192-194 | Deal the top card to a seat and rescore. A dealer draw raises the dealer's hard total. |
| Blackjack.Game.DealerPlays | script.js:203-208 | The loop ends with the dealer on 17 or more. `DealerDrew` holds: the dealer's new cards are the old deck's top cards in the order `pop` returns them (`TopCards`, built one pop at a time by `DrawStep`), each drawn below 17, and the deck is what remains. The player's hand and score are untouched. |
| Blackjack.Game.Stand | script.js:199-211 | When over, no change. Otherwise the dealer is revealed and draws as above, and the game ends with the resolution of the final scores. `Valid()` is kept. |

## Left out

- Rendering is not modelled: `displayCard`, `displayHiddenCard`, the `innerHTML` and `textContent` writes, the element lookups and the button `disabled` toggles. Of the score display in `updateScores`, only the two score variables are modelled. The message text is modelled as the `outcome` field.
- Audio (`playSound` and every call to it) is not modelled; it carries no rule.
- Event wiring (`DOMContentLoaded`, `addEventListener`) is not modelled. The Hit and Stand handlers are the methods `Hit` and `Stand`, the restart handler is `ResetGame`, and the initial reset is the constructor.
- `Math.random` is replaced by the `choices` parameter, one index in 0..i per step. Uniformity of the shuffle is not modelled.
- `getSuitSymbol` is not modelled; it is a display-only glyph mapping.
- `parseInt` is the total function `Pips` on the numeric values.
- Cards are values, compared by suit and value. The source's card objects have an identity, but no two of them share a suit and value.
- Blackjack.Game.DealCard: requires a non-empty deck. `pop` on an empty array yields `undefined` in the source, and that path is not modelled. Every caller proves the deck non-empty, so the path never arises. This follows the code, which has no separate empty-deck error.
- Blackjack.Game.DealCard: its contract does not itself state that the cards in play are kept. `Deck.MoveCard` and `Deck.DrawnKeepsCards` state that, and `Hit` and `Stand` use them to keep `Valid()`.
- Blackjack.Game.DealerPlays: requires the 52-card count of the deck and hands, and `playerScore == Score(playerHand) <= 21`, neither of which the source states at the loop. `Stand` supplies both from `Valid()`: the game is not over, so the player is not bust.
