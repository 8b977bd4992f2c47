/** The playing cards of a single 52-card deck: four suits, thirteen values. */
module Cards {

  datatype Suit = Hearts | Diamonds | Clubs | Spades

  datatype Value =
    | Two | Three | Four | Five | Six | Seven | Eight | Nine | Ten
    | Jack | Queen | King | Ace

  /** A card has no identity beyond its suit and value. */
  datatype Card = Card(suit: Suit, value: Value)

  /** The suits in the order the deck is built from. */
  const SUITS: seq<Suit> := [Hearts, Diamonds, Clubs, Spades]

  /** The values in the order the deck is built from. */
  const VALUES: seq<Value> :=
    [Two, Three, Four, Five, Six, Seven, Eight, Nine, Ten, Jack, Queen, King, Ace]

  /** No element occurs twice in `s`. */
  predicate Distinct<T(==)>(s: seq<T>) {
    forall i, j :: 0 <= i < j < |s| ==> s[i] != s[j]
  }

  /** Where a suit sits in SUITS. */
  function SuitIndex(s: Suit): (k: nat)
    ensures k < |SUITS| && SUITS[k] == s
  {
    match s
    case Hearts => 0
    case Diamonds => 1
    case Clubs => 2
    case Spades => 3
  }

  /** Where a value sits in VALUES. */
  function ValueIndex(v: Value): (k: nat)
    ensures k < |VALUES| && VALUES[k] == v
  {
    match v
    case Two => 0 case Three => 1 case Four => 2 case Five => 3
    case Six => 4 case Seven => 5 case Eight => 6 case Nine => 7
    case Ten => 8 case Jack => 9 case Queen => 10 case King => 11
    case Ace => 12
  }

  /** The enumerations list every suit and every value exactly once. */
  lemma EnumerationsComplete()
    ensures |SUITS| == 4 && |VALUES| == 13
    ensures Distinct(SUITS) && Distinct(VALUES)
    ensures forall s: Suit :: s in SUITS
    ensures forall v: Value :: v in VALUES
  {
    forall s: Suit ensures s in SUITS {
      assert SUITS[SuitIndex(s)] == s;
    }
    forall v: Value ensures v in VALUES {
      assert VALUES[ValueIndex(v)] == v;
    }
  }
}
