/** The failure-compatible option type used where the source aborts on a value. */
module Options {
  datatype Option<T> = None | Some(value: T)
}

/**
 * Playing cards of the fight-the-landlord deck: the card value, its construction
 * from a deck index, the rank order, rank equality and the "one rank lower" step
 * used to recognise runs.
 */
module Cards {

  /** The suits, in the order of the source's enumeration. */
  datatype Suit = Spade | Heart | Diamond | Club | BlackJoker | RedJoker

  /** Position of a suit in the enumeration. */
  function SuitIndex(s: Suit): nat
  {
    match s
    case Spade => 0
    case Heart => 1
    case Diamond => 2
    case Club => 3
    case BlackJoker => 4
    case RedJoker => 5
  }

  /** The suit at a position of the enumeration (the source's `(Suit)i` cast). */
  function SuitAt(i: nat): (s: Suit)
    requires i < 6
    ensures SuitIndex(s) == i
  {
    if i == 0 then Spade
    else if i == 1 then Heart
    else if i == 2 then Diamond
    else if i == 3 then Club
    else if i == 4 then BlackJoker
    else RedJoker
  }

  /**
   * A card: a suit and a number. Numbered cards use 1 (ace) to 13 (king);
   * the two jokers carry the number -1.
   */
  datatype Card = Card(suit: Suit, number: int)

  predicate IsJoker(c: Card)
  {
    c.suit == BlackJoker || c.suit == RedJoker
  }

  /** A card as the deck makes it: a joker carrying -1, or a numbered card from 1 to 13. */
  predicate Valid(c: Card)
  {
    if IsJoker(c) then c.number == -1 else 1 <= c.number <= 13
  }

  predicate AllValid(v: seq<Card>)
  {
    forall i :: 0 <= i < |v| ==> Valid(v[i])
  }

  /**
   * Card(int): index 0..51 gives suit index / 13 and number index mod 13 + 1,
   * 52 the black joker and 53 the red joker.
   */
  function FromIndex(num: int): (c: Card)
    requires 0 <= num < 54
    ensures Valid(c)
    ensures num == 52 ==> c == Card(BlackJoker, -1)
    ensures num == 53 ==> c == Card(RedJoker, -1)
    ensures num < 52 ==> !IsJoker(c) && SuitIndex(c.suit) == num / 13 && c.number == num % 13 + 1
  {
    if num == 52 then
      Card(BlackJoker, -1)
    else if num == 53 then
      Card(RedJoker, -1)
    else
      var s := num / 13;
      Card(SuitAt(s), num - s * 13 + 1)
  }

  /** The deck index a deck card is made from: the inverse of FromIndex. */
  function IndexOf(c: Card): (num: int)
    requires Valid(c)
    ensures 0 <= num < 54
  {
    if c.suit == BlackJoker then 52
    else if c.suit == RedJoker then 53
    else SuitIndex(c.suit) * 13 + c.number - 1
  }

  lemma FromIndexRoundTrip(num: int)
    requires 0 <= num < 54
    ensures IndexOf(FromIndex(num)) == num
  {
  }

  lemma IndexOfRoundTrip(c: Card)
    requires Valid(c)
    ensures FromIndex(IndexOf(c)) == c
  {
    if !IsJoker(c) {
      var n := IndexOf(c);
      assert n / 13 == SuitIndex(c.suit);
    }
  }

  /** Distinct indices give distinct cards, so a deck built from 0..53 has 54 different cards. */
  lemma FromIndexInjective(a: int, b: int)
    requires 0 <= a < 54 && 0 <= b < 54
    requires FromIndex(a) == FromIndex(b)
    ensures a == b
  {
    FromIndexRoundTrip(a);
    FromIndexRoundTrip(b);
  }

  /** The ordering key of a number: ace counts as 14 and two as 15. */
  function Key(number: int): int
  {
    if number < 3 then number + 13 else number
  }

  /** The rank of a card as one integer: numbered cards by key, black joker 16, red joker 17. */
  function Rank(c: Card): int
  {
    if c.suit == RedJoker then 17
    else if c.suit == BlackJoker then 16
    else Key(c.number)
  }

  /** operator<: the rank order. */
  predicate Less(c1: Card, c2: Card)
  {
    if c1.suit == RedJoker then false
    else if c2.suit == RedJoker then true
    else if c1.suit == BlackJoker then false
    else if c2.suit == BlackJoker then true
    else Key(c1.number) < Key(c2.number)
  }

  /** operator==: numbered cards compare by number only; a joker equals only a card of its own suit. */
  predicate RankEq(lhs: Card, rhs: Card)
  {
    if lhs.suit == RedJoker || lhs.suit == BlackJoker then lhs.suit == rhs.suit
    else if rhs.suit == RedJoker || rhs.suit == BlackJoker then lhs.suit == rhs.suit
    else lhs.number == rhs.number
  }

  /** operator!=. */
  predicate Neq(lhs: Card, rhs: Card)
  {
    !RankEq(lhs, rhs)
  }

  /** equal_all: the same physical card (suit and number). */
  function EqualAll(c1: Card, c2: Card): (r: bool)
    ensures r <==> c1 == c2
    ensures r ==> RankEq(c1, c2)
  {
    c1.suit == c2.suit && c1.number == c2.number
  }

  /**
   * operator-: only `card - 1` on a card that is not a 3. An ace becomes a king;
   * any other card keeps its suit and loses one from its number.
   */
  function Minus(c: Card, i: int): (r: Card)
    requires i == 1 && c.number != 3
    ensures r.suit == c.suit
    ensures Valid(c) && !IsJoker(c) ==> Valid(r) && Key(r.number) == Key(c.number) - 1
  {
    if c.number == 1 then Card(c.suit, 13) else Card(c.suit, c.number - i)
  }

  lemma LessIrreflexive(c: Card)
    ensures !Less(c, c)
  {
  }

  lemma LessAsymmetric(a: Card, b: Card)
    requires Less(a, b)
    ensures !Less(b, a)
  {
  }

  lemma LessTransitive(a: Card, b: Card, c: Card)
    requires Less(a, b) && Less(b, c)
    ensures Less(a, c)
  {
  }

  /** On valid cards the order is the integer order of ranks. */
  lemma LessIsRankOrder(a: Card, b: Card)
    requires Valid(a) && Valid(b)
    ensures Less(a, b) <==> Rank(a) < Rank(b)
  {
  }

  /** On valid cards rank equality is equality of the integer ranks. */
  lemma RankEqIsSameRank(a: Card, b: Card)
    requires Valid(a) && Valid(b)
    ensures RankEq(a, b) <==> Rank(a) == Rank(b)
  {
  }

  /** operator== is an equivalence relation. */
  lemma RankEqEquivalence(a: Card, b: Card, c: Card)
    ensures RankEq(a, a)
    ensures RankEq(a, b) ==> RankEq(b, a)
    ensures RankEq(a, b) && RankEq(b, c) ==> RankEq(a, c)
  {
  }

  /** `<` is a strict weak order whose incomparability is operator==. */
  lemma IncomparableIsRankEq(a: Card, b: Card)
    requires Valid(a) && Valid(b)
    ensures RankEq(a, b) <==> !Less(a, b) && !Less(b, a)
  {
    LessIsRankOrder(a, b);
    LessIsRankOrder(b, a);
    RankEqIsSameRank(a, b);
  }

  /** The red joker is above every other card and below none. */
  lemma RedJokerIsTop(c: Card)
    ensures !Less(Card(RedJoker, -1), c)
    ensures c.suit != RedJoker ==> Less(c, Card(RedJoker, -1))
  {
  }

  /** The black joker is above every numbered card. */
  lemma BlackJokerAboveNumbered(c: Card)
    requires !IsJoker(c)
    ensures Less(c, Card(BlackJoker, -1)) && !Less(Card(BlackJoker, -1), c)
  {
  }

  /** No valid card is below a three, so a card above another is never a three. */
  lemma AboveIsNotThree(a: Card, b: Card)
    requires Valid(a) && Valid(b) && Less(a, b)
    ensures b.number != 3
  {
  }

  /** The test `prev == next - 1` that joins two ranks of a run (never applied to a three). */
  predicate OneBelow(prev: Card, next: Card)
  {
    next.number != 3 && RankEq(prev, Minus(next, 1))
  }

  /** Two numbered cards whose keys are consecutive. */
  predicate NextKey(prev: Card, next: Card)
  {
    !IsJoker(prev) && !IsJoker(next) && Key(next.number) == Key(prev.number) + 1
  }

  /**
   * For two valid cards of different ranks, `prev == next - 1` holds exactly when both are
   * numbered and next's key is one more than prev's: king-ace and ace-two join, jokers never do.
   */
  lemma OneBelowIsNextKey(prev: Card, next: Card)
    requires Valid(prev) && Valid(next) && !RankEq(prev, next)
    ensures OneBelow(prev, next) <==> NextKey(prev, next)
  {
  }
}
