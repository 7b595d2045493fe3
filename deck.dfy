/**
 * The deck the cards are dealt from: 54 cards in a fixed-size array and the
 * position of the next card to deal. A new deck is filled in index order and
 * then shuffled by Fisher-Yates; the random numbers are a parameter.
 */
module Decks {
  import opened Cards
  import opened HandScan

  /** The 54 cards in index order: what Deck::init writes. */
  function FullDeck(): (d: seq<Card>)
    ensures |d| == 54
    ensures forall i :: 0 <= i < 54 ==> d[i] == FromIndex(i)
  {
    seq(54, i requires 0 <= i < 54 => FromIndex(i))
  }

  /** The full deck holds 54 valid cards, no card twice. */
  lemma FullDeckIsDeck()
    ensures AllValid(FullDeck()) && Distinct(FullDeck())
  {
    forall i, j | 0 <= i < j < 54
      ensures FullDeck()[i] != FullDeck()[j]
    {
      if FullDeck()[i] == FullDeck()[j] {
        FromIndexInjective(i, j);
      }
    }
  }

  /** s with the cards at i and j exchanged. */
  function SwapAt(s: seq<Card>, i: nat, j: nat): (r: seq<Card>)
    requires i < |s| && j < |s|
    ensures |r| == |s| && r[i] == s[j] && r[j] == s[i]
    ensures forall m :: 0 <= m < |s| && m != i && m != j ==> r[m] == s[m]
  {
    s[i := s[j]][j := s[i]]
  }

  lemma SwapAtIsPermutation(s: seq<Card>, i: nat, j: nat)
    requires i < |s| && j < |s|
    ensures multiset(SwapAt(s, i, j)) == multiset(s)
  {
    var r := SwapAt(s, i, j);
    if i != j {
      assert r == s[i := s[j]][j := s[i]];
    }
  }

  /** The draws Fisher-Yates takes: the random number for position i picks i + draw mod (54 - i). */
  function Target(draws: seq<nat>, i: nat): (j: nat)
    requires |draws| == 53 && i < 53
    ensures i <= j < 54
  {
    i + draws[i] % (54 - i)
  }

  /** The swaps of Deck::shuffle from position i to the end, applied to s. */
  function ShuffleFrom(s: seq<Card>, draws: seq<nat>, i: nat): seq<Card>
    requires |s| == 54 && |draws| == 53 && i <= 53
    decreases 53 - i
  {
    if i == 53 then s else ShuffleFrom(SwapAt(s, i, Target(draws, i)), draws, i + 1)
  }

  /** Whatever the random numbers, the shuffle only reorders the deck. */
  lemma {:induction false} ShuffleIsPermutation(s: seq<Card>, draws: seq<nat>, i: nat)
    requires |s| == 54 && |draws| == 53 && i <= 53
    ensures |ShuffleFrom(s, draws, i)| == 54
    ensures multiset(ShuffleFrom(s, draws, i)) == multiset(s)
    decreases 53 - i
  {
    if i < 53 {
      SwapAtIsPermutation(s, i, Target(draws, i));
      ShuffleIsPermutation(SwapAt(s, i, Target(draws, i)), draws, i + 1);
    }
  }

  /** A reordering of valid cards holds only valid cards. */
  lemma PermutationKeepsValid(a: seq<Card>, b: seq<Card>)
    requires multiset(a) == multiset(b) && AllValid(b)
    ensures AllValid(a)
  {
    forall i | 0 <= i < |a|
      ensures Cards.Valid(a[i])
    {
      assert a[i] in multiset(b);
    }
  }

  /** A reordering of a sequence without repeats has no repeats. */
  lemma PermutationKeepsDistinct(a: seq<Card>, b: seq<Card>)
    requires multiset(a) == multiset(b) && Distinct(b)
    ensures Distinct(a)
  {
    forall i, j | 0 <= i < j < |a|
      ensures a[i] != a[j]
    {
      if a[i] == a[j] {
        assert multiset(a)[a[i]] >= 2 by {
          MultisetHasTwo(a, i, j);
        }
        DistinctCountsOne(b, a[i]);
      }
    }
  }

  lemma MultisetHasTwo(a: seq<Card>, i: nat, j: nat)
    requires i < j < |a| && a[i] == a[j]
    ensures multiset(a)[a[i]] >= 2
  {
    assert a == a[..i] + [a[i]] + a[i + 1..j] + [a[j]] + a[j + 1..];
  }

  lemma {:induction false} DistinctCountsOne(b: seq<Card>, x: Card)
    requires Distinct(b)
    ensures multiset(b)[x] <= 1
  {
    if |b| > 0 {
      var rest := b[1..];
      assert b == [b[0]] + rest;
      DistinctCountsOne(rest, x);
      if b[0] == x {
        assert x !in rest;
      }
    }
  }

  class Deck {
    var cards: array<Card>
    /** Position of the next card to deal. */
    var index: int

    /** 54 distinct valid cards and a position inside or just past them. */
    ghost predicate Valid()
      reads this, cards
    {
      cards.Length == 54 && 0 <= index <= 54
      && AllValid(cards[..]) && Distinct(cards[..]) && multiset(cards[..]) == multiset(FullDeck())
    }

    /**
     * Deck(): position 0, the cards filled in index order and shuffled with the
     * given random numbers; the deck is a reordering of the 54 cards.
     */
    constructor (draws: seq<nat>)
      requires |draws| == 53
      ensures Valid() && fresh(cards) && index == 0
      ensures cards[..] == ShuffleFrom(FullDeck(), draws, 0)
    {
      index := 0;
      cards := new Card[54];
      new;
      Init();
      Shuffle(draws);
      ghost var dealt := cards[..];
      ShuffleIsPermutation(FullDeck(), draws, 0);
      FullDeckIsDeck();
      PermutationKeepsDistinct(dealt, FullDeck());
      PermutationKeepsValid(dealt, FullDeck());
    }

    /** Deck::init: card i is the card of index i. */
    method Init()
      requires cards.Length == 54
      modifies cards
      ensures cards[..] == FullDeck()
    {
      var i := 0;
      while i < 54
        invariant 0 <= i <= 54
        invariant forall k :: 0 <= k < i ==> cards[k] == FromIndex(k)
      {
        cards[i] := FromIndex(i);
        i := i + 1;
      }
    }

    /** Deck::shuffle: for i from 0 to 52, swap card i with card i + draws[i] mod (54 - i). */
    method Shuffle(draws: seq<nat>)
      requires cards.Length == 54 && |draws| == 53
      modifies cards
      ensures cards[..] == ShuffleFrom(old(cards[..]), draws, 0)
    {
      var i := 0;
      while i < 54 - 1
        invariant 0 <= i <= 53
        invariant ShuffleFrom(cards[..], draws, i) == ShuffleFrom(old(cards[..]), draws, 0)
      {
        var j := i + draws[i] % (54 - i);
        assert j == Target(draws, i);
        ghost var before := cards[..];
        cards[i], cards[j] := cards[j], cards[i];
        assert cards[..] == SwapAt(before, i, j);
        i := i + 1;
      }
    }

    /** pick: the card at the position, which then advances by one; the cards stay as they are. */
    method Pick() returns (c: Card)
      requires Valid() && index < 54
      modifies this
      ensures Valid()
      ensures c == cards[old(index)] && index == old(index) + 1
      ensures cards == old(cards) && cards[..] == old(cards[..])
      ensures Cards.Valid(c)
    {
      c := cards[index];
      index := index + 1;
    }
  }
}
