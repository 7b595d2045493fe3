/**
 * The index-scanning helpers of the strategy engine over a hand (a sequence of
 * cards): moving to the next rank, testing for n cards of one rank, and the
 * in-place sort of the hand by rank.
 */
module HandScan {
  import opened Cards

  /** Sorted by operator<, as std::sort leaves it: no card is below an earlier one. */
  predicate Sorted(v: seq<Card>)
  {
    forall i, j :: 0 <= i < j < |v| ==> !Less(v[j], v[i])
  }

  /** Sorted by integer rank. */
  predicate SortedByRank(v: seq<Card>)
  {
    forall i, j :: 0 <= i < j < |v| ==> Rank(v[i]) <= Rank(v[j])
  }

  lemma SortedIsSortedByRank(v: seq<Card>)
    requires AllValid(v)
    ensures Sorted(v) <==> SortedByRank(v)
  {
    forall i, j | 0 <= i < j < |v| {
      LessIsRankOrder(v[j], v[i]);
    }
  }

  /** No card occurs twice, as in a hand dealt from one deck. */
  predicate Distinct(v: seq<Card>)
  {
    forall i, j :: 0 <= i < j < |v| ==> v[i] != v[j]
  }

  /** Position i starts a new rank: it is the first card or differs in rank from its predecessor. */
  predicate Boundary(v: seq<Card>, i: int)
    requires 0 <= i < |v|
  {
    i == 0 || !RankEq(v[i - 1], v[i])
  }

  /** The first position at or after j whose card differs in rank from c, or |v|. */
  function Skip(v: seq<Card>, c: Card, j: nat): (r: nat)
    requires j <= |v|
    ensures j <= r <= |v|
    ensures forall m :: j <= m < r ==> RankEq(c, v[m])
    ensures r < |v| ==> !RankEq(c, v[r])
    decreases |v| - j
  {
    if j == |v| || !RankEq(c, v[j]) then j else Skip(v, c, j + 1)
  }

  /** The position of the next rank after position i: what jump_to_next_number returns. */
  function NextRank(v: seq<Card>, i: nat): (r: nat)
    requires i < |v|
    ensures i < r <= |v|
    ensures forall m :: i <= m < r ==> RankEq(v[i], v[m])
    ensures r < |v| ==> !RankEq(v[i], v[r])
  {
    RankEqEquivalence(v[i], v[i], v[i]);
    Skip(v, v[i], i + 1)
  }

  /**
   * Between a position and the next rank there is no boundary, and the next rank,
   * when it is inside the hand, is a boundary.
   */
  lemma NextRankIsNextBoundary(v: seq<Card>, i: nat)
    requires i < |v|
    ensures forall m :: i < m < NextRank(v, i) ==> !Boundary(v, m)
    ensures NextRank(v, i) < |v| ==> Boundary(v, NextRank(v, i))
  {
    var r := NextRank(v, i);
    forall m | i < m < r
      ensures !Boundary(v, m)
    {
      RankEqEquivalence(v[i], v[m - 1], v[m]);
      RankEqEquivalence(v[m - 1], v[i], v[m]);
    }
    if r < |v| {
      RankEqEquivalence(v[i], v[r - 1], v[r]);
      RankEqEquivalence(v[r - 1], v[i], v[r]);
    }
  }

  /** In a sorted hand, a boundary is strictly above every earlier card. */
  lemma SortedBoundaryAbove(v: seq<Card>, s1: nat, s2: nat)
    requires Sorted(v) && AllValid(v)
    requires s1 < s2 < |v| && Boundary(v, s2)
    ensures Less(v[s1], v[s2])
  {
    SortedIsSortedByRank(v);
    RankEqIsSameRank(v[s2 - 1], v[s2]);
    LessIsRankOrder(v[s1], v[s2]);
  }

  /**
   * jump_to_next_number: from a position inside the hand, advance past every card
   * of the same rank; return the next rank's position or the hand's size.
   */
  method JumpToNextNumber(v: seq<Card>, index: nat) returns (r: nat)
    requires index < |v|
    ensures r == NextRank(v, index)
    ensures index < r <= |v|
    ensures forall k :: index <= k < r ==> RankEq(v[index], v[k])
    ensures r < |v| ==> !RankEq(v[index], v[r])
  {
    var t := v[index];
    r := index;
    while RankEq(t, v[r])
      invariant index <= r < |v|
      invariant Skip(v, t, r) == NextRank(v, index)
      decreases |v| - r
    {
      r := r + 1;
      if r == |v| {
        return;
      }
    }
  }

  /** The num cards from position i exist and all have the rank of the card at i. */
  predicate HasN(v: seq<Card>, i: nat, num: int)
    requires i <= |v|
  {
    i + num <= |v| && forall m :: i <= m < i + num ==> RankEq(v[m], v[i])
  }

  /** has_consecutive_cards: whether num cards of one rank start at position index. */
  method HasConsecutiveCards(v: seq<Card>, index: nat, num: int) returns (r: bool)
    requires index <= |v|
    ensures r == HasN(v, index, num)
  {
    var i := 0;
    while i < num
      invariant 0 <= i
      invariant num > 0 ==> i <= num
      invariant index + i <= |v|
      invariant forall m :: index <= m < index + i ==> RankEq(v[m], v[index])
    {
      if index + i == |v| {
        return false;
      }
      if Neq(v[index + i], v[index]) {
        return false;
      }
      i := i + 1;
    }
    return true;
  }

  /**
   * The state of one insertion step that has moved the card being inserted down to
   * position j: the cards up to i other than the one at j are in rank order, and the
   * card at j is below every card after it up to i.
   */
  predicate Inserting(s: seq<Card>, i: nat, j: nat)
    requires j <= i < |s|
  {
    (forall p, q :: 0 <= p < q <= i && p != j && q != j ==> Rank(s[p]) <= Rank(s[q]))
    && (forall q :: j < q <= i ==> Rank(s[j]) < Rank(s[q]))
  }

  lemma InsertStart(s: seq<Card>, i: nat)
    requires i < |s| && SortedByRank(s[..i])
    ensures Inserting(s, i, i)
  {
    forall p, q | 0 <= p < q <= i && p != i && q != i
      ensures Rank(s[p]) <= Rank(s[q])
    {
      assert s[p] == s[..i][p] && s[q] == s[..i][q];
    }
  }

  /** Exchanging the card at j with a higher card just before it moves the insertion down by one. */
  lemma InsertStep(s: seq<Card>, i: nat, j: nat)
    requires 0 < j <= i < |s| && Inserting(s, i, j) && Rank(s[j]) < Rank(s[j - 1])
    ensures Inserting(s[j - 1 := s[j]][j := s[j - 1]], i, j - 1)
    ensures multiset(s[j - 1 := s[j]][j := s[j - 1]]) == multiset(s)
    ensures AllValid(s) ==> AllValid(s[j - 1 := s[j]][j := s[j - 1]])
  {
    var t := s[j - 1 := s[j]][j := s[j - 1]];
    forall p, q | 0 <= p < q <= i && p != j - 1 && q != j - 1
      ensures Rank(t[p]) <= Rank(t[q])
    {
      if q == j {
        assert Rank(s[p]) <= Rank(s[j - 1]);
      } else if p == j {
        assert Rank(s[j - 1]) <= Rank(s[q]);
      } else {
        assert Rank(s[p]) <= Rank(s[q]);
      }
    }
  }

  /** An insertion that stopped at a card not above the one before it leaves the prefix sorted. */
  lemma InsertDone(s: seq<Card>, i: nat, j: nat)
    requires j <= i < |s| && Inserting(s, i, j)
    requires j > 0 ==> Rank(s[j - 1]) <= Rank(s[j])
    ensures SortedByRank(s[..i + 1])
  {
    forall p, q | 0 <= p < q <= i
      ensures Rank(s[p]) <= Rank(s[q])
    {
      if q == j && p < j - 1 {
        assert Rank(s[p]) <= Rank(s[j - 1]);
      }
    }
  }

  /** Exchange the card being inserted with the higher card just before it. */
  method SwapDown(a: array<Card>, i: nat, j: nat)
    requires 0 < j <= i < a.Length && Inserting(a[..], i, j) && Rank(a[j]) < Rank(a[j - 1])
    requires AllValid(a[..])
    modifies a
    ensures Inserting(a[..], i, j - 1) && AllValid(a[..])
    ensures multiset(a[..]) == multiset(old(a[..]))
    ensures a[i + 1..] == old(a[i + 1..])
  {
    ghost var s := a[..];
    InsertStep(s, i, j);
    a[j - 1], a[j] := a[j], a[j - 1];
    assert a[..] == s[j - 1 := s[j]][j := s[j - 1]];
  }

  /** One insertion step: move the card at position i down into the sorted prefix before it. */
  method InsertAt(a: array<Card>, i: nat)
    requires i < a.Length
    requires AllValid(a[..]) && SortedByRank(a[..i])
    modifies a
    ensures AllValid(a[..]) && SortedByRank(a[..i + 1])
    ensures multiset(a[..]) == multiset(old(a[..]))
    ensures forall m :: i < m < a.Length ==> a[m] == old(a[m])
  {
    var j := i;
    InsertStart(a[..], i);
    while j > 0 && Less(a[j], a[j - 1])
      invariant 0 <= j <= i
      invariant Inserting(a[..], i, j)
      invariant AllValid(a[..])
      invariant a[i + 1..] == old(a[i + 1..])
      invariant multiset(a[..]) == multiset(old(a[..]))
    {
      LessIsRankOrder(a[j], a[j - 1]);
      SwapDown(a, i, j);
      j := j - 1;
    }
    if j > 0 {
      LessIsRankOrder(a[j], a[j - 1]);
    }
    InsertDone(a[..], i, j);
    assert forall m :: i < m < a.Length ==> a[m] == a[i + 1..][m - i - 1];
  }

  /**
   * std::sort on the hand with operator<: afterwards the hand is a permutation of
   * itself, sorted by rank. (The source does not fix the order of equal-rank cards;
   * this insertion sort keeps them in their original order.)
   */
  method SortHand(a: array<Card>)
    requires AllValid(a[..])
    modifies a
    ensures Sorted(a[..]) && AllValid(a[..])
    ensures multiset(a[..]) == multiset(old(a[..]))
  {
    var i := 0;
    while i < a.Length
      invariant 0 <= i <= a.Length
      invariant SortedByRank(a[..i])
      invariant AllValid(a[..])
      invariant multiset(a[..]) == multiset(old(a[..]))
    {
      InsertAt(a, i);
      i := i + 1;
    }
    assert a[..i] == a[..];
    SortedIsSortedByRank(a[..]);
  }
}
