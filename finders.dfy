/**
 * The two group finders of the strategy engine: groups of exactly n same-rank
 * cards (get_consecutive_n_cards_set) and runs of consecutive ranks with k cards
 * each (get_sequence). Each is specified by a reference function that looks at
 * every position of the hand, and the methods, which jump from rank to rank as
 * the source does, are proved equal to it.
 */
module Finders {
  import opened Options
  import opened Cards
  import opened HandScan

  // ---------------------------------------------------------------------------
  // Same-rank groups
  // ---------------------------------------------------------------------------

  /** For every rank start at or after i that has n cards of its rank, the first n of them. */
  function GroupsFrom(v: seq<Card>, n: nat, i: nat): seq<seq<Card>>
    requires i <= |v|
    decreases |v| - i
  {
    if i == |v| then []
    else if !Boundary(v, i) then GroupsFrom(v, n, i + 1)
    else (if HasN(v, i, n) then [v[i..i + n]] else []) + GroupsFrom(v, n, i + 1)
  }

  function Groups(v: seq<Card>, n: nat): seq<seq<Card>>
  {
    GroupsFrom(v, n, 0)
  }

  /** Positions that start no rank contribute nothing. */
  lemma {:induction false} GroupsSkip(v: seq<Card>, n: nat, i: nat, j: nat)
    requires i <= j <= |v|
    requires forall m :: i <= m < j ==> !Boundary(v, m)
    ensures GroupsFrom(v, n, i) == GroupsFrom(v, n, j)
    decreases j - i
  {
    if i < j {
      GroupsSkip(v, n, i + 1, j);
    }
  }

  /** The inner copy loop of get_consecutive_n_cards_set: the n cards from position index. */
  method TakeGroup(v: seq<Card>, index: nat, n: nat) returns (group: seq<Card>)
    requires index + n <= |v|
    ensures group == v[index..index + n]
  {
    group := [];
    var i := 0;
    while i < n
      invariant 0 <= i <= n
      invariant group == v[index..index + i]
    {
      group := group + [v[index + i]];
      i := i + 1;
    }
  }

  /** Jumping to the next rank passes over no group, and lands on a rank start. */
  lemma GroupsNext(v: seq<Card>, n: nat, i: nat)
    requires i < |v|
    ensures GroupsFrom(v, n, i + 1) == GroupsFrom(v, n, NextRank(v, i))
    ensures NextRank(v, i) < |v| ==> Boundary(v, NextRank(v, i))
  {
    NextRankIsNextBoundary(v, i);
    GroupsSkip(v, n, i + 1, NextRank(v, i));
  }

  /**
   * get_consecutive_n_cards_set: one group of n cards for every rank that has at
   * least n cards, taken from the start of that rank's cards.
   */
  method GetConsecutiveNCardsSet(v: seq<Card>, n: nat) returns (ans: seq<seq<Card>>)
    ensures ans == Groups(v, n)
  {
    ans := [];
    var index := 0;
    while index < |v|
      invariant index <= |v|
      invariant index < |v| ==> Boundary(v, index)
      invariant ans + GroupsFrom(v, n, index) == Groups(v, n)
    {
      var has := HasConsecutiveCards(v, index, n);
      ghost var rest := GroupsFrom(v, n, index + 1);
      if has {
        var group := TakeGroup(v, index, n);
        ans := ans + [group];
        assert ans + rest == Groups(v, n);
      }
      var next := JumpToNextNumber(v, index);
      GroupsNext(v, n, index);
      index := next;
    }
  }

  /** Every group is a window of n cards of one rank, starting where a rank starts. */
  lemma {:induction false} GroupsAreWindows(v: seq<Card>, n: nat, i: nat)
    requires i <= |v|
    ensures forall g :: g in GroupsFrom(v, n, i) ==>
              |g| == n && exists s :: i <= s < |v| && Boundary(v, s) && HasN(v, s, n) && g == v[s..s + n]
    decreases |v| - i
  {
    if i < |v| {
      GroupsAreWindows(v, n, i + 1);
    }
  }

  /** Every group consists of n cards of one rank. */
  lemma GroupsAreSameRank(v: seq<Card>, n: nat)
    ensures forall g :: g in Groups(v, n) ==>
              |g| == n && forall m :: 0 <= m < |g| ==> RankEq(g[m], g[0])
  {
    GroupsAreWindows(v, n, 0);
    forall g | g in Groups(v, n)
      ensures |g| == n && forall m :: 0 <= m < |g| ==> RankEq(g[m], g[0])
    {
      var s :| 0 <= s < |v| && Boundary(v, s) && HasN(v, s, n) && g == v[s..s + n];
      assert forall m :: 0 <= m < |g| ==> g[m] == v[s + m];
    }
  }

  /** Every rank that has n cards yields its group: nothing is missed. */
  lemma {:induction false} GroupsComplete(v: seq<Card>, n: nat, i: nat, s: nat)
    requires i <= s < |v| && Boundary(v, s) && HasN(v, s, n)
    ensures v[s..s + n] in GroupsFrom(v, n, i)
    decreases s - i
  {
    if i < s {
      GroupsComplete(v, n, i + 1, s);
    }
  }

  /** In a sorted hand every group found after a position starts above that position's card. */
  lemma GroupsAboveStart(v: seq<Card>, n: nat, i: nat)
    requires Sorted(v) && AllValid(v) && n >= 1 && i < |v|
    ensures forall g :: g in GroupsFrom(v, n, i + 1) ==> |g| == n && Less(v[i], g[0])
  {
    GroupsAreWindows(v, n, i + 1);
    forall g | g in GroupsFrom(v, n, i + 1)
      ensures |g| == n && Less(v[i], g[0])
    {
      var s :| i + 1 <= s < |v| && Boundary(v, s) && HasN(v, s, n) && g == v[s..s + n];
      SortedBoundaryAbove(v, i, s);
    }
  }

  /** In a sorted hand the groups come in strictly ascending rank. */
  lemma {:induction false} GroupsAscendingFrom(v: seq<Card>, n: nat, i: nat)
    requires Sorted(v) && AllValid(v) && n >= 1 && i <= |v|
    ensures forall g :: g in GroupsFrom(v, n, i) ==> |g| == n
    ensures forall a, b :: 0 <= a < b < |GroupsFrom(v, n, i)| ==>
              Less(GroupsFrom(v, n, i)[a][0], GroupsFrom(v, n, i)[b][0])
    decreases |v| - i
  {
    if i < |v| {
      var rest := GroupsFrom(v, n, i + 1);
      GroupsAscendingFrom(v, n, i + 1);
      if Boundary(v, i) && HasN(v, i, n) {
        GroupsAboveStart(v, n, i);
        AscendingCons(v[i..i + n], rest);
        assert GroupsFrom(v, n, i) == [v[i..i + n]] + rest;
      } else {
        assert GroupsFrom(v, n, i) == rest;
      }
    }
  }

  /** A group below every later group, put in front of ascending groups, keeps them ascending. */
  lemma AscendingCons(head: seq<Card>, rest: seq<seq<Card>>)
    requires |head| >= 1
    requires forall g :: g in rest ==> |g| >= 1 && Less(head[0], g[0])
    requires forall a, b :: 0 <= a < b < |rest| ==> Less(rest[a][0], rest[b][0])
    ensures forall a, b :: 0 <= a < b < |[head] + rest| ==> Less(([head] + rest)[a][0], ([head] + rest)[b][0])
  {
    var all := [head] + rest;
    forall a, b | 0 <= a < b < |all|
      ensures Less(all[a][0], all[b][0])
    {
      assert all[b] == rest[b - 1] && rest[b - 1] in rest;
      if a > 0 {
        assert all[a] == rest[a - 1];
      }
    }
  }

  /** Two cards taken from an earlier and a later group differ in rank. */
  lemma GroupsPairApart(v: seq<Card>, n: nat, a: nat, b: nat, x: nat, y: nat)
    requires Sorted(v) && AllValid(v) && n >= 1
    requires a < b < |Groups(v, n)| && x < |Groups(v, n)[a]| && y < |Groups(v, n)[b]|
    ensures !RankEq(Groups(v, n)[a][x], Groups(v, n)[b][y]) && !RankEq(Groups(v, n)[b][y], Groups(v, n)[a][x])
  {
    var gs := Groups(v, n);
    GroupsAscendingFrom(v, n, 0);
    GroupsAreSameRank(v, n);
    assert gs[a] in gs && gs[b] in gs;
    var p, q := gs[a][0], gs[b][0];
    assert Less(p, q) && RankEq(gs[a][x], p) && RankEq(gs[b][y], q);
    RankEqEquivalence(p, gs[a][x], gs[b][y]);
    RankEqEquivalence(gs[b][y], gs[a][x], p);
    RankEqEquivalence(p, gs[b][y], q);
  }

  /** In a sorted hand no two groups share a rank, and they come in ascending rank. */
  lemma GroupsDistinctRanks(v: seq<Card>, n: nat)
    requires Sorted(v) && AllValid(v) && n >= 1
    ensures forall a :: 0 <= a < |Groups(v, n)| ==> |Groups(v, n)[a]| == n
    ensures forall a, b :: 0 <= a < b < |Groups(v, n)| ==> Less(Groups(v, n)[a][0], Groups(v, n)[b][0])
    ensures forall a, b, x, y ::
              (0 <= a < |Groups(v, n)| && 0 <= b < |Groups(v, n)| && a != b && 0 <= x < n && 0 <= y < n)
              ==> !RankEq(Groups(v, n)[a][x], Groups(v, n)[b][y])
  {
    var gs := Groups(v, n);
    GroupsAscendingFrom(v, n, 0);
    assert forall a :: 0 <= a < |gs| ==> gs[a] in gs;
    forall a, b, x, y | 0 <= a < |gs| && 0 <= b < |gs| && a != b && 0 <= x < n && 0 <= y < n
      ensures !RankEq(gs[a][x], gs[b][y])
    {
      if a < b {
        GroupsPairApart(v, n, a, b, x, y);
      } else {
        GroupsPairApart(v, n, b, a, y, x);
      }
    }
  }

  /** Asking for more cards per group never yields more groups. */
  lemma {:induction false} GroupsCountMonotone(v: seq<Card>, m: nat, n: nat, i: nat)
    requires m <= n && i <= |v|
    ensures |GroupsFrom(v, n, i)| <= |GroupsFrom(v, m, i)|
    decreases |v| - i
  {
    if i < |v| {
      GroupsCountMonotone(v, m, n, i + 1);
    }
  }

  // ---------------------------------------------------------------------------
  // Runs of consecutive ranks
  // ---------------------------------------------------------------------------

  /** k >= 1 cards of the rank at position p: what the counting loop accepts. */
  predicate BlockAt(v: seq<Card>, p: nat, k: nat)
    requires p <= |v|
  {
    k >= 1 && HasN(v, p, k)
  }

  function Prepend(t: seq<Card>, r: Option<seq<Card>>): Option<seq<Card>>
  {
    match r
    case None => None
    case Some(x) => Some(t + x)
  }

  lemma PrependEmpty(r: Option<seq<Card>>)
    ensures Prepend([], r) == r
  {
    if r.Some? {
      assert [] + r.value == r.value;
    }
  }

  lemma PrependAssoc(a: seq<Card>, b: seq<Card>, r: Option<seq<Card>>)
    ensures Prepend(a, Prepend(b, r)) == Prepend(a + b, r)
  {
    if r.Some? {
      assert a + (b + r.value) == (a + b) + r.value;
    }
  }

  /**
   * The run the scan builds from position p: `need` blocks of k cards, each block
   * on the next rank of the hand, joined by `prev == next - 1`. None when it fails.
   */
  function RunFrom(v: seq<Card>, p: nat, k: nat, need: nat): Option<seq<Card>>
    requires p <= |v|
    decreases need
  {
    if need == 0 then Some([])
    else if !BlockAt(v, p, k) then None
    else if need == 1 then Some(v[p..p + k])
    else
      var q := NextRank(v, p);
      if q == |v| || !OneBelow(v[p], v[q]) then None
      else Prepend(v[p..p + k], RunFrom(v, q, k, need - 1))
  }

  /** A card at which the run scan stops: rank-equal to one of the stop cards. */
  predicate StopsAt(c: Card, stops: seq<Card>)
  {
    exists s :: s in stops && RankEq(c, s)
  }

  /** The stop cards the scan is meant to use: the two, the black joker and the red joker. */
  function RunStops(): seq<Card>
  {
    [Card(Spade, 2), Card(BlackJoker, -1), Card(RedJoker, -1)]
  }

  /** The scan's three comparisons decide whether a card stops it. */
  lemma StopsAtRunStops(c: Card)
    ensures StopsAt(c, RunStops())
            <==> RankEq(c, Card(Spade, 2)) || RankEq(c, Card(BlackJoker, -1)) || RankEq(c, Card(RedJoker, -1))
  {
    var st := RunStops();
    assert st[0] in st && st[1] in st && st[2] in st;
  }

  /**
   * The stop cards as Strategy.cpp:34-36 writes them: `Card(BLACK_JOKER)` and
   * `Card(RED_JOKER)` call the one-argument Card(int) constructor with the suit's
   * position (4 and 5), which makes the spade 5 and the spade 6.
   */
  function AsWrittenRunStops(): seq<Card>
  {
    [Card(Spade, 2), FromIndex(4), FromIndex(5)]
  }

  /** The runs found from rank start i on, until the first rank start that is a stop card. */
  function RunsFrom(v: seq<Card>, k: nat, len: nat, stops: seq<Card>, i: nat): seq<seq<Card>>
    requires i <= |v|
    decreases |v| - i
  {
    if i == |v| then []
    else if !Boundary(v, i) then RunsFrom(v, k, len, stops, i + 1)
    else if StopsAt(v[i], stops) then []
    else
      (match RunFrom(v, i, k, len) case Some(r) => [r] case None => [])
      + RunsFrom(v, k, len, stops, i + 1)
  }

  /** The runs get_sequence is meant to find. */
  function Runs(v: seq<Card>, k: nat, len: nat): seq<seq<Card>>
  {
    RunsFrom(v, k, len, RunStops(), 0)
  }

  /** The runs get_sequence finds as written. */
  function RunsAsWritten(v: seq<Card>, k: nat, len: nat): seq<seq<Card>>
  {
    RunsFrom(v, k, len, AsWrittenRunStops(), 0)
  }

  /** One rank start that is not a stop card: its run, if any, then the rest. */
  lemma RunsFromStep(v: seq<Card>, k: nat, len: nat, stops: seq<Card>, i: nat)
    requires i < |v| && Boundary(v, i) && !StopsAt(v[i], stops)
    ensures RunsFrom(v, k, len, stops, i)
            == (if RunFrom(v, i, k, len).Some? then [RunFrom(v, i, k, len).value] else [])
               + RunsFrom(v, k, len, stops, i + 1)
  {
  }

  /** The scan ends at a two or a joker. */
  lemma RunsStop(v: seq<Card>, k: nat, len: nat, i: nat)
    requires i < |v| && Boundary(v, i)
    requires RankEq(v[i], Card(Spade, 2)) || RankEq(v[i], Card(BlackJoker, -1)) || RankEq(v[i], Card(RedJoker, -1))
    ensures RunsFrom(v, k, len, RunStops(), i) == []
  {
    StopsAtRunStops(v[i]);
  }

  /** The scan goes on at any other rank start. */
  lemma RunsGo(v: seq<Card>, k: nat, len: nat, i: nat)
    requires i < |v| && Boundary(v, i)
    requires !(RankEq(v[i], Card(Spade, 2)) || RankEq(v[i], Card(BlackJoker, -1)) || RankEq(v[i], Card(RedJoker, -1)))
    ensures RunsFrom(v, k, len, RunStops(), i)
            == (if RunFrom(v, i, k, len).Some? then [RunFrom(v, i, k, len).value] else [])
               + RunsFrom(v, k, len, RunStops(), i + 1)
  {
    StopsAtRunStops(v[i]);
    RunsFromStep(v, k, len, RunStops(), i);
  }

  lemma {:induction false} RunsSkip(v: seq<Card>, k: nat, len: nat, stops: seq<Card>, i: nat, j: nat)
    requires i <= j <= |v|
    requires forall m :: i <= m < j ==> !Boundary(v, m)
    ensures RunsFrom(v, k, len, stops, i) == RunsFrom(v, k, len, stops, j)
    decreases j - i
  {
    if i < j {
      RunsSkip(v, k, len, stops, i + 1, j);
    }
  }

  /** Jumping to the next rank passes over no run, and lands on a rank start. */
  lemma RunsNext(v: seq<Card>, k: nat, len: nat, i: nat)
    requires i < |v|
    ensures RunsFrom(v, k, len, RunStops(), i + 1) == RunsFrom(v, k, len, RunStops(), NextRank(v, i))
    ensures NextRank(v, i) < |v| ==> Boundary(v, NextRank(v, i))
  {
    NextRankIsNextBoundary(v, i);
    RunsSkip(v, k, len, RunStops(), i + 1, NextRank(v, i));
  }

  /**
   * One block of the run scan, seen from the whole: if the scan so far collected
   * `before` and the whole is `before` followed by the run from position p, then
   * a missing block makes the whole fail, the last block completes it, and any
   * other block either passes the scan on to the next rank or makes it fail.
   */
  lemma CollectStep(v: seq<Card>, k: nat, p: nat, need: nat, before: seq<Card>, whole: Option<seq<Card>>)
    requires p < |v| && need >= 1
    requires whole == Prepend(before, RunFrom(v, p, k, need))
    ensures !BlockAt(v, p, k) ==> whole == None
    ensures BlockAt(v, p, k) && need == 1 ==> whole == Some(before + v[p..p + k])
    ensures BlockAt(v, p, k) && need >= 2 && NextRank(v, p) < |v| && OneBelow(v[p], v[NextRank(v, p)])
            ==> whole == Prepend(before + v[p..p + k], RunFrom(v, NextRank(v, p), k, need - 1))
    ensures BlockAt(v, p, k) && need >= 2 && !(NextRank(v, p) < |v| && OneBelow(v[p], v[NextRank(v, p)]))
            ==> whole == None
  {
    if BlockAt(v, p, k) && need >= 2 && NextRank(v, p) < |v| && OneBelow(v[p], v[NextRank(v, p)]) {
      PrependAssoc(before, v[p..p + k], RunFrom(v, NextRank(v, p), k, need - 1));
    }
  }

  /**
   * The innermost loop of get_sequence: count up to k cards of the rank at position
   * first, and hand back those k cards when there are that many.
   */
  method CountBlock(v: seq<Card>, first: nat, k: nat) returns (numTemp: nat, block: seq<Card>)
    requires first < |v|
    ensures numTemp == k <==> BlockAt(v, first, k)
    ensures numTemp == k ==> block == v[first..first + k]
  {
    numTemp := 0;
    block := [];
    var second: nat := first;
    // The source reads current[second] without a bound: the model stops at the end of the hand.
    while second < |v| && RankEq(v[first], v[second])
      invariant first <= second <= |v|
      invariant numTemp == second - first
      invariant k == 0 || numTemp < k
      invariant forall m :: first <= m < second ==> RankEq(v[m], v[first])
    {
      numTemp := numTemp + 1;
      second := second + 1;
      if numTemp == k {
        block := v[first..second];
        return;
      }
    }
  }

  /** No rank after the first is the three: what a sorted hand guarantees to `card - 1`. */
  predicate ThreesFirst(v: seq<Card>)
  {
    forall i :: 0 < i < |v| && Boundary(v, i) ==> v[i].number != 3
  }

  lemma SortedThreesFirst(v: seq<Card>)
    requires Sorted(v) && AllValid(v)
    ensures ThreesFirst(v)
  {
    forall i | 0 < i < |v| && Boundary(v, i)
      ensures v[i].number != 3
    {
      SortedBoundaryAbove(v, 0, i);
      AboveIsNotThree(v[0], v[i]);
    }
  }

  /**
   * The step between two ranks of get_sequence: jump to the next rank and test
   * whether it is one rank above the current one.
   */
  method NextJoins(v: seq<Card>, first: nat) returns (next: nat, joins: bool)
    requires ThreesFirst(v) && first < |v|
    ensures next == NextRank(v, first)
    ensures joins <==> next < |v| && OneBelow(v[first], v[next])
  {
    next := JumpToNextNumber(v, first);
    // The source reads current[index_temp] even at the end of the hand: the model stops there.
    if next == |v| {
      return next, false;
    }
    NextRankIsNextBoundary(v, first);
    joins := !Neq(v[first], Minus(v[next], 1));
  }

  /**
   * The inner loops of get_sequence for one starting position (Strategy.cpp:39-70):
   * count k cards of the current rank, move to the next rank, and continue while
   * it is one rank higher, until `len` blocks are collected.
   */
  method CollectRun(v: seq<Card>, index: nat, k: nat, len: nat) returns (temp: seq<Card>, lengthTemp: nat)
    requires ThreesFirst(v) && index < |v|
    ensures lengthTemp == len <==> RunFrom(v, index, k, len).Some?
    ensures lengthTemp == len ==> temp == RunFrom(v, index, k, len).value
  {
    temp := [];
    lengthTemp := 0;
    var indexTemp: nat := index;
    PrependEmpty(RunFrom(v, index, k, len));
    while lengthTemp < len
      invariant lengthTemp <= len && indexTemp <= |v|
      invariant lengthTemp < len ==> indexTemp < |v|
      invariant lengthTemp < len ==> RunFrom(v, index, k, len) == Prepend(temp, RunFrom(v, indexTemp, k, len - lengthTemp))
      invariant lengthTemp == len ==> RunFrom(v, index, k, len) == Some(temp)
    {
      var first: nat := indexTemp;
      CollectStep(v, k, first, len - lengthTemp, temp, RunFrom(v, index, k, len));
      var numTemp, block := CountBlock(v, first, k);
      if numTemp != k {
        break;
      }
      temp := temp + block;
      lengthTemp := lengthTemp + 1;
      var joins;
      indexTemp, joins := NextJoins(v, first);
      if !joins {
        break;
      }
    }
  }

  /**
   * get_sequence: for every rank start below the first stop card (a two or a
   * joker), the run of `len` consecutive ranks with k cards each that starts there.
   */
  method GetSequence(v: seq<Card>, k: nat, len: nat) returns (ans: seq<seq<Card>>)
    requires Sorted(v) && AllValid(v)
    ensures ans == Runs(v, k, len)
  {
    SortedThreesFirst(v);
    ans := [];
    var index := 0;
    while index < |v|
      invariant index <= |v|
      invariant index < |v| ==> Boundary(v, index)
      invariant ans + RunsFrom(v, k, len, RunStops(), index) == Runs(v, k, len)
    {
      if RankEq(v[index], Card(Spade, 2)) || RankEq(v[index], Card(BlackJoker, -1))
         || RankEq(v[index], Card(RedJoker, -1))
      {
        RunsStop(v, k, len, index);
        break;
      }
      ghost var rest := RunsFrom(v, k, len, RunStops(), index + 1);
      RunsGo(v, k, len, index);
      var temp, lengthTemp := CollectRun(v, index, k, len);
      if lengthTemp == len {
        assert RunsFrom(v, k, len, RunStops(), index) == [temp] + rest;
        assert (ans + [temp]) + rest == ans + ([temp] + rest);
        ans := ans + [temp];
      } else {
        assert RunsFrom(v, k, len, RunStops(), index) == [] + rest;
        assert [] + rest == rest;
      }
      assert ans + rest == Runs(v, k, len);
      var next := JumpToNextNumber(v, index);
      RunsNext(v, k, len, index);
      index := next;
    }
  }

  // ---------------------------------------------------------------------------
  // What the runs are
  // ---------------------------------------------------------------------------

  /**
   * r is `need` blocks of k cards: each block of one rank, and each block's rank
   * one key above the previous block's.
   */
  predicate IsRun(r: seq<Card>, k: nat, need: nat)
    decreases need
  {
    if need == 0 then r == []
    else
      k >= 1 && |r| >= k && (forall m :: 0 <= m < k ==> RankEq(r[m], r[0]))
      && if need == 1 then |r| == k
         else |r| > k && NextKey(r[0], r[k]) && IsRun(r[k..], k, need - 1)
  }

  /** A run the scan builds has k * need valid cards, the first of them the card at p. */
  lemma {:induction false} RunFromCards(v: seq<Card>, p: nat, k: nat, need: nat)
    requires AllValid(v) && p <= |v|
    requires RunFrom(v, p, k, need).Some?
    ensures |RunFrom(v, p, k, need).value| == k * need
    ensures need >= 1 ==> RunFrom(v, p, k, need).value[0] == v[p]
    ensures AllValid(RunFrom(v, p, k, need).value)
    decreases need
  {
    if need == 1 {
      assert RunFrom(v, p, k, need).value == v[p..p + k];
    } else if need >= 2 {
      var q := NextRank(v, p);
      RunFromCards(v, q, k, need - 1);
      var r := v[p..p + k] + RunFrom(v, q, k, need - 1).value;
      assert RunFrom(v, p, k, need).value == r;
    }
  }

  /** The first k cards of a block found at p share one rank. */
  lemma BlockSameRank(v: seq<Card>, p: nat, k: nat, r: seq<Card>)
    requires p <= |v| && BlockAt(v, p, k) && |r| >= k && r[..k] == v[p..p + k]
    ensures forall m :: 0 <= m < k ==> RankEq(r[m], r[0])
  {
    forall m | 0 <= m < k
      ensures RankEq(r[m], r[0])
    {
      assert r[m] == r[..k][m] == v[p + m];
      assert r[0] == r[..k][0] == v[p];
    }
  }

  /** A run the scan builds has the run shape, k * need cards, starts at p and is made of valid cards. */
  lemma {:induction false} RunFromIsRun(v: seq<Card>, p: nat, k: nat, need: nat)
    requires AllValid(v) && p <= |v|
    requires RunFrom(v, p, k, need).Some?
    ensures IsRun(RunFrom(v, p, k, need).value, k, need)
    ensures |RunFrom(v, p, k, need).value| == k * need
    ensures need >= 1 ==> RunFrom(v, p, k, need).value[0] == v[p]
    ensures AllValid(RunFrom(v, p, k, need).value)
    decreases need
  {
    RunFromCards(v, p, k, need);
    var r := RunFrom(v, p, k, need).value;
    if need == 1 {
      BlockSameRank(v, p, k, r);
    } else if need >= 2 {
      var q := NextRank(v, p);
      var rest := RunFrom(v, q, k, need - 1).value;
      RunFromIsRun(v, q, k, need - 1);
      assert r == v[p..p + k] + rest;
      assert r[..k] == v[p..p + k] && r[k..] == rest;
      BlockSameRank(v, p, k, r);
      OneBelowIsNextKey(v[p], v[q]);
    }
  }

  /** Under the intended stop cards, a valid card stops the scan exactly when it is a two or a joker. */
  lemma StopsAtTwoOrJoker(c: Card)
    requires Valid(c)
    ensures StopsAt(c, RunStops()) <==> Rank(c) >= 15
  {
    StopsAtRunStops(c);
  }

  /** Under the stop cards as written, a valid card stops the scan exactly when it is a two, a five or a six. */
  lemma AsWrittenStopsAtFiveAndSix(c: Card)
    requires Valid(c)
    ensures StopsAt(c, AsWrittenRunStops()) <==> !IsJoker(c) && (c.number == 2 || c.number == 5 || c.number == 6)
  {
    var st := AsWrittenRunStops();
    assert st == [Card(Spade, 2), Card(Spade, 5), Card(Spade, 6)];
    assert st[0] in st && st[1] in st && st[2] in st;
  }

  /** Every run found starts at a rank start below the two and is what RunFrom builds there. */
  lemma {:induction false} RunsSound(v: seq<Card>, k: nat, len: nat, i: nat)
    requires AllValid(v) && i <= |v|
    ensures forall r :: r in RunsFrom(v, k, len, RunStops(), i) ==>
              exists s :: i <= s < |v| && Boundary(v, s) && Rank(v[s]) < 15 && RunFrom(v, s, k, len) == Some(r)
    decreases |v| - i
  {
    if i < |v| {
      RunsSound(v, k, len, i + 1);
      var rest := RunsFrom(v, k, len, RunStops(), i + 1);
      if Boundary(v, i) && !StopsAt(v[i], RunStops()) {
        StopsAtTwoOrJoker(v[i]);
        RunsFromStep(v, k, len, RunStops(), i);
        forall r | r in RunsFrom(v, k, len, RunStops(), i)
          ensures exists s :: i <= s < |v| && Boundary(v, s) && Rank(v[s]) < 15 && RunFrom(v, s, k, len) == Some(r)
        {
          if r !in rest {
            assert RunFrom(v, i, k, len) == Some(r);
          }
        }
      }
    }
  }

  /** A run built at a rank start is found by any scan that meets no stop card before reaching it. */
  lemma {:induction false} RunsReach(v: seq<Card>, k: nat, len: nat, i: nat, s: nat)
    requires i <= s < |v| && Boundary(v, s) && RunFrom(v, s, k, len).Some?
    requires forall m :: i <= m <= s && Boundary(v, m) ==> !StopsAt(v[m], RunStops())
    ensures RunFrom(v, s, k, len).value in RunsFrom(v, k, len, RunStops(), i)
    decreases s - i
  {
    if i == s {
      RunsFromStep(v, k, len, RunStops(), s);
    } else {
      RunsReach(v, k, len, i + 1, s);
      if Boundary(v, i) {
        RunsFromStep(v, k, len, RunStops(), i);
      }
    }
  }

  /**
   * In a sorted hand every rank start below the two from which a run can be built
   * yields that run: the scan misses nothing.
   */
  lemma RunsComplete(v: seq<Card>, k: nat, len: nat, i: nat, s: nat)
    requires Sorted(v) && AllValid(v)
    requires i <= s < |v| && Boundary(v, s) && Rank(v[s]) < 15 && RunFrom(v, s, k, len).Some?
    ensures RunFrom(v, s, k, len).value in RunsFrom(v, k, len, RunStops(), i)
  {
    forall m | i <= m <= s && Boundary(v, m)
      ensures !StopsAt(v[m], RunStops())
    {
      if m < s {
        SortedBoundaryAbove(v, m, s);
        LessIsRankOrder(v[m], v[s]);
      }
      StopsAtTwoOrJoker(v[m]);
    }
    RunsReach(v, k, len, i, s);
  }

  /** The runs found: run-shaped, of k * len cards, each starting below the two. */
  lemma RunsAreRuns(v: seq<Card>, k: nat, len: nat)
    requires AllValid(v) && len >= 1
    ensures forall r :: r in Runs(v, k, len) ==>
              IsRun(r, k, len) && |r| == k * len && AllValid(r) && Rank(r[0]) < 15
  {
    RunsSound(v, k, len, 0);
    forall r | r in Runs(v, k, len)
      ensures IsRun(r, k, len) && |r| == k * len && AllValid(r) && Rank(r[0]) < 15
    {
      var s :| 0 <= s < |v| && Boundary(v, s) && Rank(v[s]) < 15 && RunFrom(v, s, k, len) == Some(r);
      RunFromIsRun(v, s, k, len);
    }
  }

  /** Every run found has k * len cards, all taken from the hand. */
  lemma RunsWidth(v: seq<Card>, k: nat, len: nat)
    requires AllValid(v)
    ensures forall a :: 0 <= a < |Runs(v, k, len)| ==> |Runs(v, k, len)[a]| == k * len
    ensures forall a, x :: 0 <= a < |Runs(v, k, len)| && 0 <= x < |Runs(v, k, len)[a]| ==> Runs(v, k, len)[a][x] in v
  {
    RunsSound(v, k, len, 0);
    forall a | 0 <= a < |Runs(v, k, len)|
      ensures |Runs(v, k, len)[a]| == k * len
      ensures forall x :: 0 <= x < |Runs(v, k, len)[a]| ==> Runs(v, k, len)[a][x] in v
    {
      var r := Runs(v, k, len)[a];
      assert r in Runs(v, k, len);
      var s :| 0 <= s < |v| && Boundary(v, s) && Rank(v[s]) < 15 && RunFrom(v, s, k, len) == Some(r);
      RunFromIsRun(v, s, k, len);
      RunFromInHand(v, s, k, len);
    }
  }

  /** Whatever the stop cards, every run found has k * len cards. */
  lemma {:induction false} RunsFromWidth(v: seq<Card>, k: nat, len: nat, stops: seq<Card>, i: nat)
    requires AllValid(v) && i <= |v|
    ensures forall a :: 0 <= a < |RunsFrom(v, k, len, stops, i)| ==> |RunsFrom(v, k, len, stops, i)[a]| == k * len
    decreases |v| - i
  {
    if i < |v| {
      RunsFromWidth(v, k, len, stops, i + 1);
      if Boundary(v, i) && !StopsAt(v[i], stops) && RunFrom(v, i, k, len).Some? {
        RunFromCards(v, i, k, len);
        RunsFromStep(v, k, len, stops, i);
      }
    }
  }

  /** The cards of a run are cards of the hand. */
  lemma {:induction false} RunFromInHand(v: seq<Card>, p: nat, k: nat, need: nat)
    requires p <= |v| && RunFrom(v, p, k, need).Some?
    ensures forall x :: 0 <= x < |RunFrom(v, p, k, need).value| ==> RunFrom(v, p, k, need).value[x] in v
    decreases need
  {
    var r := RunFrom(v, p, k, need).value;
    if need == 1 {
      assert r == v[p..p + k];
      assert forall x :: 0 <= x < |r| ==> r[x] == v[p + x];
    } else if need >= 2 {
      var q := NextRank(v, p);
      var rest := RunFrom(v, q, k, need - 1).value;
      RunFromInHand(v, q, k, need - 1);
      assert r == v[p..p + k] + rest;
      forall x | 0 <= x < |r|
        ensures r[x] in v
      {
        if x < k {
          assert r[x] == v[p + x];
        } else {
          assert r[x] == rest[x - k];
        }
      }
    }
  }

  /** Every group has n cards, all taken from the hand. */
  lemma GroupsWidth(v: seq<Card>, n: nat)
    ensures forall a :: 0 <= a < |Groups(v, n)| ==> |Groups(v, n)[a]| == n
    ensures forall a, x :: 0 <= a < |Groups(v, n)| && 0 <= x < |Groups(v, n)[a]| ==> Groups(v, n)[a][x] in v
  {
    GroupsAreWindows(v, n, 0);
    forall a | 0 <= a < |Groups(v, n)|
      ensures |Groups(v, n)[a]| == n
      ensures forall x :: 0 <= x < |Groups(v, n)[a]| ==> Groups(v, n)[a][x] in v
    {
      var g := Groups(v, n)[a];
      assert g in Groups(v, n);
      var s :| 0 <= s < |v| && Boundary(v, s) && HasN(v, s, n) && g == v[s..s + n];
      assert forall x :: 0 <= x < |g| ==> g[x] == v[s + x];
    }
  }

  /** Five spades from five to nine: a straight that starts at a five. */
  function FiveToNine(): seq<Card>
  {
    [Card(Spade, 5), Card(Spade, 6), Card(Spade, 7), Card(Spade, 8), Card(Spade, 9)]
  }

  lemma FiveToNineSorted()
    ensures Sorted(FiveToNine()) && AllValid(FiveToNine())
  {
  }

  /** From the five, the run of five ranks is the whole straight. */
  lemma FiveToNineRunFrom()
    ensures RunFrom(FiveToNine(), 0, 1, 5) == Some(FiveToNine())
  {
    var v := FiveToNine();
    assert HasN(v, 4, 1) && v[4..5] == v[4..];
    assert RunFrom(v, 4, 1, 1) == Some(v[4..]);
    assert NextRank(v, 3) == 4 && v[3..4] + v[4..] == v[3..];
    assert RunFrom(v, 3, 1, 2) == Some(v[3..]);
    assert NextRank(v, 2) == 3 && v[2..3] + v[3..] == v[2..];
    assert RunFrom(v, 2, 1, 3) == Some(v[2..]);
    assert NextRank(v, 1) == 2 && v[1..2] + v[2..] == v[1..];
    assert RunFrom(v, 1, 1, 4) == Some(v[1..]);
    assert NextRank(v, 0) == 1 && v[0..1] + v[1..] == v;
  }

  /**
   * The stop cards as written end the scan at the first five or six: the straight
   * from five to nine is not found, while the intended scan finds it.
   */
  lemma AsWrittenMissesFiveToNine()
    ensures RunsAsWritten(FiveToNine(), 1, 5) == []
    ensures FiveToNine() in Runs(FiveToNine(), 1, 5)
  {
    var v := FiveToNine();
    AsWrittenStopsAtFiveAndSix(v[0]);
    FiveToNineSorted();
    FiveToNineRunFrom();
    RunsComplete(v, 1, 5, 0, 0);
  }
}
