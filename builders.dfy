/**
 * get_possible_move_by_type: every play of one shape that a hand can make. The
 * loops of the source are specified by functions that grow one loop step at a
 * time (so that a loop invariant can name a prefix of them), and each of those
 * functions is characterised by a membership lemma that says which plays it holds.
 */
module Builders {
  import opened Options
  import opened Cards
  import opened PlayTypes
  import opened HandScan
  import opened Finders

  /** Every group in gs has at least w cards. */
  predicate AllAtLeast(gs: seq<seq<Card>>, w: nat)
  {
    forall i :: 0 <= i < |gs| ==> |gs[i]| >= w
  }

  /** How many base cards the clash test reads: the first, and for an airplane also the fourth. */
  function Reach(wings: bool): nat
  {
    if wings then 4 else 1
  }

  /**
   * An attachment clashes with a base when its first card has the rank of the
   * base's first card, or, for an airplane, of the base's fourth card (the second triple).
   */
  predicate Clashes(b: seq<Card>, o: seq<Card>, wings: bool)
    requires |b| >= Reach(wings) && |o| >= 1
  {
    RankEq(b[0], o[0]) || (wings && RankEq(b[3], o[0]))
  }

  /** The attachment a group gives: its first card alone (three-with-one) or the whole group. */
  function Attachment(o: seq<Card>, firstOnly: bool): (r: seq<Card>)
    requires |o| >= 1
    ensures firstOnly ==> |r| == 1 && r[0] == o[0]
    ensures !firstOnly ==> r == o
  {
    if firstOnly then [o[0]] else o
  }

  // ---------------------------------------------------------------------------
  // Plain plays: one group, no attachment
  // ---------------------------------------------------------------------------

  /** The plays of shape t made of the first n groups, in order, without attachments. */
  function Plain(t: PlayType, gs: seq<seq<Card>>, n: nat): seq<CardSet>
    requires n <= |gs|
  {
    if n == 0 then [] else Plain(t, gs, n - 1) + [NewCardSet(t, gs[n - 1])]
  }

  /** The i-th plain play is the i-th group played as shape t. */
  lemma {:induction false} PlainIsGroupwise(t: PlayType, gs: seq<seq<Card>>, n: nat)
    requires n <= |gs|
    ensures |Plain(t, gs, n)| == n
    ensures forall i :: 0 <= i < n ==> Plain(t, gs, n)[i] == CardSet(t, gs[i], [])
  {
    if n > 0 {
      PlainIsGroupwise(t, gs, n - 1);
    }
  }

  /** The loop `for r in ret: ans.push_back(CardSet(type, r))`. */
  method PlainMoves(t: PlayType, gs: seq<seq<Card>>) returns (ans: seq<CardSet>)
    ensures ans == Plain(t, gs, |gs|)
  {
    ans := [];
    var i := 0;
    while i < |gs|
      invariant i <= |gs|
      invariant ans == Plain(t, gs, i)
    {
      ans := ans + [NewCardSet(t, gs[i])];
      i := i + 1;
    }
  }

  // ---------------------------------------------------------------------------
  // One attachment per play
  // ---------------------------------------------------------------------------

  /** For base b, one play per attachment among the first m that does not clash with it. */
  function OneRow(t: PlayType, b: seq<Card>, atts: seq<seq<Card>>, firstOnly: bool, wings: bool, m: nat): seq<CardSet>
    requires m <= |atts| && AllAtLeast(atts, 1) && |b| >= Reach(wings)
  {
    if m == 0 then []
    else
      OneRow(t, b, atts, firstOnly, wings, m - 1)
      + (if Clashes(b, atts[m - 1], wings) then [] else [CardSet(t, b, Attachment(atts[m - 1], firstOnly))])
  }

  /** The rows of the first n bases, one after another. */
  function OneAll(t: PlayType, bases: seq<seq<Card>>, atts: seq<seq<Card>>, firstOnly: bool, wings: bool, n: nat): seq<CardSet>
    requires n <= |bases| && AllAtLeast(atts, 1) && AllAtLeast(bases, Reach(wings))
  {
    if n == 0 then []
    else OneAll(t, bases, atts, firstOnly, wings, n - 1) + OneRow(t, bases[n - 1], atts, firstOnly, wings, |atts|)
  }

  /** A row holds exactly the plays of b with a non-clashing attachment among the first m. */
  lemma {:induction false} OneRowMembers(t: PlayType, b: seq<Card>, atts: seq<seq<Card>>, firstOnly: bool, wings: bool, m: nat)
    requires m <= |atts| && AllAtLeast(atts, 1) && |b| >= Reach(wings)
    ensures forall c :: c in OneRow(t, b, atts, firstOnly, wings, m) <==>
              exists j :: 0 <= j < m && !Clashes(b, atts[j], wings) && c == CardSet(t, b, Attachment(atts[j], firstOnly))
  {
    if m > 0 {
      OneRowMembers(t, b, atts, firstOnly, wings, m - 1);
    }
  }

  /** The plays with one attachment: every base paired with every attachment that does not clash with it. */
  lemma {:induction false} OneAllMembers(t: PlayType, bases: seq<seq<Card>>, atts: seq<seq<Card>>, firstOnly: bool, wings: bool, n: nat)
    requires n <= |bases| && AllAtLeast(atts, 1) && AllAtLeast(bases, Reach(wings))
    ensures forall c :: c in OneAll(t, bases, atts, firstOnly, wings, n) <==>
              exists i, j :: 0 <= i < n && 0 <= j < |atts| && !Clashes(bases[i], atts[j], wings)
                && c == CardSet(t, bases[i], Attachment(atts[j], firstOnly))
  {
    if n > 0 {
      OneAllMembers(t, bases, atts, firstOnly, wings, n - 1);
      OneRowMembers(t, bases[n - 1], atts, firstOnly, wings, |atts|);
    }
  }

  /** The inner loop over the attachments for one base. */
  method OneRowMoves(t: PlayType, b: seq<Card>, atts: seq<seq<Card>>, firstOnly: bool, wings: bool) returns (row: seq<CardSet>)
    requires AllAtLeast(atts, 1) && |b| >= Reach(wings)
    ensures row == OneRow(t, b, atts, firstOnly, wings, |atts|)
  {
    row := [];
    var o := 0;
    while o < |atts|
      invariant o <= |atts|
      invariant row == OneRow(t, b, atts, firstOnly, wings, o)
    {
      if !(RankEq(b[0], atts[o][0]) || (wings && RankEq(b[3], atts[o][0]))) {
        var temp := if firstOnly then [atts[o][0]] else atts[o];
        row := row + [CardSet(t, b, temp)];
      }
      o := o + 1;
    }
  }

  /** The nested loops of the three-with-one, three-with-two and airplane-wing cases. */
  method OneAttachMoves(t: PlayType, bases: seq<seq<Card>>, atts: seq<seq<Card>>, firstOnly: bool, wings: bool)
    returns (ans: seq<CardSet>)
    requires AllAtLeast(atts, 1) && AllAtLeast(bases, Reach(wings))
    ensures ans == OneAll(t, bases, atts, firstOnly, wings, |bases|)
  {
    ans := [];
    var i := 0;
    while i < |bases|
      invariant i <= |bases|
      invariant ans == OneAll(t, bases, atts, firstOnly, wings, i)
    {
      var row := OneRowMoves(t, bases[i], atts, firstOnly, wings);
      ans := ans + row;
      i := i + 1;
    }
  }

  // ---------------------------------------------------------------------------
  // Two attachments per play
  // ---------------------------------------------------------------------------

  /** For base b and first attachment o1: one play per later attachment o2 < m, unless either clashes. */
  function PairsTo(t: PlayType, b: seq<Card>, atts: seq<seq<Card>>, wings: bool, o1: nat, m: nat): seq<CardSet>
    requires o1 < m <= |atts| && AllAtLeast(atts, 1) && |b| >= Reach(wings)
    decreases m
  {
    if m == o1 + 1 then []
    else
      PairsTo(t, b, atts, wings, o1, m - 1)
      + (if Clashes(b, atts[o1], wings) || Clashes(b, atts[m - 1], wings) then []
         else [CardSet(t, b, atts[o1] + atts[m - 1])])
  }

  /** For base b, the pairs whose first attachment is among the first m. */
  function TwoRow(t: PlayType, b: seq<Card>, atts: seq<seq<Card>>, wings: bool, m: nat): seq<CardSet>
    requires m <= |atts| && AllAtLeast(atts, 1) && |b| >= Reach(wings)
  {
    if m == 0 then [] else TwoRow(t, b, atts, wings, m - 1) + PairsTo(t, b, atts, wings, m - 1, |atts|)
  }

  /** The rows of the first n bases, one after another. */
  function TwoAll(t: PlayType, bases: seq<seq<Card>>, atts: seq<seq<Card>>, wings: bool, n: nat): seq<CardSet>
    requires n <= |bases| && AllAtLeast(atts, 1) && AllAtLeast(bases, Reach(wings))
  {
    if n == 0 then [] else TwoAll(t, bases, atts, wings, n - 1) + TwoRow(t, bases[n - 1], atts, wings, |atts|)
  }

  lemma {:induction false} PairsToMembers(t: PlayType, b: seq<Card>, atts: seq<seq<Card>>, wings: bool, o1: nat, m: nat)
    requires o1 < m <= |atts| && AllAtLeast(atts, 1) && |b| >= Reach(wings)
    ensures forall c :: c in PairsTo(t, b, atts, wings, o1, m) <==>
              exists j :: o1 < j < m && !Clashes(b, atts[o1], wings) && !Clashes(b, atts[j], wings)
                && c == CardSet(t, b, atts[o1] + atts[j])
    decreases m
  {
    if m > o1 + 1 {
      PairsToMembers(t, b, atts, wings, o1, m - 1);
    }
  }

  lemma {:induction false} TwoRowMembers(t: PlayType, b: seq<Card>, atts: seq<seq<Card>>, wings: bool, m: nat)
    requires m <= |atts| && AllAtLeast(atts, 1) && |b| >= Reach(wings)
    ensures forall c :: c in TwoRow(t, b, atts, wings, m) <==>
              exists j1, j2 :: 0 <= j1 < m && j1 < j2 < |atts|
                && !Clashes(b, atts[j1], wings) && !Clashes(b, atts[j2], wings)
                && c == CardSet(t, b, atts[j1] + atts[j2])
  {
    forall c | c in TwoRow(t, b, atts, wings, m)
      ensures exists j1, j2 :: 0 <= j1 < m && j1 < j2 < |atts|
                && !Clashes(b, atts[j1], wings) && !Clashes(b, atts[j2], wings)
                && c == CardSet(t, b, atts[j1] + atts[j2])
    {
      TwoRowSound(t, b, atts, wings, m, c);
    }
    forall c, j1, j2 | 0 <= j1 < m && j1 < j2 < |atts|
        && !Clashes(b, atts[j1], wings) && !Clashes(b, atts[j2], wings)
        && c == CardSet(t, b, atts[j1] + atts[j2])
      ensures c in TwoRow(t, b, atts, wings, m)
    {
      TwoRowComplete(t, b, atts, wings, m, j1, j2);
    }
  }

  /** Every play of a row pairs the base with two ordered, non-clashing groups. */
  lemma {:induction false} TwoRowSound(t: PlayType, b: seq<Card>, atts: seq<seq<Card>>, wings: bool, m: nat, c: CardSet)
    requires m <= |atts| && AllAtLeast(atts, 1) && |b| >= Reach(wings)
    requires c in TwoRow(t, b, atts, wings, m)
    ensures exists j1, j2 :: 0 <= j1 < m && j1 < j2 < |atts|
              && !Clashes(b, atts[j1], wings) && !Clashes(b, atts[j2], wings)
              && c == CardSet(t, b, atts[j1] + atts[j2])
  {
    var prev, last := TwoRow(t, b, atts, wings, m - 1), PairsTo(t, b, atts, wings, m - 1, |atts|);
    assert TwoRow(t, b, atts, wings, m) == prev + last;
    if c in prev {
      TwoRowSound(t, b, atts, wings, m - 1, c);
    } else {
      PairsToSound(t, b, atts, wings, m - 1, c);
    }
  }

  /** A play of the pairs after o1 takes o1 and some later group, neither clashing. */
  lemma PairsToSound(t: PlayType, b: seq<Card>, atts: seq<seq<Card>>, wings: bool, o1: nat, c: CardSet)
    requires o1 < |atts| && AllAtLeast(atts, 1) && |b| >= Reach(wings)
    requires c in PairsTo(t, b, atts, wings, o1, |atts|)
    ensures exists j2 :: o1 < j2 < |atts| && !Clashes(b, atts[o1], wings) && !Clashes(b, atts[j2], wings)
              && c == CardSet(t, b, atts[o1] + atts[j2])
  {
    PairsToMembers(t, b, atts, wings, o1, |atts|);
  }

  /** Every base with two ordered, non-clashing groups, the first among the first m, is in the row. */
  lemma {:induction false} TwoRowComplete(t: PlayType, b: seq<Card>, atts: seq<seq<Card>>, wings: bool, m: nat, j1: nat, j2: nat)
    requires m <= |atts| && AllAtLeast(atts, 1) && |b| >= Reach(wings)
    requires j1 < m && j1 < j2 < |atts| && !Clashes(b, atts[j1], wings) && !Clashes(b, atts[j2], wings)
    ensures CardSet(t, b, atts[j1] + atts[j2]) in TwoRow(t, b, atts, wings, m)
  {
    var prev, last := TwoRow(t, b, atts, wings, m - 1), PairsTo(t, b, atts, wings, m - 1, |atts|);
    assert TwoRow(t, b, atts, wings, m) == prev + last;
    if j1 < m - 1 {
      TwoRowComplete(t, b, atts, wings, m - 1, j1, j2);
    } else {
      PairsToMembers(t, b, atts, wings, m - 1, |atts|);
      assert CardSet(t, b, atts[j1] + atts[j2]) in last;
    }
  }

  /**
   * The plays with two attachments: every base with every two attachments taken
   * in order from different groups, neither of which clashes with the base.
   */
  lemma {:induction false} TwoAllMembers(t: PlayType, bases: seq<seq<Card>>, atts: seq<seq<Card>>, wings: bool, n: nat)
    requires n <= |bases| && AllAtLeast(atts, 1) && AllAtLeast(bases, Reach(wings))
    ensures forall c :: c in TwoAll(t, bases, atts, wings, n) <==>
              exists i, j1, j2 :: 0 <= i < n && 0 <= j1 < j2 < |atts|
                && !Clashes(bases[i], atts[j1], wings) && !Clashes(bases[i], atts[j2], wings)
                && c == CardSet(t, bases[i], atts[j1] + atts[j2])
  {
    if n > 0 {
      TwoAllMembers(t, bases, atts, wings, n - 1);
      TwoRowMembers(t, bases[n - 1], atts, wings, |atts|);
    }
  }

  /** The innermost loop: the second attachments after o1 for one base and first attachment. */
  method PairsToMoves(t: PlayType, b: seq<Card>, atts: seq<seq<Card>>, wings: bool, o1: nat) returns (pairs: seq<CardSet>)
    requires o1 < |atts| && AllAtLeast(atts, 1) && |b| >= Reach(wings)
    ensures pairs == PairsTo(t, b, atts, wings, o1, |atts|)
  {
    pairs := [];
    var o2 := o1 + 1;
    while o2 < |atts|
      invariant o1 < o2 <= |atts|
      invariant pairs == PairsTo(t, b, atts, wings, o1, o2)
    {
      if !(RankEq(b[0], atts[o1][0]) || RankEq(b[0], atts[o2][0])
           || (wings && (RankEq(b[3], atts[o1][0]) || RankEq(b[3], atts[o2][0]))))
      {
        pairs := pairs + [CardSet(t, b, atts[o1] + atts[o2])];
      }
      o2 := o2 + 1;
    }
  }

  /** The two inner loops over pairs of attachments for one base. */
  method TwoRowMoves(t: PlayType, b: seq<Card>, atts: seq<seq<Card>>, wings: bool) returns (row: seq<CardSet>)
    requires AllAtLeast(atts, 1) && |b| >= Reach(wings)
    ensures row == TwoRow(t, b, atts, wings, |atts|)
  {
    row := [];
    var o1 := 0;
    while o1 < |atts|
      invariant o1 <= |atts|
      invariant row == TwoRow(t, b, atts, wings, o1)
    {
      var pairs := PairsToMoves(t, b, atts, wings, o1);
      row := row + pairs;
      o1 := o1 + 1;
    }
  }

  /** The nested loops of the four-with-two and airplane cases. */
  method TwoAttachMoves(t: PlayType, bases: seq<seq<Card>>, atts: seq<seq<Card>>, wings: bool) returns (ans: seq<CardSet>)
    requires AllAtLeast(atts, 1) && AllAtLeast(bases, Reach(wings))
    ensures ans == TwoAll(t, bases, atts, wings, |bases|)
  {
    ans := [];
    var i := 0;
    while i < |bases|
      invariant i <= |bases|
      invariant ans == TwoAll(t, bases, atts, wings, i)
    {
      var row := TwoRowMoves(t, bases[i], atts, wings);
      ans := ans + row;
      i := i + 1;
    }
  }

  // ---------------------------------------------------------------------------
  // The airplane wings as written
  // ---------------------------------------------------------------------------

  /**
   * The second loop of the airplane-with-singles case as Strategy.cpp:215-224
   * writes it: the clash test reads the pair two[o1], the play takes the single one[o1].
   */
  function WingRowAsWritten(t: PlayType, b: seq<Card>, one: seq<seq<Card>>, two: seq<seq<Card>>, m: nat): seq<CardSet>
    requires m <= |two| <= |one| && AllAtLeast(two, 1) && |b| >= 4
  {
    if m == 0 then []
    else
      WingRowAsWritten(t, b, one, two, m - 1)
      + (if Clashes(b, two[m - 1], true) then [] else [CardSet(t, b, one[m - 1])])
  }

  function WingsAsWritten(t: PlayType, bases: seq<seq<Card>>, one: seq<seq<Card>>, two: seq<seq<Card>>, n: nat): seq<CardSet>
    requires n <= |bases| && |two| <= |one| && AllAtLeast(two, 1) && AllAtLeast(bases, 4)
  {
    if n == 0 then [] else WingsAsWritten(t, bases, one, two, n - 1) + WingRowAsWritten(t, bases[n - 1], one, two, |two|)
  }

  // ---------------------------------------------------------------------------
  // The dispatch on the shape
  // ---------------------------------------------------------------------------

  /** Every group in gs has exactly w cards. */
  predicate AllExactly(gs: seq<seq<Card>>, w: nat)
  {
    forall i :: 0 <= i < |gs| ==> |gs[i]| == w
  }

  /** The two airplane bases: runs of two consecutive triples. */
  function Airplanes(v: seq<Card>): (r: seq<seq<Card>>)
    requires AllValid(v)
    ensures AllExactly(r, 6)
  {
    RunsWidth(v, 3, 2);
    Runs(v, 3, 2)
  }

  /** The airplane bases as the source finds them, with the run scan as written. */
  function AirplanesAsWritten(v: seq<Card>): (r: seq<seq<Card>>)
    requires AllValid(v)
    ensures AllExactly(r, 6)
  {
    RunsFromWidth(v, 3, 2, AsWrittenRunStops(), 0);
    RunsAsWritten(v, 3, 2)
  }

  /** The rocket: the last two cards when they are the red joker and, before it, the black joker. */
  function Rocket(v: seq<Card>, t: PlayType): seq<CardSet>
  {
    // The source reads the last two cards without checking that there are two.
    if |v| >= 2 && RankEq(v[|v| - 1], Card(RedJoker, -1)) && RankEq(v[|v| - 2], Card(BlackJoker, -1))
    then [NewCardSet(t, v[|v| - 2..])]
    else []
  }

  /** The runs of the shape's length; a negative length never equals the scan's unsigned counter. */
  function RunMoves(v: seq<Card>, t: PlayType, k: nat): seq<CardSet>
  {
    if t.length < 0 then [] else Plain(t, Runs(v, k, t.length), |Runs(v, k, t.length)|)
  }

  /** All plays of shape t the hand can make, in the order the source lists them. */
  function MovesByType(v: seq<Card>, t: PlayType): seq<CardSet>
    requires AllValid(v)
  {
    GroupsWidth(v, 1);
    GroupsWidth(v, 2);
    GroupsWidth(v, 3);
    GroupsWidth(v, 4);
    var g1 := Groups(v, 1);
    var g2 := Groups(v, 2);
    var g3 := Groups(v, 3);
    var g4 := Groups(v, 4);
    match t.tag
    case Single => Plain(t, g1, |g1|)
    case Double => Plain(t, g2, |g2|)
    case Triple => Plain(t, g3, |g3|)
    case SingleSeq => RunMoves(v, t, 1)
    case DoubleSeq => RunMoves(v, t, 2)
    case ThreeSeq => RunMoves(v, t, 3)
    case ThreeOne => OneAll(t, g3, g1, true, false, |g3|)
    case ThreeTwo => OneAll(t, g3, g2, false, false, |g3|)
    case FourTwoPair => TwoAll(t, g4, g2, false, |g4|)
    case FourTwoSingle => TwoAll(t, g4, g1, false, |g4|)
    case AirplaneSingle =>
      TwoAll(t, Airplanes(v), g1, true, |Airplanes(v)|) + OneAll(t, Airplanes(v), g2, false, true, |Airplanes(v)|)
    case AirplanePair => TwoAll(t, Airplanes(v), g2, true, |Airplanes(v)|)
    case Bomb => Plain(t, g4, |g4|)
    case UltraBomb => Rocket(v, t)
    case TypeStart => []
    case TypeEnd => []
  }

  /**
   * The airplane-with-singles plays as the source writes them: the bases come from
   * the run scan as written, and the second loop attaches the single in place of
   * the pair.
   */
  function AirplaneSingleAsWritten(v: seq<Card>, t: PlayType): seq<CardSet>
    requires AllValid(v)
  {
    GroupsWidth(v, 1);
    GroupsWidth(v, 2);
    GroupsCountMonotone(v, 1, 2, 0);
    var planes := AirplanesAsWritten(v);
    TwoAll(t, planes, Groups(v, 1), true, |planes|)
    + WingsAsWritten(t, planes, Groups(v, 1), Groups(v, 2), |planes|)
  }

  /**
   * get_possible_move_by_type on a sorted hand: the plays of shape t, as MovesByType
   * lists them.
   */
  method GetPossibleMoveByType(v: seq<Card>, t: PlayType) returns (ans: seq<CardSet>)
    requires Sorted(v) && AllValid(v)
    ensures ans == MovesByType(v, t)
  {
    GroupsWidth(v, 1);
    GroupsWidth(v, 2);
    GroupsWidth(v, 3);
    GroupsWidth(v, 4);
    match t.tag {
      case Single =>
        var ret := GetConsecutiveNCardsSet(v, 1);
        ans := PlainMoves(t, ret);
      case Double =>
        var ret := GetConsecutiveNCardsSet(v, 2);
        ans := PlainMoves(t, ret);
      case Triple =>
        var ret := GetConsecutiveNCardsSet(v, 3);
        ans := PlainMoves(t, ret);
      case SingleSeq =>
        ans := RunMovesOf(v, t, 1);
      case DoubleSeq =>
        ans := RunMovesOf(v, t, 2);
      case ThreeSeq =>
        ans := RunMovesOf(v, t, 3);
      case ThreeOne =>
        var three := GetConsecutiveNCardsSet(v, 3);
        var one := GetConsecutiveNCardsSet(v, 1);
        ans := OneAttachMoves(t, three, one, true, false);
      case ThreeTwo =>
        var three := GetConsecutiveNCardsSet(v, 3);
        var two := GetConsecutiveNCardsSet(v, 2);
        ans := OneAttachMoves(t, three, two, false, false);
      case FourTwoPair =>
        var four := GetConsecutiveNCardsSet(v, 4);
        var two := GetConsecutiveNCardsSet(v, 2);
        ans := TwoAttachMoves(t, four, two, false);
      case FourTwoSingle =>
        var four := GetConsecutiveNCardsSet(v, 4);
        var one := GetConsecutiveNCardsSet(v, 1);
        ans := TwoAttachMoves(t, four, one, false);
      case AirplaneSingle =>
        var threeTwo := GetSequence(v, 3, 2);
        assert threeTwo == Airplanes(v);
        var one := GetConsecutiveNCardsSet(v, 1);
        var withSingles := TwoAttachMoves(t, threeTwo, one, true);
        var two := GetConsecutiveNCardsSet(v, 2);
        var withPair := OneAttachMoves(t, threeTwo, two, false, true);
        ans := withSingles + withPair;
      case AirplanePair =>
        var threeTwo := GetSequence(v, 3, 2);
        assert threeTwo == Airplanes(v);
        var two := GetConsecutiveNCardsSet(v, 2);
        ans := TwoAttachMoves(t, threeTwo, two, true);
      case Bomb =>
        var ret := GetConsecutiveNCardsSet(v, 4);
        ans := PlainMoves(t, ret);
      case UltraBomb =>
        ans := [];
        if |v| >= 2 && RankEq(v[|v| - 1], Card(RedJoker, -1)) && RankEq(v[|v| - 2], Card(BlackJoker, -1)) {
          var rocket := v[|v| - 2..];
          ans := [NewCardSet(t, rocket)];
        }
      case TypeStart =>
        ans := [];
      case TypeEnd =>
        ans := [];
    }
  }

  /** The run cases: get_sequence with the shape's length, each run played as the shape. */
  method RunMovesOf(v: seq<Card>, t: PlayType, k: nat) returns (ans: seq<CardSet>)
    requires Sorted(v) && AllValid(v)
    ensures ans == RunMoves(v, t, k)
  {
    if t.length < 0 {
      ans := [];
    } else {
      var ret := GetSequence(v, k, t.length);
      ans := PlainMoves(t, ret);
    }
  }

  // ---------------------------------------------------------------------------
  // What the plays are
  // ---------------------------------------------------------------------------

  /** The number of base cards a play of shape t has. */
  function BaseSize(t: PlayType): int
  {
    match t.tag
    case Single => 1
    case Double => 2
    case Triple => 3
    case SingleSeq => t.length
    case DoubleSeq => 2 * t.length
    case ThreeSeq => 3 * t.length
    case ThreeOne => 3
    case ThreeTwo => 3
    case AirplaneSingle => 6
    case AirplanePair => 6
    case FourTwoSingle => 4
    case FourTwoPair => 4
    case Bomb => 4
    case UltraBomb => 2
    case TypeStart => 0
    case TypeEnd => 0
  }

  /** The number of attachment cards a play of shape t has. */
  function ExtraSize(t: PlayType): nat
  {
    match t.tag
    case ThreeOne => 1
    case ThreeTwo => 2
    case AirplaneSingle => 2
    case AirplanePair => 4
    case FourTwoSingle => 2
    case FourTwoPair => 4
    case _ => 0
  }

  /** Every group in gs is made of cards of the hand v. */
  predicate AllFrom(gs: seq<seq<Card>>, v: seq<Card>)
  {
    forall a, x :: 0 <= a < |gs| && 0 <= x < |gs[a]| ==> gs[a][x] in v
  }

  /** Every group in gs is of one rank. */
  predicate AllOneRank(gs: seq<seq<Card>>)
  {
    forall a, x :: 0 <= a < |gs| && 0 <= x < |gs[a]| ==> RankEq(gs[a][x], gs[a][0])
  }

  /** A play of shape t with the shape's card counts, every card taken from the hand. */
  predicate Fits(c: CardSet, t: PlayType, v: seq<Card>)
  {
    c.typ == t && |c.base| == BaseSize(t) && |c.extra| == ExtraSize(t)
    && (forall x :: 0 <= x < |c.base| ==> c.base[x] in v)
    && (forall x :: 0 <= x < |c.extra| ==> c.extra[x] in v)
  }

  /** No attachment card has the rank of the base's first card, nor for an airplane of its fourth. */
  predicate Apart(c: CardSet, wings: bool)
  {
    |c.base| >= Reach(wings)
    && forall x :: 0 <= x < |c.extra| ==>
         !RankEq(c.extra[x], c.base[0]) && (wings ==> !RankEq(c.extra[x], c.base[3]))
  }

  lemma PlainFits(t: PlayType, gs: seq<seq<Card>>, v: seq<Card>)
    requires BaseSize(t) >= 0 && AllExactly(gs, BaseSize(t)) && AllFrom(gs, v) && ExtraSize(t) == 0
    ensures forall c :: c in Plain(t, gs, |gs|) ==> Fits(c, t, v)
  {
    PlainIsGroupwise(t, gs, |gs|);
  }

  /** A card of the rank of o's first card, o being of one rank, is of o's rank. */
  lemma ApartFromGroup(b: Card, o: seq<Card>, x: nat)
    requires 0 <= x < |o| && RankEq(o[x], o[0]) && !RankEq(b, o[0])
    ensures !RankEq(o[x], b)
  {
    RankEqEquivalence(b, o[x], o[0]);
    RankEqEquivalence(o[x], b, o[0]);
  }

  lemma {:induction false} OneAllFits(t: PlayType, bases: seq<seq<Card>>, atts: seq<seq<Card>>, firstOnly: bool, wings: bool,
                                      aw: nat, v: seq<Card>)
    requires aw >= 1 && AllExactly(atts, aw) && AllFrom(atts, v) && AllOneRank(atts)
    requires BaseSize(t) >= Reach(wings) && AllExactly(bases, BaseSize(t)) && AllFrom(bases, v)
    requires ExtraSize(t) == if firstOnly then 1 else aw
    ensures forall c :: c in OneAll(t, bases, atts, firstOnly, wings, |bases|) ==> Fits(c, t, v) && Apart(c, wings)
  {
    OneAllMembers(t, bases, atts, firstOnly, wings, |bases|);
    forall c | c in OneAll(t, bases, atts, firstOnly, wings, |bases|)
      ensures Fits(c, t, v) && Apart(c, wings)
    {
      var i, j :| 0 <= i < |bases| && 0 <= j < |atts| && !Clashes(bases[i], atts[j], wings)
                  && c == CardSet(t, bases[i], Attachment(atts[j], firstOnly));
      forall x | 0 <= x < |c.extra|
        ensures c.extra[x] in v
        ensures !RankEq(c.extra[x], c.base[0]) && (wings ==> !RankEq(c.extra[x], c.base[3]))
      {
        var y := if firstOnly then 0 else x;
        assert c.extra[x] == atts[j][y];
        ApartFromGroup(bases[i][0], atts[j], y);
        if wings {
          ApartFromGroup(bases[i][3], atts[j], y);
        }
      }
    }
  }

  lemma {:induction false} TwoAllFits(t: PlayType, bases: seq<seq<Card>>, atts: seq<seq<Card>>, wings: bool,
                                      aw: nat, v: seq<Card>)
    requires aw >= 1 && AllExactly(atts, aw) && AllFrom(atts, v) && AllOneRank(atts)
    requires BaseSize(t) >= Reach(wings) && AllExactly(bases, BaseSize(t)) && AllFrom(bases, v)
    requires ExtraSize(t) == 2 * aw
    ensures forall c :: c in TwoAll(t, bases, atts, wings, |bases|) ==> Fits(c, t, v) && Apart(c, wings)
  {
    TwoAllMembers(t, bases, atts, wings, |bases|);
    forall c | c in TwoAll(t, bases, atts, wings, |bases|)
      ensures Fits(c, t, v) && Apart(c, wings)
    {
      var i, j1, j2 :| 0 <= i < |bases| && 0 <= j1 < j2 < |atts|
                       && !Clashes(bases[i], atts[j1], wings) && !Clashes(bases[i], atts[j2], wings)
                       && c == CardSet(t, bases[i], atts[j1] + atts[j2]);
      forall x | 0 <= x < |c.extra|
        ensures c.extra[x] in v
        ensures !RankEq(c.extra[x], c.base[0]) && (wings ==> !RankEq(c.extra[x], c.base[3]))
      {
        var j, y := if x < aw then j1 else j2, if x < aw then x else x - aw;
        assert c.extra[x] == atts[j][y];
        ApartFromGroup(bases[i][0], atts[j], y);
        if wings {
          ApartFromGroup(bases[i][3], atts[j], y);
        }
      }
    }
  }

  lemma GroupsFacts(v: seq<Card>, n: nat)
    ensures AllExactly(Groups(v, n), n) && AllFrom(Groups(v, n), v) && AllOneRank(Groups(v, n))
  {
    GroupsWidth(v, n);
    GroupsAreSameRank(v, n);
    forall a | 0 <= a < |Groups(v, n)|
      ensures forall x :: 0 <= x < |Groups(v, n)[a]| ==> RankEq(Groups(v, n)[a][x], Groups(v, n)[a][0])
    {
      assert Groups(v, n)[a] in Groups(v, n);
    }
  }

  lemma AirplanesFacts(v: seq<Card>)
    requires AllValid(v)
    ensures AllExactly(Airplanes(v), 6) && AllFrom(Airplanes(v), v)
  {
    RunsWidth(v, 3, 2);
  }

  /**
   * Every play of shape t has the shape's number of base cards and of attachment
   * cards, all drawn from the hand.
   */
  lemma MovesFit(v: seq<Card>, t: PlayType)
    requires AllValid(v)
    ensures forall c :: c in MovesByType(v, t) ==> Fits(c, t, v)
  {
    match t.tag {
      case SingleSeq => RunMovesFit(v, t, 1);
      case DoubleSeq => RunMovesFit(v, t, 2);
      case ThreeSeq => RunMovesFit(v, t, 3);
      case AirplaneSingle => PlaneMovesFit(v, t);
      case AirplanePair => PlaneMovesFit(v, t);
      case _ => GroupMovesFit(v, t);
    }
  }

  /** MovesFit for the shapes built from groups of one rank. */
  lemma GroupMovesFit(v: seq<Card>, t: PlayType)
    requires AllValid(v)
    requires t.tag !in {SingleSeq, DoubleSeq, ThreeSeq, AirplaneSingle, AirplanePair}
    ensures forall c :: c in MovesByType(v, t) ==> Fits(c, t, v)
  {
    GroupsFacts(v, 1);
    GroupsFacts(v, 2);
    GroupsFacts(v, 3);
    GroupsFacts(v, 4);
    var g1, g2, g3, g4 := Groups(v, 1), Groups(v, 2), Groups(v, 3), Groups(v, 4);
    match t.tag {
      case Single => PlainFits(t, g1, v);
      case Double => PlainFits(t, g2, v);
      case Triple => PlainFits(t, g3, v);
      case ThreeOne => OneAllFits(t, g3, g1, true, false, 1, v);
      case ThreeTwo => OneAllFits(t, g3, g2, false, false, 2, v);
      case FourTwoPair => TwoAllFits(t, g4, g2, false, 2, v);
      case FourTwoSingle => TwoAllFits(t, g4, g1, false, 1, v);
      case Bomb => PlainFits(t, g4, v);
      case UltraBomb =>
      case TypeStart =>
      case TypeEnd =>
    }
  }

  /** MovesFit for the three run shapes, whose k cards per rank are given. */
  lemma RunMovesFit(v: seq<Card>, t: PlayType, k: nat)
    requires AllValid(v)
    requires (t.tag == SingleSeq && k == 1) || (t.tag == DoubleSeq && k == 2) || (t.tag == ThreeSeq && k == 3)
    ensures forall c :: c in MovesByType(v, t) ==> Fits(c, t, v)
  {
    assert MovesByType(v, t) == RunMoves(v, t, k);
    if t.length >= 0 {
      RunsWidth(v, k, t.length);
      PlainFits(t, Runs(v, k, t.length), v);
    }
  }

  /** MovesFit for the two airplane shapes. */
  lemma PlaneMovesFit(v: seq<Card>, t: PlayType)
    requires AllValid(v) && (t.tag == AirplaneSingle || t.tag == AirplanePair)
    ensures forall c :: c in MovesByType(v, t) ==> Fits(c, t, v)
  {
    GroupsFacts(v, 1);
    GroupsFacts(v, 2);
    AirplanesFacts(v);
    var g1, g2 := Groups(v, 1), Groups(v, 2);
    if t.tag == AirplaneSingle {
      TwoAllFits(t, Airplanes(v), g1, true, 1, v);
      OneAllFits(t, Airplanes(v), g2, false, true, 2, v);
    } else {
      TwoAllFits(t, Airplanes(v), g2, true, 2, v);
    }
  }

  /**
   * In every play with attachments no attachment card shares the rank of the
   * base's first card, nor, for an airplane, of the base's second triple.
   */
  lemma MovesKeepAttachmentsApart(v: seq<Card>, t: PlayType)
    requires AllValid(v) && HasExtraTag(t.tag)
    ensures forall c :: c in MovesByType(v, t) ==>
              Apart(c, t.tag == AirplaneSingle || t.tag == AirplanePair)
  {
    GroupsFacts(v, 1);
    GroupsFacts(v, 2);
    GroupsFacts(v, 3);
    GroupsFacts(v, 4);
    var g1, g2, g3, g4 := Groups(v, 1), Groups(v, 2), Groups(v, 3), Groups(v, 4);
    match t.tag {
      case ThreeOne => OneAllFits(t, g3, g1, true, false, 1, v);
      case ThreeTwo => OneAllFits(t, g3, g2, false, false, 2, v);
      case FourTwoPair => TwoAllFits(t, g4, g2, false, 2, v);
      case FourTwoSingle => TwoAllFits(t, g4, g1, false, 1, v);
      case AirplaneSingle =>
        AirplanesFacts(v);
        TwoAllFits(t, Airplanes(v), g1, true, 1, v);
        OneAllFits(t, Airplanes(v), g2, false, true, 2, v);
      case AirplanePair =>
        AirplanesFacts(v);
        TwoAllFits(t, Airplanes(v), g2, true, 2, v);
    }
  }

  /**
   * A sorted hand dealt from one deck offers the rocket exactly when it holds
   * both jokers, and the rocket is the two jokers.
   */
  lemma RocketIffBothJokers(v: seq<Card>, t: PlayType)
    requires Sorted(v) && AllValid(v) && Distinct(v) && t.tag == UltraBomb
    ensures MovesByType(v, t) != [] <==> Card(BlackJoker, -1) in v && Card(RedJoker, -1) in v
    ensures forall c :: c in MovesByType(v, t) ==>
              c == CardSet(t, [Card(BlackJoker, -1), Card(RedJoker, -1)], [])
  {
    RocketMoves(v, t);
    RocketIffHeld(v, t);
  }

  /** The rocket shape lists exactly what the rocket test finds. */
  lemma RocketMoves(v: seq<Card>, t: PlayType)
    requires AllValid(v) && t.tag == UltraBomb
    ensures MovesByType(v, t) == Rocket(v, t)
  {
  }

  /** In a sorted hand of distinct valid cards the red joker can only be the last card. */
  lemma RedJokerIsLast(v: seq<Card>, r: nat)
    requires Sorted(v) && AllValid(v) && Distinct(v)
    requires r < |v| && v[r] == Card(RedJoker, -1)
    ensures r == |v| - 1
  {
    RedJokerIsTop(v[|v| - 1]);
  }

  /** ... and the black joker, when the red one is held too, the card before it. */
  lemma BlackJokerIsNextToLast(v: seq<Card>, b: nat, r: nat)
    requires Sorted(v) && AllValid(v) && Distinct(v)
    requires b < |v| && v[b] == Card(BlackJoker, -1)
    requires r < |v| && v[r] == Card(RedJoker, -1)
    ensures b == |v| - 2
  {
    RedJokerIsLast(v, r);
    assert v[b] != v[r];
    LessIsRankOrder(v[|v| - 2], v[b]);
  }

  /** When the rocket test finds something, it is the last two cards, the two jokers. */
  lemma RocketFound(v: seq<Card>, t: PlayType)
    requires AllValid(v)
    ensures Rocket(v, t) != [] ==>
              |v| >= 2 && v[|v| - 2] == Card(BlackJoker, -1) && v[|v| - 1] == Card(RedJoker, -1)
              && Rocket(v, t) == [CardSet(t, [Card(BlackJoker, -1), Card(RedJoker, -1)], [])]
  {
    var n := |v|;
    if n >= 2 && RankEq(v[n - 1], Card(RedJoker, -1)) && RankEq(v[n - 2], Card(BlackJoker, -1)) {
      assert Valid(v[n - 1]) && Valid(v[n - 2]);
      assert v[n - 2..] == [Card(BlackJoker, -1), Card(RedJoker, -1)];
    }
  }

  /** In a sorted hand of distinct cards the rocket test finds the two jokers exactly when both are held. */
  lemma RocketIffHeld(v: seq<Card>, t: PlayType)
    requires Sorted(v) && AllValid(v) && Distinct(v)
    ensures Rocket(v, t) != [] <==> Card(BlackJoker, -1) in v && Card(RedJoker, -1) in v
    ensures forall c :: c in Rocket(v, t) ==> c == CardSet(t, [Card(BlackJoker, -1), Card(RedJoker, -1)], [])
  {
    var n := |v|;
    RocketFound(v, t);
    if Rocket(v, t) != [] {
      assert v[n - 2] in v && v[n - 1] in v;
    }
    if Card(BlackJoker, -1) in v && Card(RedJoker, -1) in v {
      var r :| 0 <= r < n && v[r] == Card(RedJoker, -1);
      var b :| 0 <= b < n && v[b] == Card(BlackJoker, -1);
      RedJokerIsLast(v, r);
      BlackJokerIsNextToLast(v, b, r);
      assert RankEq(v[n - 1], Card(RedJoker, -1)) && RankEq(v[n - 2], Card(BlackJoker, -1));
    }
  }

  /** A hand with the airplane 444-555, a lone three and a pair of sixes. */
  function PlaneHand(): seq<Card>
  {
    [Card(Spade, 3), Card(Spade, 4), Card(Heart, 4), Card(Diamond, 4),
     Card(Spade, 5), Card(Heart, 5), Card(Diamond, 5), Card(Spade, 6), Card(Heart, 6)]
  }

  lemma PlaneHandGroups()
    ensures Groups(PlaneHand(), 1) == [[Card(Spade, 3)], [Card(Spade, 4)], [Card(Spade, 5)], [Card(Spade, 6)]]
    ensures Groups(PlaneHand(), 2) == [PlaneHand()[1..3], PlaneHand()[4..6], PlaneHand()[7..9]]
  {
    var v := PlaneHand();
    assert GroupsFrom(v, 1, 7) == [v[7..8]];
    assert GroupsFrom(v, 1, 4) == [v[4..5], v[7..8]];
    assert GroupsFrom(v, 1, 1) == [v[1..2], v[4..5], v[7..8]];
    assert Groups(v, 1) == [v[0..1], v[1..2], v[4..5], v[7..8]];
    assert v[0..1] == [Card(Spade, 3)] && v[1..2] == [Card(Spade, 4)];
    assert v[4..5] == [Card(Spade, 5)] && v[7..8] == [Card(Spade, 6)];
    assert Groups(v, 2) == [v[1..3], v[4..6], v[7..9]];
  }

  lemma PlaneHandRunFrom()
    ensures RunFrom(PlaneHand(), 0, 3, 2) == None
    ensures RunFrom(PlaneHand(), 1, 3, 2) == Some(PlaneHand()[1..7])
    ensures RunFrom(PlaneHand(), 4, 3, 2) == None
    ensures RunFrom(PlaneHand(), 7, 3, 2) == None
  {
    var v := PlaneHand();
    assert NextRank(v, 1) == 4 && NextRank(v, 4) == 7;
    assert RunFrom(v, 4, 3, 1) == Some(v[4..7]);
    assert v[1..4] + v[4..7] == v[1..7];
    assert RunFrom(v, 7, 3, 1) == None;
  }

  /** The plane hand's rank starts are at 0, 1, 4 and 7, none of them a stop card. */
  lemma PlaneHandRanks()
    ensures AllValid(PlaneHand())
    ensures Boundary(PlaneHand(), 0) && Boundary(PlaneHand(), 1) && Boundary(PlaneHand(), 4) && Boundary(PlaneHand(), 7)
    ensures !Boundary(PlaneHand(), 2) && !Boundary(PlaneHand(), 3) && !Boundary(PlaneHand(), 5)
            && !Boundary(PlaneHand(), 6) && !Boundary(PlaneHand(), 8)
    ensures forall p :: 0 <= p < 9 ==> !StopsAt(PlaneHand()[p], RunStops())
  {
    var v := PlaneHand();
    forall p | 0 <= p < 9
      ensures !StopsAt(v[p], RunStops())
    {
      StopsAtTwoOrJoker(v[p]);
    }
  }

  /** With the intended stop cards the plane hand has the one airplane 444-555. */
  lemma PlaneHandAirplanes()
    ensures AllValid(PlaneHand())
    ensures Airplanes(PlaneHand()) == [PlaneHand()[1..7]]
  {
    var v := PlaneHand();
    PlaneHandRunFrom();
    PlaneHandRanks();
    RunsFromStep(v, 3, 2, RunStops(), 7);
    RunsSkip(v, 3, 2, RunStops(), 8, 9);
    assert RunsFrom(v, 3, 2, RunStops(), 7) == [];
    RunsFromStep(v, 3, 2, RunStops(), 4);
    RunsSkip(v, 3, 2, RunStops(), 5, 7);
    assert RunsFrom(v, 3, 2, RunStops(), 4) == [];
    RunsFromStep(v, 3, 2, RunStops(), 1);
    RunsSkip(v, 3, 2, RunStops(), 2, 4);
    assert RunsFrom(v, 3, 2, RunStops(), 1) == [v[1..7]];
    RunsFromStep(v, 3, 2, RunStops(), 0);
  }

  /** The scan as written finds the same airplane: its stop cards are the 5s and 6s, which lie after the start at 4. */
  lemma PlaneHandAirplanesAsWritten()
    ensures AllValid(PlaneHand())
    ensures AirplanesAsWritten(PlaneHand()) == [PlaneHand()[1..7]]
  {
    var v, st := PlaneHand(), AsWrittenRunStops();
    PlaneHandRunFrom();
    PlaneHandRanks();
    AsWrittenStopsAtFiveAndSix(v[0]);
    AsWrittenStopsAtFiveAndSix(v[1]);
    AsWrittenStopsAtFiveAndSix(v[4]);
    assert RunsFrom(v, 3, 2, st, 4) == [];
    RunsSkip(v, 3, 2, st, 2, 4);
    RunsFromStep(v, 3, 2, st, 1);
    assert RunsFrom(v, 3, 2, st, 1) == [v[1..7]];
    RunsFromStep(v, 3, 2, st, 0);
  }

  /**
   * Every listed play is what the source's constructors build: the three-argument
   * CardSet constructor, which accepts it, for a shape with attachments, and the
   * two-argument one otherwise.
   */
  lemma MovesAreConstructed(v: seq<Card>, t: PlayType)
    requires AllValid(v)
    ensures forall c :: c in MovesByType(v, t) ==>
              (HasExtraTag(t.tag) ==> NewCardSetWithExtra(t, c.base, c.extra) == Some(c))
              && (!HasExtraTag(t.tag) ==> c == NewCardSet(t, c.base))
  {
    MovesFit(v, t);
    forall c | c in MovesByType(v, t)
      ensures HasExtraTag(t.tag) ==> NewCardSetWithExtra(t, c.base, c.extra) == Some(c)
      ensures !HasExtraTag(t.tag) ==> c == NewCardSet(t, c.base)
    {
      assert Fits(c, t, v);
      assert !HasExtraTag(t.tag) ==> ExtraSize(t) == 0;
    }
  }

  /** A play with an attachment card of a base rank is never listed. */
  lemma ApartOnly(v: seq<Card>, t: PlayType, c: CardSet)
    requires AllValid(v) && t.tag == AirplaneSingle && !Apart(c, true)
    ensures c !in MovesByType(v, t)
  {
    MovesKeepAttachmentsApart(v, t);
  }

  /** The wing loop as written pairs 444-555 with the single 5, drawn for the pair of sixes. */
  lemma PlaneHandWrongWing()
    ensures AllValid(PlaneHand())
    ensures CardSet(PlayType(AirplaneSingle, 0), PlaneHand()[1..7], [Card(Spade, 5)])
              in AirplaneSingleAsWritten(PlaneHand(), PlayType(AirplaneSingle, 0))
  {
    var v, t := PlaneHand(), PlayType(AirplaneSingle, 0);
    PlaneHandGroups();
    PlaneHandAirplanesAsWritten();
    var g1, g2, b := Groups(v, 1), Groups(v, 2), v[1..7];
    WrongWingRow(t, b, g1, g2);
    assert WingsAsWritten(t, AirplanesAsWritten(v), g1, g2, 1) == [] + WingRowAsWritten(t, b, g1, g2, 3);
  }

  /** The last step of the wing row: the pair of sixes does not clash, and the single 5 is taken. */
  lemma WrongWingRow(t: PlayType, b: seq<Card>, g1: seq<seq<Card>>, g2: seq<seq<Card>>)
    requires b == PlaneHand()[1..7]
    requires g1 == Groups(PlaneHand(), 1) && g2 == Groups(PlaneHand(), 2)
    ensures |g2| == 3 && |g1| == 4 && AllAtLeast(g2, 1)
    ensures CardSet(t, b, [Card(Spade, 5)]) in WingRowAsWritten(t, b, g1, g2, 3)
  {
    PlaneHandGroups();
    var v := PlaneHand();
    assert g2[2] == v[7..9] && g1[2] == [Card(Spade, 5)];
    assert b[0] == Card(Spade, 4) && b[3] == Card(Spade, 5) && g2[2][0] == Card(Spade, 6);
    assert !Clashes(b, g2[2], true);
  }

  /** The play's one attachment card, the 5, has the rank of the airplane's upper triple. */
  lemma WrongWingNotApart(v: seq<Card>)
    requires v == PlaneHand()
    ensures !Apart(CardSet(PlayType(AirplaneSingle, 0), v[1..7], [Card(Spade, 5)]), true)
  {
    var c := CardSet(PlayType(AirplaneSingle, 0), v[1..7], [Card(Spade, 5)]);
    assert v[4] == Card(Spade, 5);
    assert c.base[3] == v[4];
    assert RankEq(c.extra[0], c.base[3]);
  }

  /**
   * As written, the airplane-with-singles case offers 444-555 with the single 5 as
   * its only attachment: one card instead of two, of the airplane's own rank. The
   * corrected listing never offers it.
   */
  lemma AsWrittenWingTakesWrongCard(v: seq<Card>)
    requires v == PlaneHand()
    ensures AllValid(v)
    ensures var t := PlayType(AirplaneSingle, 0);
            var c := CardSet(t, v[1..7], [Card(Spade, 5)]);
            c in AirplaneSingleAsWritten(v, t) && !Apart(c, true) && |c.extra| == 1
            && c !in MovesByType(v, t)
  {
    var t := PlayType(AirplaneSingle, 0);
    var c := CardSet(t, v[1..7], [Card(Spade, 5)]);
    PlaneHandWrongWing();
    WrongWingNotApart(v);
    ApartOnly(v, t, c);
  }
}
