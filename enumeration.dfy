/**
 * The strategy's entry points: the shapes that may answer a play
 * (get_possible_types), every candidate play of a hand (get_possible_move) and
 * the candidates that beat the last play (trim_by_last_play).
 */
module Enumeration {
  import opened Options
  import opened Cards
  import opened PlayTypes
  import opened HandScan
  import opened Builders

  // ---------------------------------------------------------------------------
  // Shapes that may answer a play
  // ---------------------------------------------------------------------------

  /** The shortest run the start of a trick lists: five singles, three pairs, two triples. */
  function MinLength(tag: Tag): int
  {
    if tag == SingleSeq then 5 else if tag == DoubleSeq then 3 else 2
  }

  /** The run shapes of tag with lengths lo to i - 1, in increasing length. */
  function Lengths(tag: Tag, lo: int, i: int): seq<PlayType>
    requires lo <= i
    decreases i - lo
  {
    if i == lo then [] else Lengths(tag, lo, i - 1) + [PlayType(tag, i - 1)]
  }

  /** The shapes listed for the tag at ordinal o: each run length up to 12, or the shape alone. */
  function TypesAt(o: nat): seq<PlayType>
    requires 1 <= o < 15
  {
    var tag := TagAt(o);
    if IsRunTag(tag) then Lengths(tag, MinLength(tag), 13) else [PlayType(tag, 0)]
  }

  /** The shapes listed for the tags with ordinals 1 to o - 1. */
  function TypesUpTo(o: nat): seq<PlayType>
    requires 1 <= o <= 15
  {
    if o == 1 then [] else TypesUpTo(o - 1) + TypesAt(o - 1)
  }

  /** The shapes that may start a trick. */
  function StartTypes(): seq<PlayType>
  {
    TypesUpTo(15)
  }

  /** The answer of get_possible_types; None where the source aborts (the end marker). */
  function PossibleTypes(t: PlayType): Option<seq<PlayType>>
  {
    match t.tag
    case TypeStart => Some(StartTypes())
    case Bomb => Some([PlayType(Bomb, 0), PlayType(UltraBomb, 0)])
    case UltraBomb => Some([])
    case TypeEnd => None
    case _ => Some([t, PlayType(Bomb, 0), PlayType(UltraBomb, 0)])
  }

  /** The lengths a shape at the start of a trick may have. */
  predicate StartLength(u: PlayType)
  {
    if IsRunTag(u.tag) then MinLength(u.tag) <= u.length <= 12 else u.length == 0
  }

  lemma {:induction false} LengthsMembers(tag: Tag, lo: int, i: int)
    requires lo <= i
    ensures |Lengths(tag, lo, i)| == i - lo
    ensures forall u :: u in Lengths(tag, lo, i) <==> u.tag == tag && lo <= u.length < i
    decreases i - lo
  {
    if i > lo {
      LengthsMembers(tag, lo, i - 1);
    }
  }

  lemma TypesAtMembers(o: nat)
    requires 1 <= o < 15
    ensures forall u :: u in TypesAt(o) <==> u.tag == TagAt(o) && StartLength(u)
  {
    LengthsMembers(TagAt(o), MinLength(TagAt(o)), 13);
  }

  lemma {:induction false} TypesUpToMembers(o: nat)
    requires 1 <= o <= 15
    ensures forall u :: u in TypesUpTo(o) <==> 1 <= Ordinal(u.tag) < o && StartLength(u)
  {
    if o > 1 {
      TypesUpToMembers(o - 1);
      TypesAtMembers(o - 1);
    }
  }

  /**
   * At the start of a trick every shape from the single to the rocket is listed
   * once per allowed length: runs of 5 to 12 singles, 3 to 12 pairs, 2 to 12
   * triples, every other shape with length 0; 40 shapes in all.
   */
  lemma StartTypesMembers()
    ensures forall u :: u in StartTypes() <==> 1 <= Ordinal(u.tag) <= 14 && StartLength(u)
    ensures |StartTypes()| == 40
  {
    TypesUpToMembers(15);
    TypesUpToCount(15);
  }

  /** One shape per tag, except the runs: 8 lengths of singles, 10 of pairs, 11 of triples. */
  lemma TypesAtCount(o: nat)
    requires 1 <= o < 15
    ensures |TypesAt(o)| == if o == 4 then 8 else if o == 5 then 10 else if o == 6 then 11 else 1
  {
    LengthsMembers(TagAt(o), MinLength(TagAt(o)), 13);
  }

  /** The shapes listed for the tags before ordinal o, counted. */
  lemma {:induction false} TypesUpToCount(o: nat)
    requires 1 <= o <= 15
    ensures |TypesUpTo(o)| == if o <= 4 then o - 1 else if o == 5 then 11 else if o == 6 then 21 else 25 + o
  {
    if o > 1 {
      TypesUpToCount(o - 1);
      TypesAtCount(o - 1);
    }
  }

  /** Every shape offered can follow t: it is t itself or a shape t is below. */
  lemma PossibleTypesFollow(t: PlayType)
    requires t.tag != TypeEnd && WellFormed(t)
    ensures PossibleTypes(t).Some?
    ensures forall u :: u in PossibleTypes(t).value ==> u == t || TypeLess(t, u)
  {
    forall u | u in PossibleTypes(t).value
      ensures u == t || TypeLess(t, u)
    {
      TypeLessCases(t, u);
      if IsConcreteTag(t.tag) {
        assert PossibleTypes(t).value == [t, PlayType(Bomb, 0), PlayType(UltraBomb, 0)];
      }
    }
  }

  /**
   * After a play of a concrete shape or a bomb, the shapes offered are exactly
   * the well-formed shapes that can follow it.
   */
  lemma PossibleTypesComplete(t: PlayType, u: PlayType)
    requires t.tag != TypeStart && t.tag != UltraBomb && t.tag != TypeEnd && WellFormed(t) && WellFormed(u)
    ensures u in PossibleTypes(t).value <==> u == t || TypeLess(t, u)
  {
    TypeLessCases(t, u);
    if t.tag != Bomb {
      assert IsConcreteTag(t.tag);
      assert PossibleTypes(t).value == [t, PlayType(Bomb, 0), PlayType(UltraBomb, 0)];
    }
  }

  /** Nothing answers a rocket, and the end marker aborts. */
  lemma PossibleTypesAfterRocket(t: PlayType)
    ensures t.tag == UltraBomb ==> PossibleTypes(t) == Some([])
    ensures t.tag == TypeEnd ==> PossibleTypes(t) == None
  {
  }

  /** Append the run shapes of tag with the lengths lo to 12 (the inner for-loops). */
  method AppendLengths(types: seq<PlayType>, tag: Tag, lo: int) returns (r: seq<PlayType>)
    requires IsRunTag(tag) && lo <= 13
    ensures r == types + Lengths(tag, lo, 13)
  {
    r := types;
    var i := lo;
    while i <= 12
      invariant lo <= i <= 13
      invariant r == types + Lengths(tag, lo, i)
    {
      r := r + [NewRunType(tag, i).value];
      i := i + 1;
    }
  }

  /** The TYPE_START branch of get_possible_types: every tag from Single to the rocket in turn. */
  method StartTypeList() returns (types: seq<PlayType>)
    ensures types == StartTypes()
  {
    types := [];
    var ptr := 1;
    while ptr != 15
      invariant 1 <= ptr <= 15
      invariant types == TypesUpTo(ptr)
    {
      var tag := TagAt(ptr);
      assert TypesUpTo(ptr + 1) == TypesUpTo(ptr) + TypesAt(ptr);
      if tag == SingleSeq {
        types := AppendLengths(types, tag, 5);
      } else if tag == DoubleSeq {
        types := AppendLengths(types, tag, 3);
      } else if tag == ThreeSeq {
        types := AppendLengths(types, tag, 2);
      } else {
        types := types + [NewType(tag).value];
      }
      ptr := ptr + 1;
    }
  }

  /** get_possible_types. */
  method GetPossibleTypes(t: PlayType) returns (r: Option<seq<PlayType>>)
    ensures r == PossibleTypes(t)
  {
    match t.tag {
      case TypeStart =>
        var types := StartTypeList();
        r := Some(types);
      case Bomb =>
        r := Some([NewType(Bomb).value, NewType(UltraBomb).value]);
      case UltraBomb =>
        r := Some([]);
      case TypeEnd =>
        r := None;
      case _ =>
        r := Some([t, NewType(Bomb).value, NewType(UltraBomb).value]);
    }
  }

  // ---------------------------------------------------------------------------
  // Every candidate play of a hand
  // ---------------------------------------------------------------------------

  /** The plays of the first n shapes of ts, shape after shape. */
  function MovesFor(v: seq<Card>, ts: seq<PlayType>, n: nat): seq<CardSet>
    requires AllValid(v) && n <= |ts|
  {
    if n == 0 then [] else MovesFor(v, ts, n - 1) + MovesByType(v, ts[n - 1])
  }

  /** The answer of get_possible_move for a hand already sorted. */
  function PossibleMoves(v: seq<Card>, t: PlayType): Option<seq<CardSet>>
    requires AllValid(v)
  {
    match PossibleTypes(t)
    case None => None
    case Some(ts) => Some(MovesFor(v, ts, |ts|))
  }

  /** A play of one of the first n shapes is among their plays. */
  lemma {:induction false} MovesForHas(v: seq<Card>, ts: seq<PlayType>, n: nat, i: nat, c: CardSet)
    requires AllValid(v) && i < n <= |ts|
    requires c in MovesByType(v, ts[i])
    ensures c in MovesFor(v, ts, n)
    decreases n
  {
    var prev, last := MovesFor(v, ts, n - 1), MovesByType(v, ts[n - 1]);
    assert MovesFor(v, ts, n) == prev + last;
    if i < n - 1 {
      MovesForHas(v, ts, n - 1, i, c);
      assert c in prev;
    } else {
      assert c in last;
    }
  }

  /** Every play of the first n shapes comes from one of them. */
  lemma {:induction false} MovesForFrom(v: seq<Card>, ts: seq<PlayType>, n: nat, c: CardSet) returns (i: nat)
    requires AllValid(v) && n <= |ts|
    requires c in MovesFor(v, ts, n)
    ensures i < n && c in MovesByType(v, ts[i])
    decreases n
  {
    if c in MovesByType(v, ts[n - 1]) {
      i := n - 1;
    } else {
      i := MovesForFrom(v, ts, n - 1, c);
    }
  }

  lemma MovesForMembers(v: seq<Card>, ts: seq<PlayType>, n: nat)
    requires AllValid(v) && n <= |ts|
    ensures forall c :: c in MovesFor(v, ts, n) <==> exists i :: 0 <= i < n && c in MovesByType(v, ts[i])
  {
    forall c
      ensures c in MovesFor(v, ts, n) <==> exists i :: 0 <= i < n && c in MovesByType(v, ts[i])
    {
      if c in MovesFor(v, ts, n) {
        var i := MovesForFrom(v, ts, n, c);
      }
      if exists i :: 0 <= i < n && c in MovesByType(v, ts[i]) {
        var i :| 0 <= i < n && c in MovesByType(v, ts[i]);
        MovesForHas(v, ts, n, i, c);
      }
    }
  }

  /**
   * Every candidate can follow a play of shape t, has the card counts of its own
   * shape and is drawn from the hand.
   */
  lemma PossibleMovesFollow(v: seq<Card>, t: PlayType)
    requires AllValid(v) && t.tag != TypeEnd && WellFormed(t)
    ensures PossibleMoves(v, t).Some?
    ensures forall c :: c in PossibleMoves(v, t).value ==>
              (c.typ == t || TypeLess(t, c.typ)) && Fits(c, c.typ, v)
  {
    var ts := PossibleTypes(t).value;
    PossibleTypesFollow(t);
    MovesForMembers(v, ts, |ts|);
    forall c | c in PossibleMoves(v, t).value
      ensures (c.typ == t || TypeLess(t, c.typ)) && Fits(c, c.typ, v)
    {
      var i :| 0 <= i < |ts| && c in MovesByType(v, ts[i]);
      MovesFit(v, ts[i]);
      assert ts[i] in ts;
    }
  }

  /**
   * get_possible_move: sorts the hand in place, then lists the plays of every
   * shape that may follow t.
   */
  method GetPossibleMove(hand: array<Card>, t: PlayType) returns (ans: Option<seq<CardSet>>)
    requires AllValid(hand[..])
    modifies hand
    ensures Sorted(hand[..]) && AllValid(hand[..]) && multiset(hand[..]) == multiset(old(hand[..]))
    ensures ans == PossibleMoves(hand[..], t)
  {
    SortHand(hand);
    var v := hand[..];
    var types := GetPossibleTypes(t);
    if types.None? {
      return None;
    }
    var ts := types.value;
    var acc := [];
    var i := 0;
    while i < |ts|
      invariant i <= |ts|
      invariant acc == MovesFor(v, ts, i)
      invariant hand[..] == v
    {
      var ret := GetPossibleMoveByType(v, ts[i]);
      acc := acc + ret;
      i := i + 1;
    }
    ans := Some(acc);
  }

  // ---------------------------------------------------------------------------
  // Candidates that beat the last play
  // ---------------------------------------------------------------------------

  /** What the source demands before comparing: the plays whose first base cards are read have one. */
  predicate Comparable(last: CardSet, cands: seq<CardSet>)
  {
    forall i :: 0 <= i < |cands| ==> (ComparesBases(last, cands[i]) ==> |last.base| > 0 && |cands[i].base| > 0)
  }

  /** The first n candidates that beat last, in order; None as soon as a comparison aborts. */
  function Trim(cands: seq<CardSet>, last: CardSet, n: nat): Option<seq<CardSet>>
    requires n <= |cands| && Comparable(last, cands)
  {
    if n == 0 then Some([])
    else
      match Trim(cands, last, n - 1)
      case None => None
      case Some(kept) =>
        match CardSetLess(last, cands[n - 1])
        case None => None
        case Some(beats) => Some(if beats then kept + [cands[n - 1]] else kept)
  }

  /**
   * The trim aborts exactly when some candidate's comparison with the last play
   * aborts; otherwise it keeps exactly the candidates that beat the last play,
   * never more than there were.
   */
  lemma {:induction false} TrimMembers(cands: seq<CardSet>, last: CardSet, n: nat)
    requires n <= |cands| && Comparable(last, cands)
    ensures Trim(cands, last, n).None? <==> exists i :: 0 <= i < n && CardSetLess(last, cands[i]).None?
    ensures Trim(cands, last, n).Some? ==>
              |Trim(cands, last, n).value| <= n
              && forall c :: c in Trim(cands, last, n).value <==>
                   exists i :: 0 <= i < n && cands[i] == c && CardSetLess(last, c) == Some(true)
  {
    if n > 0 {
      TrimMembers(cands, last, n - 1);
    }
  }

  /**
   * kept lists the candidates at positions idx, which are strictly increasing and
   * below n, and those positions are exactly the first n candidates that beat last.
   */
  predicate PicksWinners(cands: seq<CardSet>, last: CardSet, n: nat, kept: seq<CardSet>, idx: seq<nat>)
    requires n <= |cands| && Comparable(last, cands)
  {
    |idx| == |kept|
    && (forall k :: 0 <= k < |idx| ==> idx[k] < n && kept[k] == cands[idx[k]])
    && (forall k :: 0 < k < |idx| ==> idx[k - 1] < idx[k])
    && (forall i :: 0 <= i < n ==> (i in idx <==> CardSetLess(last, cands[i]) == Some(true)))
  }

  /**
   * The trim keeps the winners in their input order, each occurrence once: the
   * result is the subsequence of the candidates that beat the last play.
   */
  lemma {:induction false} TrimInOrder(cands: seq<CardSet>, last: CardSet, n: nat)
    requires n <= |cands| && Comparable(last, cands)
    ensures Trim(cands, last, n).Some? ==>
              exists idx: seq<nat> :: PicksWinners(cands, last, n, Trim(cands, last, n).value, idx)
  {
    if n == 0 {
      assert PicksWinners(cands, last, 0, [], []);
    } else if Trim(cands, last, n).Some? {
      TrimInOrder(cands, last, n - 1);
      var kept := Trim(cands, last, n - 1).value;
      var idx: seq<nat> :| PicksWinners(cands, last, n - 1, kept, idx);
      var beats := CardSetLess(last, cands[n - 1]) == Some(true);
      assert Trim(cands, last, n).value == if beats then kept + [cands[n - 1]] else kept;
      PicksStep(cands, last, n, kept, idx, beats);
    }
  }

  /** One more candidate: a winner is appended with its position, a loser changes nothing. */
  lemma PicksStep(cands: seq<CardSet>, last: CardSet, n: nat, kept: seq<CardSet>, idx: seq<nat>, beats: bool)
    requires 0 < n <= |cands| && Comparable(last, cands) && PicksWinners(cands, last, n - 1, kept, idx)
    requires beats <==> CardSetLess(last, cands[n - 1]) == Some(true)
    ensures beats ==> PicksWinners(cands, last, n, kept + [cands[n - 1]], idx + [n - 1])
    ensures !beats ==> PicksWinners(cands, last, n, kept, idx)
  {
    if beats {
      var idx': seq<nat> := idx + [n - 1];
      forall i | 0 <= i < n
        ensures i in idx' <==> CardSetLess(last, cands[i]) == Some(true)
      {
        if i < n - 1 {
          assert i in idx' <==> i in idx;
        }
      }
    }
  }

  /** At the start of a trick every candidate is kept, in order. */
  lemma {:induction false} TrimAtStartKeepsAll(cands: seq<CardSet>, last: CardSet, n: nat)
    requires n <= |cands| && Comparable(last, cands) && last.typ.tag == TypeStart
    ensures Trim(cands, last, n) == Some(cands[..n])
  {
    if n > 0 {
      TrimAtStartKeepsAll(cands, last, n - 1);
      StartIsBeatenByEverything(last, cands[n - 1]);
      assert cands[..n] == cands[..n - 1] + [cands[n - 1]];
    }
  }

  /** trim_by_last_play. */
  method TrimByLastPlay(cands: seq<CardSet>, last: CardSet) returns (ans: Option<seq<CardSet>>)
    requires Comparable(last, cands)
    ensures ans == Trim(cands, last, |cands|)
  {
    var kept := [];
    var i := 0;
    while i < |cands|
      invariant i <= |cands|
      invariant Trim(cands, last, i) == Some(kept)
    {
      var beats := CardSetLess(last, cands[i]);
      if beats.None? {
        TrimMembers(cands, last, |cands|);
        return None;
      }
      if beats.value {
        kept := kept + [cands[i]];
      }
      i := i + 1;
    }
    ans := Some(kept);
  }
}
