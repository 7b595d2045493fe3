/**
 * Play shapes (the source's `type_t` and its `Type` wrapper), the "can be beaten
 * by" order between shapes, and concrete plays (`CardSet`) with their beat check.
 */
module PlayTypes {
  import opened Options
  import opened Cards

  /** The shape tags, in the order of the source's enumeration. */
  datatype Tag =
    | TypeStart                       // start of a trick: any shape may be played
    | Single | Double | Triple
    | SingleSeq | DoubleSeq | ThreeSeq
    | ThreeOne | ThreeTwo
    | AirplaneSingle | AirplanePair
    | FourTwoSingle | FourTwoPair
    | Bomb
    | UltraBomb                       // both jokers
    | TypeEnd                         // no shape at all

  /** Position of a tag in the enumeration. */
  function Ordinal(t: Tag): nat
  {
    match t
    case TypeStart => 0
    case Single => 1
    case Double => 2
    case Triple => 3
    case SingleSeq => 4
    case DoubleSeq => 5
    case ThreeSeq => 6
    case ThreeOne => 7
    case ThreeTwo => 8
    case AirplaneSingle => 9
    case AirplanePair => 10
    case FourTwoSingle => 11
    case FourTwoPair => 12
    case Bomb => 13
    case UltraBomb => 14
    case TypeEnd => 15
  }

  /** The tag at a position of the enumeration (the source's `(type_t)i` cast). */
  function TagAt(i: nat): (t: Tag)
    requires i < 16
    ensures Ordinal(t) == i
  {
    if i == 0 then TypeStart else if i == 1 then Single else if i == 2 then Double
    else if i == 3 then Triple else if i == 4 then SingleSeq else if i == 5 then DoubleSeq
    else if i == 6 then ThreeSeq else if i == 7 then ThreeOne else if i == 8 then ThreeTwo
    else if i == 9 then AirplaneSingle else if i == 10 then AirplanePair
    else if i == 11 then FourTwoSingle else if i == 12 then FourTwoPair
    else if i == 13 then Bomb else if i == 14 then UltraBomb else TypeEnd
  }

  /** The three run shapes, the only ones that carry a length. */
  predicate IsRunTag(t: Tag)
  {
    t == SingleSeq || t == DoubleSeq || t == ThreeSeq
  }

  /** The six shapes that carry attachment cards. */
  predicate HasExtraTag(t: Tag)
  {
    t == ThreeOne || t == ThreeTwo || t == AirplaneSingle || t == AirplanePair
    || t == FourTwoSingle || t == FourTwoPair
  }

  /** The twelve shapes below the two bombs: everything from Single to Four_Two_Pair. */
  predicate IsConcreteTag(t: Tag)
  {
    1 <= Ordinal(t) <= 12
  }

  /** The source's `Type`: a tag and a length (0 for every shape that is not a run). */
  datatype PlayType = PlayType(tag: Tag, length: int)

  /** What the two constructors can build: a run tag with any length, or another tag with length 0. */
  predicate WellFormed(t: PlayType)
  {
    IsRunTag(t.tag) || t.length == 0
  }

  /** Type(type_t): aborts (None) on a run tag, otherwise stores the tag with length 0. */
  function NewType(tag: Tag): (r: Option<PlayType>)
    ensures r.None? <==> IsRunTag(tag)
    ensures r.Some? ==> r.value.tag == tag && r.value.length == 0 && WellFormed(r.value)
  {
    if IsRunTag(tag) then None else Some(PlayType(tag, 0))
  }

  /** Type(type_t, int): aborts (None) unless the tag is a run tag, otherwise stores both. */
  function NewRunType(tag: Tag, length: int): (r: Option<PlayType>)
    ensures r.None? <==> !IsRunTag(tag)
    ensures r.Some? ==> r.value.tag == tag && r.value.length == length && WellFormed(r.value)
  {
    if IsRunTag(tag) then Some(PlayType(tag, length)) else None
  }

  /** Type operator<: "a play of shape t1 can be beaten by a play of shape t2". */
  predicate TypeLess(t1: PlayType, t2: PlayType)
  {
    match t1.tag
    case TypeStart => true
    case Bomb => t2.tag == UltraBomb
    case UltraBomb => false
    case TypeEnd => false
    case _ => t2.tag == Bomb || t2.tag == UltraBomb
  }

  /** Type operator==: the same tag and the same length. */
  function TypeEquals(t1: PlayType, t2: PlayType): (r: bool)
    ensures r <==> t1.tag == t2.tag && t1.length == t2.length
  {
    t1 == t2
  }

  /** Type operator<=. */
  predicate TypeLessEq(t1: PlayType, t2: PlayType)
  {
    TypeLess(t1, t2) || TypeEquals(t1, t2)
  }

  /** The four cases of the shape order, stated on the tags. */
  lemma TypeLessCases(t1: PlayType, t2: PlayType)
    ensures t1.tag == TypeStart ==> TypeLess(t1, t2)
    ensures IsConcreteTag(t1.tag) ==> (TypeLess(t1, t2) <==> t2.tag in {Bomb, UltraBomb})
    ensures t1.tag == Bomb ==> (TypeLess(t1, t2) <==> t2.tag == UltraBomb)
    ensures t1.tag in {UltraBomb, TypeEnd} ==> !TypeLess(t1, t2)
  {
  }

  lemma TypeLessTransitive(a: PlayType, b: PlayType, c: PlayType)
    requires TypeLess(a, b) && TypeLess(b, c)
    ensures TypeLess(a, c)
  {
  }

  /** Only the start marker is below itself. */
  lemma TypeLessIrreflexiveBesidesStart(t: PlayType)
    ensures TypeLess(t, t) <==> t.tag == TypeStart
  {
  }

  /** On well-formed shapes operator<= is a partial order. */
  lemma TypeLessEqPartialOrder(a: PlayType, b: PlayType, c: PlayType)
    ensures TypeLessEq(a, a)
    ensures WellFormed(a) && WellFormed(b) && TypeLessEq(a, b) && TypeLessEq(b, a) ==> a == b
    ensures TypeLessEq(a, b) && TypeLessEq(b, c) ==> TypeLessEq(a, c)
  {
    if TypeLessEq(a, b) && TypeLessEq(b, c) && TypeLess(a, b) && TypeLess(b, c) {
      TypeLessTransitive(a, b, c);
    }
  }

  /** The rocket beats every shape except itself and the end marker, and nothing beats it. */
  lemma UltraBombIsTop(t: PlayType, u: PlayType)
    requires u.tag == UltraBomb
    ensures t.tag != UltraBomb && t.tag != TypeEnd ==> TypeLess(t, u)
    ensures !TypeLess(u, t)
  {
  }

  /**
   * A concrete play: its shape, its base cards and its attachment ("extra") cards.
   * The source's accessors get_type, get_base and get_extra are the fields typ, base, extra.
   */
  datatype CardSet = CardSet(typ: PlayType, base: seq<Card>, extra: seq<Card>)

  /** CardSet(type, base): stores both, with no attachment. */
  function NewCardSet(t: PlayType, base: seq<Card>): (r: CardSet)
    ensures r.typ == t && r.base == base && r.extra == []
  {
    CardSet(t, base, [])
  }

  /**
   * CardSet(type, base, extra): accepted only for the six shapes with attachments;
   * every other shape aborts (None).
   */
  function NewCardSetWithExtra(t: PlayType, base: seq<Card>, extra: seq<Card>): (r: Option<CardSet>)
    ensures r.Some? <==> HasExtraTag(t.tag)
    ensures r.Some? ==> r.value.typ == t && r.value.base == base && r.value.extra == extra
  {
    match t.tag
    case ThreeOne => Some(CardSet(t, base, extra))
    case ThreeTwo => Some(CardSet(t, base, extra))
    case AirplaneSingle => Some(CardSet(t, base, extra))
    case AirplanePair => Some(CardSet(t, base, extra))
    case FourTwoSingle => Some(CardSet(t, base, extra))
    case FourTwoPair => Some(CardSet(t, base, extra))
    case _ => None
  }

  /** The comparisons in which operator< reads the first base card of both plays. */
  predicate ComparesBases(c1: CardSet, c2: CardSet)
  {
    !TypeLess(c1.typ, c2.typ) && c1.typ == c2.typ && c1.typ.tag != UltraBomb && c1.typ.tag != TypeEnd
  }

  /**
   * CardSet operator<: "c1 is beaten by c2". True when c1's shape is below c2's;
   * for the very same shape, the first base cards decide; two rockets (or two
   * end markers) abort (None); any other pair of shapes is false.
   */
  function CardSetLess(c1: CardSet, c2: CardSet): (r: Option<bool>)
    requires ComparesBases(c1, c2) ==> |c1.base| > 0 && |c2.base| > 0
    ensures r.None? <==> c1.typ == c2.typ && c1.typ.tag in {UltraBomb, TypeEnd}
    ensures TypeLess(c1.typ, c2.typ) ==> r == Some(true)
    ensures ComparesBases(c1, c2) ==> r == Some(Less(c1.base[0], c2.base[0]))
    ensures c1.typ != c2.typ && !TypeLess(c1.typ, c2.typ) ==> r == Some(false)
  {
    if TypeLess(c1.typ, c2.typ) then
      Some(true)
    else if c1.typ == c2.typ then
      if c1.typ.tag == UltraBomb || c1.typ.tag == TypeEnd then None
      else Some(Less(c1.base[0], c2.base[0]))
    else
      Some(false)
  }

  /** Beating is transitive wherever the three comparisons are defined. */
  lemma {:induction false} BeatsTransitive(a: CardSet, b: CardSet, c: CardSet)
    requires ComparesBases(a, b) ==> |a.base| > 0 && |b.base| > 0
    requires ComparesBases(b, c) ==> |b.base| > 0 && |c.base| > 0
    requires ComparesBases(a, c) ==> |a.base| > 0 && |c.base| > 0
    requires CardSetLess(a, b) == Some(true) && CardSetLess(b, c) == Some(true)
    ensures CardSetLess(a, c) == Some(true)
  {
    if TypeLess(a.typ, b.typ) && TypeLess(b.typ, c.typ) {
      TypeLessTransitive(a.typ, b.typ, c.typ);
    } else if !TypeLess(a.typ, b.typ) && !TypeLess(b.typ, c.typ) {
      LessTransitive(a.base[0], b.base[0], c.base[0]);
    }
  }

  /** No play beats itself, except a play of the start marker. */
  lemma BeatsIrreflexive(c: CardSet)
    requires c.typ.tag != TypeStart && c.typ.tag != UltraBomb && c.typ.tag != TypeEnd
    requires |c.base| > 0
    ensures CardSetLess(c, c) == Some(false)
  {
    LessIrreflexive(c.base[0]);
  }

  /** Leading a trick: against a start-marker play every candidate passes. */
  lemma StartIsBeatenByEverything(last: CardSet, c: CardSet)
    requires last.typ.tag == TypeStart
    ensures CardSetLess(last, c) == Some(true)
  {
  }

  /** A rocket beats every play whose shape is neither the rocket nor the end marker. */
  lemma RocketBeatsEverything(last: CardSet, rocket: CardSet)
    requires rocket.typ.tag == UltraBomb
    requires last.typ.tag != UltraBomb && last.typ.tag != TypeEnd
    ensures CardSetLess(last, rocket) == Some(true)
    ensures CardSetLess(rocket, last) == Some(false)
  {
  }
}
