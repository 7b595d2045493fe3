# Dou Di Zhu combination engine, modelled in Dafny

This project models the card and strategy core of a C++ Dou Di Zhu
("fight the landlord") game:

* the card value, its construction from a deck index, the rank order, and the
  "one rank lower" step (`Game/Card.h`, `Game/Card.cpp`);
* the play shapes (`type_t` and the `Type` wrapper), their partial "beaten by"
  order, and concrete plays (`CardSet`) with their beat check;
* the deck: fill, Fisher–Yates shuffle and deal;
* the move finder of `Game/Strategy.cpp`, which covers:
  * groups of `n` cards of one rank;
  * runs of `k` cards per rank over `len` consecutive ranks;
  * the builder of every shape, with and without attachments;
  * the list of shapes that may follow a play;
  * the whole enumeration over a hand, which sorts the hand in place;
  * the filter that keeps the candidates beating the last play.

## How the model is organised

Files and modules:

| file | module | what it holds |
|---|---|---|
| `cards.dfy` | `Options` | the `Option` type used where the source aborts |
| `cards.dfy` | `Cards` | `Card`, `Rank`, `Less`, `RankEq`, `Minus` |
| `playtypes.dfy` | `PlayTypes` | `PlayType`, `TypeLess`, `CardSet`, `CardSetLess` |
| `handscan.dfy` | `HandScan` | `JumpToNextNumber`, `HasConsecutiveCards`, the in-place sort |
| `finders.dfy` | `Finders` | `get_consecutive_n_cards_set` and `get_sequence` |
| `builders.dfy` | `Builders` | `get_possible_move_by_type` |
| `enumeration.dfy` | `Enumeration` | `get_possible_types`, `get_possible_move`, `trim_by_last_play` |
| `deck.dfy` | `Decks` | the `Deck` class |

Modelling choices:

* **Loops.** Every loop of the source is a `method` with a `while` loop, except
  the as-written single-wing attachment loop, which exists only as the function
  `Builders.WingRowAsWritten`. Each method is proved equal to a specification
  function, and the properties of that function are proved as lemmas.
* **Reference scans.** Each scan function visits every position, for example
  `Finders.GroupsFrom` and `Finders.RunsFrom`. The methods jump from one rank
  to the next as the source does; skip lemmas connect the two.
* **Classes and arrays.** The deck is a class over a 54-card array.
  `get_possible_move` sorts the caller's hand, which is an `array<Card>`, in
  place.
* **Aborts.** Where the source reaches `assert(0)` on a value, the model
  returns `Option` and `None` stands for the abort. This applies to the
  `Type` and `CardSet` constructors with a wrong tag, to comparing two
  rockets, and to `get_possible_types(TYPE_END)`.
* **Caller contracts.** Asserts that state what the caller must supply
  become `requires`: the range of `Card(int)`, and the argument of
  `operator-`.

The main chain of the model (`Finders.GetSequence`,
`Builders.GetPossibleMoveByType`, `Enumeration.GetPossibleMove`) follows the
code as written in two places:

* **Runs can reach the 2s.** Only the first card of a run is checked against
  the 2s and the jokers. The joining test `prev == next - 1` maps an ace to
  a king, so a 2 follows an ace. A straight such as 10-J-Q-K-A-2 is therefore
  reported. `Finders.RunsAreRuns` proves only that the run starts below a 2.
* **TYPE_START lists 40 shapes.** They are:
  * one each of Single, Double and Triple;
  * 8 single runs (lengths 5–12);
  * 10 pair runs (lengths 3–12);
  * 11 triple runs (lengths 2–12);
  * six attachment, bomb and rocket shapes.

It corrects two defects, each described under "## Findings":

* the stop cards of the run scan (`Finders.RunsAsWritten` keeps them as
  written);
* the attachment loop of the single-wing airplane
  (`Builders.AirplaneSingleAsWritten` keeps it as written).

## Model

| member | source | states |
|---|---|---|
| Cards.SuitAt | Game/Card.cpp:16 | the suit cast `(Suit)i` gives the suit whose enumeration position is `i` |
| Cards.FromIndex | Game/Card.cpp:4-18 | a deck index 0..53 gives a valid card: 52 the black joker, 53 the red joker, otherwise suit `num / 13` and number `num % 13 + 1` |
| Cards.IndexOf | Game/Card.cpp:4-18 | every valid card has a deck index in 0..53 |
| Cards.FromIndexRoundTrip | Game/Card.cpp:4-18 | the index of the card made from `num` is `num` |
| Cards.IndexOfRoundTrip | Game/Card.cpp:4-18 | every valid card is the card made from its own index |
| Cards.FromIndexInjective | Game/Card.cpp:4-18 | different deck indices give different cards |
| Cards.EqualAll | Game/Card.cpp:121-123 | `equal_all` is equality of suit and number, and it implies rank equality |
| Cards.Minus | Game/Card.cpp:20-27 | `card - 1` keeps the suit and lowers the rank key by one on valid numbered cards (ace to king) |
| Cards.Less | Game/Card.cpp:29-45 | `operator<` on cards (a definition; its properties are stated by Cards.LessIrreflexive, Cards.LessAsymmetric, Cards.LessTransitive and Cards.LessIsRankOrder) |
| Cards.LessIrreflexive | Game/Card.cpp:29-45 | no card is below itself |
| Cards.LessAsymmetric | Game/Card.cpp:29-45 | if a < b then not b < a |
| Cards.LessTransitive | Game/Card.cpp:29-45 | `<` is transitive |
| Cards.LessIsRankOrder | Game/Card.cpp:29-45 | on valid cards `<` is exactly the integer order of ranks (3..K, A=14, 2=15, black joker 16, red joker 17) |
| Cards.RankEq | Game/Card.cpp:111-118 | `operator==` on cards (a definition; Cards.RankEqIsSameRank, Cards.RankEqEquivalence and Cards.IncomparableIsRankEq state its properties) |
| Cards.Neq | Game/Card.cpp:119 | `operator!=`, the negation of Cards.RankEq (a definition) |
| Cards.RankEqIsSameRank | Game/Card.cpp:111-118 | on valid cards `==` holds exactly when the ranks are equal |
| Cards.RankEqEquivalence | Game/Card.cpp:111-118 | `==` is reflexive, symmetric and transitive |
| Cards.IncomparableIsRankEq | Game/Card.cpp:29-45 | two valid cards are `==` exactly when neither is `<` the other (a strict weak order) |
| Cards.RedJokerIsTop | Game/Card.cpp:30-35 | the red joker is above every other card and below none |
| Cards.BlackJokerAboveNumbered | Game/Card.cpp:36-41 | the black joker is above every numbered card |
| Cards.AboveIsNotThree | Game/Card.cpp:22 | a card above another valid card is never a 3, so `operator-` never aborts on the upper card of a comparison |
| Cards.OneBelow | Game/Strategy.cpp:62 | the join test `prev == next - 1` of a run (a definition; Cards.OneBelowIsNextKey states what it means) |
| Cards.OneBelowIsNextKey | Game/Card.cpp:20-27 | for two valid cards of different ranks, `prev == next - 1` holds exactly when both are numbered and the keys are consecutive |
| PlayTypes.TagAt | Game/Strategy.cpp:296 | the cast `(type_t)i` gives the tag at enumeration position `i` |
| PlayTypes.NewType | Game/Card.h:69-71 | `Type(t)` aborts exactly on a run tag, and otherwise has length 0 |
| PlayTypes.NewRunType | Game/Card.h:72-74 | `Type(t, n)` aborts exactly on a non-run tag, and otherwise keeps the length |
| PlayTypes.TypeEquals | Game/Card.cpp:125-127 | two shapes are equal exactly when tag and length agree |
| PlayTypes.TypeLess | Game/Card.cpp:131-162 | `Type` `operator<` (a definition; PlayTypes.TypeLessCases, PlayTypes.TypeLessTransitive, PlayTypes.TypeLessIrreflexiveBesidesStart and PlayTypes.UltraBombIsTop state its properties) |
| PlayTypes.TypeLessEq | Game/Card.cpp:129 | `Type` `operator<=` (a definition; PlayTypes.TypeLessEqPartialOrder states its properties) |
| PlayTypes.TypeLessCases | Game/Card.cpp:131-162 | the start marker is below everything; an ordinary shape is below exactly bomb and rocket; a bomb is below exactly the rocket; rocket and end are below nothing |
| PlayTypes.TypeLessTransitive | Game/Card.cpp:131-162 | the shape order is transitive |
| PlayTypes.TypeLessIrreflexiveBesidesStart | Game/Card.cpp:131-162 | a shape is below itself exactly when it is the start marker |
| PlayTypes.TypeLessEqPartialOrder | Game/Card.cpp:129 | `<=` is reflexive, antisymmetric on well-formed shapes and transitive |
| PlayTypes.UltraBombIsTop | Game/Card.cpp:151-158 | every shape except rocket and end is below the rocket, and the rocket is below nothing |
| PlayTypes.NewCardSet | Game/Card.h:92 | the two-argument `CardSet` keeps shape and base and has no attachment |
| PlayTypes.NewCardSetWithExtra | Game/Card.h:93-109 | the three-argument `CardSet` succeeds exactly for the six attachment shapes and keeps all three parts |
| PlayTypes.CardSetLess | Game/Card.cpp:164-205 | the comparison aborts exactly for two rockets or two end markers; a lower shape loses; for equal shapes the first base cards decide; incomparable shapes give false |
| PlayTypes.BeatsTransitive | Game/Card.cpp:164-205 | "beaten by" is transitive |
| PlayTypes.BeatsIrreflexive | Game/Card.cpp:164-205 | no ordinary play beats itself |
| PlayTypes.StartIsBeatenByEverything | Game/Card.cpp:133-134 | every play beats the start marker |
| PlayTypes.RocketBeatsEverything | Game/Card.cpp:151-158 | the rocket beats every play except a rocket or the end marker, and loses to none of them |
| HandScan.SortedIsSortedByRank | Game/Strategy.cpp:356 | a hand is sorted by `<` exactly when it is sorted by integer rank |
| HandScan.Skip | Game/Strategy.cpp:273-277 | the first position whose card differs in rank from `c`, with all cards before it equal in rank |
| HandScan.NextRank | Game/Strategy.cpp:270-279 | the next position of another rank, or the size; everything in between shares the rank |
| HandScan.NextRankIsNextBoundary | Game/Strategy.cpp:270-279 | no rank change lies strictly between a position and its next rank, and the next rank starts one |
| HandScan.SortedBoundaryAbove | Game/Strategy.cpp:356 | in a sorted hand the first card of a rank is above every earlier card |
| HandScan.JumpToNextNumber | Game/Strategy.cpp:270-279 | `jump_to_next_number` returns the next position of another rank, or the hand size |
| HandScan.HasConsecutiveCards | Game/Strategy.cpp:281-290 | `has_consecutive_cards` is true exactly when `num` cards of the rank at `index` start there |
| HandScan.InsertAt | Game/Strategy.cpp:356 | extends the sorted prefix by one card, keeps the multiset and the suffix |
| HandScan.SortHand | Game/Strategy.cpp:356 | `std::sort` leaves the hand sorted and a permutation of itself |
| Finders.GroupsSkip | Game/Strategy.cpp:22 | jumping over positions of the same rank does not change the groups found |
| Finders.GroupsNext | Game/Strategy.cpp:22 | jumping to the next rank passes over no group and lands on the first card of a rank |
| Finders.TakeGroup | Game/Strategy.cpp:15-19 | the copy loop yields exactly the `n` cards from `index` |
| Finders.GetConsecutiveNCardsSet | Game/Strategy.cpp:4-25 | the loop returns the reference list of groups |
| Finders.GroupsAreWindows | Game/Strategy.cpp:14-19 | every group is the `n` cards starting at the first card of some rank |
| Finders.GroupsAreSameRank | Game/Strategy.cpp:14-19 | every group has `n` cards of one rank |
| Finders.GroupsComplete | Game/Strategy.cpp:13-23 | every rank with `n` cards yields its first `n` cards as a group |
| Finders.GroupsAscendingFrom | Game/Strategy.cpp:13-23 | in a sorted hand the groups come in strictly ascending rank |
| Finders.AscendingCons | Game/Strategy.cpp:13-23 | a group below every later group, put in front of ascending groups, keeps them ascending |
| Finders.GroupsDistinctRanks | Game/Strategy.cpp:4-25 | in a sorted hand, groups have `n` cards, strictly ascending, and no two groups share a rank |
| Finders.GroupsCountMonotone | Game/Strategy.cpp:14 | asking for more cards per group never gives more groups |
| Finders.GroupsWidth | Game/Strategy.cpp:15-19 | every group has `n` cards, all from the hand |
| Finders.StopsAtRunStops | Game/Strategy.cpp:34-38 | the scan stops at a 2, the black joker or the red joker |
| Finders.RunsFromStep | Game/Strategy.cpp:32-71 | at the first card of a rank that is not a stop card, the scan adds the run from there if it exists and moves on |
| Finders.RunsSkip | Game/Strategy.cpp:33 | jumping over positions of the same rank does not change the runs found |
| Finders.RunsNext | Game/Strategy.cpp:33 | jumping to the next rank passes over no run and lands on the first card of a rank |
| Finders.SortedThreesFirst | Game/Strategy.cpp:62 | in a sorted hand no later rank is the 3, so `card - 1` is defined at every rank after the first |
| Finders.CountBlock | Game/Strategy.cpp:46-54 | the counting loop reaches `k` exactly when `k` cards of the rank start at `first`, and then takes those cards |
| Finders.NextJoins | Game/Strategy.cpp:60-64 | the step moves to the next rank and joins exactly when that rank is one above the current one |
| Finders.CollectStep | Game/Strategy.cpp:39-65 | a missing block fails the run, the last block completes it, and any other block passes the scan to the next rank or fails it |
| Finders.CollectRun | Game/Strategy.cpp:39-65 | the inner loops reach the requested length exactly when the reference run from `index` exists, and then build that run |
| Finders.GetSequence | Game/Strategy.cpp:27-73 | `get_sequence` (with the intended stop cards) returns the reference list of runs |
| Finders.RunFromIsRun | Game/Strategy.cpp:39-65 | a built run has `k` equal-rank cards per rank, consecutive keys between ranks, `k * len` cards, and starts at its position |
| Finders.RunFromCards | Game/Strategy.cpp:39-65 | a built run has `k * len` valid cards and starts with the card at its position |
| Finders.BlockSameRank | Game/Strategy.cpp:46-52 | the `k` cards of a block share one rank |
| Finders.StopsAtTwoOrJoker | Game/Strategy.cpp:34-38 | on valid cards, the intended stop test holds exactly for ranks 2 and above (2 and the jokers) |
| Finders.AsWrittenStopsAtFiveAndSix | Game/Strategy.cpp:34-36 | the stop test as written holds exactly for 2s, 5s and 6s and never for a joker |
| Finders.RunsSound | Game/Strategy.cpp:27-73 | every reported run is a run built from a rank start below the 2s |
| Finders.RunsReach | Game/Strategy.cpp:32-38 | a run built at a rank start is reported by any scan that meets no 2 or joker rank start before it |
| Finders.RunsComplete | Game/Strategy.cpp:27-73 | in a sorted hand every run that exists from a rank start below the 2s is reported |
| Finders.RunsAreRuns | Game/Strategy.cpp:27-73 | every reported run is a run of `k * len` valid cards whose first card is below a 2 |
| Finders.RunsWidth | Game/Strategy.cpp:66-70 | every reported run has `k * len` cards, all from the hand |
| Finders.RunsFromWidth | Game/Strategy.cpp:66-70 | for any set of stop cards, every run the scan reports has `k * len` cards |
| Finders.RunFromInHand | Game/Strategy.cpp:51-52 | every card of a built run comes from the hand |
| Finders.RunsAsWritten | Game/Strategy.cpp:27-73 | `get_sequence` with the stop cards as written (a definition; Finders.AsWrittenStopsAtFiveAndSix, Finders.RunsFromWidth and Finders.AsWrittenMissesFiveToNine state its properties) |
| Finders.AsWrittenMissesFiveToNine | Game/Strategy.cpp:34-36 | as written, the straight 5-6-7-8-9 is not found, though with the intended stops it is |
| Builders.Attachment | Game/Strategy.cpp:138-140 | the attachment is the group's first card (three-with-one) or the whole group |
| Builders.PlainIsGroupwise | Game/Strategy.cpp:83-129 | a plain shape makes exactly one play per group, in order, with no attachment |
| Builders.PlainMoves | Game/Strategy.cpp:84-88 | the loop wraps every group into a play |
| Builders.OneRowMembers | Game/Strategy.cpp:134-142 | for one base, a play is produced exactly for each attachment group that does not clash with the base |
| Builders.OneAllMembers | Game/Strategy.cpp:131-159 | a play is in the list exactly when it pairs some base with some non-clashing attachment group |
| Builders.OneRowMoves | Game/Strategy.cpp:135-141 | the inner loop returns the reference row |
| Builders.OneAttachMoves | Game/Strategy.cpp:134-142 | the nested loops return the reference list |
| Builders.PairsToMembers | Game/Strategy.cpp:166-173 | for a base and a first attachment `o1`, a play is produced exactly for each later non-clashing `o2` |
| Builders.TwoRowMembers | Game/Strategy.cpp:165-174 | for one base, a play is produced exactly for each pair `o1 < o2` of non-clashing attachment groups |
| Builders.PairsToSound | Game/Strategy.cpp:166-173 | every play made for the first attachment `o1` pairs it with a later group, neither clashing with the base |
| Builders.TwoRowSound | Game/Strategy.cpp:165-174 | every play of a row is the base with two ordered, non-clashing attachment groups |
| Builders.TwoRowComplete | Game/Strategy.cpp:165-174 | every base with two ordered, non-clashing attachment groups is in the row |
| Builders.TwoAllMembers | Game/Strategy.cpp:161-195 | a play is in the list exactly when it is a base with two distinct, ordered, non-clashing attachment groups |
| Builders.PairsToMoves | Game/Strategy.cpp:166-173 | the innermost loop returns the reference list of second attachments after `o1` |
| Builders.TwoRowMoves | Game/Strategy.cpp:165-174 | the two inner loops return the reference row |
| Builders.TwoAttachMoves | Game/Strategy.cpp:164-175 | the three nested loops return the reference list |
| Builders.Airplanes | Game/Strategy.cpp:198 | every airplane base (a run of two triples) has exactly six cards |
| Builders.AirplanesAsWritten | Game/Strategy.cpp:198 | the airplane bases found by the run scan with its stop cards as written have six cards each |
| Builders.GetPossibleMoveByType | Game/Strategy.cpp:75-268 | the switch returns the reference list of plays for the shape, with the single-wing airplane corrected |
| Builders.RunMovesOf | Game/Strategy.cpp:107-129 | the run branches wrap every run of the shape's length into a play |
| Builders.PlainFits | Game/Strategy.cpp:83-129 | a plain play has the shape, a base of the shape's size from the hand, and no attachment |
| Builders.ApartFromGroup | Game/Strategy.cpp:136 | a card of an attachment group that differs in rank from the base is not of the base's rank |
| Builders.OneAllFits | Game/Strategy.cpp:131-159 | each play with one attachment has the right sizes, uses only cards from the hand, and no attachment card shares a rank with the tested base cards |
| Builders.TwoAllFits | Game/Strategy.cpp:161-246 | the same for plays with two attachments |
| Builders.GroupsFacts | Game/Strategy.cpp:4-25 | groups have `n` cards, come from the hand, and share one rank |
| Builders.AirplanesFacts | Game/Strategy.cpp:198 | airplane bases have six cards from the hand |
| Builders.GroupMovesFit | Game/Strategy.cpp:75-268 | for every shape other than the runs and the airplanes, every play fits the shape and the hand |
| Builders.RunMovesFit | Game/Strategy.cpp:107-129 | every play of a run shape fits the shape and the hand |
| Builders.PlaneMovesFit | Game/Strategy.cpp:196-246 | every airplane play fits the shape and the hand |
| Builders.MovesFit | Game/Strategy.cpp:75-268 | every play listed for a shape has that shape, the shape's base and attachment sizes, and only cards from the hand |
| Builders.MovesKeepAttachmentsApart | Game/Strategy.cpp:131-246 | no attachment card shares a rank with the base's first card, nor with the second triple of an airplane |
| Builders.MovesAreConstructed | Game/Strategy.cpp:75-268 | every listed play is what the `CardSet` constructor builds from its parts: the three-argument one, which accepts it, for a shape with attachments, the two-argument one otherwise |
| Builders.Rocket | Game/Strategy.cpp:255-262 | the rocket branch of the switch (a definition; Builders.RocketFound, Builders.RocketIffHeld and Builders.RocketIffBothJokers state its properties) |
| Builders.RocketFound | Game/Strategy.cpp:256-262 | when the rocket test finds something, the last two cards are the black and the red joker and the one play is those two cards |
| Builders.RedJokerIsLast | Game/Strategy.cpp:257-258 | in a sorted hand of distinct valid cards the red joker can only be the last card |
| Builders.BlackJokerIsNextToLast | Game/Strategy.cpp:257-258 | in such a hand holding both jokers, the black joker is the card before the last |
| Builders.RocketIffHeld | Game/Strategy.cpp:256-262 | in such a hand the rocket test finds a play exactly when both jokers are held, and the play is the two jokers |
| Builders.RocketIffBothJokers | Game/Strategy.cpp:256-262 | in a sorted hand of distinct valid cards, a rocket is listed exactly when both jokers are held, and it is the two jokers |
| Builders.PlaneHandAirplanes | Game/Strategy.cpp:27-73 | with the intended stop cards the hand 3♠ 4♠ 4♥ 4♦ 5♠ 5♥ 5♦ 6♠ 6♥ has the one airplane 444-555 |
| Builders.PlaneHandAirplanesAsWritten | Game/Strategy.cpp:34-36 | the scan as written finds the same airplane in that hand |
| Builders.AirplaneSingleAsWritten | Game/Strategy.cpp:196-226 | the single-wing airplane branch as written, with the run scan's stop cards and the wing loop's `one[o1]` (a definition; Builders.PlaneHandWrongWing and Builders.AsWrittenWingTakesWrongCard state what it lists) |
| Builders.PlaneHandWrongWing | Game/Strategy.cpp:214-224 | the wing loop as written lists 444-555 with the single 5♠, drawn for the pair of 6s |
| Builders.AsWrittenWingTakesWrongCard | Game/Strategy.cpp:214-224 | as written, the single-wing airplane lists a play whose one attachment card has the base's rank; the corrected list does not contain it |
| Enumeration.LengthsMembers | Game/Strategy.cpp:298-309 | the length loop lists the run shapes of every length from `lo` below `i`, and no others |
| Enumeration.TypesAtMembers | Game/Strategy.cpp:297-313 | one step of the tag loop lists the tag, with every allowed run length for a run tag |
| Enumeration.TypesUpToMembers | Game/Strategy.cpp:295-315 | the tag loop up to `o` lists every shape with an earlier tag and an allowed length |
| Enumeration.StartTypesMembers | Game/Strategy.cpp:295-315 | at the start of a trick the list holds exactly the shapes from Single to rocket with the allowed lengths, 40 in all |
| Enumeration.TypesAtCount | Game/Strategy.cpp:298-311 | each tag contributes 1 shape, except the single, pair and triple runs with 8, 10 and 11 |
| Enumeration.TypesUpToCount | Game/Strategy.cpp:297-314 | the running count of listed start shapes |
| Enumeration.PossibleTypesFollow | Game/Strategy.cpp:292-352 | every listed shape equals the current one or beats it |
| Enumeration.PossibleTypesComplete | Game/Strategy.cpp:317-343 | after an ordinary shape or a bomb, a well-formed shape is listed exactly when it equals the current one or beats it |
| Enumeration.PossibleTypesAfterRocket | Game/Strategy.cpp:344-349 | after a rocket nothing is listed, and the end marker aborts |
| Enumeration.StartTypeList | Game/Strategy.cpp:295-315 | the TYPE_START loop over the tags returns exactly the reference start list |
| Enumeration.AppendLengths | Game/Strategy.cpp:299-309 | the length loop appends the run shapes from `lo` to 12 |
| Enumeration.GetPossibleTypes | Game/Strategy.cpp:292-352 | `get_possible_types` returns the reference list |
| Enumeration.MovesForMembers | Game/Strategy.cpp:362-365 | a play is collected exactly when some listed shape produces it |
| Enumeration.MovesForHas | Game/Strategy.cpp:362-365 | a play of any listed shape is collected |
| Enumeration.MovesForFrom | Game/Strategy.cpp:362-365 | every collected play comes from one of the listed shapes |
| Enumeration.PossibleMovesFollow | Game/Strategy.cpp:354-367 | every enumerated play has the current shape or one that beats it, and fits the hand |
| Enumeration.GetPossibleMove | Game/Strategy.cpp:354-367 | sorts the hand in place (a sorted permutation) and returns the reference enumeration on the sorted hand |
| Enumeration.TrimMembers | Game/Strategy.cpp:369-378 | the filter aborts exactly when a comparison aborts; otherwise it keeps exactly the candidates that beat the last play, and no more than there were |
| Enumeration.TrimInOrder | Game/Strategy.cpp:369-378 | when nothing aborts, the result is the candidates that beat the last play, in input order, each position kept once: their positions are strictly increasing and are exactly the winners |
| Enumeration.PicksStep | Game/Strategy.cpp:372-375 | one more candidate: a winner is appended with its position, a loser changes nothing |
| Enumeration.TrimAtStartKeepsAll | Game/Strategy.cpp:369-378 | against the start marker every candidate is kept |
| Enumeration.TrimByLastPlay | Game/Strategy.cpp:369-378 | `trim_by_last_play` returns the reference filter, whose abort cases and winners (Enumeration.TrimMembers) and order (Enumeration.TrimInOrder) are proved |
| Decks.FullDeck | Game/Card.cpp:94-98 | the filled deck holds the card of index `i` at position `i` |
| Decks.FullDeckIsDeck | Game/Card.cpp:94-98 | the filled deck has 54 valid, pairwise different cards |
| Decks.SwapAt | Game/Card.cpp:107 | `std::swap` exchanges two positions and keeps the rest |
| Decks.SwapAtIsPermutation | Game/Card.cpp:107 | a swap keeps the multiset of cards |
| Decks.Target | Game/Card.cpp:106 | the swap partner `i + rand() % (54 - i)` lies between `i` and 53 |
| Decks.ShuffleIsPermutation | Game/Card.cpp:103-109 | the Fisher–Yates shuffle keeps 54 cards and their multiset |
| Decks.PermutationKeepsDistinct | Game/Card.cpp:103-109 | reordering a deck of different cards keeps them different |
| Decks.DistinctCountsOne | Game/Card.cpp:94-98 | in a sequence of different cards each card occurs at most once |
| Decks.Deck.constructor | Game/Card.h:132-135 | a new deck is at position 0 and holds the filled deck shuffled with the given random numbers, 54 different valid cards |
| Decks.Deck.Init | Game/Card.cpp:94-98 | `init` fills the array with the cards of indices 0..53 |
| Decks.Deck.Shuffle | Game/Card.cpp:103-109 | `shuffle` leaves the array as the reference shuffle of its old contents |
| Decks.Deck.Pick | Game/Card.h:137 | `pick` returns the card at the current position, advances it by one, and leaves the cards unchanged; the card is valid |

## Left out

- `Game/Game.cpp` and `Game/Game.h` (players, bidding, turn loop, console prompts, removing a played set from a hand) are not part of this model.
- The stream printers of `Card`, `Type` and `CardSet` are output only.
- `srand(time(NULL))` and `rand()`: the shuffle takes the 53 random numbers as the parameter `draws`, because randomness and clocks are not modelled.
- `std::sort` is modelled as an insertion sort proved to give a sorted permutation. The source does not fix the order of cards of equal rank; the model fixes one, and the lists of plays depend on the order of the cards within each rank.
- The `Card`, `Type` and `CardSet` accessors and `Card(Suit, int)` are datatype fields and the datatype constructor.
- `int` and `size_t` overflow is not modelled; hand sizes and counts are unbounded naturals. A negative run length never equals the unsigned length counter, so such a query yields no runs, and the model returns none.
- Strategy.cpp:47 and Strategy.cpp:62 read `current[second]` and `current[index_temp]` one past the end of the hand when a run reaches its last card. The model stops there: the group is incomplete at line 47, and at line 62 the run does not extend.
- Strategy.cpp:257-258 reads before the start of a hand of fewer than two cards. The model lists no rocket for such a hand.
- Finders.GetSequence and Builders.GetPossibleMoveByType require a sorted hand: `operator-` asserts that its card is not a 3, and only sorting guarantees that. The source calls them only after `get_possible_move` has sorted the hand.
- Finders.GetConsecutiveNCardsSet takes `n` as a natural; every call in the source passes 1 to 4.
- Enumeration.TrimByLastPlay requires every compared base to be non-empty, as `base[0]` in `operator<` demands; every play the engine builds satisfies this.
- Builders.GetPossibleMoveByType and Enumeration.GetPossibleMove: use the intended stop cards (2 and the jokers) and attach the tested pair in the single-wing airplane; the behaviour as written is modelled only in Finders.RunsAsWritten and Builders.AirplaneSingleAsWritten.
- HandScan.JumpToNextNumber: requires `index < |v|`. Strategy.h:25 documents `index == size` as an input, but the code reads `current[index]` before its loop (Strategy.cpp:272), so that case is left out.
- Decks.Deck.Pick requires a card to be left; the source reads past the array after 54 picks.
- Finders.RunsAreRuns: does not claim that a run avoids the 2s. Only the start card is screened, so a run may extend from an ace into a 2.
- Builders.MovesKeepAttachmentsApart: checks the attachments against the first card of each triple, as the source does. For a three-with-one or three-with-two base this is the whole base rank; for the airplane both triples are checked.

## Findings

| source | as written | input that shows it | evidently intended | confidence | as-written member | corrected member |
|---|---|---|---|---|---|---|
| Game/Strategy.cpp:34-36 | `Card(BLACK_JOKER)` and `Card(RED_JOKER)` take the one-argument `Card(int)` constructor, so they are the cards of indices 4 and 5 (spade 5 and spade 6); the run scan stops at the first 5 or 6 and never at a joker | hand 5♠ 6♠ 7♠ 8♠ 9♠, query one card per rank, length 5: no straight is found | stop at a 2, the black joker or the red joker (`Card(BLACK_JOKER, -1)`, `Card(RED_JOKER, -1)`) | high; not executed | Finders.AsWrittenMissesFiveToNine | Finders.GetSequence |
| Game/Strategy.cpp:214-224 | the second single-wing airplane loop tests pair `two[o1]` for a clash but attaches `one[o1]`, the single of a different rank | hand 3♠ 4♠ 4♥ 4♦ 5♠ 5♥ 5♦ 6♠ 6♥: the airplane 444555 gets the single attachment 5♠, a card of its own rank | attach the pair `two[o1]` that was tested | high; not executed | Builders.AsWrittenWingTakesWrongCard | Builders.GetPossibleMoveByType |
