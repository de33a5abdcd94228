/**
 * The thirteen category scorers of `ScoreCalculator.calculators` in
 * src/utils/ScoreCalculator.ts, and the dispatch from a category to its scorer.
 *
 * The scorers take any sequence of integers, as the source does; lemmas about
 * the game assume a valid hand (five dice, each 1..6). threeOfAKind,
 * fourOfAKind and yatzy read `groupedDice[0].length`, which throws when the
 * group list is empty; that outcome is `EmptyGroupError`.
 */
module Calculators {
  import opened Scoring
  import opened Dice
  import opened Grouping

  /** A scorer's outcome: a score, or the error raised on reading the first group of an empty group list. */
  datatype ScoreResult = Ok(score: int) | EmptyGroupError

  /** ones .. sixes: the sum of the dice showing `face`, which is `face` times their number. */
  function FaceScore(face: int, dice: seq<int>): (r: int)
    ensures r == face * Count(dice, face)
    ensures 0 <= face ==> 0 <= r <= face * |dice|
  {
    SumConstant(FilterEq(dice, face), face);
    Sum(FilterEq(dice, face))
  }

  /**
   * threeOfAKind: the sum of all dice when the largest group of a face in
   * 1..|dice| has at least three dice; an error when there is no group at all.
   */
  function ThreeOfAKindScore(dice: seq<int>): (r: ScoreResult)
    ensures r == if LargestCount(dice) == 0 then EmptyGroupError
                 else Ok(if LargestCount(dice) >= 3 then Sum(dice) else 0)
  {
    var groupedDice := Groups(dice);
    FirstGroupIsLargest(dice);
    if |groupedDice| == 0 then EmptyGroupError
    else if |groupedDice[0]| >= 3 then Ok(Sum(dice))
    else Ok(0)
  }

  /** fourOfAKind: as threeOfAKind, with at least four dice in the largest group. */
  function FourOfAKindScore(dice: seq<int>): (r: ScoreResult)
    ensures r == if LargestCount(dice) == 0 then EmptyGroupError
                 else Ok(if LargestCount(dice) >= 4 then Sum(dice) else 0)
  {
    var groupedDice := Groups(dice);
    FirstGroupIsLargest(dice);
    if |groupedDice| == 0 then EmptyGroupError
    else if |groupedDice[0]| >= 4 then Ok(Sum(dice))
    else Ok(0)
  }

  /**
   * fullHouse: 25 exactly when, among the faces 1..|dice|, one shows three
   * times, another twice and no other face shows. The length test comes
   * first, so an empty group list scores 0 rather than failing.
   */
  function FullHouseScore(dice: seq<int>): (r: int)
    ensures r == if exists a, b :: ThreeAndTwo(dice, a, b) then 25 else 0
  {
    var groupedDice := Groups(dice);
    FullHouseGroups(dice);
    if |groupedDice| == 2 && |groupedDice[0]| == 3 && |groupedDice[1]| == 2 then 25 else 0
  }

  /** `includesAll`: every expected value occurs among the dice. */
  function IncludesAll(dice: seq<int>, expected: seq<int>): (r: bool)
    ensures r <==> forall e :: e in expected ==> e in dice
  {
    if expected == [] then true
    else
      assert forall e :: e in expected <==> e == expected[0] || e in expected[1..];
      expected[0] in dice && IncludesAll(dice, expected[1..])
  }

  /** The `len` consecutive values starting at `lo` all show. */
  predicate Run(dice: seq<int>, lo: int, len: nat)
  {
    forall v :: lo <= v < lo + len ==> v in dice
  }

  /** smallStraight: 30 exactly when four consecutive values starting at 1, 2 or 3 all show. */
  function SmallStraightScore(dice: seq<int>): (r: int)
    ensures r == if exists lo :: 1 <= lo <= 3 && Run(dice, lo, 4) then 30 else 0
  {
    IncludesRun(dice, [1, 2, 3, 4], 1);
    IncludesRun(dice, [2, 3, 4, 5], 2);
    IncludesRun(dice, [3, 4, 5, 6], 3);
    SomeRun(dice, 3, 4);
    if IncludesAll(dice, [1, 2, 3, 4]) || IncludesAll(dice, [2, 3, 4, 5]) || IncludesAll(dice, [3, 4, 5, 6])
    then 30 else 0
  }

  /** largeStraight: 40 exactly when five consecutive values starting at 1 or 2 all show. */
  function LargeStraightScore(dice: seq<int>): (r: int)
    ensures r == if exists lo :: 1 <= lo <= 2 && Run(dice, lo, 5) then 40 else 0
  {
    IncludesRun(dice, [1, 2, 3, 4, 5], 1);
    IncludesRun(dice, [2, 3, 4, 5, 6], 2);
    SomeRun(dice, 2, 5);
    if IncludesAll(dice, [1, 2, 3, 4, 5]) || IncludesAll(dice, [2, 3, 4, 5, 6]) then 40 else 0
  }

  /** Including the consecutive values lo, lo + 1, .. is having a run from lo. */
  lemma IncludesRun(dice: seq<int>, expected: seq<int>, lo: int)
    requires forall k :: 0 <= k < |expected| ==> expected[k] == lo + k
    ensures IncludesAll(dice, expected) <==> Run(dice, lo, |expected|)
  {
    if Run(dice, lo, |expected|) {
      forall e | e in expected ensures e in dice {
        var k :| 0 <= k < |expected| && expected[k] == e;
      }
    }
    if IncludesAll(dice, expected) {
      forall v | lo <= v < lo + |expected| ensures v in dice {
        assert expected[v - lo] == v;
      }
    }
  }

  /** A run of length len starts at some lo in 1..top exactly when it starts at one of them in turn. */
  lemma SomeRun(dice: seq<int>, top: int, len: nat)
    requires 2 <= top <= 3
    ensures (exists lo :: 1 <= lo <= top && Run(dice, lo, len))
            <==> Run(dice, 1, len) || Run(dice, 2, len) || (top == 3 && Run(dice, 3, len))
  {
    if exists lo :: 1 <= lo <= top && Run(dice, lo, len) {
      var lo :| 1 <= lo <= top && Run(dice, lo, len);
      assert lo == 1 || lo == 2 || lo == 3;
    }
  }

  /** yatzy: 50 when the largest group holds five dice; an error when there is no group. */
  function YatzyScore(dice: seq<int>): (r: ScoreResult)
    ensures r == if LargestCount(dice) == 0 then EmptyGroupError
                 else Ok(if LargestCount(dice) == 5 then 50 else 0)
  {
    var groupedDice := Groups(dice);
    FirstGroupIsLargest(dice);
    if |groupedDice| == 0 then EmptyGroupError
    else if |groupedDice[0]| == 5 then Ok(50)
    else Ok(0)
  }

  /** chance: the sum of all dice; for dice in 1..6, the face-weighted count, between |dice| and 6 |dice|. */
  function ChanceScore(dice: seq<int>): (r: int)
    ensures (forall i :: 0 <= i < |dice| ==> 1 <= dice[i] <= 6) ==>
              r == FaceWeightedSum(dice) && |dice| <= r <= 6 * |dice|
  {
    ChanceFacts(dice);
    Sum(dice)
  }

  /** The range facts about the sum of the dice, for dice in 1..6. */
  lemma ChanceFacts(dice: seq<int>)
    ensures (forall i :: 0 <= i < |dice| ==> 1 <= dice[i] <= 6) ==>
              Sum(dice) == FaceWeightedSum(dice) && |dice| <= Sum(dice) <= 6 * |dice|
  {
    if forall i :: 0 <= i < |dice| ==> 1 <= dice[i] <= 6 {
      SumIsFaceWeighted(dice);
      HandSumBounds(dice);
    }
  }

  /** The `calculators` record: the scorer of each category applied to the dice. */
  function Calculate(c: Category, dice: seq<int>): (r: ScoreResult)
    ensures r.EmptyGroupError? ==> c == ThreeOfAKind || c == FourOfAKind || c == Yatzy
  {
    match c
    case Ones => Ok(FaceScore(1, dice))
    case Twos => Ok(FaceScore(2, dice))
    case Threes => Ok(FaceScore(3, dice))
    case Fours => Ok(FaceScore(4, dice))
    case Fives => Ok(FaceScore(5, dice))
    case Sixes => Ok(FaceScore(6, dice))
    case ThreeOfAKind => ThreeOfAKindScore(dice)
    case FourOfAKind => FourOfAKindScore(dice)
    case SmallStraight => Ok(SmallStraightScore(dice))
    case LargeStraight => Ok(LargeStraightScore(dice))
    case FullHouse => Ok(FullHouseScore(dice))
    case Chance => Ok(ChanceScore(dice))
    case Yatzy => YatzyScore(dice)
  }

  /**
   * The highest score a category can give a valid hand. Because sixes never
   * form a group, a three of a kind scores at most 5+5+5+6+6 = 27 and a four
   * of a kind at most 5+5+5+5+6 = 26.
   */
  function MaxScore(c: Category): int
  {
    match c
    case Ones => 5
    case Twos => 10
    case Threes => 15
    case Fours => 20
    case Fives => 25
    case Sixes => 30
    case ThreeOfAKind => 27
    case FourOfAKind => 26
    case SmallStraight => 30
    case LargeStraight => 40
    case FullHouse => 25
    case Chance => 30
    case Yatzy => 50
  }

  /** On a valid hand every score lies between 0 and the category's maximum. */
  lemma ScoreBounds(c: Category, dice: seq<int>)
    requires ValidHand(dice)
    ensures Calculate(c, dice).Ok? ==> 0 <= Calculate(c, dice).score <= MaxScore(c)
  {
    HandSumBounds(dice);
    if LargestCount(dice) >= 3 {
      var f :| 1 <= f <= |dice| && Count(dice, f) == LargestCount(dice);
      GroupSumBound(dice, f);
    }
  }

  /**
   * A hand with three or more dice on a face from 1 to 5 sums to at most 27,
   * and with four or more to at most 26: the other dice show at most 6.
   */
  lemma GroupSumBound(dice: seq<int>, f: int)
    requires ValidHand(dice)
    requires 1 <= f <= 5 && Count(dice, f) >= 3
    ensures Sum(dice) <= 27
    ensures Count(dice, f) >= 4 ==> Sum(dice) <= 26
  {
    SumIsFaceWeighted(dice);
    CountsTotal(dice);
    if f == 1 {
    } else if f == 2 {
    } else if f == 3 {
    } else if f == 4 {
    } else {
    }
  }

  /** Three fives and two sixes reach the three-of-a-kind maximum of 27. */
  lemma BestThreeOfAKindHand(h: seq<int>)
    requires h == [5, 5, 5, 6, 6]
    ensures ThreeOfAKindScore(h) == Ok(27)
    ensures ThreeOfAKindScore(h).score == MaxScore(ThreeOfAKind)
  {
    assert multiset(h) == multiset{5, 5, 5, 6, 6};
    SumOfFive(h);
    assert Count(h, 5) == 3;
    assert forall f :: 1 <= f <= 4 ==> Count(h, f) == 0;
  }

  /** Four fives and a six reach the four-of-a-kind maximum of 26. */
  lemma BestFourOfAKindHand(h: seq<int>)
    requires h == [5, 5, 5, 5, 6]
    ensures FourOfAKindScore(h) == Ok(26)
    ensures FourOfAKindScore(h).score == MaxScore(FourOfAKind)
  {
    assert multiset(h) == multiset{5, 5, 5, 5, 6};
    SumOfFive(h);
    assert Count(h, 5) == 4;
    assert forall f :: 1 <= f <= 4 ==> Count(h, f) == 0;
  }

  /** On a valid hand no face from 1 to 5 shows exactly when every die shows 6. */
  lemma NoGroupsIffAllSixes(dice: seq<int>)
    requires ValidHand(dice)
    ensures LargestCount(dice) == 0 <==> forall i :: 0 <= i < |dice| ==> dice[i] == 6
  {
    if LargestCount(dice) == 0 {
      forall i | 0 <= i < |dice| ensures dice[i] == 6 {
        CountPositive(dice, dice[i]);
      }
    } else {
      var f :| 1 <= f <= 5 && Count(dice, f) == LargestCount(dice);
      CountPositive(dice, f);
      var i :| 0 <= i < |dice| && dice[i] == f;
    }
  }

  /**
   * On a valid hand a scorer fails only for threeOfAKind, fourOfAKind and
   * yatzy, and only when all five dice show 6.
   */
  lemma ErrorOnlyForAllSixes(c: Category, dice: seq<int>)
    requires ValidHand(dice)
    ensures Calculate(c, dice).EmptyGroupError?
            <==> (c == ThreeOfAKind || c == FourOfAKind || c == Yatzy)
                 && forall i :: 0 <= i < |dice| ==> dice[i] == 6
  {
    NoGroupsIffAllSixes(dice);
  }

  /** On a valid hand yatzy scores 50 exactly when all dice show the same face, other than 6. */
  lemma YatzyOnHand(dice: seq<int>)
    requires ValidHand(dice)
    ensures YatzyScore(dice) == Ok(50) <==> dice[0] != 6 && forall i :: 0 <= i < |dice| ==> dice[i] == dice[0]
  {
    CountAll(dice, dice[0]);
    if YatzyScore(dice) == Ok(50) {
      var f :| 1 <= f <= 5 && Count(dice, f) == 5;
      CountAll(dice, f);
    }
  }

  /** Five dice showing one face, sixes included, are not a full house. */
  lemma YatzyIsNotFullHouse(dice: seq<int>)
    requires |dice| == 5 && forall i :: 0 <= i < |dice| ==> dice[i] == dice[0]
    ensures FullHouseScore(dice) == 0
  {
    CountAll(dice, dice[0]);
    forall a | Count(dice, a) > 0
      ensures a == dice[0]
    {
      CountPositive(dice, a);
    }
  }

  /** A large straight is also a small straight. */
  lemma LargeStraightIsSmallStraight(dice: seq<int>)
    ensures LargeStraightScore(dice) == 40 ==> SmallStraightScore(dice) == 30
  {
    if LargeStraightScore(dice) == 40 {
      var lo :| 1 <= lo <= 2 && Run(dice, lo, 5);
      assert Run(dice, lo, 4);
    }
  }

  lemma {:induction false} MaxCountSame(d1: seq<int>, d2: seq<int>, n: nat)
    requires forall f :: Count(d1, f) == Count(d2, f)
    ensures MaxCount(d1, n) == MaxCount(d2, n)
  {
    if n > 0 {
      MaxCountSame(d1, d2, n - 1);
    }
  }

  /** Two hands holding the same dice agree on every count, value, length and sum. */
  lemma SameDice(d1: seq<int>, d2: seq<int>)
    requires multiset(d1) == multiset(d2)
    ensures |d1| == |d2| && Sum(d1) == Sum(d2)
    ensures forall f :: Count(d1, f) == Count(d2, f)
    ensures forall v :: v in d1 <==> v in d2
    ensures LargestCount(d1) == LargestCount(d2)
  {
    assert |d1| == |multiset(d1)| == |d2|;
    forall v ensures v in d1 <==> v in d2 {
      assert v in d1 <==> v in multiset(d1);
      assert v in d2 <==> v in multiset(d2);
    }
    SumPermutation(d1, d2);
    MaxCountSame(d1, d2, |d1|);
  }

  /** Every score depends only on which dice were rolled, not on their order. */
  lemma OrderIndependent(c: Category, d1: seq<int>, d2: seq<int>)
    requires multiset(d1) == multiset(d2)
    ensures Calculate(c, d1) == Calculate(c, d2)
  {
    SameDice(d1, d2);
    match c
    case FullHouse =>
      assert forall a, b :: ThreeAndTwo(d1, a, b) <==> ThreeAndTwo(d2, a, b);
    case SmallStraight =>
      assert forall lo :: Run(d1, lo, 4) <==> Run(d2, lo, 4);
    case LargeStraight =>
      assert forall lo :: Run(d1, lo, 5) <==> Run(d2, lo, 5);
    case _ =>
  }

  /** The counts and the sum of a triple of ones and a pair of twos. */
  lemma TriplePairCounts(h: seq<int>)
    requires h == [1, 1, 1, 2, 2]
    ensures Count(h, 1) == 3 && Count(h, 2) == 2 && Sum(h) == 7
    ensures forall f :: f != 1 && f != 2 ==> Count(h, f) == 0
  {
    assert multiset(h) == multiset{1, 1, 1, 2, 2};
    SumOfFive(h);
  }

  /** A triple of ones and a pair of twos. */
  lemma TriplePairHand(h: seq<int>)
    requires h == [1, 1, 1, 2, 2]
    ensures Calculate(ThreeOfAKind, h) == Ok(7)
    ensures Calculate(FullHouse, h) == Ok(25)
    ensures Calculate(FourOfAKind, h) == Ok(0)
    ensures Calculate(Yatzy, h) == Ok(0)
    ensures Calculate(Chance, h) == Ok(7)
  {
    TriplePairCounts(h);
    assert ThreeAndTwo(h, 1, 2);
    assert LargestCount(h) == 3;
  }

  /** The counts and the sum of five fives. */
  lemma FiveFivesCounts(h: seq<int>)
    requires h == [5, 5, 5, 5, 5]
    ensures Count(h, 5) == 5 && Sum(h) == 25
    ensures forall f :: f != 5 ==> Count(h, f) == 0
  {
    assert multiset(h) == multiset{5, 5, 5, 5, 5};
    SumOfFive(h);
  }

  /** Five fives. */
  lemma FiveFivesHand(h: seq<int>)
    requires h == [5, 5, 5, 5, 5]
    ensures Calculate(Yatzy, h) == Ok(50)
    ensures Calculate(FourOfAKind, h) == Ok(25)
    ensures Calculate(FullHouse, h) == Ok(0)
    ensures Calculate(Fives, h) == Ok(25)
  {
    FiveFivesCounts(h);
    assert LargestCount(h) == 5;
  }

  /** One to four and a six: a small straight but not a large one. */
  lemma SmallNotLargeHand(h: seq<int>)
    requires h == [1, 2, 3, 4, 6]
    ensures Calculate(SmallStraight, h) == Ok(30)
    ensures Calculate(LargeStraight, h) == Ok(0)
  {
    assert Run(h, 1, 4);
    assert 5 !in h;
  }

  /** With five dice, faces are looked at only up to 5, so no group is a group of sixes. */
  lemma SixesFormNoGroup(dice: seq<int>)
    requires |dice| == 5
    ensures forall g :: g in Groups(dice) ==> g != [] && g[0] != 6
  {
    GroupsShape(dice);
  }

  /** Three sixes are not a three of a kind. */
  lemma ThreeSixesNotThreeOfAKind(h: seq<int>)
    requires h == [6, 6, 6, 1, 2]
    ensures ThreeOfAKindScore(h) == Ok(0)
  {
    assert multiset(h) == multiset{6, 6, 6, 1, 2};
    assert forall f :: 1 <= f <= 5 ==> Count(h, f) <= 1;
    assert Count(h, 1) == 1;
  }

  /** Three sixes and a pair are not a full house. */
  lemma SixesPairNotFullHouse(h: seq<int>)
    requires h == [6, 6, 6, 1, 1]
    ensures FullHouseScore(h) == 0
  {
    assert multiset(h) == multiset{6, 6, 6, 1, 1};
    assert Count(h, 1) == 2;
    assert forall f :: 1 <= f <= 5 && f != 1 ==> Count(h, f) == 0;
  }

  /** Five sixes leave the group list empty, and the three scorers that read its first group fail. */
  lemma FiveSixesFail(h: seq<int>)
    requires h == [6, 6, 6, 6, 6]
    ensures Groups(h) == []
    ensures Calculate(ThreeOfAKind, h) == EmptyGroupError
    ensures Calculate(FourOfAKind, h) == EmptyGroupError
    ensures Calculate(Yatzy, h) == EmptyGroupError
    ensures Calculate(Sixes, h) == Ok(30)
  {
    NoGroupsIffAllSixes(h);
    FirstGroupIsLargest(h);
    assert multiset(h) == multiset{6, 6, 6, 6, 6};
    assert Count(h, 6) == 5;
  }
}
