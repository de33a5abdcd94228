# Yatzy scoring engine

A Dafny model of the scoring engine of a Yatzy game. It has two parts. The
first is the closed set of thirteen scoring categories, the two score-sheet
sections, and the table that puts each category in a section
(src/types/Scoring.ts). The second is the score calculator
(src/utils/ScoreCalculator.ts), which holds:

- the thirteen category scorers, which turn a hand of dice into a score;
- `groupDice` and `includesAll`, which the scorers are built from;
- the section totals, the upper-section bonus and the grand total of a
  player's score sheet.

The model has five modules, one per file:

- `Scoring` (scoring.dfy): the `Category` and `Section` datatypes, and the
  descriptions table reduced to its category and section columns. Lemmas
  show the table has one row per category and that filtering it by section
  splits it into the six face categories and the other seven.
- `Dice` (dice.dfy): the sequence helpers the scorers use. These are
  `dice.filter(d => d === face)`, lodash `sum` and face counts, with their
  algebra: sums of concatenations and permutations, and counts as
  multiplicities.
- `Grouping` (grouping.dfy): `groupDice`.
  - The imperative method `GroupDice` keeps the source's loop over faces.
  - It is proved against the function `Groups`: a stable insertion sort by
    size, largest first, of the groups for faces collected in ascending order.
  - Lemmas state what the list holds: one group per face that shows, with the
    sizes adding up, and the first group the largest.
- `Calculators` (calculators.dfy): the thirteen scorers and the dispatch from
  a category to its scorer.
  - Each scorer's contract states its score in terms of face counts, the
    largest count, or the runs of consecutive values that show.
  - On top of that: bounds, independence from dice order, and the hands from
    the game's rules.
- `Totals` (totals.dfy): the four aggregations over a player's score sheet.
  The sheet is a `map<Category, int>`, and an absent key is an unrecorded
  category.

### Where the code and the written rules disagree

The category descriptions say a three of a kind is any three dice showing
the same number, a four of a kind any four, a full house any set of three
with a different pair, and a yatzy all five dice the same
(src/types/Scoring.ts:59, 65, 71, 89). `groupDice` does not quite do that.
Its loop collects groups only for faces `1 .. dice.length`
(src/utils/ScoreCalculator.ts:21), not for faces `1 .. 6`. With a hand of
five dice, sixes are never put into any group. The model follows the code:

- `[6,6,6,1,2]` scores 0 as a three of a kind (`ThreeSixesNotThreeOfAKind`).
- `[6,6,6,1,1]` is not a full house (`SixesPairNotFullHouse`).
- `[6,6,6,6,6]` gives an empty group list (`FiveSixesFail`). Then
  threeOfAKind, fourOfAKind and yatzy read `groupedDice[0].length` of
  nothing, which raises a runtime error in the source. The model returns
  `EmptyGroupError` there.
- The best a valid hand scores is 27 as a three of a kind (`[5,5,5,6,6]`)
  and 26 as a four of a kind (`[5,5,5,5,6]`), not 30.
- `ErrorOnlyForAllSixes` proves that on a valid hand this error happens for
  those three categories and only on five sixes.

fullHouse tests the list's length first and so scores 0 there instead of
failing.

## Model

| member | source | states |
|---|---|---|
| Scoring.CategoryVariants | src/types/Scoring.ts:1-5 | there are exactly thirteen categories, pairwise distinct, and every category value is one of them |
| Scoring.SectionVariants | src/types/Scoring.ts:7 | a section is Upper or Lower, never both |
| Scoring.DESCRIPTIONS | src/types/Scoring.ts:18-97 | the descriptions table's category and section columns, row by row in table order |
| Scoring.RowsDistinct | src/types/Scoring.ts:18-97 | the descriptions table has thirteen rows and no category appears in two rows |
| Scoring.RowsCover | src/types/Scoring.ts:18-97 | every category has a row in the descriptions table |
| Scoring.InSection | src/utils/ScoreCalculator.ts:39-50 | the section filters `ScoringCategoryDescriptions.filter(scd => scd.section === "Upper")` (line 39) and `=== "Lower"` (line 50): keeps only rows of the table in that section, never more rows than the table has |
| Scoring.UpperHalf | src/types/Scoring.ts:19-54 | filtering the table for the Upper section keeps exactly its first six rows, in order |
| Scoring.LowerHalf | src/types/Scoring.ts:55-96 | filtering the table for the Lower section keeps exactly its last seven rows, in order |
| Scoring.UpperRows | src/types/Scoring.ts:19-54 | the Upper rows are ones, twos, threes, fours, fives and sixes, in that order |
| Scoring.LowerRows | src/types/Scoring.ts:55-96 | the Lower rows are threeOfAKind, fourOfAKind, fullHouse, smallStraight, largeStraight, yatzy and chance, in that order |
| Scoring.SectionsPartition | src/types/Scoring.ts:18-97 | the two section filters partition the categories: a category is in the Upper filter exactly when it is a face category and in the Lower filter exactly when it is not |
| Dice.Sum | src/utils/ScoreCalculator.ts:62-145 | lodash `sum`: the sum of a sequence, 0 for the empty one; its meaning is stated by the lemmas below |
| Dice.FilterEq | src/utils/ScoreCalculator.ts:62-85 | filtering the dice for a face keeps only that face, as many times as it occurs in the hand |
| Dice.SumPermutation | src/utils/ScoreCalculator.ts:142-145 | the sum of the dice does not depend on their order |
| Dice.CountPositive | src/utils/ScoreCalculator.ts:21-25 | a face has a non-zero count exactly when some die shows it, so `grouped[d]` is present exactly then |
| Dice.CountAll | src/utils/ScoreCalculator.ts:132-141 | a face's count equals the number of dice exactly when every die shows that face |
| Dice.SumIsFaceWeighted | src/utils/ScoreCalculator.ts:142-145 | for dice in 1..6, the sum equals the sum over faces of face times count |
| Dice.CountsTotal | src/utils/ScoreCalculator.ts:86-105 | for dice in 1..6 the counts of the six faces add up to the number of dice |
| Dice.HandSumBounds | src/utils/ScoreCalculator.ts:142-145 | dice in 1..6 sum to between the number of dice and six times it |
| Grouping.GroupBy | src/utils/ScoreCalculator.ts:17 | lodash `groupBy(dice)`: has a key for exactly the values that show, and each key's group holds as many dice as show that value |
| Grouping.FaceGroups | src/utils/ScoreCalculator.ts:19-25 | the groups the loop collects for faces 1..n, at most one per face; FaceGroupsComplete and GroupsShape state which |
| Grouping.Insert | src/utils/ScoreCalculator.ts:27 | one step of the stable sort by size: adds exactly one element; InsertPreserves and InsertOrdered state the rest |
| Grouping.InsertPreserves | src/utils/ScoreCalculator.ts:27 | inserting a group yields the input groups plus that group, as a multiset, and adds its size to the total |
| Grouping.InsertOrdered | src/utils/ScoreCalculator.ts:27 | inserting a group whose face is smaller than every face in a size-ordered list keeps the list ordered by size, ties in face order |
| Grouping.OrderBySizeDesc | src/utils/ScoreCalculator.ts:27 | lodash `orderBy(result, arr => arr.length, "desc")`: keeps the number of groups; OrderBySizeDescPreserves and OrderBySizeDescOrdered state it is an order-by-size permutation |
| Grouping.Groups | src/utils/ScoreCalculator.ts:15-30 | the value `groupDice` returns: at most one group per face looked at; GroupsShape states its contents and order |
| Grouping.MaxCount | src/utils/ScoreCalculator.ts:15-30 | gives the largest count among faces 1..n: no face in 1..n has a larger count, some face attains it, and it is 0 when n is 0 |
| Grouping.FaceGroupsComplete | src/utils/ScoreCalculator.ts:21-25 | the loop collects the group of every face in 1..n that shows |
| Grouping.OrderBySizeDescPreserves | src/utils/ScoreCalculator.ts:27 | ordering by size is a permutation of the groups and keeps their total size |
| Grouping.OrderBySizeDescOrdered | src/utils/ScoreCalculator.ts:27 | groups in ascending face order, once ordered by size, go largest first, with equal sizes staying in ascending face order |
| Grouping.GroupsShape | src/utils/ScoreCalculator.ts:15-30 | every returned group is non-empty and holds all dice of one face in 1..dice.length; every such face that shows has its group; the sizes add up to the number of dice showing 1..dice.length; and the groups run largest first |
| Grouping.GroupFacesDistinct | src/utils/ScoreCalculator.ts:15-30 | no two groups in the list are for the same face |
| Grouping.FirstGroupIsLargest | src/utils/ScoreCalculator.ts:15-30 | the list is empty exactly when no face in 1..dice.length shows; otherwise the first group has the largest count |
| Grouping.FullHouseGroups | src/utils/ScoreCalculator.ts:106-115 | the list is a group of three followed by a group of two exactly when one face shows three times, another twice and no other face in 1..dice.length shows |
| Grouping.GroupDice | src/utils/ScoreCalculator.ts:15-30 | the loop over faces followed by the sort returns `Groups(dice)`: only face groups for 1..dice.length, one for every such face that shows, ordered largest first, sizes adding up to the dice counted |
| Calculators.FaceScore | src/utils/ScoreCalculator.ts:62-85 | the ones..sixes score for a face is the face times the number of dice showing it, so between 0 and face times the number of dice |
| Calculators.ThreeOfAKindScore | src/utils/ScoreCalculator.ts:86-95 | the sum of all dice when some face in 1..dice.length shows at least three times, 0 when none does, and the empty-group error when no such face shows at all |
| Calculators.FourOfAKindScore | src/utils/ScoreCalculator.ts:96-105 | as threeOfAKind, with at least four dice of one face |
| Calculators.FullHouseScore | src/utils/ScoreCalculator.ts:106-115 | 25 exactly when one face shows three times, another twice and nothing else in 1..dice.length shows; otherwise 0 |
| Calculators.IncludesAll | src/utils/ScoreCalculator.ts:32-34 | true exactly when every expected value occurs among the dice |
| Calculators.IncludesRun | src/utils/ScoreCalculator.ts:32-34 | including all of lo, lo+1, .. is having a run of that length starting at lo |
| Calculators.SmallStraightScore | src/utils/ScoreCalculator.ts:116-123 | 30 exactly when four consecutive values starting at 1, 2 or 3 all show; otherwise 0 |
| Calculators.LargeStraightScore | src/utils/ScoreCalculator.ts:124-131 | 40 exactly when five consecutive values starting at 1 or 2 all show; otherwise 0 |
| Calculators.YatzyScore | src/utils/ScoreCalculator.ts:132-141 | 50 when exactly five dice are in the largest group, the largest count among faces 1..dice.length, 0 otherwise, and the empty-group error when no such face shows |
| Calculators.ChanceScore | src/utils/ScoreCalculator.ts:142-145 | for dice in 1..6, the face-weighted count of the dice, between the number of dice and six times it |
| Calculators.ChanceFacts | src/utils/ScoreCalculator.ts:142-145 | for dice in 1..6 the sum is the face-weighted count and lies between the number of dice and six times it |
| Calculators.Calculate | src/utils/ScoreCalculator.ts:61-146 | the dispatch from category to scorer can fail only for threeOfAKind, fourOfAKind and yatzy |
| Calculators.ScoreBounds | src/utils/ScoreCalculator.ts:61-146 | on a valid hand every successful score lies between 0 and its category's maximum: 5·face for the face categories, 27 for threeOfAKind, 26 for fourOfAKind, 25 for fullHouse, 30 for smallStraight, 40 for largeStraight, 50 for yatzy and 30 for chance |
| Calculators.GroupSumBound | src/utils/ScoreCalculator.ts:86-105 | a valid hand with three or more dice on a face from 1 to 5 sums to at most 27, and with four or more to at most 26 |
| Calculators.BestThreeOfAKindHand | src/utils/ScoreCalculator.ts:86-95 | `[5,5,5,6,6]` scores 27 as a three of a kind, the category's maximum |
| Calculators.BestFourOfAKindHand | src/utils/ScoreCalculator.ts:96-105 | `[5,5,5,5,6]` scores 26 as a four of a kind, the category's maximum |
| Calculators.NoGroupsIffAllSixes | src/utils/ScoreCalculator.ts:21 | on a valid hand no face from 1 to 5 shows exactly when all dice show 6 |
| Calculators.ErrorOnlyForAllSixes | src/utils/ScoreCalculator.ts:86-141 | on a valid hand a scorer fails exactly for threeOfAKind, fourOfAKind and yatzy on five sixes |
| Calculators.YatzyOnHand | src/utils/ScoreCalculator.ts:132-141 | on a valid hand yatzy scores 50 exactly when all dice show the same face and that face is not 6 |
| Calculators.YatzyIsNotFullHouse | src/utils/ScoreCalculator.ts:106-115 | five dice all showing one face, five sixes included, score 0 as a full house |
| Calculators.LargeStraightIsSmallStraight | src/utils/ScoreCalculator.ts:116-131 | a hand that scores a large straight also scores a small straight |
| Calculators.SameDice | src/utils/ScoreCalculator.ts:61-146 | hands with the same dice in any order agree on length, sum, every count, every membership and the largest count |
| Calculators.OrderIndependent | src/utils/ScoreCalculator.ts:61-146 | every category scores two orderings of the same dice alike |
| Calculators.TriplePairHand | src/utils/ScoreCalculator.ts:86-145 | `[1,1,1,2,2]` scores 7 as a three of a kind, 25 as a full house, 0 as a four of a kind and as a yatzy, and 7 as chance |
| Calculators.FiveFivesHand | src/utils/ScoreCalculator.ts:96-141 | `[5,5,5,5,5]` scores 50 as a yatzy, 25 as a four of a kind, 0 as a full house and 25 as fives |
| Calculators.SmallNotLargeHand | src/utils/ScoreCalculator.ts:116-131 | `[1,2,3,4,6]` scores 30 as a small straight and 0 as a large straight |
| Calculators.SixesFormNoGroup | src/utils/ScoreCalculator.ts:21-25 | with five dice no group in the list is a group of sixes |
| Calculators.ThreeSixesNotThreeOfAKind | src/utils/ScoreCalculator.ts:86-95 | `[6,6,6,1,2]` scores 0 as a three of a kind |
| Calculators.SixesPairNotFullHouse | src/utils/ScoreCalculator.ts:106-115 | `[6,6,6,1,1]` scores 0 as a full house |
| Calculators.FiveSixesFail | src/utils/ScoreCalculator.ts:86-141 | `[6,6,6,6,6]` gives an empty group list; threeOfAKind, fourOfAKind and yatzy fail on it, while sixes scores 30 |
| Totals.MapScores | src/utils/ScoreCalculator.ts:40 | mapping the rows gives one score per row: the recorded score of its category, or 0 when none is recorded |
| Totals.Recorded | src/utils/ScoreCalculator.ts:40 | `player.scoring[c] ?? 0`: the recorded score of a category, 0 when none is recorded |
| Totals.Fold | src/utils/ScoreCalculator.ts:41 | the reduce's left fold of additions adds the sum of the elements to its start value |
| Totals.Reduce | src/utils/ScoreCalculator.ts:41 | a reduce with no initial value over a non-empty list gives the sum of the list |
| Totals.MapScoresSum | src/utils/ScoreCalculator.ts:38-41 | summing the mapped rows sums the recorded scores of the rows' categories |
| Totals.UpperSectionTotal | src/utils/ScoreCalculator.ts:37-42 | the upper total is the sum of the recorded scores of ones through sixes, each unrecorded one counting 0 |
| Totals.UpperSectionBonus | src/utils/ScoreCalculator.ts:43-47 | the bonus is 0 or 50, and 50 exactly when the recorded upper scores add up to at least 63 |
| Totals.LowerSectionTotal | src/utils/ScoreCalculator.ts:48-53 | the lower total is the sum of the recorded scores of the seven pattern categories, each unrecorded one counting 0 |
| Totals.CalculateTotal | src/utils/ScoreCalculator.ts:54-60 | the grand total is the upper scores plus the bonus plus the lower scores |
| Totals.TotalOfAllCategories | src/utils/ScoreCalculator.ts:54-60 | the grand total is the sum of the recorded scores of all thirteen categories plus the bonus |
| Totals.EmptySheet | src/utils/ScoreCalculator.ts:37-60 | a sheet with nothing recorded totals 0 in each section, in the bonus and overall |
| Totals.BonusThreshold | src/utils/ScoreCalculator.ts:43-47 | upper scores 3, 4, 9, 8, 15, 18 total 57 with no bonus; with sixes at 24 they total 63 and earn the bonus of 50 |
| Totals.LowerDoesNotAffectUpper | src/utils/ScoreCalculator.ts:37-53 | recording a lower-section score leaves the upper total and the bonus unchanged and moves the lower total by the difference |
| Totals.LowerUpdateSums | src/utils/ScoreCalculator.ts:37-53 | recording a lower-section score leaves the upper sum unchanged and moves the lower sum by the difference |
| Totals.UpperUpdateSums | src/utils/ScoreCalculator.ts:37-53 | recording an upper-section score leaves the lower sum unchanged and moves the upper sum by the difference |
| Totals.UpperDoesNotAffectLower | src/utils/ScoreCalculator.ts:37-53 | recording an upper-section score leaves the lower total unchanged and moves the upper total by the difference |
| Totals.RecordingRaisesTotal | src/utils/ScoreCalculator.ts:54-60 | filling an empty category with v >= 0 raises the grand total by v plus any change in the bonus, so by at least v |
| Totals.UpperBounds | src/utils/ScoreCalculator.ts:37-42 | with every score within its category's maximum, the upper total lies in 0..105 |
| Totals.LowerBounds | src/utils/ScoreCalculator.ts:48-53 | with every score within its category's maximum, the lower total lies in 0..228 |
| Totals.TotalBounds | src/utils/ScoreCalculator.ts:54-60 | with every score within its category's maximum, the grand total lies in 0..383 |

## Left out

- The `name` and `description` columns of the descriptions table: they are display text and play no part in scoring.
- The `IScoreCalculator` interface and the `calculators` record as an object of closures: the record becomes the dispatch function `Calculate` over the closed category type.
- The `Player` type (src/types/Player.ts is not part of this model): only its `scoring` record is modelled, as a map from category to score in which an absent key is an unrecorded category. A score stored as `null` is not modelled; `??` would treat it as absent.
- JavaScript numbers: scores are unbounded integers; floating point and non-integer dice values are not modelled.
- lodash `groupBy` keys its groups by the dice values turned into strings; the model keys them by the integers themselves, which gives the same lookups for integer faces.
- lodash `orderBy` is modelled as a stable insertion sort by size. Its stability is stated only through its effect on `groupDice`, whose input is in ascending face order.
- The validation of hands: the source does none, and neither do the scorers here. The game-level lemmas assume five dice in 1..6 (`ValidHand`).
- The runtime error when a scorer reads the first group of an empty group list: it is modelled as the value `EmptyGroupError`, not as an exception.
- The reduce over the empty list, which throws in the source: it cannot happen, because each section filter keeps at least six rows (`UpperHalf`, `LowerHalf`). `Reduce` therefore requires a non-empty list.
- Dice rolling, turn handling, the user interface and persistence, which lie outside the scoring engine.
