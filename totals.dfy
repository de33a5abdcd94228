/**
 * The section totals of the score sheet: the upper-section total, the
 * upper-section bonus, the lower-section total and the grand total. Each
 * section total filters the descriptions table for its section, looks up the
 * player's recorded score for every row (an unrecorded category counts 0) and
 * adds the scores up with a reduce that has no initial value.
 */
module Totals {
  import opened Scoring
  import opened Dice
  import opened Calculators

  /** `player.scoring`: the score recorded for each category filled in so far. */
  type ScoreSheet = map<Category, int>

  /** `player.scoring[c] ?? 0`: the recorded score, or 0 for an unrecorded category. */
  function Recorded(sheet: ScoreSheet, c: Category): int
  {
    if c in sheet then sheet[c] else 0
  }

  /** `rows.map(scd => player.scoring[scd.category] ?? 0)`. */
  function MapScores(sheet: ScoreSheet, rows: seq<CategoryDetails>): (r: seq<int>)
    ensures |r| == |rows|
    ensures forall i :: 0 <= i < |rows| ==> r[i] == Recorded(sheet, rows[i].category)
  {
    seq(|rows|, i requires 0 <= i < |rows| => Recorded(sheet, rows[i].category))
  }

  /**
   * The step of a reduce: fold the remaining elements into the accumulator
   * from the left, which adds their sum to the start value.
   */
  function Fold(acc: int, xs: seq<int>): (r: int)
    ensures r == acc + Sum(xs)
    decreases xs
  {
    if xs == [] then acc else Fold(acc + xs[0], xs[1..])
  }

  /**
   * `xs.reduce((total, previous) => total + previous)` with no initial value:
   * the first element starts the fold, and an empty array is a caller error.
   */
  function Reduce(xs: seq<int>): (r: int)
    requires |xs| > 0
    ensures r == Sum(xs)
  {
    Fold(xs[0], xs[1..])
  }

  /** The sum of the recorded scores of a list of categories. */
  function SheetSum(sheet: ScoreSheet, cats: seq<Category>): int
  {
    if cats == [] then 0 else Recorded(sheet, cats[0]) + SheetSum(sheet, cats[1..])
  }

  lemma {:induction false} SheetSumConcat(sheet: ScoreSheet, a: seq<Category>, b: seq<Category>)
    ensures SheetSum(sheet, a + b) == SheetSum(sheet, a) + SheetSum(sheet, b)
  {
    if a == [] {
      assert a + b == b;
    } else {
      assert (a + b)[1..] == a[1..] + b;
      SheetSumConcat(sheet, a[1..], b);
    }
  }

  /** Summing the mapped rows is summing the recorded scores of their categories. */
  lemma {:induction false} MapScoresSum(sheet: ScoreSheet, rows: seq<CategoryDetails>)
    ensures Sum(MapScores(sheet, rows)) == SheetSum(sheet, CategoriesOf(rows))
  {
    if rows != [] {
      MapScoresSum(sheet, rows[1..]);
      assert MapScores(sheet, rows)[1..] == MapScores(sheet, rows[1..]);
      assert CategoriesOf(rows)[1..] == CategoriesOf(rows[1..]);
    }
  }

  /** The sum of the recorded upper-section scores, written out. */
  function UpperSum(sheet: ScoreSheet): int
  {
    Recorded(sheet, Ones) + Recorded(sheet, Twos) + Recorded(sheet, Threes)
    + Recorded(sheet, Fours) + Recorded(sheet, Fives) + Recorded(sheet, Sixes)
  }

  /** The sum of the recorded lower-section scores, written out. */
  function LowerSum(sheet: ScoreSheet): int
  {
    Recorded(sheet, ThreeOfAKind) + Recorded(sheet, FourOfAKind) + Recorded(sheet, FullHouse)
    + Recorded(sheet, SmallStraight) + Recorded(sheet, LargeStraight)
    + Recorded(sheet, Yatzy) + Recorded(sheet, Chance)
  }

  /** The recorded scores of six categories, added up. */
  lemma SheetSumOfSix(sheet: ScoreSheet, c: seq<Category>)
    requires |c| == 6
    ensures SheetSum(sheet, c) == Recorded(sheet, c[0]) + Recorded(sheet, c[1]) + Recorded(sheet, c[2])
                                  + Recorded(sheet, c[3]) + Recorded(sheet, c[4]) + Recorded(sheet, c[5])
  {
    var t := c[1..];
    assert SheetSum(sheet, t) == Recorded(sheet, t[0]) + SheetSum(sheet, t[1..]);
    var u := t[1..];
    assert SheetSum(sheet, u) == Recorded(sheet, u[0]) + SheetSum(sheet, u[1..]);
    var w := u[1..];
    assert SheetSum(sheet, w) == Recorded(sheet, w[0]) + SheetSum(sheet, w[1..]);
    var x := w[1..];
    assert SheetSum(sheet, x) == Recorded(sheet, x[0]) + SheetSum(sheet, x[1..]);
    assert x[1..][1..] == [];
  }

  /** The recorded scores of seven categories, added up. */
  lemma SheetSumOfSeven(sheet: ScoreSheet, c: seq<Category>)
    requires |c| == 7
    ensures SheetSum(sheet, c) == Recorded(sheet, c[0]) + Recorded(sheet, c[1]) + Recorded(sheet, c[2])
                                  + Recorded(sheet, c[3]) + Recorded(sheet, c[4]) + Recorded(sheet, c[5])
                                  + Recorded(sheet, c[6])
  {
    SheetSumOfSix(sheet, c[1..]);
  }

  /**
   * `calculateUpperSectionTotal`: the recorded scores of ones through sixes
   * added up, each unrecorded one counting 0.
   */
  function UpperSectionTotal(sheet: ScoreSheet): (r: int)
    ensures r == UpperSum(sheet)
  {
    SectionsPartition();
    MapScoresSum(sheet, InSection(DESCRIPTIONS, Upper));
    SheetSumOfSix(sheet, UPPER_CATEGORIES);
    Reduce(MapScores(sheet, InSection(DESCRIPTIONS, Upper)))
  }

  /** `calculateUpperSectionBonus`: 50 exactly when the upper total reaches 63, otherwise 0. */
  function UpperSectionBonus(sheet: ScoreSheet): (r: int)
    ensures r == 0 || r == 50
    ensures r == 50 <==> UpperSum(sheet) >= 63
  {
    if UpperSectionTotal(sheet) >= 63 then 50 else 0
  }

  /**
   * `calculateLowerSectionTotal`: the recorded scores of the seven pattern
   * categories added up, each unrecorded one counting 0.
   */
  function LowerSectionTotal(sheet: ScoreSheet): (r: int)
    ensures r == LowerSum(sheet)
  {
    SectionsPartition();
    MapScoresSum(sheet, InSection(DESCRIPTIONS, Lower));
    SheetSumOfSeven(sheet, LOWER_CATEGORIES);
    Reduce(MapScores(sheet, InSection(DESCRIPTIONS, Lower)))
  }

  /**
   * `calculateTotal`: the recorded scores of the two sections plus the
   * upper-section bonus.
   */
  function CalculateTotal(sheet: ScoreSheet): (r: int)
    ensures r == UpperSum(sheet) + UpperSectionBonus(sheet) + LowerSum(sheet)
  {
    UpperSectionTotal(sheet) + UpperSectionBonus(sheet) + LowerSectionTotal(sheet)
  }

  /** The thirteen categories split into the two sections. */
  lemma AllSheetSum(sheet: ScoreSheet)
    ensures SheetSum(sheet, ALL_CATEGORIES) == UpperSum(sheet) + LowerSum(sheet)
  {
    var rest := [ThreeOfAKind, FourOfAKind, SmallStraight, LargeStraight, FullHouse, Chance, Yatzy];
    assert ALL_CATEGORIES == UPPER_CATEGORIES + rest;
    SheetSumConcat(sheet, UPPER_CATEGORIES, rest);
    SheetSumOfSix(sheet, UPPER_CATEGORIES);
    SheetSumOfSeven(sheet, rest);
  }

  /** The grand total is every category's recorded score plus the bonus. */
  lemma TotalOfAllCategories(sheet: ScoreSheet)
    ensures CalculateTotal(sheet) == SheetSum(sheet, ALL_CATEGORIES) + UpperSectionBonus(sheet)
  {
    AllSheetSum(sheet);
  }

  /** A sheet with nothing recorded totals 0 in every section. */
  lemma EmptySheet()
    ensures UpperSectionTotal(map[]) == 0
    ensures UpperSectionBonus(map[]) == 0
    ensures LowerSectionTotal(map[]) == 0
    ensures CalculateTotal(map[]) == 0
  {
  }

  /**
   * An upper section of 3, 4, 9, 8, 15 and 18 totals 57 and earns no bonus;
   * raising sixes to 24 brings it to 63, which does.
   */
  lemma BonusThreshold(sheet: ScoreSheet)
    requires Recorded(sheet, Ones) == 3 && Recorded(sheet, Twos) == 4
    requires Recorded(sheet, Threes) == 9 && Recorded(sheet, Fours) == 8
    requires Recorded(sheet, Fives) == 15 && Recorded(sheet, Sixes) == 18
    ensures UpperSectionTotal(sheet) == 57
    ensures UpperSectionBonus(sheet) == 0
    ensures UpperSectionTotal(sheet[Sixes := 24]) == 63
    ensures UpperSectionBonus(sheet[Sixes := 24]) == 50
  {
    UpperDoesNotAffectLower(sheet, Sixes, 24);
  }

  /** Recording v for c changes the recorded score of c alone. */
  lemma RecordedAfterUpdate(sheet: ScoreSheet, c: Category, v: int)
    ensures forall d :: Recorded(sheet[c := v], d) == if d == c then v else Recorded(sheet, d)
  {
    forall d ensures Recorded(sheet[c := v], d) == if d == c then v else Recorded(sheet, d) {
      if d != c {
        assert (d in sheet[c := v]) == (d in sheet);
      }
    }
  }

  /** Recording a lower-section score changes the lower sum alone, by the difference. */
  lemma LowerUpdateSums(sheet: ScoreSheet, c: Category, v: int)
    requires !IsFaceCategory(c)
    ensures UpperSum(sheet[c := v]) == UpperSum(sheet)
    ensures LowerSum(sheet[c := v]) == LowerSum(sheet) - Recorded(sheet, c) + v
  {
    RecordedAfterUpdate(sheet, c, v);
    match c
    case ThreeOfAKind => {} case FourOfAKind => {} case FullHouse => {}
    case SmallStraight => {} case LargeStraight => {} case Yatzy => {} case Chance => {}
  }

  /** Recording an upper-section score changes the upper sum alone, by the difference. */
  lemma UpperUpdateSums(sheet: ScoreSheet, c: Category, v: int)
    requires IsFaceCategory(c)
    ensures LowerSum(sheet[c := v]) == LowerSum(sheet)
    ensures UpperSum(sheet[c := v]) == UpperSum(sheet) - Recorded(sheet, c) + v
  {
    RecordedAfterUpdate(sheet, c, v);
    match c
    case Ones => {} case Twos => {} case Threes => {}
    case Fours => {} case Fives => {} case Sixes => {}
  }

  /** Scores recorded in the lower section do not affect the upper total or the bonus. */
  lemma LowerDoesNotAffectUpper(sheet: ScoreSheet, c: Category, v: int)
    requires !IsFaceCategory(c)
    ensures UpperSectionTotal(sheet[c := v]) == UpperSectionTotal(sheet)
    ensures UpperSectionBonus(sheet[c := v]) == UpperSectionBonus(sheet)
    ensures LowerSectionTotal(sheet[c := v]) == LowerSectionTotal(sheet) - Recorded(sheet, c) + v
  {
    LowerUpdateSums(sheet, c, v);
  }

  /** Scores recorded in the upper section do not affect the lower total. */
  lemma UpperDoesNotAffectLower(sheet: ScoreSheet, c: Category, v: int)
    requires IsFaceCategory(c)
    ensures LowerSectionTotal(sheet[c := v]) == LowerSectionTotal(sheet)
    ensures UpperSectionTotal(sheet[c := v]) == UpperSectionTotal(sheet) - Recorded(sheet, c) + v
  {
    UpperUpdateSums(sheet, c, v);
  }

  /**
   * Filling in an unrecorded category with a score of v >= 0 raises the grand
   * total by at least v: by v itself, plus 50 when it lifts the upper total
   * over the bonus threshold.
   */
  lemma RecordingRaisesTotal(sheet: ScoreSheet, c: Category, v: int)
    requires c !in sheet
    requires 0 <= v
    ensures CalculateTotal(sheet[c := v]) - CalculateTotal(sheet)
            == v + UpperSectionBonus(sheet[c := v]) - UpperSectionBonus(sheet)
    ensures CalculateTotal(sheet[c := v]) >= CalculateTotal(sheet) + v
  {
    if IsFaceCategory(c) {
      UpperDoesNotAffectLower(sheet, c, v);
    } else {
      LowerDoesNotAffectUpper(sheet, c, v);
    }
  }

  /** Every recorded score lies between 0 and its category's maximum. */
  predicate WithinMaxima(sheet: ScoreSheet)
  {
    forall c :: c in sheet ==> 0 <= sheet[c] <= MaxScore(c)
  }

  /** Under WithinMaxima an unrecorded or recorded score lies between 0 and the maximum. */
  lemma RecordedWithin(sheet: ScoreSheet, c: Category)
    requires WithinMaxima(sheet)
    ensures 0 <= Recorded(sheet, c) <= MaxScore(c)
  {
  }

  /** Within the maxima the upper section totals between 0 and 105. */
  lemma UpperBounds(sheet: ScoreSheet)
    requires WithinMaxima(sheet)
    ensures 0 <= UpperSectionTotal(sheet) <= 105
  {
    var a := Recorded(sheet, Ones);
    var b := Recorded(sheet, Twos);
    var c := Recorded(sheet, Threes);
    var d := Recorded(sheet, Fours);
    var e := Recorded(sheet, Fives);
    var f := Recorded(sheet, Sixes);
    RecordedWithin(sheet, Ones);
    RecordedWithin(sheet, Twos);
    RecordedWithin(sheet, Threes);
    RecordedWithin(sheet, Fours);
    RecordedWithin(sheet, Fives);
    RecordedWithin(sheet, Sixes);
    assert 0 <= a <= 5 && 0 <= b <= 10 && 0 <= c <= 15 && 0 <= d <= 20 && 0 <= e <= 25 && 0 <= f <= 30;
    assert UpperSectionTotal(sheet) == a + b + c + d + e + f;
  }

  /** Within the maxima the lower section totals between 0 and 228. */
  lemma LowerBounds(sheet: ScoreSheet)
    requires WithinMaxima(sheet)
    ensures 0 <= LowerSectionTotal(sheet) <= 228
  {
    var a := Recorded(sheet, ThreeOfAKind);
    var b := Recorded(sheet, FourOfAKind);
    var c := Recorded(sheet, FullHouse);
    var d := Recorded(sheet, SmallStraight);
    var e := Recorded(sheet, LargeStraight);
    var f := Recorded(sheet, Yatzy);
    var g := Recorded(sheet, Chance);
    RecordedWithin(sheet, ThreeOfAKind);
    RecordedWithin(sheet, FourOfAKind);
    RecordedWithin(sheet, FullHouse);
    RecordedWithin(sheet, SmallStraight);
    RecordedWithin(sheet, LargeStraight);
    RecordedWithin(sheet, Yatzy);
    RecordedWithin(sheet, Chance);
    assert 0 <= a <= 27 && 0 <= b <= 26 && 0 <= c <= 25 && 0 <= d <= 30;
    assert 0 <= e <= 40 && 0 <= f <= 50 && 0 <= g <= 30;
    assert LowerSectionTotal(sheet) == a + b + c + d + e + f + g;
  }

  /**
   * A sheet whose scores are all within their categories' maxima totals
   * between 0 and 383: at most 105 in the upper section, the bonus of 50, and
   * at most 228 in the lower section.
   */
  lemma TotalBounds(sheet: ScoreSheet)
    requires WithinMaxima(sheet)
    ensures 0 <= CalculateTotal(sheet) <= 383
  {
    UpperBounds(sheet);
    LowerBounds(sheet);
  }
}
