/**
 * The scoring categories, the two score-sheet sections, and the static
 * category descriptions table of src/types/Scoring.ts. Only the
 * category-to-section assignment of the table is kept; the display name and
 * the description text play no part in scoring.
 */
module Scoring {

  /** The thirteen categories a player may score in, in declaration order. */
  datatype Category =
    | Ones | Twos | Threes | Fours | Fives | Sixes
    | ThreeOfAKind | FourOfAKind
    | SmallStraight | LargeStraight | FullHouse | Chance
    | Yatzy

  /** The section of the score sheet a category belongs to. */
  datatype Section = Upper | Lower

  /** One row of the descriptions table. */
  datatype CategoryDetails = CategoryDetails(category: Category, section: Section)

  /** Every category, in declaration order. */
  const ALL_CATEGORIES: seq<Category> :=
    [Ones, Twos, Threes, Fours, Fives, Sixes, ThreeOfAKind, FourOfAKind,
     SmallStraight, LargeStraight, FullHouse, Chance, Yatzy]

  /** `ScoringCategoryDescriptions`, in table order. */
  const DESCRIPTIONS: seq<CategoryDetails> := [
    CategoryDetails(Ones, Upper),
    CategoryDetails(Twos, Upper),
    CategoryDetails(Threes, Upper),
    CategoryDetails(Fours, Upper),
    CategoryDetails(Fives, Upper),
    CategoryDetails(Sixes, Upper),
    CategoryDetails(ThreeOfAKind, Lower),
    CategoryDetails(FourOfAKind, Lower),
    CategoryDetails(FullHouse, Lower),
    CategoryDetails(SmallStraight, Lower),
    CategoryDetails(LargeStraight, Lower),
    CategoryDetails(Yatzy, Lower),
    CategoryDetails(Chance, Lower)
  ]

  /** The "count of one face" categories: the ones the rules put in the upper section. */
  predicate IsFaceCategory(c: Category)
  {
    c.Ones? || c.Twos? || c.Threes? || c.Fours? || c.Fives? || c.Sixes?
  }

  /** `table.filter(scd => scd.section === s)`. */
  function InSection(table: seq<CategoryDetails>, s: Section): (r: seq<CategoryDetails>)
    ensures |r| <= |table|
    ensures forall i :: 0 <= i < |r| ==> r[i].section == s && r[i] in table
  {
    InSectionFrom(table, s, 0)
  }

  /** The rows of `table[from..]` that lie in section s, in table order. */
  function InSectionFrom(table: seq<CategoryDetails>, s: Section, from: nat): (r: seq<CategoryDetails>)
    requires from <= |table|
    ensures |r| <= |table| - from
    ensures forall i :: 0 <= i < |r| ==> r[i].section == s && r[i] in table
    decreases |table| - from
  {
    if from == |table| then []
    else (if table[from].section == s then [table[from]] else []) + InSectionFrom(table, s, from + 1)
  }

  /** The categories of a list of table rows, in order. */
  function CategoriesOf(rows: seq<CategoryDetails>): seq<Category>
  {
    seq(|rows|, i requires 0 <= i < |rows| => rows[i].category)
  }

  /** The category type is closed: thirteen distinct variants, all listed. */
  lemma CategoryVariants()
    ensures |ALL_CATEGORIES| == 13
    ensures forall i, j :: 0 <= i < j < |ALL_CATEGORIES| ==> ALL_CATEGORIES[i] != ALL_CATEGORIES[j]
    ensures forall c: Category :: c in ALL_CATEGORIES
  {
    forall c: Category ensures c in ALL_CATEGORIES {
      match c
      case Ones => {} case Twos => {} case Threes => {} case Fours => {}
      case Fives => {} case Sixes => {} case ThreeOfAKind => {} case FourOfAKind => {}
      case SmallStraight => {} case LargeStraight => {} case FullHouse => {}
      case Chance => {} case Yatzy => {}
    }
  }

  /** A section is Upper or Lower and never both. */
  lemma SectionVariants()
    ensures forall s: Section :: s.Upper? <==> !s.Lower?
  {
  }

  /** The table has thirteen rows, no two for the same category. */
  lemma RowsDistinct()
    ensures |DESCRIPTIONS| == 13
    ensures forall i, j :: 0 <= i < j < |DESCRIPTIONS| ==> DESCRIPTIONS[i].category != DESCRIPTIONS[j].category
  {
  }

  /** Every category has a row in the table. */
  lemma RowsCover()
    ensures forall c: Category :: c in CategoriesOf(DESCRIPTIONS)
  {
    forall c: Category ensures c in CategoriesOf(DESCRIPTIONS) {
      var i := match c
        case Ones => 0 case Twos => 1 case Threes => 2 case Fours => 3
        case Fives => 4 case Sixes => 5 case ThreeOfAKind => 6 case FourOfAKind => 7
        case FullHouse => 8 case SmallStraight => 9 case LargeStraight => 10
        case Yatzy => 11 case Chance => 12;
      assert CategoriesOf(DESCRIPTIONS)[i] == c;
    }
  }

  /** Filtering the table for the upper section keeps its first six rows. */
  lemma UpperHalf()
    ensures InSection(DESCRIPTIONS, Upper) == DESCRIPTIONS[..6]
  {
  }

  /** Filtering the table for the lower section keeps its last seven rows. */
  lemma LowerHalf()
    ensures InSection(DESCRIPTIONS, Lower) == DESCRIPTIONS[6..]
  {
  }

  /** The rows filtered to the upper section are ones through sixes, in that order. */
  lemma UpperRows()
    ensures CategoriesOf(InSection(DESCRIPTIONS, Upper)) == [Ones, Twos, Threes, Fours, Fives, Sixes]
  {
    UpperHalf();
  }

  /** The rows filtered to the lower section are the other seven categories, in table order. */
  lemma LowerRows()
    ensures CategoriesOf(InSection(DESCRIPTIONS, Lower))
            == [ThreeOfAKind, FourOfAKind, FullHouse, SmallStraight, LargeStraight, Yatzy, Chance]
  {
    LowerHalf();
  }

  /** The face categories, in declaration order. */
  const UPPER_CATEGORIES: seq<Category> := [Ones, Twos, Threes, Fours, Fives, Sixes]

  /** The pattern categories, in table order. */
  const LOWER_CATEGORIES: seq<Category> :=
    [ThreeOfAKind, FourOfAKind, FullHouse, SmallStraight, LargeStraight, Yatzy, Chance]

  /**
   * The two section filters partition the table: the upper one holds
   * precisely the face categories and the lower one every other category.
   */
  lemma SectionsPartition()
    ensures CategoriesOf(InSection(DESCRIPTIONS, Upper)) == UPPER_CATEGORIES
    ensures CategoriesOf(InSection(DESCRIPTIONS, Lower)) == LOWER_CATEGORIES
    ensures forall c: Category :: c in UPPER_CATEGORIES <==> IsFaceCategory(c)
    ensures forall c: Category :: c in LOWER_CATEGORIES <==> !IsFaceCategory(c)
  {
    UpperRows();
    LowerRows();
    forall c: Category ensures c in LOWER_CATEGORIES <==> !IsFaceCategory(c) {
      if !IsFaceCategory(c) {
        var i := match c
          case FullHouse => 2 case SmallStraight => 3 case LargeStraight => 4
          case Yatzy => 5 case Chance => 6 case FourOfAKind => 1 case _ => 0;
        assert LOWER_CATEGORIES[i] == c;
      }
    }
  }
}
