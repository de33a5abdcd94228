/**
 * Sequence helpers the scorers are built from: `dice.filter(d => d === face)`,
 * lodash `sum`, and the multiplicity of a face in a hand.
 */
module Dice {

  /** A hand as the game supplies it: five dice, each showing 1 to 6. */
  predicate ValidHand(dice: seq<int>)
  {
    |dice| == 5 && forall i :: 0 <= i < |dice| ==> 1 <= dice[i] <= 6
  }

  /** `dice.filter(d => d === face)`: the dice showing `face`, in hand order. */
  function FilterEq(dice: seq<int>, face: int): (r: seq<int>)
    ensures |r| == multiset(dice)[face] <= |dice|
    ensures forall i :: 0 <= i < |r| ==> r[i] == face
  {
    if dice == [] then []
    else
      assert dice == [dice[0]] + dice[1..];
      (if dice[0] == face then [dice[0]] else []) + FilterEq(dice[1..], face)
  }

  /** The number of dice showing `face`. */
  function Count(dice: seq<int>, face: int): nat
  {
    |FilterEq(dice, face)|
  }

  /** lodash `sum`: the sum of a sequence, 0 for the empty one. */
  function Sum(s: seq<int>): int
  {
    if s == [] then 0 else s[0] + Sum(s[1..])
  }

  lemma {:induction false} SumConcat(a: seq<int>, b: seq<int>)
    ensures Sum(a + b) == Sum(a) + Sum(b)
  {
    if a == [] {
      assert a + b == b;
    } else {
      assert (a + b)[1..] == a[1..] + b;
      SumConcat(a[1..], b);
    }
  }

  /** A sequence whose every element is `v` sums to `v` times its length. */
  lemma {:induction false} SumConstant(s: seq<int>, v: int)
    requires forall i :: 0 <= i < |s| ==> s[i] == v
    ensures Sum(s) == v * |s|
  {
    if s != [] {
      SumConstant(s[1..], v);
    }
  }

  /** Sums do not depend on the order of the elements. */
  lemma {:induction false} SumPermutation(a: seq<int>, b: seq<int>)
    requires multiset(a) == multiset(b)
    ensures Sum(a) == Sum(b)
  {
    if a == [] {
      assert |b| == |multiset(b)| == 0;
    } else {
      assert a[0] in multiset(b);
      var i :| 0 <= i < |b| && b[i] == a[0];
      var rest := b[..i] + b[i + 1..];
      assert b == b[..i] + [b[i]] + b[i + 1..];
      assert a == [a[0]] + a[1..];
      assert multiset(b) == multiset(b[..i]) + multiset{b[i]} + multiset(b[i + 1..]);
      assert multiset(rest) == multiset(b[..i]) + multiset(b[i + 1..]);
      assert multiset(a[1..]) == multiset(a) - multiset{a[0]};
      assert multiset(rest) == multiset(b) - multiset{a[0]};
      assert multiset(a[1..]) == multiset(rest);
      SumPermutation(a[1..], rest);
      SumConcat(b[..i] + [b[i]], b[i + 1..]);
      SumConcat(b[..i], [b[i]]);
      SumConcat(b[..i], b[i + 1..]);
    }
  }

  /** `v` appears in `dice` exactly when some die shows it. */
  lemma CountPositive(dice: seq<int>, v: int)
    ensures Count(dice, v) > 0 <==> v in dice
  {
    assert v in dice <==> v in multiset(dice);
  }

  /** All dice show `face` exactly when every die is counted for it. */
  lemma {:induction false} CountAll(dice: seq<int>, face: int)
    ensures Count(dice, face) == |dice| <==> forall i :: 0 <= i < |dice| ==> dice[i] == face
  {
    if dice != [] {
      CountAll(dice[1..], face);
      assert Count(dice, face) == (if dice[0] == face then 1 else 0) + Count(dice[1..], face);
      if Count(dice, face) == |dice| {
        forall i | 0 <= i < |dice| ensures dice[i] == face {
          if i > 0 {
            assert dice[i] == dice[1..][i - 1];
          }
        }
      }
      if forall i :: 0 <= i < |dice| ==> dice[i] == face {
        assert forall i :: 0 <= i < |dice[1..]| ==> dice[1..][i] == dice[i + 1];
      }
    }
  }

  /** The dice showing a face from 1 to n. */
  function InRange(dice: seq<int>, n: int): seq<int>
  {
    if dice == [] then []
    else (if 1 <= dice[0] <= n then [dice[0]] else []) + InRange(dice[1..], n)
  }

  /** No die shows a face from 1 to 0. */
  lemma {:induction false} InRangeNone(dice: seq<int>)
    ensures InRange(dice, 0) == []
  {
    if dice != [] {
      InRangeNone(dice[1..]);
    }
  }

  /** Raising the upper face bound from n - 1 to n adds the dice showing n. */
  lemma {:induction false} InRangeStep(dice: seq<int>, n: int)
    requires 1 <= n
    ensures |InRange(dice, n)| == |InRange(dice, n - 1)| + Count(dice, n)
  {
    if dice != [] {
      InRangeStep(dice[1..], n);
    }
  }

  /** Every die of a valid hand is in the range 1..6. */
  lemma {:induction false} InRangeAll(dice: seq<int>)
    requires forall i :: 0 <= i < |dice| ==> 1 <= dice[i] <= 6
    ensures InRange(dice, 6) == dice
  {
    if dice != [] {
      InRangeAll(dice[1..]);
    }
  }

  /** For dice in 1..6 the counts of the six faces add up to the number of dice. */
  lemma CountsTotal(dice: seq<int>)
    requires forall i :: 0 <= i < |dice| ==> 1 <= dice[i] <= 6
    ensures Count(dice, 1) + Count(dice, 2) + Count(dice, 3)
            + Count(dice, 4) + Count(dice, 5) + Count(dice, 6) == |dice|
  {
    InRangeNone(dice);
    InRangeStep(dice, 1);
    InRangeStep(dice, 2);
    InRangeStep(dice, 3);
    InRangeStep(dice, 4);
    InRangeStep(dice, 5);
    InRangeStep(dice, 6);
    InRangeAll(dice);
  }

  /** The sum of dice showing 1..6, weighted by face: the "face times count" reading of a sum. */
  function FaceWeightedSum(dice: seq<int>): int
  {
    1 * Count(dice, 1) + 2 * Count(dice, 2) + 3 * Count(dice, 3)
    + 4 * Count(dice, 4) + 5 * Count(dice, 5) + 6 * Count(dice, 6)
  }

  /** A hand of dice in 1..6 sums to the face-weighted count of its faces. */
  lemma {:induction false} SumIsFaceWeighted(dice: seq<int>)
    requires forall i :: 0 <= i < |dice| ==> 1 <= dice[i] <= 6
    ensures Sum(dice) == FaceWeightedSum(dice)
  {
    if dice != [] {
      SumIsFaceWeighted(dice[1..]);
      assert forall f :: Count(dice, f) == (if dice[0] == f then 1 else 0) + Count(dice[1..], f);
    }
  }

  /** The sum of five dice, written out. */
  lemma SumOfFive(dice: seq<int>)
    requires |dice| == 5
    ensures Sum(dice) == dice[0] + dice[1] + dice[2] + dice[3] + dice[4]
  {
    var t := dice[1..];
    assert Sum(t) == t[0] + Sum(t[1..]);
    var u := t[1..];
    assert Sum(u) == u[0] + Sum(u[1..]);
    var w := u[1..];
    assert Sum(w) == w[0] + Sum(w[1..]);
    assert w[1..][1..] == [];
  }

  /** Dice in 1..6 sum to at least their number and at most six times it. */
  lemma {:induction false} HandSumBounds(dice: seq<int>)
    requires forall i :: 0 <= i < |dice| ==> 1 <= dice[i] <= 6
    ensures |dice| <= Sum(dice) <= 6 * |dice|
  {
    if dice != [] {
      HandSumBounds(dice[1..]);
    }
  }
}
