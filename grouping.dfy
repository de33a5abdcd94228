/**
 * `groupDice` of src/utils/ScoreCalculator.ts: the dice are grouped by value,
 * the groups for faces 1 up to the NUMBER OF DICE are collected in ascending
 * face order, and the list is then stably ordered by group size, largest first.
 * With five dice the face 6 is never looked at, so sixes form no group.
 */
module Grouping {
  import opened Dice

  /** lodash `groupBy(dice)`: every value showing maps to the dice that show it. */
  function GroupBy(dice: seq<int>): (r: map<int, seq<int>>)
    ensures forall v :: v in r <==> v in dice
    ensures forall v :: v in r ==> |r[v]| == Count(dice, v) > 0
  {
    forall v | v in dice ensures Count(dice, v) > 0 {
      CountPositive(dice, v);
    }
    map v | v in dice :: FilterEq(dice, v)
  }

  /** The groups for faces 1..n in ascending face order, before ordering by size. */
  function FaceGroups(dice: seq<int>, n: nat): (r: seq<seq<int>>)
    ensures |r| <= n
  {
    if n == 0 then []
    else FaceGroups(dice, n - 1) + (if Count(dice, n) > 0 then [FilterEq(dice, n)] else [])
  }

  /** Places `g` before the first group that is not larger than it. */
  function Insert(g: seq<int>, gs: seq<seq<int>>): (r: seq<seq<int>>)
    ensures |r| == |gs| + 1
  {
    if gs == [] then [g]
    else if |g| >= |gs[0]| then [g] + gs
    else [gs[0]] + Insert(g, gs[1..])
  }

  /** lodash `orderBy(gs, g => g.length, "desc")`: a stable sort by size, largest first. */
  function OrderBySizeDesc(gs: seq<seq<int>>): (r: seq<seq<int>>)
    ensures |r| == |gs|
  {
    if gs == [] then [] else Insert(gs[0], OrderBySizeDesc(gs[1..]))
  }

  /** The value `groupDice(dice)` returns. */
  function Groups(dice: seq<int>): (r: seq<seq<int>>)
    ensures |r| <= |dice|
  {
    OrderBySizeDesc(FaceGroups(dice, |dice|))
  }

  /** `g` is the non-empty group of all dice showing one face `g[0]` in 1..n. */
  predicate IsFaceGroup(dice: seq<int>, g: seq<int>, n: int)
  {
    g != [] && 1 <= g[0] <= n && g == FilterEq(dice, g[0])
  }

  /** `a` comes before `b`: it is larger, or as large with a smaller face. */
  predicate Precedes(a: seq<int>, b: seq<int>)
  {
    a != [] && b != [] && (|a| > |b| || (|a| == |b| && a[0] < b[0]))
  }

  predicate AllNonEmpty(gs: seq<seq<int>>)
  {
    forall i :: 0 <= i < |gs| ==> gs[i] != []
  }

  predicate FacesAscending(gs: seq<seq<int>>)
  {
    AllNonEmpty(gs) && forall i, j :: 0 <= i < j < |gs| ==> gs[i][0] < gs[j][0]
  }

  /** Sizes descend; groups of equal size keep ascending face order. */
  predicate SizeOrdered(gs: seq<seq<int>>)
  {
    forall i, j :: 0 <= i < j < |gs| ==> Precedes(gs[i], gs[j])
  }

  /** The total number of dice held by the groups. */
  function SizeSum(gs: seq<seq<int>>): nat
  {
    if gs == [] then 0 else |gs[0]| + SizeSum(gs[1..])
  }

  /** The largest number of dice sharing one face among the faces 1..n. */
  function MaxCount(dice: seq<int>, n: nat): (m: nat)
    ensures forall f :: 1 <= f <= n ==> Count(dice, f) <= m
    ensures n == 0 ==> m == 0
    ensures n > 0 ==> exists f :: 1 <= f <= n && Count(dice, f) == m
  {
    if n == 0 then 0
    else
      var m := MaxCount(dice, n - 1);
      if Count(dice, n) > m then Count(dice, n) else m
  }

  /** The largest multiplicity of a face that `groupDice` looks at (faces 1..|dice|). */
  function LargestCount(dice: seq<int>): nat
  {
    MaxCount(dice, |dice|)
  }

  /** Every collected group is the group of one face in 1..n. */
  lemma {:induction false} FaceGroupsMembers(dice: seq<int>, n: nat)
    ensures forall g :: g in FaceGroups(dice, n) ==> IsFaceGroup(dice, g, n)
  {
    if n > 0 {
      FaceGroupsMembers(dice, n - 1);
      var prev := FaceGroups(dice, n - 1);
      forall g | g in FaceGroups(dice, n) ensures IsFaceGroup(dice, g, n) {
        if g in prev {
          assert IsFaceGroup(dice, g, n - 1);
        } else {
          assert g == FilterEq(dice, n);
        }
      }
    }
  }

  /** The groups are collected in strictly ascending face order. */
  lemma {:induction false} FaceGroupsAscending(dice: seq<int>, n: nat)
    ensures FacesAscending(FaceGroups(dice, n))
  {
    if n > 0 {
      FaceGroupsAscending(dice, n - 1);
      FaceGroupsMembers(dice, n - 1);
      var prev := FaceGroups(dice, n - 1);
      if Count(dice, n) > 0 {
        var r := prev + [FilterEq(dice, n)];
        assert FaceGroups(dice, n) == r;
        forall i, j | 0 <= i < j < |r| ensures r[i] != [] && r[j] != [] && r[i][0] < r[j][0] {
          if j < |prev| {
            assert r[i] == prev[i] && r[j] == prev[j];
          } else {
            assert r[i] == prev[i];
            assert prev[i] in prev;
            assert IsFaceGroup(dice, prev[i], n - 1);
          }
        }
        forall i | 0 <= i < |r| ensures r[i] != [] {
          if i < |prev| {
            assert r[i] == prev[i];
          }
        }
      } else {
        assert FaceGroups(dice, n) == prev;
      }
    }
  }

  /** Every face in 1..n that shows has its group collected. */
  lemma {:induction false} FaceGroupsComplete(dice: seq<int>, n: nat)
    ensures forall f :: 1 <= f <= n && Count(dice, f) > 0 ==> FilterEq(dice, f) in FaceGroups(dice, n)
  {
    if n > 0 {
      FaceGroupsComplete(dice, n - 1);
      var prev := FaceGroups(dice, n - 1);
      var next := if Count(dice, n) > 0 then [FilterEq(dice, n)] else [];
      assert FaceGroups(dice, n) == prev + next;
      forall f | 1 <= f <= n && Count(dice, f) > 0 ensures FilterEq(dice, f) in prev + next {
        if f < n {
          assert FilterEq(dice, f) in prev;
        } else {
          assert FilterEq(dice, f) in next;
        }
      }
    }
  }

  /** The collected groups hold exactly the dice showing 1..n. */
  lemma {:induction false} FaceGroupsSize(dice: seq<int>, n: nat)
    ensures SizeSum(FaceGroups(dice, n)) == |InRange(dice, n)|
  {
    if n == 0 {
      InRangeNone(dice);
    } else {
      FaceGroupsSize(dice, n - 1);
      var prev := FaceGroups(dice, n - 1);
      var next := if Count(dice, n) > 0 then [FilterEq(dice, n)] else [];
      SizeSumConcat(prev, next);
      InRangeStep(dice, n);
    }
  }

  lemma {:induction false} SizeSumConcat(a: seq<seq<int>>, b: seq<seq<int>>)
    ensures SizeSum(a + b) == SizeSum(a) + SizeSum(b)
  {
    if a == [] {
      assert a + b == b;
    } else {
      assert (a + b)[1..] == a[1..] + b;
      SizeSumConcat(a[1..], b);
    }
  }

  lemma {:induction false} InsertPreserves(g: seq<int>, gs: seq<seq<int>>)
    ensures multiset(Insert(g, gs)) == multiset(gs) + multiset{g}
    ensures SizeSum(Insert(g, gs)) == |g| + SizeSum(gs)
  {
    if gs != [] && |g| < |gs[0]| {
      InsertPreserves(g, gs[1..]);
      assert gs == [gs[0]] + gs[1..];
    }
  }

  /** Every group of Insert(g, gs) is g or a group of gs. */
  lemma {:induction false} InsertElements(g: seq<int>, gs: seq<seq<int>>)
    ensures |Insert(g, gs)| == |gs| + 1
    ensures forall k :: 0 <= k < |Insert(g, gs)| ==> Insert(g, gs)[k] == g || Insert(g, gs)[k] in gs
  {
    if gs != [] && |g| < |gs[0]| {
      InsertElements(g, gs[1..]);
    }
  }

  /** A sequence stays ordered when an element preceding all of it is put in front. */
  lemma ConsOrdered(x: seq<int>, t: seq<seq<int>>)
    requires SizeOrdered(t)
    requires forall k :: 0 <= k < |t| ==> Precedes(x, t[k])
    ensures SizeOrdered([x] + t)
  {
    var r := [x] + t;
    forall i, j | 0 <= i < j < |r| ensures Precedes(r[i], r[j]) {
      if i > 0 {
        assert r[i] == t[i - 1] && r[j] == t[j - 1];
      } else {
        assert r[j] == t[j - 1];
      }
    }
  }

  lemma {:induction false} InsertOrdered(g: seq<int>, gs: seq<seq<int>>)
    requires g != [] && SizeOrdered(gs)
    requires forall k :: 0 <= k < |gs| ==> gs[k] != [] && g[0] < gs[k][0]
    ensures SizeOrdered(Insert(g, gs))
  {
    if gs == [] {
    } else if |g| >= |gs[0]| {
      forall k | 0 <= k < |gs| ensures Precedes(g, gs[k]) {
        assert k == 0 || Precedes(gs[0], gs[k]);
      }
      ConsOrdered(g, gs);
    } else {
      var rest := gs[1..];
      assert SizeOrdered(rest) by {
        forall i, j | 0 <= i < j < |rest| ensures Precedes(rest[i], rest[j]) {
          assert rest[i] == gs[i + 1] && rest[j] == gs[j + 1];
        }
      }
      InsertOrdered(g, rest);
      InsertElements(g, rest);
      var tail := Insert(g, rest);
      forall k | 0 <= k < |tail| ensures Precedes(gs[0], tail[k]) {
        if tail[k] != g {
          var m :| 0 <= m < |rest| && rest[m] == tail[k];
          assert Precedes(gs[0], gs[m + 1]);
        }
      }
      ConsOrdered(gs[0], tail);
    }
  }

  lemma {:induction false} OrderBySizeDescPreserves(gs: seq<seq<int>>)
    ensures multiset(OrderBySizeDesc(gs)) == multiset(gs)
    ensures SizeSum(OrderBySizeDesc(gs)) == SizeSum(gs)
  {
    if gs != [] {
      OrderBySizeDescPreserves(gs[1..]);
      InsertPreserves(gs[0], OrderBySizeDesc(gs[1..]));
      assert gs == [gs[0]] + gs[1..];
    }
  }

  /** Every group of the sorted list is a group of the input. */
  lemma {:induction false} OrderBySizeDescElements(gs: seq<seq<int>>)
    ensures forall k :: 0 <= k < |OrderBySizeDesc(gs)| ==> OrderBySizeDesc(gs)[k] in gs
  {
    if gs != [] {
      var rest := OrderBySizeDesc(gs[1..]);
      OrderBySizeDescElements(gs[1..]);
      InsertElements(gs[0], rest);
      forall k | 0 <= k < |Insert(gs[0], rest)| ensures Insert(gs[0], rest)[k] in gs {
        var h := Insert(gs[0], rest)[k];
        if h != gs[0] {
          var m :| 0 <= m < |rest| && rest[m] == h;
          assert h in gs[1..];
        }
      }
    }
  }

  /** Sorting groups listed in ascending face order yields a size-ordered list. */
  lemma {:induction false} OrderBySizeDescOrdered(gs: seq<seq<int>>)
    requires FacesAscending(gs)
    ensures SizeOrdered(OrderBySizeDesc(gs))
  {
    if gs != [] {
      var tl := gs[1..];
      assert FacesAscending(tl) by {
        forall i, j | 0 <= i < j < |tl| ensures tl[i][0] < tl[j][0] {
          assert tl[i] == gs[i + 1] && tl[j] == gs[j + 1];
        }
      }
      OrderBySizeDescOrdered(tl);
      OrderBySizeDescElements(tl);
      var rest := OrderBySizeDesc(tl);
      forall k | 0 <= k < |rest| ensures rest[k] != [] && gs[0][0] < rest[k][0] {
        var m :| 0 <= m < |tl| && tl[m] == rest[k];
        assert tl[m] == gs[m + 1];
      }
      InsertOrdered(gs[0], rest);
    }
  }

  /**
   * What `groupDice` returns: every group is the non-empty set of dice showing
   * one face in 1..|dice|; every such face that shows has its group; the sizes
   * add up to the number of dice showing 1..|dice|; and the groups are ordered
   * by size, largest first, equal sizes in ascending face order.
   */
  lemma GroupsShape(dice: seq<int>)
    ensures forall g :: g in Groups(dice) ==> IsFaceGroup(dice, g, |dice|)
    ensures forall f :: 1 <= f <= |dice| && Count(dice, f) > 0 ==> FilterEq(dice, f) in Groups(dice)
    ensures SizeSum(Groups(dice)) == |InRange(dice, |dice|)|
    ensures SizeOrdered(Groups(dice))
  {
    var fg := FaceGroups(dice, |dice|);
    FaceGroupsMembers(dice, |dice|);
    FaceGroupsAscending(dice, |dice|);
    FaceGroupsComplete(dice, |dice|);
    FaceGroupsSize(dice, |dice|);
    OrderBySizeDescPreserves(fg);
    OrderBySizeDescOrdered(fg);
    forall g | g in Groups(dice) ensures IsFaceGroup(dice, g, |dice|) {
      assert g in multiset(fg);
    }
    forall f | 1 <= f <= |dice| && Count(dice, f) > 0 ensures FilterEq(dice, f) in Groups(dice) {
      assert FilterEq(dice, f) in multiset(fg);
    }
  }

  /** Two groups of one list never share a face. */
  lemma GroupFacesDistinct(dice: seq<int>, i: int, j: int)
    requires 0 <= i < j < |Groups(dice)|
    ensures Groups(dice)[i] != [] && Groups(dice)[j] != [] && Groups(dice)[i][0] != Groups(dice)[j][0]
  {
    GroupsShape(dice);
    var gs := Groups(dice);
    assert gs[i] in gs && gs[j] in gs;
    assert Precedes(gs[i], gs[j]);
  }

  /**
   * The first group is the largest: the list is empty exactly when no face in
   * 1..|dice| shows, and otherwise its first group has LargestCount(dice) dice.
   */
  lemma {:induction false} FirstGroupIsLargest(dice: seq<int>)
    ensures Groups(dice) == [] <==> LargestCount(dice) == 0
    ensures Groups(dice) != [] ==> |Groups(dice)[0]| == LargestCount(dice)
  {
    GroupsShape(dice);
    var gs := Groups(dice);
    var m := LargestCount(dice);
    if gs != [] {
      assert gs[0] in gs;
      assert IsFaceGroup(dice, gs[0], |dice|);
      assert Count(dice, gs[0][0]) == |gs[0]| > 0;
      var f :| 1 <= f <= |dice| && Count(dice, f) == m;
      assert FilterEq(dice, f) in gs;
      var k :| 0 <= k < |gs| && gs[k] == FilterEq(dice, f);
      assert k == 0 || Precedes(gs[0], gs[k]);
    }
  }

  /**
   * Faces a and b in 1..n show three and two times, and no other face in 1..n
   * shows at all.
   */
  predicate ThreeAndTwo(dice: seq<int>, a: int, b: int)
  {
    var n := |dice|;
    1 <= a <= n && 1 <= b <= n && Count(dice, a) == 3 && Count(dice, b) == 2
    && forall f :: 1 <= f <= n && f != a && f != b ==> Count(dice, f) == 0
  }

  /**
   * The group list is exactly a group of three followed by a group of two
   * when, among the faces 1..|dice|, one shows three times, one twice and no
   * other face shows.
   */
  lemma FullHouseGroups(dice: seq<int>)
    ensures (|Groups(dice)| == 2 && |Groups(dice)[0]| == 3 && |Groups(dice)[1]| == 2)
            <==> exists a, b :: ThreeAndTwo(dice, a, b)
  {
    GroupsShape(dice);
    var gs := Groups(dice);
    var n := |dice|;
    if |gs| == 2 && |gs[0]| == 3 && |gs[1]| == 2 {
      assert gs[0] in gs && gs[1] in gs;
      var a, b := gs[0][0], gs[1][0];
      assert ThreeAndTwo(dice, a, b);
    }
    if exists a, b :: ThreeAndTwo(dice, a, b) {
      var a, b :| ThreeAndTwo(dice, a, b);
      var ga, gb := FilterEq(dice, a), FilterEq(dice, b);
      assert ga in gs && gb in gs;
      assert ga[0] == a && gb[0] == b;
      forall i | 0 <= i < |gs| ensures gs[i][0] == a || gs[i][0] == b {
        assert gs[i] in gs;
        assert IsFaceGroup(dice, gs[i], n);
        assert Count(dice, gs[i][0]) > 0;
      }
      if |gs| >= 3 {
        GroupFacesDistinct(dice, 0, 1);
        GroupFacesDistinct(dice, 0, 2);
        GroupFacesDistinct(dice, 1, 2);
        assert false;
      }
      var ia :| 0 <= ia < |gs| && gs[ia] == ga;
      var ib :| 0 <= ib < |gs| && gs[ib] == gb;
      assert ia != ib;
      assert |gs| == 2;
      assert Precedes(gs[0], gs[1]);
    }
  }

  /**
   * The imperative `groupDice`: collect the groups for faces 1..|dice| in a
   * loop, then reorder them by size.
   */
  method GroupDice(dice: seq<int>) returns (result: seq<seq<int>>)
    ensures result == Groups(dice)
    ensures forall g :: g in result ==> IsFaceGroup(dice, g, |dice|)
    ensures forall f :: 1 <= f <= |dice| && Count(dice, f) > 0 ==> FilterEq(dice, f) in result
    ensures SizeOrdered(result)
    ensures SizeSum(result) == |InRange(dice, |dice|)|
  {
    var grouped := GroupBy(dice);
    result := [];
    for d := 1 to |dice| + 1
      invariant result == FaceGroups(dice, d - 1)
    {
      CountPositive(dice, d);
      if d in grouped {
        result := result + [grouped[d]];
      }
    }
    result := OrderBySizeDesc(result);
    GroupsShape(dice);
  }
}
