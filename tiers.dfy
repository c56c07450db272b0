/** Banding tables. Every sub-score of the scorer is an `if … elif … else`
    chain that compares one number against a list of thresholds and awards
    the points of the first threshold that matches. A table lists those
    thresholds in the order the chain tests them. */
module Tiers {

  /** One branch of a chain: its threshold and the points it awards. */
  datatype Tier = Tier(bound: real, points: int)

  /** The points a chain can award: those of its rows and of its else branch. */
  function Awards(tiers: seq<Tier>, otherwise: int): set<int>
    decreases |tiers|
  {
    if tiers == [] then {otherwise} else {tiers[0].points} + Awards(tiers[1..], otherwise)
  }

  /** Points of the chain `if x < b0: p0 elif x < b1: p1 … else: otherwise`. */
  function PointsBelow(x: real, tiers: seq<Tier>, otherwise: int): (r: int)
    ensures r in Awards(tiers, otherwise)
    decreases |tiers|
  {
    if tiers == [] then otherwise
    else if x < tiers[0].bound then tiers[0].points
    else PointsBelow(x, tiers[1..], otherwise)
  }

  /** Points of the chain `if x > b0: p0 elif x > b1: p1 … else: otherwise`. */
  function PointsAbove(x: real, tiers: seq<Tier>, otherwise: int): (r: int)
    ensures r in Awards(tiers, otherwise)
    decreases |tiers|
  {
    if tiers == [] then otherwise
    else if x > tiers[0].bound then tiers[0].points
    else PointsAbove(x, tiers[1..], otherwise)
  }

  /** The `<` chain awards the points of the first row whose bound lies
      above x, and the else branch when there is none. */
  lemma {:induction false} PointsBelowFirstMatch(x: real, tiers: seq<Tier>, otherwise: int, i: int)
    requires 0 <= i <= |tiers|
    requires forall j | 0 <= j < i :: tiers[j].bound <= x
    ensures i < |tiers| && x < tiers[i].bound ==> PointsBelow(x, tiers, otherwise) == tiers[i].points
    ensures i == |tiers| ==> PointsBelow(x, tiers, otherwise) == otherwise
    decreases i
  {
    if i > 0 {
      forall j | 0 <= j < i - 1 ensures tiers[1..][j].bound <= x {
        assert tiers[1..][j] == tiers[j + 1];
      }
      PointsBelowFirstMatch(x, tiers[1..], otherwise, i - 1);
    }
  }

  /** The `>` chain awards the points of the first row whose bound lies
      below x, and the else branch when there is none. */
  lemma {:induction false} PointsAboveFirstMatch(x: real, tiers: seq<Tier>, otherwise: int, i: int)
    requires 0 <= i <= |tiers|
    requires forall j | 0 <= j < i :: x <= tiers[j].bound
    ensures i < |tiers| && x > tiers[i].bound ==> PointsAbove(x, tiers, otherwise) == tiers[i].points
    ensures i == |tiers| ==> PointsAbove(x, tiers, otherwise) == otherwise
    decreases i
  {
    if i > 0 {
      forall j | 0 <= j < i - 1 ensures x <= tiers[1..][j].bound {
        assert tiers[1..][j] == tiers[j + 1];
      }
      PointsAboveFirstMatch(x, tiers[1..], otherwise, i - 1);
    }
  }

  /** Earlier branches never award fewer points than later ones, nor than
      the else branch. */
  predicate Descending(tiers: seq<Tier>, otherwise: int) {
    && (forall i, j | 0 <= i < j < |tiers| :: tiers[i].points >= tiers[j].points)
    && (forall i | 0 <= i < |tiers| :: tiers[i].points >= otherwise)
  }

  lemma DescendingTail(tiers: seq<Tier>, otherwise: int)
    requires tiers != [] && Descending(tiers, otherwise)
    ensures Descending(tiers[1..], otherwise)
  {
    forall i, j | 0 <= i < j < |tiers| - 1
      ensures tiers[1..][i].points >= tiers[1..][j].points
    {
      assert tiers[1..][i] == tiers[i + 1] && tiers[1..][j] == tiers[j + 1];
    }
  }

  /** In a descending table the awarded points lie between the else branch
      and the first row. */
  lemma {:induction false} PointsBelowBounds(x: real, tiers: seq<Tier>, otherwise: int)
    requires Descending(tiers, otherwise)
    ensures otherwise <= PointsBelow(x, tiers, otherwise)
    ensures tiers != [] ==> PointsBelow(x, tiers, otherwise) <= tiers[0].points
    decreases |tiers|
  {
    if tiers != [] && !(x < tiers[0].bound) {
      DescendingTail(tiers, otherwise);
      PointsBelowBounds(x, tiers[1..], otherwise);
    }
  }

  lemma {:induction false} PointsAboveBounds(x: real, tiers: seq<Tier>, otherwise: int)
    requires Descending(tiers, otherwise)
    ensures otherwise <= PointsAbove(x, tiers, otherwise)
    ensures tiers != [] ==> PointsAbove(x, tiers, otherwise) <= tiers[0].points
    decreases |tiers|
  {
    if tiers != [] && !(x > tiers[0].bound) {
      DescendingTail(tiers, otherwise);
      PointsAboveBounds(x, tiers[1..], otherwise);
    }
  }

  /** A descending `<` chain is non-increasing in its argument. */
  lemma {:induction false} PointsBelowAntitone(x: real, y: real, tiers: seq<Tier>, otherwise: int)
    requires x <= y
    requires Descending(tiers, otherwise)
    ensures PointsBelow(x, tiers, otherwise) >= PointsBelow(y, tiers, otherwise)
    decreases |tiers|
  {
    if tiers != [] && !(y < tiers[0].bound) {
      DescendingTail(tiers, otherwise);
      if x < tiers[0].bound {
        PointsBelowBounds(y, tiers[1..], otherwise);
      } else {
        PointsBelowAntitone(x, y, tiers[1..], otherwise);
      }
    }
  }

  /** A descending `>` chain is non-decreasing in its argument. */
  lemma {:induction false} PointsAboveMonotone(x: real, y: real, tiers: seq<Tier>, otherwise: int)
    requires x <= y
    requires Descending(tiers, otherwise)
    ensures PointsAbove(x, tiers, otherwise) <= PointsAbove(y, tiers, otherwise)
    decreases |tiers|
  {
    if tiers != [] && !(x > tiers[0].bound) {
      DescendingTail(tiers, otherwise);
      if y > tiers[0].bound {
        PointsAboveBounds(x, tiers[1..], otherwise);
      } else {
        PointsAboveMonotone(x, y, tiers[1..], otherwise);
      }
    }
  }
}
