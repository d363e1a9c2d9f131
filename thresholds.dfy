/**
 * Threshold ladders. Every classifier of the system (power zone, effort level, the quick
 * power and heart-rate zone estimates) is an `if/elif` chain over descending thresholds where
 * the first match wins. This module gives the reference reading of such a chain: the level of
 * a value is the number of (ascending) thresholds it reaches. Each classifier's contract ties
 * its answer to `Level`, so the chain and the count are proved to agree.
 */
module Thresholds {

  /** The number of thresholds in `ts` that `x` reaches (`t <= x`). */
  function Level(x: real, ts: seq<real>): (n: nat)
    ensures n <= |ts|
  {
    if ts == [] then 0 else (if ts[0] <= x then 1 else 0) + Level(x, ts[1..])
  }

  /** Thresholds listed from lowest to highest, each strictly above the previous one. */
  predicate Ascending(ts: seq<real>) {
    forall i, j :: 0 <= i < j < |ts| ==> ts[i] < ts[j]
  }

  /** A larger value never lands on a lower level. */
  lemma {:induction false} LevelMonotone(x: real, y: real, ts: seq<real>)
    requires x <= y
    ensures Level(x, ts) <= Level(y, ts)
    decreases |ts|
  {
    if ts != [] {
      LevelMonotone(x, y, ts[1..]);
    }
  }

  /** On ascending thresholds, the level of x is k exactly when x lies in [ts[k-1], ts[k]). */
  lemma {:induction false} LevelIsBand(x: real, ts: seq<real>, k: nat)
    requires Ascending(ts) && k <= |ts|
    requires k > 0 ==> ts[k - 1] <= x
    requires k < |ts| ==> x < ts[k]
    ensures Level(x, ts) == k
    decreases |ts|
  {
    if ts != [] {
      assert Ascending(ts[1..]);
      if k == 0 {
        assert x < ts[0];
        LevelIsBand(x, ts[1..], 0);
      } else {
        assert ts[0] <= x;
        LevelIsBand(x, ts[1..], k - 1);
      }
    }
  }

  function Reached(t: real, x: real): nat {
    if t <= x then 1 else 0
  }

  /** The level over a ladder of three or four thresholds, written out term by term. */
  lemma LevelOfThree(x: real, ts: seq<real>)
    requires |ts| == 3
    ensures Level(x, ts) == Reached(ts[0], x) + Reached(ts[1], x) + Reached(ts[2], x)
  {
    assert Level(x, ts[2..]) == Reached(ts[2], x) + Level(x, ts[3..]);
    assert Level(x, ts[1..]) == Reached(ts[1], x) + Level(x, ts[2..]);
  }

  lemma LevelOfFour(x: real, ts: seq<real>)
    requires |ts| == 4
    ensures Level(x, ts) == Reached(ts[0], x) + Reached(ts[1], x) + Reached(ts[2], x) + Reached(ts[3], x)
  {
    LevelOfThree(x, ts[1..]);
  }

  /** A value exactly on the k-th threshold falls in the band above it. */
  lemma BoundaryInUpperBand(ts: seq<real>, k: nat)
    requires Ascending(ts) && k < |ts|
    ensures Level(ts[k], ts) == k + 1
  {
    LevelIsBand(ts[k], ts, k + 1);
  }
}
