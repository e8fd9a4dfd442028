/**
 * The Dermalog adapter's quality normaliser: the vendor's NFIQ2 value (larger is
 * better) is mapped onto the NFIQ 1..5 scale (1 is best) by four break points.
 */
module Nfiq {

  /** The break points, best tier first: reaching `BreakPoints[k - 1]` earns score `k` or better. */
  const BreakPoints: seq<int> := [61, 56, 27, 1]

  /** The step function the Dermalog callback applies to each segment's NFIQ2 value. */
  function FromNfiq2(nfiq2: int): (score: int)
    ensures 1 <= score <= 5
  {
    if nfiq2 >= 61 then 1
    else if nfiq2 >= 56 then 2
    else if nfiq2 >= 27 then 3
    else if nfiq2 >= 1 then 4
    else 5
  }

  /** Reference definition: how many of `points` the value falls short of. */
  function Missed(nfiq2: int, points: seq<int>): (n: nat)
    ensures n <= |points|
  {
    if |points| == 0 then 0
    else (if nfiq2 < points[0] then 1 else 0) + Missed(nfiq2, points[1..])
  }

  /** The score is one plus the number of break points the value does not reach. */
  lemma FromNfiq2CountsMissedBreakPoints(nfiq2: int)
    ensures FromNfiq2(nfiq2) == 1 + Missed(nfiq2, BreakPoints)
  {
    var p := BreakPoints;
    assert p[1..][1..][1..][1..] == [];
    assert Missed(nfiq2, p[1..][1..][1..]) == (if nfiq2 < 1 then 1 else 0);
    assert Missed(nfiq2, p[1..][1..]) == (if nfiq2 < 27 then 1 else 0) + Missed(nfiq2, p[1..][1..][1..]);
    assert Missed(nfiq2, p[1..]) == (if nfiq2 < 56 then 1 else 0) + Missed(nfiq2, p[1..][1..]);
  }

  /** Threshold form: the score is `k` or better exactly when the value reaches the `k`-th break point. */
  lemma FromNfiq2AtMost(nfiq2: int, k: int)
    requires 1 <= k <= 4
    ensures FromNfiq2(nfiq2) <= k <==> nfiq2 >= BreakPoints[k - 1]
  {
  }

  /** A larger NFIQ2 value never yields a worse score. */
  lemma FromNfiq2NonIncreasing(a: int, b: int)
    requires a <= b
    ensures FromNfiq2(b) <= FromNfiq2(a)
  {
  }

  /** Each break point is the least value of its tier, and 0 lands in the worst tier. */
  lemma FromNfiq2TierBoundaries()
    ensures FromNfiq2(61) == 1 && FromNfiq2(60) == 2
    ensures FromNfiq2(56) == 2 && FromNfiq2(55) == 3
    ensures FromNfiq2(27) == 3 && FromNfiq2(26) == 4
    ensures FromNfiq2(1) == 4 && FromNfiq2(0) == 5
  {
  }
}
