/** Running-peak drawdown loops and the pairwise definition they compute. */
module Drawdown {
  import opened Foundations

  /** `x` is the largest drop from any point of the curve to a later one. */
  ghost predicate IsLargestDrop(curve: seq<real>, x: real)
  {
    && (forall i, j :: 0 <= i <= j < |curve| ==> curve[i] - curve[j] <= x)
    && exists i, j :: 0 <= i <= j < |curve| && curve[i] - curve[j] == x
  }

  /** The largest drop of a curve is unique, so a loop proved against it computes it. */
  lemma LargestDropIsUnique(curve: seq<real>, x: real, y: real)
    requires IsLargestDrop(curve, x) && IsLargestDrop(curve, y)
    ensures x == y
  {
  }

  /** The runner's loop (app/backtesting/runner.py): absolute drop, curve starting at zero. */
  method MaxDrop(curve: seq<real>) returns (maxDd: real)
    requires curve != [] && curve[0] == 0.0
    ensures IsLargestDrop(curve, maxDd)
  {
    var peak := 0.0;
    maxDd := 0.0;
    for n := 0 to |curve|
      invariant forall i :: 0 <= i < n ==> curve[i] <= peak
      invariant if n == 0 then peak == 0.0 else exists i :: 0 <= i < n && curve[i] == peak
      invariant maxDd >= 0.0
      invariant forall i, j :: 0 <= i <= j < n ==> curve[i] - curve[j] <= maxDd
      invariant n == 0 ==> maxDd == 0.0
      invariant n > 0 ==> exists i, j :: 0 <= i <= j < n && curve[i] - curve[j] == maxDd
    {
      var val := curve[n];
      if val > peak {
        peak := val;
      }
      assert peak == curve[n] || exists i :: 0 <= i < n && curve[i] == peak;
      ghost var top :| 0 <= top <= n && curve[top] == peak;
      var dd := peak - val;
      assert n == 0 ==> curve[0] - curve[0] == maxDd;
      if dd > maxDd {
        maxDd := dd;
        assert curve[top] - curve[n] == maxDd;
      }
    }
  }

  /** The drop from `a` to `b` as a share of `a`; 0 from a zero peak. */
  function Share(a: real, b: real): (r: real)
  {
    if a == 0.0 then 0.0 else (a - b) / a
  }

  /** The highest of the starting balance and the curve up to point `j`. */
  function PeakAt(start: real, curve: seq<real>, j: nat): (r: real)
    requires j < |curve|
  {
    if j == 0 then Max(start, curve[0]) else Max(PeakAt(start, curve, j - 1), curve[j])
  }

  /** How far point `j` lies below the peak before it, as a share of that peak. */
  function DepthAt(start: real, curve: seq<real>, j: nat): (r: real)
    requires j < |curve|
  {
    Share(PeakAt(start, curve, j), curve[j])
  }

  lemma {:induction false} PeakIsHighest(start: real, curve: seq<real>, j: nat) returns (top: int)
    requires j < |curve|
    ensures start <= PeakAt(start, curve, j) && forall i :: 0 <= i <= j ==> curve[i] <= PeakAt(start, curve, j)
    ensures -1 <= top <= j && PeakAt(start, curve, j) == if top == -1 then start else curve[top]
  {
    if j == 0 {
      top := if start >= curve[0] then -1 else 0;
    } else {
      top := PeakIsHighest(start, curve, j - 1);
      top := if PeakAt(start, curve, j - 1) >= curve[j] then top else j;
    }
  }

  /** `x` is the largest share by which any point lies below the highest point up to it. */
  ghost predicate IsLargestShareOfPeak(start: real, curve: seq<real>, x: real)
  {
    && x >= 0.0
    && (forall j :: 0 <= j < |curve| ==> DepthAt(start, curve, j) <= x)
    && (x == 0.0 || exists j :: 0 <= j < |curve| && DepthAt(start, curve, j) == x)
  }

  /** The aggregator's loop (app/analytics/stats.py), whatever the curve. */
  method MaxShareOfPeak(start: real, curve: seq<real>) returns (maxDd: real)
    ensures IsLargestShareOfPeak(start, curve, maxDd)
  {
    hide Share;
    var peak := start;
    maxDd := 0.0;
    for n := 0 to |curve|
      invariant peak == if n == 0 then start else PeakAt(start, curve, n - 1)
      invariant maxDd >= 0.0
      invariant forall j :: 0 <= j < n ==> DepthAt(start, curve, j) <= maxDd
      invariant maxDd == 0.0 || exists j :: 0 <= j < n && DepthAt(start, curve, j) == maxDd
    {
      var v := curve[n];
      peak := Max(peak, v);
      var dd := Share(peak, v);
      assert dd == DepthAt(start, curve, n);
      maxDd := Max(maxDd, dd);
    }
  }

  /** The largest proportional drop between any positive point and a later one. */
  ghost predicate IsLargestShare(curve: seq<real>, x: real)
  {
    && (forall i, j :: 0 <= i <= j < |curve| && curve[i] > 0.0 ==> Share(curve[i], curve[j]) <= x)
    && exists i, j :: 0 <= i <= j < |curve| && curve[i] > 0.0 && Share(curve[i], curve[j]) == x
  }

  /** The smallest positive point up to point `j`, on a curve that starts positive. */
  function LowestAt(curve: seq<real>, j: nat): (r: real)
    requires j < |curve|
  {
    if j == 0 then curve[0]
    else if curve[j] > 0.0 then Min(LowestAt(curve, j - 1), curve[j])
    else LowestAt(curve, j - 1)
  }

  /** A higher peak is a larger proportional drop, as long as the value below it is not negative. */
  lemma ShareMonotone(a: real, b: real, v: real)
    requires 0.0 <= a <= b && 0.0 < b && 0.0 <= v <= b
    ensures Share(a, v) <= Share(b, v)
    ensures 0.0 <= Share(b, v) <= 1.0
  {
    QuotientAtLeast(b - v, 0.0, b);
    QuotientAtMost(b - v, 1.0, b);
    if a > 0.0 {
      var q := (a - v) / a;
      assert a - v == q * a;
      QuotientAtMost(a - v, 1.0, a);
      assert (1.0 - q) * a == v;
      assert (1.0 - q) * (b - a) >= 0.0;
      assert q * b == b - (1.0 - q) * a - (1.0 - q) * (b - a);
      QuotientAtLeast(b - v, q, b);
    }
  }

  /** On a curve that starts at its positive starting balance and never goes negative, the running-peak
      figure is the largest proportional drop between any two points, and lies in [0, 1]. */
  lemma PeakFigureIsPairwise(start: real, curve: seq<real>, x: real)
    requires start > 0.0 && curve != [] && curve[0] == start
    requires forall i :: 0 <= i < |curve| ==> curve[i] >= 0.0
    requires IsLargestShareOfPeak(start, curve, x)
    ensures IsLargestShare(curve, x) && 0.0 <= x <= 1.0
  {
    hide Share;
    forall i, j | 0 <= i <= j < |curve| && curve[i] > 0.0 ensures Share(curve[i], curve[j]) <= x {
      var top := PeakIsHighest(start, curve, j);
      ShareMonotone(curve[i], PeakAt(start, curve, j), curve[j]);
      assert DepthAt(start, curve, j) <= x;
    }
    if x > 0.0 {
      var j :| 0 <= j < |curve| && DepthAt(start, curve, j) == x;
      var top := PeakIsHighest(start, curve, j);
      var i := if top == -1 then 0 else top;
      ShareMonotone(curve[i], curve[i], curve[j]);
      assert Share(curve[i], curve[j]) == x;
    } else {
      assert Share(curve[0], curve[0]) == x by { NoDrop(start); }
    }
  }

  lemma NoDrop(a: real)
    ensures Share(a, a) == 0.0
  {
  }

  /** The figure is a share of the peak, at most all of it, exactly when the balance never went negative. */
  lemma AtMostAllExactlyWhen(start: real, curve: seq<real>, x: real)
    requires start > 0.0 && IsLargestShareOfPeak(start, curve, x)
    ensures x <= 1.0 <==> forall i :: 0 <= i < |curve| ==> curve[i] >= 0.0
  {
    forall j | 0 <= j < |curve| ensures DepthAt(start, curve, j) <= 1.0 <==> curve[j] >= 0.0 {
      var top := PeakIsHighest(start, curve, j);
      var peak := PeakAt(start, curve, j);
      QuotientAtMost(peak - curve[j], 1.0, peak);
    }
  }

  /** Below zero it is the other way round: the lower the base, the larger the proportional drop. */
  lemma ShareBelowZero(a: real, b: real, v: real)
    requires 0.0 < a < b && v < 0.0
    ensures Share(a, v) > Share(b, v) > 1.0
  {
    var q := (b - v) / b;
    assert b - v == q * b;
    QuotientAtMost(b - v, 1.0, b);
    assert (q - 1.0) * (b - a) > 0.0;
    assert q * a == a + (q - 1.0) * b - (q - 1.0) * (b - a);
    QuotientAtMost(a - v, q, a);
  }

  /** On any curve: if the deepest point is negative and some positive point before it is below the peak, the
      figure understates the largest drop. */
  lemma NegativeEquityUnderstates(start: real, curve: seq<real>, x: real, i: nat, j: nat)
    requires IsLargestShareOfPeak(start, curve, x) && i <= j < |curve|
    requires DepthAt(start, curve, j) == x && curve[j] < 0.0 && 0.0 < curve[i] < PeakAt(start, curve, j)
    ensures Share(curve[i], curve[j]) > x && !IsLargestShare(curve, x)
  {
    ShareBelowZero(curve[i], PeakAt(start, curve, j), curve[j]);
  }

  lemma {:induction false} LowestIsSmallest(curve: seq<real>, j: nat) returns (at: nat)
    requires j < |curve| && curve[0] > 0.0
    ensures at <= j && curve[at] == LowestAt(curve, j) > 0.0
    ensures forall i :: 0 <= i <= j && curve[i] > 0.0 ==> LowestAt(curve, j) <= curve[i]
  {
    at := 0;
    if j > 0 {
      at := LowestIsSmallest(curve, j - 1);
      if 0.0 < curve[j] < LowestAt(curve, j - 1) {
        at := j;
      }
    }
  }

  /** Two proportional drops compare as the cross products of their ends. */
  lemma CompareShares(a: real, v: real, b: real, w: real)
    requires a > 0.0 && b > 0.0
    ensures Share(a, v) <= Share(b, w) <==> v * b >= w * a
  {
    var q := (b - w) / b;
    assert b - w == q * b;
    QuotientAtMost(a - v, q, a);
    assert q * a * b == (b - w) * a by {
      assert q * a * b == q * b * a;
    }
    assert (a - v) * b <= q * a * b <==> a - v <= q * a by {
      Scaled(a - v, q * a, b);
    }
    assert (a - v) * b == a * b - v * b && (b - w) * a == a * b - w * a;
  }

  lemma Scaled(x: real, y: real, d: real)
    requires d > 0.0
    ensures x * d <= y * d <==> x <= y
  {
    if x <= y { assert (y - x) * d >= 0.0; }
    if x > y { assert (x - y) * d > 0.0; }
  }

  /** Below point `k`'s peak lies at least as large a share as below point `j`'s smallest positive predecessor. */
  predicate AsDeep(start: real, curve: seq<real>, k: nat, j: nat)
    requires k < |curve| && j < |curve|
  {
    curve[j] * PeakAt(start, curve, k) >= curve[k] * LowestAt(curve, j)
  }

  /** Some negative point is as deep below its peak as point `j` is below its smallest positive predecessor. */
  ghost predicate Matched(start: real, curve: seq<real>, j: nat)
    requires j < |curve|
  {
    exists k :: 0 <= k < |curve| && curve[k] < 0.0 && AsDeep(start, curve, k, j)
  }

  /** On every curve, exactly when the figure is the largest proportional drop: when every negative point,
      measured from the smallest positive balance before it, is matched by one measured from its peak. */
  lemma PairwiseExactlyWhen(start: real, curve: seq<real>, x: real)
    requires start > 0.0 && curve != [] && curve[0] == start
    requires IsLargestShareOfPeak(start, curve, x)
    ensures IsLargestShare(curve, x) <==>
            forall j :: 0 <= j < |curve| && curve[j] < 0.0 ==> Matched(start, curve, j)
  {
    hide IsLargestShareOfPeak, AsDeep, Matched, Share;
    if forall j :: 0 <= j < |curve| && curve[j] < 0.0 ==> Matched(start, curve, j) {
      forall i, j | 0 <= i <= j < |curve| && curve[i] > 0.0 ensures Share(curve[i], curve[j]) <= x {
        SmallDrop(start, curve, x, i, j);
      }
      FigureIsSomeDrop(start, curve, x);
    }
    if IsLargestShare(curve, x) {
      hide IsLargestShare;
      forall j | 0 <= j < |curve| && curve[j] < 0.0 ensures Matched(start, curve, j) {
        DeepestMatches(start, curve, x, j);
      }
    }
  }

  lemma SmallDrop(start: real, curve: seq<real>, x: real, i: nat, j: nat)
    requires start > 0.0 && i <= j < |curve| && curve[0] == start && curve[i] > 0.0
    requires IsLargestShareOfPeak(start, curve, x) && (curve[j] < 0.0 ==> Matched(start, curve, j))
    ensures Share(curve[i], curve[j]) <= x
  {
    hide Share, AsDeep, PeakAt;
    if curve[j] < 0.0 {
      var k :| 0 <= k < |curve| && curve[k] < 0.0 && AsDeep(start, curve, k, j);
      MatchedDrop(start, curve, x, i, j, k);
    } else {
      var top := PeakIsHighest(start, curve, j);
      ShareMonotone(curve[i], PeakAt(start, curve, j), curve[j]);
      assert DepthAt(start, curve, j) <= x;
    }
  }

  lemma MatchedDrop(start: real, curve: seq<real>, x: real, i: nat, j: nat, k: nat)
    requires start > 0.0 && IsLargestShareOfPeak(start, curve, x) && i <= j < |curve| && k < |curve|
    requires curve[0] == start && curve[i] > 0.0 && curve[j] < 0.0 && AsDeep(start, curve, k, j)
    ensures Share(curve[i], curve[j]) <= x
  {
    hide Share, PeakAt, LowestAt, AsDeep;
    var at := LowestIsSmallest(curve, j);
    var top := PeakIsHighest(start, curve, k);
    var lowest := LowestAt(curve, j);
    if lowest < curve[i] {
      ShareBelowZero(lowest, curve[i], curve[j]);
    }
    AsDeepByShares(start, curve, k, j);
    assert DepthAt(start, curve, k) <= x;
  }

  /** The figure is attained by some pair of points. */
  lemma FigureIsSomeDrop(start: real, curve: seq<real>, x: real)
    requires start > 0.0 && curve != [] && curve[0] == start && IsLargestShareOfPeak(start, curve, x)
    ensures exists i, j :: 0 <= i <= j < |curve| && curve[i] > 0.0 && Share(curve[i], curve[j]) == x
  {
    hide Share;
    if j :| 0 <= j < |curve| && DepthAt(start, curve, j) == x {
      var top := PeakIsHighest(start, curve, j);
      assert Share(curve[if top == -1 then 0 else top], curve[j]) == x;
    } else {
      NoDrop(start);
      assert Share(curve[0], curve[0]) == x;
    }
  }

  lemma DeepestMatches(start: real, curve: seq<real>, x: real, j: nat)
    requires start > 0.0 && curve != [] && curve[0] == start && j < |curve| && curve[j] < 0.0
    requires IsLargestShareOfPeak(start, curve, x) && IsLargestShare(curve, x)
    ensures Matched(start, curve, j)
  {
    hide Share, PeakAt, LowestAt, AsDeep;
    var at := LowestIsSmallest(curve, j);
    assert Share(curve[at], curve[j]) <= x;
    hide IsLargestShare;
    AtMostAllExactlyWhen(start, curve, x);
    var k :| 0 <= k < |curve| && DepthAt(start, curve, k) == x;
    hide IsLargestShareOfPeak;
    var top := PeakIsHighest(start, curve, k);
    DeepIsNegative(PeakAt(start, curve, k), curve[k]);
    AsDeepByShares(start, curve, k, j);
  }

  lemma AsDeepByShares(start: real, curve: seq<real>, k: nat, j: nat)
    requires k < |curve| && j < |curve| && PeakAt(start, curve, k) > 0.0 && LowestAt(curve, j) > 0.0
    ensures AsDeep(start, curve, k, j) <==> Share(LowestAt(curve, j), curve[j]) <= DepthAt(start, curve, k)
  {
    hide Share, PeakAt, LowestAt;
    CompareShares(LowestAt(curve, j), curve[j], PeakAt(start, curve, k), curve[k]);
  }

  lemma DeepIsNegative(peak: real, v: real)
    requires peak > 0.0
    ensures Share(peak, v) > 1.0 <==> v < 0.0
  {
    QuotientAtMost(peak - v, 1.0, peak);
  }

  /** So up to the first negative balance it is, if and only if that balance is not reached or every balance
      before it was the start or nothing. */
  lemma PairwiseUntilRuin(start: real, curve: seq<real>, x: real)
    requires start > 0.0 && curve != [] && curve[0] == start
    requires forall i :: 0 <= i < |curve| - 1 ==> curve[i] >= 0.0
    requires IsLargestShareOfPeak(start, curve, x)
    ensures IsLargestShare(curve, x) <==>
            curve[|curve| - 1] >= 0.0 || forall i :: 0 <= i < |curve| - 1 ==> curve[i] == start || curve[i] == 0.0
  {
    hide IsLargestShare, IsLargestShareOfPeak, AsDeep, PeakAt, LowestAt;
    var n := |curve| - 1;
    PairwiseExactlyWhen(start, curve, x);
    if curve[n] < 0.0 {
      assert Matched(start, curve, n) <==> AsDeep(start, curve, n, n);
      SameDepth(start, curve, n);
      FlatExactlyWhen(start, curve, n);
    }
  }

  /** The smallest positive balance is the peak exactly when the positive ones are all the start. */
  lemma FlatExactlyWhen(start: real, curve: seq<real>, n: nat)
    requires start > 0.0 && n < |curve| && curve[0] == start && curve[n] < 0.0
    requires forall i :: 0 <= i < n ==> curve[i] >= 0.0
    ensures PeakAt(start, curve, n) <= LowestAt(curve, n) <==>
            forall i :: 0 <= i < n ==> curve[i] == start || curve[i] == 0.0
  {
    hide PeakAt, LowestAt;
    var at := LowestIsSmallest(curve, n);
    var top := PeakIsHighest(start, curve, n);
  }

  lemma SameDepth(start: real, curve: seq<real>, n: nat)
    requires n < |curve| && curve[n] < 0.0
    ensures AsDeep(start, curve, n, n) <==> PeakAt(start, curve, n) <= LowestAt(curve, n)
  {
    Scaled(PeakAt(start, curve, n), LowestAt(curve, n), -curve[n]);
  }

  /** With a negative balance the two differ: from 200 down to -100 is 1.5, from 100 down to -100 is 2. */
  lemma NegativeEquityBreaksPairwise(x: real)
    requires IsLargestShareOfPeak(100.0, [100.0, 200.0, -100.0], x)
    ensures x == 1.5 && !IsLargestShare([100.0, 200.0, -100.0], x)
  {
    var curve := [100.0, 200.0, -100.0];
    assert PeakAt(100.0, curve, 0) == 100.0 && PeakAt(100.0, curve, 1) == 200.0 && PeakAt(100.0, curve, 2) == 200.0;
    assert DepthAt(100.0, curve, 0) == 0.0 && DepthAt(100.0, curve, 1) == 0.0 && DepthAt(100.0, curve, 2) == 1.5;
    assert Share(curve[0], curve[2]) == 2.0;
  }

  /** A point's depth is the part of the peak that is missing. */
  lemma DepthMeans(start: real, curve: seq<real>, j: nat)
    requires j < |curve| && start > 0.0
    ensures DepthAt(start, curve, j) * PeakAt(start, curve, j) == PeakAt(start, curve, j) - curve[j]
    ensures forall i :: 0 <= i <= j ==> start <= PeakAt(start, curve, j) && curve[i] <= PeakAt(start, curve, j)
  {
    var top := PeakIsHighest(start, curve, j);
  }
}
