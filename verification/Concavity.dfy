/** Discrete concavity: when bisection on a line is exact, and why an
    allocation that no exchange between two curves improves is a maximum. */
module Concavity {
  import opened Allocations

  /** What the next unit adds. */
  function Marginal(c: Curve, x: nat): int { At(c, x + 1) - At(c, x) }

  /** Marginal output never increases. */
  ghost predicate Concave(c: Curve) {
    forall x: nat, y: nat :: x <= y ==> Marginal(c, y) <= Marginal(c, x)
  }

  ghost predicate AllConcave(curves: seq<Curve>) {
    forall i :: 0 <= i < |curves| ==> Concave(curves[i])
  }

  // ---------- lines ----------

  ghost function Rise(line: seq<int>, i: nat): int
    requires i + 1 < |line|
  {
    line[i + 1] - line[i]
  }

  ghost predicate ConcaveLine(line: seq<int>) {
    forall i: nat, j: nat {:trigger Rise(line, i), Rise(line, j)} :: i <= j < |line| - 1 ==> Rise(line, j) <= Rise(line, i)
  }

  ghost predicate Peak(line: seq<int>, low: int, high: int, at: int) {
    0 <= at < |line| && forall x :: low <= x <= high && 0 <= x < |line| ==> line[x] <= line[at]
  }

  /** A step that does not fall dominates everything before it. */
  lemma {:induction false} RisesTo(line: seq<int>, m: nat, x: nat)
    requires ConcaveLine(line) && x <= m + 1 < |line| && line[m] <= line[m + 1]
    ensures line[x] <= line[m + 1]
    decreases m + 1 - x
  {
    if x < m {
      assert Rise(line, m) <= Rise(line, x);
      RisesTo(line, m, x + 1);
    }
  }

  /** A step that falls is dominated from before it on. */
  lemma {:induction false} FallsFrom(line: seq<int>, m: nat, x: nat)
    requires ConcaveLine(line) && m < x < |line| && line[m + 1] < line[m]
    ensures line[x] <= line[m]
    decreases x
  {
    if x > m + 1 {
      assert Rise(line, x - 1) <= Rise(line, m);
      FallsFrom(line, m, x - 1);
    }
  }

  /** One bisection step keeps the peak between its bounds. */
  lemma BisectionStep(line: seq<int>, middle: nat)
    requires ConcaveLine(line) && middle + 1 < |line|
    ensures line[middle] <= line[middle + 1] ==> Peak(line, 0, middle + 1, middle + 1)
    ensures line[middle + 1] < line[middle] ==> Peak(line, middle, |line| - 1, middle)
  {
    if line[middle] <= line[middle + 1] {
      forall x | 0 <= x <= middle + 1 ensures line[x] <= line[middle + 1] { RisesTo(line, middle, x); }
    } else {
      forall x | middle < x < |line| ensures line[x] <= line[middle] { FallsFrom(line, middle, x); }
    }
  }

  /** Where bisection between low and high ends, on any line. */
  ghost function Bisected(line: seq<int>, low: nat, high: nat): (end: nat)
    requires low <= high < |line|
    ensures low <= end <= high
    decreases high - low
  {
    if low == high then low
    else
      var middle := (low + high) / 2;
      if line[middle] <= line[middle + 1] then Bisected(line, middle + 1, high) else Bisected(line, low, middle)
  }

  /** On a concave line it ends on a peak. */
  lemma {:induction false} BisectedIsPeak(line: seq<int>, low: nat, high: nat)
    requires ConcaveLine(line) && low <= high < |line| && Peak(line, 0, low, low) && Peak(line, high, |line| - 1, high)
    ensures Peak(line, 0, |line| - 1, Bisected(line, low, high))
    decreases high - low
  {
    if low < high {
      var middle := (low + high) / 2;
      BisectionStep(line, middle);
      if line[middle] <= line[middle + 1] { BisectedIsPeak(line, middle + 1, high); } else { BisectedIsPeak(line, low, middle); }
    }
  }

  /** What two curves give together, by the share of the first. */
  ghost function ShareLine(left: Curve, right: Curve, pairTotal: nat): (line: seq<int>)
    ensures |line| == pairTotal + 1
    ensures forall v :: 0 <= v < |line| ==> line[v] == At(left, v) + At(right, pairTotal - v)
  {
    seq(pairTotal + 1, v requires 0 <= v <= pairTotal => At(left, v) + At(right, pairTotal - v))
  }

  lemma ShareLineConcave(left: Curve, right: Curve, pairTotal: nat)
    requires Concave(left) && Concave(right)
    ensures ConcaveLine(ShareLine(left, right, pairTotal))
  {
    var line := ShareLine(left, right, pairTotal);
    forall i: nat, j: nat | i <= j < |line| - 1
      ensures Rise(line, j) <= Rise(line, i)
    {
      assert Marginal(left, j) <= Marginal(left, i);
      assert Marginal(right, pairTotal - i - 1) <= Marginal(right, pairTotal - j - 1);
    }
  }

  // ---------- exchanges ----------

  /** No way of sharing what left and right hold gives more. */
  ghost predicate PairOptimal(c: seq<Curve>, a: seq<nat>, left: nat, right: nat)
    requires |c| == |a| && left < right < |a|
  {
    Peak(ShareLine(c[left], c[right], a[left] + a[right]), 0, a[left] + a[right], a[left])
  }

  ghost predicate AllPairsOptimal(c: seq<Curve>, a: seq<nat>)
    requires |c| == |a|
  {
    forall l, r :: 0 <= l < r < |a| ==> PairOptimal(c, a, l, r)
  }

  /** The last unit of one curve is worth at least the next unit of another. */
  lemma PairMarginals(c: seq<Curve>, a: seq<nat>, i: nat, j: nat)
    requires |c| == |a| && i < |a| && j < |a| && i != j && a[i] > 0 && AllPairsOptimal(c, a)
    ensures Marginal(c[j], a[j]) <= Marginal(c[i], a[i] - 1)
  {
    var l, r := if i < j then i else j, if i < j then j else i;
    var v := if i < j then a[i] - 1 else a[j] + 1;
    assert PairOptimal(c, a, l, r);
    var line := ShareLine(c[l], c[r], a[l] + a[r]);
    assert line[v] <= line[a[l]];
  }

  ghost function Over(a: seq<nat>, b: seq<nat>): (d: seq<nat>)
    requires |a| == |b|
    ensures |d| == |a|
  {
    seq(|a|, k requires 0 <= k < |a| => if a[k] < b[k] then b[k] - a[k] else 0)
  }

  lemma {:induction false} SumDominated(a: seq<nat>, b: seq<nat>)
    requires |a| == |b| && forall k :: 0 <= k < |a| ==> a[k] <= b[k]
    ensures Sum(a) <= Sum(b) && (Sum(a) == Sum(b) ==> a == b)
  {
    if |a| > 0 {
      var n := |a| - 1;
      SumDominated(a[..n], b[..n]);
      assert a == a[..n] + [a[n]] && b == b[..n] + [b[n]];
    }
  }

  lemma FindDifference(a: seq<nat>, b: seq<nat>) returns (i: nat)
    requires |a| == |b| && Sum(b) <= Sum(a) && a != b
    ensures i < |a| && b[i] < a[i]
  {
    if forall k :: 0 <= k < |a| ==> a[k] <= b[k] {
      SumDominated(a, b);
    }
    i :| 0 <= i < |a| && b[i] < a[i];
  }

  /** m is b with one unit moved from j to i. */
  ghost predicate UnitMoved(b: seq<nat>, m: seq<nat>, i: nat, j: nat) {
    && i < |b| == |m| && j < |b| && i != j
    && m[i] == b[i] + 1 && m[j] + 1 == b[j]
    && forall k :: 0 <= k < |b| && k != i && k != j ==> m[k] == b[k]
  }

  lemma UnitMovedApproaches(a: seq<nat>, b: seq<nat>, m: seq<nat>, i: nat, j: nat)
    requires |a| == |b| && UnitMoved(b, m, i, j) && b[i] < a[i] && a[j] < b[j]
    ensures Sum(Over(a, m)) < Sum(Over(a, b))
  {
    SumChanged(Over(a, b), Over(a, m), j);
  }

  /** Moving a unit towards a pairwise optimal allocation loses nothing. */
  lemma UnitMovedGains(c: seq<Curve>, a: seq<nat>, b: seq<nat>, m: seq<nat>, i: nat, j: nat)
    requires |c| == |a| == |b| && UnitMoved(b, m, i, j) && b[i] < a[i] && a[j] < b[j]
    requires AllConcave(c) && AllPairsOptimal(c, a)
    ensures Output(c, b) <= Output(c, m)
  {
    OutputChanged2(c, b, m, i, j);
    PairMarginals(c, a, i, j);
    assert Concave(c[i]) && Concave(c[j]);
    assert Marginal(c[i], a[i] - 1) <= Marginal(c[i], b[i]);
    assert Marginal(c[j], b[j] - 1) <= Marginal(c[j], a[j]);
  }

  /** Separable concave maximisation: an allocation that no exchange between
      two curves improves gives at least what any other allocation gives. */
  lemma {:induction false} NoExchangeIsMaximum(c: seq<Curve>, a: seq<nat>, b: seq<nat>)
    requires |c| == |a| == |b| && Sum(a) == Sum(b)
    requires AllConcave(c) && AllPairsOptimal(c, a)
    ensures Output(c, b) <= Output(c, a)
    decreases Sum(Over(a, b))
  {
    if a != b {
      var i := FindDifference(a, b);
      var j := FindDifference(b, a);
      var m := b[i := b[i] + 1][j := b[j] - 1];
      SumChanged2(b, m, i, j);
      UnitMovedApproaches(a, b, m, i, j);
      UnitMovedGains(c, a, b, m, i, j);
      NoExchangeIsMaximum(c, a, m);
    }
  }
}
