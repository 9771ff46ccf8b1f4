/** The most a family of curves can give for an amount, as a curve of its own,
    and why it is concave when they are. */
module Optimum {
  import opened Allocations
  import opened Concavity

  /** The greatest output over all splits of amount. */
  ghost function Best(curves: seq<Curve>, amount: nat): nat
    decreases |curves|, amount + 1
  {
    if |curves| == 0 then 0
    else if |curves| == 1 then At(curves[0], amount)
    else BestUpTo(curves, amount, amount)
  }

  /** The same with at most bound on the last curve. */
  ghost function BestUpTo(curves: seq<Curve>, amount: nat, bound: nat): nat
    requires |curves| >= 2 && bound <= amount
    decreases |curves|, bound
  {
    var n := |curves| - 1;
    var here := Best(curves[..n], amount - bound) + At(curves[n], bound);
    if bound == 0 then here
    else
      var below := BestUpTo(curves, amount, bound - 1);
      if here < below then below else here
  }

  lemma {:induction false} BestUpToCovers(curves: seq<Curve>, amount: nat, bound: nat, x: nat)
    requires |curves| >= 2 && x <= bound <= amount
    ensures Best(curves[..|curves| - 1], amount - x) + At(curves[|curves| - 1], x) <= BestUpTo(curves, amount, bound)
    decreases bound
  {
    if x < bound { BestUpToCovers(curves, amount, bound - 1, x); }
  }

  /** No split gives more. */
  lemma {:induction false} BestBounds(curves: seq<Curve>, amount: nat, s: seq<nat>)
    requires IsSplit(s, |curves|, amount)
    ensures Output(curves, s) <= Best(curves, amount)
  {
    var n := |curves| - 1;
    if |curves| == 1 {
      assert Output(curves[..n], s[..n]) == 0 && Sum(s[..n]) == 0;
    } else if |curves| > 1 {
      BestBounds(curves[..n], amount - s[n], s[..n]);
      BestUpToCovers(curves, amount, amount, s[n]);
    }
  }

  lemma {:induction false} BestUpToAttained(curves: seq<Curve>, amount: nat, bound: nat) returns (x: nat)
    requires |curves| >= 2 && bound <= amount
    ensures x <= bound
    ensures Best(curves[..|curves| - 1], amount - x) + At(curves[|curves| - 1], x) == BestUpTo(curves, amount, bound)
    decreases bound
  {
    var n := |curves| - 1;
    x := bound;
    if bound > 0 && Best(curves[..n], amount - bound) + At(curves[n], bound) < BestUpTo(curves, amount, bound - 1) {
      x := BestUpToAttained(curves, amount, bound - 1);
    }
  }

  /** Some split gives as much. */
  lemma {:induction false} BestAttained(curves: seq<Curve>, amount: nat) returns (s: seq<nat>)
    requires |curves| >= 1
    ensures IsSplit(s, |curves|, amount) && Output(curves, s) == Best(curves, amount)
  {
    var n := |curves| - 1;
    if n == 0 {
      s := [amount];
      assert Output(curves[..n], s[..n]) == 0 && Sum(s[..n]) == 0;
    } else {
      var x := BestUpToAttained(curves, amount, amount);
      var rest := BestAttained(curves[..n], amount - x);
      s := rest + [x];
      assert s[..n] == rest;
    }
  }

  /** A split that no other split beats gives exactly that. */
  lemma MaximumIsBest(curves: seq<Curve>, amount: nat, s: seq<nat>)
    requires IsSplit(s, |curves|, amount) && UpperBound(curves, amount, Output(curves, s))
    ensures Output(curves, s) == Best(curves, amount)
  {
    BestBounds(curves, amount, s);
    if |curves| > 0 { var t := BestAttained(curves, amount); }
  }

  lemma BestOfNothing(curves: seq<Curve>)
    ensures Best(curves, 0) == 0
  {
    if |curves| > 0 {
      var s := BestAttained(curves, 0);
      NothingInNothingOut(curves, s);
    }
  }

  /** The optimum as a curve. */
  ghost function BestCurve(curves: seq<Curve>): Curve { Curve("best", (amount: nat) => Best(curves, amount)) }

  lemma BestCurveAt(curves: seq<Curve>, amount: nat)
    ensures At(BestCurve(curves), amount) == Best(curves, amount)
  {
    BestOfNothing(curves);
  }

  // ---------- concave curves ----------

  /** A concave curve that fell once would fall below nothing. */
  lemma {:induction false} FallsBelow(c: Curve, x: nat, d: nat)
    requires Concave(c) && Marginal(c, x) < 0
    ensures At(c, x + d) <= At(c, x) - d
  {
    if d > 0 {
      FallsBelow(c, x, d - 1);
      assert Marginal(c, x + d - 1) <= Marginal(c, x);
    }
  }

  lemma {:induction false} RisesOver(c: Curve, x: nat, d: nat)
    requires Concave(c)
    ensures At(c, x) <= At(c, x + d)
  {
    if d > 0 {
      RisesOver(c, x, d - 1);
      if Marginal(c, x + d - 1) < 0 {
        FallsBelow(c, x + d - 1, At(c, x + d - 1) + 1);
      }
    }
  }

  /** So a concave curve never falls. */
  lemma ConcaveRises(c: Curve)
    requires Concave(c)
    ensures Nondecreasing(c)
  {
    forall x: nat, y: nat | x <= y ensures At(c, x) <= At(c, y) { RisesOver(c, x, y - x); }
  }

  lemma AllConcaveRise(curves: seq<Curve>)
    requires AllConcave(curves)
    ensures AllNondecreasing(curves)
  {
    forall i | 0 <= i < |curves| ensures Nondecreasing(curves[i]) { ConcaveRises(curves[i]); }
  }

  /** A concave curve that gives nothing once gives nothing at all. */
  lemma NothingOnce(c: Curve, x: nat, y: nat)
    requires Concave(c) && x > 0 && At(c, x) == 0
    ensures At(c, y) == 0
  {
    ConcaveRises(c);
    assert At(c, 1) <= At(c, x);
    NothingAfterOne(c, y);
  }

  lemma {:induction false} NothingAfterOne(c: Curve, y: nat)
    requires Concave(c) && At(c, 1) == 0
    ensures At(c, y) == 0
  {
    if y > 1 {
      NothingAfterOne(c, y - 1);
      assert Marginal(c, y - 1) <= Marginal(c, 0);
    }
  }

  lemma {:induction false} OutputAtLeast(c: seq<Curve>, a: seq<nat>, i: nat)
    requires |c| == |a| && i < |a|
    ensures At(c[i], a[i]) <= Output(c, a)
  {
    if i < |a| - 1 { OutputAtLeast(c[..|a| - 1], a[..|a| - 1], i); }
  }

  lemma {:induction false} OutputOfNothing(c: seq<Curve>, a: seq<nat>)
    requires |c| == |a| && forall i :: 0 <= i < |a| ==> At(c[i], a[i]) == 0
    ensures Output(c, a) == 0
  {
    if |a| > 0 { OutputOfNothing(c[..|a| - 1], a[..|a| - 1]); }
  }

  /** The next d units are worth no more later on. */
  lemma {:induction false} LaterGainsLess(c: Curve, x: nat, y: nat, d: nat)
    requires Concave(c) && x <= y
    ensures At(c, y + d) - At(c, y) <= At(c, x + d) - At(c, x)
  {
    if d > 0 {
      LaterGainsLess(c, x, y, d - 1);
      assert Marginal(c, y + d - 1) <= Marginal(c, x + d - 1);
    }
  }

  /** Three inputs whose gains shrink have outputs whose gains shrink. */
  lemma ComposedBends(c: Curve, x: nat, y: nat, z: nat)
    requires Concave(c) && x + z <= 2 * y
    ensures At(c, x) + At(c, z) <= 2 * At(c, y)
  {
    ConcaveRises(c);
    if x <= y {
      LaterGainsLess(c, x, y, y - x);
      assert At(c, z) <= At(c, 2 * y - x);
    } else {
      LaterGainsLess(c, z, y, x - y);
      assert z <= y && At(c, z) <= At(c, 2 * y - x);
      LaterGainsLess(c, 2 * y - x, y, x - y);
    }
  }

  /** Three allocations in equal steps. */
  ghost predicate EqualSteps(x: seq<nat>, y: seq<nat>, z: seq<nat>) {
    |x| == |y| == |z| && forall k {:trigger y[k]} :: 0 <= k < |y| ==> x[k] + z[k] == 2 * y[k]
  }

  /** The middle one gives at least the mean of the others. */
  lemma {:induction false} OutputBends(c: seq<Curve>, x: seq<nat>, y: seq<nat>, z: seq<nat>)
    requires |c| == |y| && EqualSteps(x, y, z) && AllConcave(c)
    ensures Output(c, x) + Output(c, z) <= 2 * Output(c, y)
  {
    if |c| > 0 {
      var n := |c| - 1;
      assert EqualSteps(x[..n], y[..n], z[..n]) by {
        forall k | 0 <= k < n ensures x[..n][k] + z[..n][k] == 2 * y[..n][k] { assert y[k] == y[..n][k]; }
      }
      OutputBends(c[..n], x[..n], y[..n], z[..n]);
      assert x[n] + z[n] == 2 * y[n];
      ComposedBends(c[n], x[n], y[n], z[n]);
    }
  }

  /** Two splits, one larger by two units, meet in between without loss. */
  lemma MeetBetween(curves: seq<Curve>, p: seq<nat>, q: seq<nat>, amount: nat)
    requires AllConcave(curves) && IsSplit(p, |curves|, amount + 2) && IsSplit(q, |curves|, amount)
    ensures Output(curves, p) + Output(curves, q) <= 2 * Best(curves, amount + 1)
  {
    var i := FindDifference(p, q);
    var fewer, more := p[i := p[i] - 1], q[i := q[i] + 1];
    SumChanged(p, fewer, i);
    SumChanged(q, more, i);
    OutputChanged(curves, p, fewer, i);
    OutputChanged(curves, q, more, i);
    assert Concave(curves[i]) && Marginal(curves[i], p[i] - 1) <= Marginal(curves[i], q[i]);
    BestBounds(curves, amount + 1, fewer);
    BestBounds(curves, amount + 1, more);
  }

  lemma BestBends(curves: seq<Curve>, amount: nat)
    requires AllConcave(curves)
    ensures Marginal(BestCurve(curves), amount + 1) <= Marginal(BestCurve(curves), amount)
  {
    BestCurveAt(curves, amount);
    BestCurveAt(curves, amount + 1);
    BestCurveAt(curves, amount + 2);
    if |curves| > 0 {
      var p := BestAttained(curves, amount + 2);
      var q := BestAttained(curves, amount);
      MeetBetween(curves, p, q, amount);
    }
  }

  lemma {:induction false} BestBendsOver(curves: seq<Curve>, x: nat, d: nat)
    requires AllConcave(curves)
    ensures Marginal(BestCurve(curves), x + d) <= Marginal(BestCurve(curves), x)
  {
    if d > 0 {
      BestBendsOver(curves, x, d - 1);
      BestBends(curves, x + d - 1);
    }
  }

  /** The optimum over concave curves is concave. */
  lemma BestIsConcave(curves: seq<Curve>)
    requires AllConcave(curves)
    ensures Concave(BestCurve(curves))
  {
    forall x: nat, y: nat | x <= y ensures Marginal(BestCurve(curves), y) <= Marginal(BestCurve(curves), x) {
      BestBendsOver(curves, x, y - x);
    }
  }

  /** Shrinking steps make a concave line. */
  lemma {:induction false} BendsOver(line: seq<int>, i: nat, j: nat)
    requires i <= j < |line| - 1
    requires forall k: nat {:trigger line[k + 1]} :: k + 2 < |line| ==> line[k] + line[k + 2] <= 2 * line[k + 1]
    ensures Rise(line, j) <= Rise(line, i)
    decreases j
  {
    if i < j {
      BendsOver(line, i, j - 1);
      assert line[j - 1] + line[j - 1 + 2] <= 2 * line[j - 1 + 1];
    }
  }

  lemma BendsIsConcave(line: seq<int>)
    requires forall k: nat {:trigger line[k + 1]} :: k + 2 < |line| ==> line[k] + line[k + 2] <= 2 * line[k + 1]
    ensures ConcaveLine(line)
  {
    forall i: nat, j: nat | i <= j < |line| - 1 ensures Rise(line, j) <= Rise(line, i) { BendsOver(line, i, j); }
  }
}
