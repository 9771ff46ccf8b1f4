/** Pool curves and integer allocations over them, and how many allocations
    there are. */
module Allocations {
  /** One immutable exact-input curve. A quote that rounds to zero is the
      output 0. */
  datatype Curve = Curve(id: string, quote: nat -> nat)

  /** Curve evaluation: nothing in, nothing out. */
  function At(c: Curve, amount: nat): nat {
    if amount == 0 then 0 else c.quote(amount)
  }

  function Sum(a: seq<nat>): nat {
    if |a| == 0 then 0 else Sum(a[..|a| - 1]) + a[|a| - 1]
  }

  /** Total output of an allocation, one amount a curve. */
  function Output(curves: seq<Curve>, a: seq<nat>): nat
    requires |curves| == |a|
  {
    if |a| == 0 then 0
    else Output(curves[..|a| - 1], a[..|a| - 1]) + At(curves[|a| - 1], a[|a| - 1])
  }

  /** An allocation of exactly total over count curves. */
  predicate IsSplit(a: seq<nat>, count: nat, total: nat) {
    |a| == count && Sum(a) == total
  }

  function Zeros(count: nat): (a: seq<nat>)
    ensures |a| == count && forall i :: 0 <= i < count ==> a[i] == 0
  {
    seq(count, i => 0)
  }

  /** out is at least what any split of total can give. */
  ghost predicate UpperBound(curves: seq<Curve>, total: nat, out: nat) {
    forall a: seq<nat> :: IsSplit(a, |curves|, total) ==> Output(curves, a) <= out
  }

  ghost predicate Nondecreasing(c: Curve) {
    forall x: nat, y: nat :: x <= y ==> At(c, x) <= At(c, y)
  }

  ghost predicate AllNondecreasing(curves: seq<Curve>) {
    forall i :: 0 <= i < |curves| ==> Nondecreasing(curves[i])
  }

  // ---------- sums ----------

  lemma {:induction false} SumAppend(a: seq<nat>, b: seq<nat>)
    ensures Sum(a + b) == Sum(a) + Sum(b)
  {
    if |b| == 0 {
      assert a + b == a;
    } else {
      SumAppend(a, b[..|b| - 1]);
      assert (a + b)[..|a + b| - 1] == a + b[..|b| - 1];
    }
  }

  lemma {:induction false} SumZeros(count: nat)
    ensures Sum(Zeros(count)) == 0
  {
    if count > 0 {
      SumZeros(count - 1);
      assert Zeros(count)[..count - 1] == Zeros(count - 1);
    }
  }

  /** Sums of sequences that differ in one place, or in two. */
  lemma {:induction false} SumChanged(a: seq<nat>, b: seq<nat>, i: nat)
    requires |a| == |b| && i < |a| && forall k :: 0 <= k < |a| && k != i ==> a[k] == b[k]
    ensures Sum(b) == Sum(a) - a[i] + b[i]
  {
    var n := |a| - 1;
    if i == n {
      assert a[..n] == b[..n];
    } else {
      SumChanged(a[..n], b[..n], i);
    }
  }

  lemma SumChanged2(a: seq<nat>, b: seq<nat>, i: nat, j: nat)
    requires |a| == |b| && i < |a| && j < |a| && i != j
    requires forall k :: 0 <= k < |a| && k != i && k != j ==> a[k] == b[k]
    ensures Sum(b) == Sum(a) - a[i] - a[j] + b[i] + b[j]
  {
    var c := a[i := b[i]];
    SumChanged(a, c, i);
    SumChanged(c, b, j);
  }

  lemma {:induction false} SumAtLeast(a: seq<nat>, i: nat)
    requires i < |a|
    ensures a[i] <= Sum(a)
  {
    if i < |a| - 1 {
      SumAtLeast(a[..|a| - 1], i);
    }
  }

  /** A positive total has a positive part. */
  lemma {:induction false} SumPositive(a: seq<nat>) returns (i: nat)
    requires Sum(a) > 0
    ensures i < |a| && a[i] > 0
  {
    if a[|a| - 1] > 0 {
      i := |a| - 1;
    } else {
      i := SumPositive(a[..|a| - 1]);
    }
  }

  // ---------- outputs ----------

  lemma {:induction false} OutputAppend(c: seq<Curve>, d: seq<Curve>, a: seq<nat>, b: seq<nat>)
    requires |c| == |a| && |d| == |b|
    ensures Output(c + d, a + b) == Output(c, a) + Output(d, b)
  {
    if |b| == 0 {
      assert a + b == a && c + d == c;
    } else {
      var n := |b| - 1;
      OutputAppend(c, d[..n], a, b[..n]);
      assert (a + b)[..|a| + n] == a + b[..n] && (c + d)[..|a| + n] == c + d[..n];
    }
  }

  lemma {:induction false} OutputChanged(c: seq<Curve>, a: seq<nat>, b: seq<nat>, i: nat)
    requires |c| == |a| == |b| && i < |a| && forall k :: 0 <= k < |a| && k != i ==> a[k] == b[k]
    ensures Output(c, b) == Output(c, a) - At(c[i], a[i]) + At(c[i], b[i])
  {
    var n := |a| - 1;
    if i == n {
      assert a[..n] == b[..n];
    } else {
      OutputChanged(c[..n], a[..n], b[..n], i);
    }
  }

  lemma OutputChanged2(c: seq<Curve>, a: seq<nat>, b: seq<nat>, i: nat, j: nat)
    requires |c| == |a| == |b| && i < |a| && j < |a| && i != j
    requires forall k :: 0 <= k < |a| && k != i && k != j ==> a[k] == b[k]
    ensures Output(c, b) == Output(c, a) - At(c[i], a[i]) - At(c[j], a[j]) + At(c[i], b[i]) + At(c[j], b[j])
  {
    var m := a[i := b[i]];
    OutputChanged(c, a, m, i);
    OutputChanged(c, m, b, j);
  }

  lemma {:induction false} OutputZeros(c: seq<Curve>, a: seq<nat>)
    requires |c| == |a| && forall i :: 0 <= i < |a| ==> a[i] == 0
    ensures Output(c, a) == 0
  {
    if |a| > 0 { OutputZeros(c[..|a| - 1], a[..|a| - 1]); }
  }

  lemma {:induction false} NothingInNothingOut(c: seq<Curve>, a: seq<nat>)
    requires |c| == |a| && Sum(a) == 0
    ensures Output(c, a) == 0
  {
    if |a| > 0 { NothingInNothingOut(c[..|a| - 1], a[..|a| - 1]); }
  }

  lemma SumOfTwo(a: seq<nat>)
    requires |a| == 2
    ensures Sum(a) == a[0] + a[1]
  {
    assert Sum(a[..1]) == Sum(a[..1][..0]) + a[0];
  }

  lemma OutputOfTwo(curves: seq<Curve>, a: seq<nat>)
    requires |curves| == |a| == 2
    ensures Output(curves, a) == At(curves[0], a[0]) + At(curves[1], a[1])
  {
    assert Output(curves, a) == Output(curves[..1], a[..1]) + At(curves[1], a[1]);
    assert Output(curves[..1], a[..1]) == Output(curves[..1][..0], a[..1][..0]) + At(curves[0], a[0]);
  }

  // ---------- moving amount between two curves ----------

  /** base with value on left and the rest of pairTotal on right. */
  function Exchange(base: seq<nat>, left: nat, right: nat, pairTotal: nat, value: nat): (a: seq<nat>)
    requires left < right < |base| && value <= pairTotal
    ensures |a| == |base| && a[left] == value && a[right] == pairTotal - value
    ensures forall k :: 0 <= k < |base| && k != left && k != right ==> a[k] == base[k]
  {
    base[left := value][right := pairTotal - value]
  }

  // ---------- counting allocations ----------

  /** How many allocations a walk over every value of every coordinate meets. */
  function Visits(count: nat, total: nat): nat
    decreases count, total
  {
    if count <= 1 then 1
    else if total == 0 then Visits(count - 1, 0)
    else Visits(count - 1, total) + Visits(count, total - 1)
  }

  function Choose(n: nat, k: nat): nat {
    if k == 0 then 1 else if n == 0 then 0 else Choose(n - 1, k - 1) + Choose(n - 1, k)
  }

  lemma {:induction false} ChooseFull(n: nat)
    ensures Choose(n, n) == 1 && Choose(n, n + 1) == 0
  {
    if n > 0 { ChooseFull(n - 1); ChooseAbove(n - 1, n + 1); }
  }

  lemma {:induction false} ChooseAbove(n: nat, k: nat)
    requires k > n
    ensures Choose(n, k) == 0
  {
    if n > 0 { ChooseAbove(n - 1, k - 1); ChooseAbove(n - 1, k); }
  }

  /** The walk meets C(total + count - 1, count - 1) allocations. */
  lemma {:induction false} VisitsIsChoose(count: nat, total: nat)
    requires count >= 1
    ensures Visits(count, total) == Choose(total + count - 1, count - 1)
    decreases count, total
  {
    if count > 1 {
      VisitsIsChoose(count - 1, total);
      if total > 0 {
        VisitsIsChoose(count, total - 1);
      } else {
        ChooseFull(count - 1);
        ChooseFull(count - 2);
      }
    }
  }

  /** One induction step of Absorption, as arithmetic. */
  lemma AbsorptionStep(n: nat, k: nat, a: nat, b: nat, d: nat)
    requires n >= 1 && k >= 1
    requires (k - 1) * (a + b) == (n - 1) * a && k * d == (n - 1) * b
    ensures k * (a + b + d) == n * (a + b)
  {
    calc {
      k * (a + b + d);
      (k - 1) * (a + b) + (a + b) + k * d;
      (n - 1) * a + (n - 1) * b + (a + b);
      n * (a + b);
    }
  }

  /** k C(n, k) = n C(n-1, k-1): the division in the running product is exact. */
  lemma {:induction false} Absorption(n: nat, k: nat)
    requires n >= 1 && k >= 1
    ensures k * Choose(n, k) == n * Choose(n - 1, k - 1)
    decreases n
  {
    if n == 1 {
      if k > 1 { ChooseAbove(n, k); ChooseAbove(n - 1, k - 1); }
    } else if k == 1 {
      Absorption(n - 1, 1);
      assert Choose(n - 1, 1) == n - 1;
    } else {
      Absorption(n - 1, k);
      Absorption(n - 1, k - 1);
      AbsorptionStep(n, k, Choose(n - 2, k - 2), Choose(n - 2, k - 1), Choose(n - 1, k));
    }
  }

  /** Adding a coordinate never lowers the count, nor takes it below total + 1. */
  lemma {:induction false} VisitsGrow(count: nat, total: nat)
    requires count >= 1
    ensures 1 <= Visits(count, total) <= Visits(count + 1, total)
    ensures count >= 2 ==> total + 1 <= Visits(count, total)
    decreases count, total
  {
    if count > 1 { VisitsGrow(count - 1, total); }
    if total > 0 { VisitsGrow(count, total - 1); }
    if count == 2 && total > 0 { assert Visits(1, total) == 1; }
  }

  lemma {:induction false} VisitsMonotone(count: nat, more: nat, total: nat)
    requires 1 <= count <= more
    ensures Visits(count, total) <= Visits(more, total)
    decreases more
  {
    if count < more {
      VisitsMonotone(count, more - 1, total);
      VisitsGrow(more - 1, total);
    }
  }

  lemma MultipleAtLeast(d: nat, k: nat)
    requires k >= 1
    ensures d * k >= d
  {
    assert d * k == d + d * (k - 1);
  }

  lemma DivisionRule(x: nat, d: nat)
    requires d >= 1
    ensures x == d * (x / d) + x % d && 0 <= x % d < d
  {
  }

  lemma DivideExact(x: nat, q: nat, d: nat)
    requires d >= 1 && x == q * d
    ensures x / d == q
  {
    var r, m := x / d, x % d;
    DivisionRule(x, d);
    assert d * (q - r) == d * q - d * r == m;
    if r < q {
      MultipleAtLeast(d, q - r);
    }
  }

  /** One more coordinate multiplies and divides the count exactly. */
  lemma NextCount(total: nat, index: nat)
    requires index >= 1
    ensures Visits(index, total) * (total + index) / index == Visits(index + 1, total)
  {
    var v, w := Visits(index, total), Visits(index + 1, total);
    assert index * w == (total + index) * v by {
      VisitsIsChoose(index, total);
      VisitsIsChoose(index + 1, total);
      Absorption(total + index, index);
    }
    DivideExact(v * (total + index), w, index);
  }
}
