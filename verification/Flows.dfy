/** What an allocation of the input is worth, what exchanges between two of its
    amounts can change, and where a search along such a line ends. */
module Flows {
  import opened Allocations
  import opened Concavity
  import opened Optimum

  /** What an allocation is worth: the summed outputs of one family, or direct
      output plus the best use of the intermediate token. */
  datatype Objective =
    | Independent(curves: seq<Curve>)
    | TwoStage(direct: seq<Curve>, first: seq<Curve>, second: seq<Curve>)

  function Arity(o: Objective): nat {
    match o
    case Independent(curves) => |curves|
    case TwoStage(direct, first, _) => |direct| + |first|
  }

  function DirectOutput(o: Objective, a: seq<nat>): nat
    requires o.TwoStage? && |a| == Arity(o)
  {
    Output(o.direct, a[..|o.direct|])
  }

  function Intermediate(o: Objective, a: seq<nat>): nat
    requires o.TwoStage? && |a| == Arity(o)
  {
    Output(o.first, a[|o.direct|..])
  }

  /** One family of curves: given alone, or as direct pools without a branch. */
  predicate IsFamily(o: Objective) { o.Independent? || |o.first| == 0 }

  function Family(o: Objective): (curves: seq<Curve>)
    ensures IsFamily(o) ==> |curves| == Arity(o)
  {
    if o.Independent? then o.curves else o.direct
  }

  ghost predicate ConcaveFamily(o: Objective) { IsFamily(o) && AllConcave(Family(o)) }

  /** Concave pools everywhere. */
  ghost predicate ConcaveFlow(o: Objective) {
    match o
    case Independent(curves) => AllConcave(curves)
    case TwoStage(direct, first, second) => AllConcave(direct) && (|first| == 0 || (AllConcave(first) && AllConcave(second)))
  }

  /** The worth of an allocation, with the second stage at its best. */
  ghost function Value(o: Objective, a: seq<nat>): nat
    requires |a| == Arity(o)
  {
    match o
    case Independent(curves) => Output(curves, a)
    case TwoStage(_, _, second) => DirectOutput(o, a) + Best(second, Intermediate(o, a))
  }

  lemma FamilyValue(o: Objective, a: seq<nat>)
    requires IsFamily(o) && |a| == Arity(o)
    ensures Value(o, a) == Output(Family(o), a)
  {
    if o.TwoStage? {
      assert a[..|o.direct|] == a && a[|o.direct|..] == [];
      BestOfNothing(o.second);
    }
  }

  /** No allocation is worth more. */
  ghost predicate Greatest(o: Objective, total: nat, out: nat) {
    forall a: seq<nat> {:trigger Value(o, a)} :: IsSplit(a, Arity(o), total) ==> Value(o, a) <= out
  }

  // ---------- lines ----------

  /** What the allocation is worth, by the share of left in what left and right
      hold together. */
  ghost function PairLine(o: Objective, base: seq<nat>, left: nat, right: nat): (line: seq<int>)
    requires |base| == Arity(o) && left < right < |base|
    ensures |line| == base[left] + base[right] + 1
    ensures forall v :: 0 <= v < |line| ==> line[v] == Value(o, Exchange(base, left, right, base[left] + base[right], v))
  {
    var pairTotal := base[left] + base[right];
    seq(pairTotal + 1, v requires 0 <= v <= pairTotal => Value(o, Exchange(base, left, right, pairTotal, v)))
  }

  lemma PairLineHere(o: Objective, a: seq<nat>, left: nat, right: nat)
    requires |a| == Arity(o) && left < right < |a|
    ensures PairLine(o, a, left, right)[a[left]] == Value(o, a)
  {
    assert Exchange(a, left, right, a[left] + a[right], a[left]) == a;
  }

  /** Sharing the pair differently stays on its line. */
  lemma PairLineMoved(o: Objective, base: seq<nat>, left: nat, right: nat, share: nat)
    requires |base| == Arity(o) && left < right < |base| && share <= base[left] + base[right]
    ensures PairLine(o, Exchange(base, left, right, base[left] + base[right], share), left, right) == PairLine(o, base, left, right)
  {
    var pairTotal := base[left] + base[right];
    var moved := Exchange(base, left, right, pairTotal, share);
    var line, other := PairLine(o, base, left, right), PairLine(o, moved, left, right);
    forall v | 0 <= v <= pairTotal ensures other[v] == line[v] {
      assert Exchange(moved, left, right, pairTotal, v) == Exchange(base, left, right, pairTotal, v);
    }
  }

  /** No exchange between left and right improves the allocation. */
  ghost predicate ExchangeOptimal(o: Objective, a: seq<nat>, left: nat, right: nat)
    requires |a| == Arity(o) && left < right < |a|
  {
    Peak(PairLine(o, a, left, right), 0, a[left] + a[right], a[left])
  }

  /** What PairwiseOptimal claims: no exchange improves the allocation. */
  ghost predicate FlowOptimal(o: Objective, a: seq<nat>)
    requires |a| == Arity(o)
  {
    forall l, r {:trigger ExchangeOptimal(o, a, l, r)} :: 0 <= l < r < |a| ==> ExchangeOptimal(o, a, l, r)
  }

  /** For one family that is a matter of the two curves alone. */
  lemma FamilyLine(o: Objective, a: seq<nat>, left: nat, right: nat, v: nat)
    requires IsFamily(o) && |a| == Arity(o) && left < right < |a| && v <= a[left] + a[right]
    ensures PairLine(o, a, left, right)[v] - Value(o, a)
            == ShareLine(Family(o)[left], Family(o)[right], a[left] + a[right])[v]
               - ShareLine(Family(o)[left], Family(o)[right], a[left] + a[right])[a[left]]
  {
    var b := Exchange(a, left, right, a[left] + a[right], v);
    FamilyValue(o, a);
    FamilyValue(o, b);
    OutputChanged2(Family(o), a, b, left, right);
  }

  lemma FamilyExchange(o: Objective, a: seq<nat>, left: nat, right: nat)
    requires IsFamily(o) && |a| == Arity(o) && left < right < |a|
    ensures ExchangeOptimal(o, a, left, right) <==> PairOptimal(Family(o), a, left, right)
  {
    var line, shares := PairLine(o, a, left, right), ShareLine(Family(o)[left], Family(o)[right], a[left] + a[right]);
    PairLineHere(o, a, left, right);
    forall v | 0 <= v <= a[left] + a[right] ensures line[v] <= line[a[left]] <==> shares[v] <= shares[a[left]] {
      FamilyLine(o, a, left, right, v);
    }
  }

  lemma FamilyOptimal(o: Objective, a: seq<nat>)
    requires IsFamily(o) && |a| == Arity(o)
    ensures FlowOptimal(o, a) <==> AllPairsOptimal(Family(o), a)
  {
    forall l, r | 0 <= l < r < |a| ensures ExchangeOptimal(o, a, l, r) <==> PairOptimal(Family(o), a, l, r) {
      FamilyExchange(o, a, l, r);
    }
  }

  /** A greatest allocation leaves nothing to gain between any two amounts. */
  lemma GreatestIsOptimal(o: Objective, a: seq<nat>, total: nat)
    requires IsSplit(a, Arity(o), total) && Greatest(o, total, Value(o, a))
    ensures FlowOptimal(o, a)
  {
    forall l, r | 0 <= l < r < |a| ensures ExchangeOptimal(o, a, l, r) {
      PairLineHere(o, a, l, r);
      forall v | 0 <= v <= a[l] + a[r] ensures PairLine(o, a, l, r)[v] <= PairLine(o, a, l, r)[a[l]] {
        SumChanged2(a, Exchange(a, l, r, a[l] + a[r], v), l, r);
      }
    }
  }

  // ---------- searching a line ----------

  predicate Near(x: int, center: int, distance: int) { center - distance <= x <= center + distance }

  /** The least of the best shares near center. */
  ghost predicate Scanned(line: seq<int>, center: int, distance: int, share: nat) {
    && share < |line| && Near(share, center, distance)
    && forall x {:trigger line[x]} :: 0 <= x < |line| && Near(x, center, distance) ==>
         line[x] <= line[share] && (line[x] == line[share] ==> share <= x)
  }

  /** There is one such share. */
  lemma ScannedUnique(line: seq<int>, center: int, distance: int, x: nat, y: nat)
    requires Scanned(line, center, distance, x) && Scanned(line, center, distance, y)
    ensures x == y
  {
    assert line[x] <= line[y] && line[y] <= line[x];
  }

  /** Where the whole bisection of a line ends. */
  ghost function Middle(line: seq<int>): nat
    requires |line| > 0
  {
    Bisected(line, 0, |line| - 1)
  }

  /** A peak of the line lies within distance of where bisection ends. */
  ghost predicate PeakNear(line: seq<int>, distance: int)
    requires |line| > 0
  {
    exists x {:trigger line[x]} :: 0 <= x < |line| && Near(x, Middle(line), distance) && Peak(line, 0, |line| - 1, x)
  }

  /** The search of a line ends on a peak exactly if one is near enough. */
  lemma ScannedIsPeakIff(line: seq<int>, distance: int, share: nat)
    requires |line| > 0 && Scanned(line, Middle(line), distance, share)
    ensures Peak(line, 0, |line| - 1, share) <==> PeakNear(line, distance)
  {
    if PeakNear(line, distance) {
      var x :| 0 <= x < |line| && Near(x, Middle(line), distance) && Peak(line, 0, |line| - 1, x);
      assert line[x] <= line[share];
    }
  }

  /** On a concave line one is. */
  lemma ConcaveHasPeakNear(line: seq<int>, distance: nat)
    requires |line| > 0 && ConcaveLine(line)
    ensures PeakNear(line, distance)
  {
    BisectedIsPeak(line, 0, |line| - 1);
    assert line[Middle(line)] == line[Middle(line)];
  }

  // ---------- sweeping ----------

  /** No share near the end of bisection improves the pair. */
  ghost predicate NothingNear(o: Objective, a: seq<nat>, left: nat, right: nat, distance: int)
    requires |a| == Arity(o) && left < right < |a|
  {
    var line := PairLine(o, a, left, right);
    forall x {:trigger line[x]} :: 0 <= x < |line| && Near(x, Middle(line), distance) ==> line[x] <= Value(o, a)
  }

  ghost predicate RowSwept(o: Objective, a: seq<nat>, left: nat, bound: nat, distance: int)
    requires |a| == Arity(o)
  {
    forall r {:trigger NothingNear(o, a, left, r, distance)} :: left < r < bound && r < |a| ==> NothingNear(o, a, left, r, distance)
  }

  ghost predicate RowsSwept(o: Objective, a: seq<nat>, bound: nat, distance: int)
    requires |a| == Arity(o)
  {
    forall l {:trigger RowSwept(o, a, l, |a|, distance)} :: 0 <= l < bound && l < |a| ==> RowSwept(o, a, l, |a|, distance)
  }

  /** Where sweeping stops: no search of a line finds an improvement. */
  ghost predicate Swept(o: Objective, a: seq<nat>, distance: int)
    requires |a| == Arity(o)
  {
    RowsSwept(o, a, |a|, distance)
  }

  /** A searched share that is worth no more than what the pair gives now. */
  lemma NoGainNear(o: Objective, a: seq<nat>, left: nat, right: nat, distance: int, share: nat)
    requires |a| == Arity(o) && left < right < |a|
    requires var line := PairLine(o, a, left, right); Scanned(line, Middle(line), distance, share) && line[share] <= Value(o, a)
    ensures NothingNear(o, a, left, right, distance)
  {
  }

  /** What sweeping leaves is optimal for a pair exactly if no share further
      away is better; so it is, where a peak of the line is near enough. */
  lemma SweptPair(o: Objective, a: seq<nat>, left: nat, right: nat, distance: int)
    requires |a| == Arity(o) && left < right < |a|
    requires Swept(o, a, distance) && PeakNear(PairLine(o, a, left, right), distance)
    ensures ExchangeOptimal(o, a, left, right)
  {
    var line := PairLine(o, a, left, right);
    var x :| 0 <= x < |line| && Near(x, Middle(line), distance) && Peak(line, 0, |line| - 1, x);
    PairLineHere(o, a, left, right);
    assert RowSwept(o, a, left, |a|, distance) && NothingNear(o, a, left, right, distance);
    assert line[x] <= line[a[left]];
  }

  // ---------- concave flows ----------

  /** Of three allocations in equal steps the middle one is worth at least the
      mean of the others. */
  lemma ValueBends(o: Objective, x: seq<nat>, y: seq<nat>, z: seq<nat>)
    requires ConcaveFlow(o) && |y| == Arity(o) && EqualSteps(x, y, z)
    ensures Value(o, x) + Value(o, z) <= 2 * Value(o, y)
  {
    match o {
    case Independent(curves) =>
      OutputBends(curves, x, y, z);
    case TwoStage(direct, first, second) =>
      var n := |direct|;
      EqualParts(x, y, z, n);
      OutputBends(direct, x[..n], y[..n], z[..n]);
      if |first| == 0 {
        FamilyValue(o, x);
        FamilyValue(o, y);
        FamilyValue(o, z);
        assert x[..n] == x && y[..n] == y && z[..n] == z;
      } else {
        OutputBends(first, x[n..], y[n..], z[n..]);
        BestBendsWith(second, Intermediate(o, x), Intermediate(o, y), Intermediate(o, z));
      }
    }
  }

  lemma EqualParts(x: seq<nat>, y: seq<nat>, z: seq<nat>, n: nat)
    requires EqualSteps(x, y, z) && n <= |y|
    ensures EqualSteps(x[..n], y[..n], z[..n]) && EqualSteps(x[n..], y[n..], z[n..])
  {
    forall k | 0 <= k < n ensures x[..n][k] + z[..n][k] == 2 * y[..n][k] { assert y[k] == y[..n][k]; }
    forall k | 0 <= k < |y| - n ensures x[n..][k] + z[n..][k] == 2 * y[n..][k] { assert y[n + k] == y[n..][k]; }
  }

  lemma BestBendsWith(curves: seq<Curve>, x: nat, y: nat, z: nat)
    requires AllConcave(curves) && x + z <= 2 * y
    ensures Best(curves, x) + Best(curves, z) <= 2 * Best(curves, y)
  {
    BestIsConcave(curves);
    ComposedBends(BestCurve(curves), x, y, z);
    BestCurveAt(curves, x);
    BestCurveAt(curves, y);
    BestCurveAt(curves, z);
  }

  /** Every line of a flow through concave pools is concave, also where it leads
      through the second stage. */
  lemma FlowLineConcave(o: Objective, base: seq<nat>, left: nat, right: nat)
    requires ConcaveFlow(o) && |base| == Arity(o) && left < right < |base|
    ensures ConcaveLine(PairLine(o, base, left, right))
  {
    var line, pairTotal := PairLine(o, base, left, right), base[left] + base[right];
    forall k: nat | k + 2 < |line| ensures line[k] + line[k + 2] <= 2 * line[k + 1] {
      ValueBends(o, Exchange(base, left, right, pairTotal, k), Exchange(base, left, right, pairTotal, k + 1),
                 Exchange(base, left, right, pairTotal, k + 2));
    }
    BendsIsConcave(line);
  }

  /** Sweeping a flow through concave pools leaves no exchange that improves it. */
  lemma SweptIsOptimal(o: Objective, a: seq<nat>, distance: nat)
    requires ConcaveFlow(o) && |a| == Arity(o) && Swept(o, a, distance)
    ensures FlowOptimal(o, a)
  {
    forall l, r | 0 <= l < r < |a| ensures ExchangeOptimal(o, a, l, r) {
      FlowLineConcave(o, a, l, r);
      ConcaveHasPeakNear(PairLine(o, a, l, r), distance);
      SweptPair(o, a, l, r, distance);
    }
  }

  /** Over one concave family that is a maximum. */
  lemma SweptIsMaximum(o: Objective, a: seq<nat>, distance: nat)
    requires ConcaveFamily(o) && |a| == Arity(o) && Swept(o, a, distance)
    ensures UpperBound(Family(o), Sum(a), Output(Family(o), a))
  {
    SweptIsOptimal(o, a, distance);
    FamilyOptimal(o, a);
    forall b: seq<nat> | IsSplit(b, |Family(o)|, Sum(a)) ensures Output(Family(o), b) <= Output(Family(o), a) {
      NoExchangeIsMaximum(Family(o), a, b);
    }
  }

  // ---------- a branch that yields nothing ----------

  /** The second stage gives nothing for whatever an allocation feeds it. */
  ghost predicate Worthless(o: Objective) {
    o.TwoStage? && forall a: seq<nat> {:trigger Intermediate(o, a)} :: |a| == Arity(o) ==> Best(o.second, Intermediate(o, a)) == 0
  }

  /** Getting nothing for something shows it, */
  lemma NothingForSomething(o: Objective, m: nat)
    requires o.TwoStage? && AllConcave(o.second) && m > 0 && Best(o.second, m) == 0
    ensures Worthless(o)
  {
    BestIsConcave(o.second);
    BestCurveAt(o.second, m);
    forall a: seq<nat> | |a| == Arity(o) ensures Best(o.second, Intermediate(o, a)) == 0 {
      BestCurveAt(o.second, Intermediate(o, a));
      NothingOnce(BestCurve(o.second), m, Intermediate(o, a));
    }
  }

  /** and so does an input to the branch that yields nothing, where no exchange
      improves on it. */
  lemma NothingFromSomething(o: Objective, a: seq<nat>, i: nat)
    requires o.TwoStage? && |a| == Arity(o) && i < |o.first| && AllConcave(o.first) && AllConcave(o.second)
    requires a[|o.direct| + i] > 0 && Intermediate(o, a) == 0 && FlowOptimal(o, a)
    ensures Worthless(o)
  {
    if j :| 0 <= j < |o.first| && j != i && At(o.first[j], a[|o.direct| + j] + a[|o.direct| + i]) > 0 {
      MovedYieldsNothing(o, a, i, j);
    } else {
      var n := |o.direct|;
      OutputAtLeast(o.first, a[n..], i);
      forall b: seq<nat> | |b| == Arity(o) ensures Best(o.second, Intermediate(o, b)) == 0 {
        forall j | 0 <= j < |o.first| ensures At(o.first[j], b[n..][j]) == 0 {
          NothingOnce(o.first[j], if j == i then a[n + i] else a[n + j] + a[n + i], b[n..][j]);
        }
        OutputOfNothing(o.first, b[n..]);
        BestOfNothing(o.second);
      }
    }
  }

  lemma MovedYieldsNothing(o: Objective, a: seq<nat>, i: nat, j: nat)
    requires o.TwoStage? && |a| == Arity(o) && i < |o.first| && j < |o.first| && i != j && AllConcave(o.second)
    requires Intermediate(o, a) == 0 && FlowOptimal(o, a)
    requires At(o.first[j], a[|o.direct| + j] + a[|o.direct| + i]) > 0
    ensures Worthless(o)
  {
    var n := |o.direct|;
    var l, r := n + if i < j then i else j, n + if i < j then j else i;
    var v := if i < j then 0 else a[l] + a[r];
    var b := Exchange(a, l, r, a[l] + a[r], v);
    MovedIsWorthNoMore(o, a, l, r, v);
    assert a[..n] == b[..n];
    BestOfNothing(o.second);
    assert b[n..][j] == a[n + j] + a[n + i];
    OutputAtLeast(o.first, b[n..], j);
    NothingForSomething(o, Intermediate(o, b));
  }

  lemma MovedIsWorthNoMore(o: Objective, a: seq<nat>, left: nat, right: nat, v: nat)
    requires |a| == Arity(o) && left < right < |a| && v <= a[left] + a[right] && FlowOptimal(o, a)
    ensures Value(o, Exchange(a, left, right, a[left] + a[right], v)) <= Value(o, a)
  {
    assert ExchangeOptimal(o, a, left, right);
    PairLineHere(o, a, left, right);
    assert PairLine(o, a, left, right)[v] <= PairLine(o, a, left, right)[a[left]];
  }
}
