/** What the flag PairwiseOptimal of a split does not mean. */
module SplitFlags {
  import opened Allocations
  import opened Concavity
  import opened Flows
  import opened Optimum
  import opened Climbs
  import opened SecondStage
  import opened SplitSolver
  import opened TwoStageSplit

  /** One unit out for exactly one unit in, and nothing for any other input. */
  const HIDDEN: Curve := Curve("hidden", (x: nat) => if x == 1 then 1 else 0)

  /** Nothing, ever. */
  const IDLE: Curve := Curve("idle", (x: nat) => 0)

  const POOLS: seq<Curve> := [HIDDEN, IDLE]

  lemma TwoOutputs(a: seq<nat>)
    requires |a| == 2
    ensures Output(POOLS, a) == if a[0] == 1 then 1 else 0
  {
    OutputOfTwo(POOLS, a);
  }

  ghost function PoolLine(total: nat): (line: seq<int>)
    ensures |line| == total + 1
    ensures forall v :: 0 <= v <= total ==> line[v] == if v == 1 then 1 else 0
  {
    ShareLine(HIDDEN, IDLE, total)
  }

  /** Where the line is flat bisection walks to its end. */
  lemma {:induction false} BisectionPasses(total: nat, low: nat)
    requires 2 <= low <= total
    ensures Bisected(PoolLine(total), low, total) == total
    decreases total - low
  {
    if low < total { BisectionPasses(total, (low + total) / 2 + 1); }
  }

  lemma BisectionMisses(total: nat)
    requires total >= 4
    ensures Bisected(PoolLine(total), 0, total) == total
  {
    BisectionPasses(total, (0 + total) / 2 + 1);
  }

  /** For any neighbourhood and any larger input that is not searched
      exhaustively there are pools on which the search reports PairwiseOptimal
      although an exchange between the two still improves its allocation: their
      only peak is too far from where bisection ends. */
  method PairwiseFlagOverstates(total: nat, settings: Settings) returns (r: CoordinateResult, better: seq<nat>)
    requires ValidSettings(settings) && total >= 4 && total > settings.neighborhood + 1 && total + 1 > settings.exhaustiveLimit
    ensures r.pairwiseOptimal && IsSplit(r.best.allocation, 2, total)
    ensures IsSplit(better, 2, total) && Output(POOLS, better) > Output(POOLS, r.best.allocation)
    ensures !AllPairsOptimal(POOLS, r.best.allocation)
  {
    var o := PoolFlow();
    VisitsOfTwo(total);
    DirectIsSolvable(total, settings);
    var ev := new Evaluator(o, total, settings);
    SearchIff(ev.seen, total, settings);
    var found := CoordinateOptimize(ev);
    r := found.value;
    better := [1, total - 1];
    PeakIsMissed(ev.seen, total, settings, r, better);
  }

  function PoolFlow(): Objective { TwoStage(POOLS, [], []) }

  /** What the search ends with is not the peak. */
  lemma PeakIsMissed(o: Objective, total: nat, settings: Settings, c: CoordinateResult, better: seq<nat>)
    requires ValidSettings(settings) && total >= 4 && total > settings.neighborhood + 1 && better == [1, total - 1]
    requires IsFamily(o) && Family(o) == POOLS && Arity(o) == 2 && !Affordable(o, total, settings)
    requires Searched(o, total, settings, c) && !c.exhaustive
    ensures IsSplit(c.best.allocation, 2, total) && IsSplit(better, 2, total)
    ensures Output(POOLS, better) > Output(POOLS, c.best.allocation) && !AllPairsOptimal(POOLS, c.best.allocation)
  {
    EndsOnLine(o, total, settings, c);
    BisectionMisses(total);
    WholeLineOfPools(o, total);
    SumOfTwo(better);
    TwoOutputs(better);
    TwoOutputs(c.best.allocation);
    NotPairOptimal(c.best.allocation, better, total);
  }

  lemma EndsOnLine(o: Objective, total: nat, settings: Settings, c: CoordinateResult)
    requires ValidSettings(settings) && Arity(o) == 2 && !Affordable(o, total, settings)
    requires Searched(o, total, settings, c) && !c.exhaustive
    ensures IsSplit(c.best.allocation, 2, total) && OnLine(o, total, settings.neighborhood, c.best.allocation)
  {
    SearchIs(o, total, settings, c.best.allocation);
    FoundSays(o, total, settings, c.best.allocation);
  }

  lemma WholeLineOfPools(o: Objective, total: nat)
    requires IsFamily(o) && Family(o) == POOLS && Arity(o) == 2
    ensures WholeLine(o, total) == PoolLine(total)
  {
    forall v | 0 <= v <= total ensures WholeLine(o, total)[v] == PoolLine(total)[v] {
      var a := Exchange(Single(2, 1, total), 0, 1, total, v);
      FamilyValue(o, a);
      TwoOutputs(a);
    }
  }

  lemma VisitsOfTwo(total: nat)
    ensures Visits(2, total) >= total + 1
  {
    VisitsGrow(2, total);
  }

  lemma DirectIsSolvable(total: nat, settings: Settings)
    requires ValidSettings(settings) && total + 1 > settings.exhaustiveLimit && Visits(2, total) >= total + 1
    ensures Arity(PoolFlow()) == 2 && Solvable(PoolFlow(), total, settings)
    ensures Determined(PoolFlow(), total, settings) && !Affordable(PoolFlow(), total, settings)
  {
    forall a: seq<nat> | IsSplit(a, 2, total) ensures Intermediate(PoolFlow(), a) == 0 {
      assert a[2..] == [];
    }
  }

  lemma NotPairOptimal(a: seq<nat>, better: seq<nat>, total: nat)
    requires IsSplit(a, 2, total) && IsSplit(better, 2, total) && Output(POOLS, better) > Output(POOLS, a)
    ensures !AllPairsOptimal(POOLS, a)
  {
    SumOfTwo(a);
    SumOfTwo(better);
    OutputChanged2(POOLS, a, better, 0, 1);
    var line := ShareLine(POOLS[0], POOLS[1], total);
    assert line[better[0]] > line[a[0]];
    assert !PairOptimal(POOLS, a, 0, 1);
  }

  // ---------- the direct-only replacement ----------

  /** Two out for one in, one out for more. */
  const FALLING: Curve := Curve("falling", (x: nat) => if x == 1 then 2 else 1)

  /** A direct pool that falls, and a branch that never gives anything. */
  const WASTEFUL: Objective := TwoStage([FALLING], [IDLE], [Curve("end", (x: nat) => 0)])

  lemma WastefulValue(a: seq<nat>)
    requires |a| == 2
    ensures Value(WASTEFUL, a) == At(FALLING, a[0]) && Intermediate(WASTEFUL, a) == 0
    ensures DirectOutput(WASTEFUL, a) == At(FALLING, a[0])
  {
    var d, f := a[..1], a[1..];
    assert Output([FALLING], d) == Output([FALLING][..0], d[..0]) + At(FALLING, a[0]);
    assert Output([IDLE], f) == Output([IDLE][..0], f[..0]) + At(IDLE, a[1]);
    BestOfNothing(WASTEFUL.second);
  }

  /** Only one unit of two is worth something on the falling pool, and the search
      puts the other one on the branch. The replacement of that dust puts it back:
      both flags are set for less than one of the allocations searched gives. */
  method ReplacementLoses(settings: Settings) returns (r: Result, better: seq<nat>)
    requires ValidSettings(settings) && settings.exhaustiveLimit >= 3
    ensures r.pairwiseOptimal && r.globallyVerified
    ensures IsSplit(better, 2, 2) && Value(WASTEFUL, better) > r.totalOutput
    ensures |Placement(r)| == 2 && !FlowOptimal(WASTEFUL, Placement(r))
  {
    WastefulIsVerifiable(settings);
    var found, replaced := Solve(WASTEFUL, 2, settings);
    r := found.value;
    better := [1, 1];
    SumOfTwo(better);
    WastefulValue(better);
    WastefulIsBeaten(r);
  }

  lemma WastefulIsVerifiable(settings: Settings)
    requires ValidSettings(settings) && settings.exhaustiveLimit >= 3
    ensures Verifiable(WASTEFUL, 2, settings) && Searchable(WASTEFUL, 2, settings)
  {
    assert Visits(2, 2) == 3;
    forall a: seq<nat> | IsSplit(a, 2, 2) ensures Intermediate(WASTEFUL, a) == 0 { WastefulValue(a); }
  }

  /** Without dust, both units are on the falling pool. */
  lemma WastefulIsBeaten(r: Result)
    requires Balanced(WASTEFUL, 2, r) && NoDust(WASTEFUL, r)
    ensures r.totalOutput == 1 && |Placement(r)| == 2 && !FlowOptimal(WASTEFUL, Placement(r))
  {
    var a := Placement(r);
    assert a[..1] == Ins(r.direct) && a[1..] == Ins(r.first);
    WastefulValue(a);
    NothingInNothingOut(WASTEFUL.second, Ins(r.second));
    assert a[1] == 0;
    SumAppend(a[..1], a[1..]);
    SumOfTwo(a);
    PairLineHere(WASTEFUL, a, 0, 1);
    var better := Exchange(a, 0, 1, 2, 1);
    WastefulValue(better);
    assert PairLine(WASTEFUL, a, 0, 1)[1] == Value(WASTEFUL, better);
    assert !ExchangeOptimal(WASTEFUL, a, 0, 1);
  }

  // ---------- concave pools with a branch ----------

  /** Straight pools, one direct and two into the branch, of which the second
      stage takes four units at two for one. */
  const CAPPED: Objective :=
    TwoStage([Curve("straight", (x: nat) => x)], [Curve("double", (x: nat) => 2 * x), Curve("fourfold", (x: nat) => 4 * x)],
             [Curve("capped", (x: nat) => if x < 4 then 2 * x else 8)])

  lemma CappedValue(a: seq<nat>)
    requires |a| == 3
    ensures Value(CAPPED, a) == a[0] + if 2 * a[1] + 4 * a[2] < 4 then 4 * a[1] + 8 * a[2] else 8
  {
    var d, f := a[..1], a[1..];
    assert Output(CAPPED.direct, d) == Output(CAPPED.direct[..0], d[..0]) + a[0];
    OutputOfTwo(CAPPED.first, f);
  }

  lemma CappedIsOptimal(a: seq<nat>)
    requires a == [0, 2, 0]
    ensures FlowOptimal(CAPPED, a)
  {
    CappedValue(a);
    forall l, r | 0 <= l < r < |a| ensures ExchangeOptimal(CAPPED, a, l, r) {
      PairLineHere(CAPPED, a, l, r);
      forall v | 0 <= v <= a[l] + a[r] ensures PairLine(CAPPED, a, l, r)[v] <= 8 {
        CappedValue(Exchange(a, l, r, a[l] + a[r], v));
      }
    }
  }

  /** With a branch, an allocation of concave pools that no exchange between two
      amounts improves need not be worth the most: here one unit of the two on
      the worse branch pool is to go to the better one, and the other one back
      to the direct pool. */
  lemma ExchangesAreNotEnough() returns (a: seq<nat>, better: seq<nat>)
    ensures ConcaveFlow(CAPPED) && IsSplit(a, 3, 2) && IsSplit(better, 3, 2)
    ensures FlowOptimal(CAPPED, a) && Value(CAPPED, a) < Value(CAPPED, better)
  {
    a, better := [0, 2, 0], [1, 0, 1];
    SumAppend([0], [2, 0]);
    SumAppend([1], [0, 1]);
    SumOfTwo([2, 0]);
    SumOfTwo([0, 1]);
    assert a == [0] + [2, 0] && better == [1] + [0, 1];
    CappedIsOptimal(a);
    CappedValue(a);
    CappedValue(better);
  }
}
