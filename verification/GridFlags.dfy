/** What the flags of a grid result mean, and where they say too much. */
module GridFlags {
  import opened Common
  import opened Allocations
  import opened Concavity
  import opened Ranking
  import opened Flows
  import opened SplitSolver
  import opened GridSplit
  import opened GridFamily
  import opened TwoStageSplit
  import opened GridTwoStage
  import Text

  /** Direct pools only. */
  function DirectOnlyFlow(direct: seq<Curve>): Objective { TwoStage(direct, [], []) }

  /** Without a first stage there is one way to share the units. */
  lemma DirectBase(direct: seq<Curve>, total: nat, divisions: nat, base: GridFlow, flow: GridFlow)
    requires GridOutcome(DirectOnlyFlow(direct), total, divisions, base, flow)
    ensures var e := EffectiveDivisions(total, divisions);
            && BestOnGrid(direct, UnitGrid(total / e), e, base.direct)
            && base.first.allocation == [] && base.first.value == 0
            && base.output == base.direct.value
  {
    var e := EffectiveDivisions(total, divisions);
    var u :| 0 <= u < e + 1 && FlowAt(DirectOnlyFlow(direct), total / e, e, divisions, u, base);
    FlowAtPlaces(DirectOnlyFlow(direct), total / e, e, divisions, u, base);
    EmptyFamilyYieldsNothing([], UnitGrid(total / e), u, base.first);
    OnGridShape([], UnitGrid(total / e), u, base.first);
    NothingInNothingOut([], base.second.allocation);
    assert u == 0 by { UnitsOfNothing(UnitGrid(total / e), u, base.first); }
  }

  lemma UnitsOfNothing(g: Grid, u: nat, p: Candidate)
    requires OnGrid([], g, u, p)
    ensures u == 0
  {
    var units: seq<nat> :| IsSplit(units, 0, u) && p == PlanAt([], g, units);
  }

  /** An input no larger than the grid is searched unit by unit: the flag
      GloballyVerified is then right for every family of direct pools. */
  lemma SmallInputIsGlobal(direct: seq<Curve>, total: nat, divisions: nat, base: GridFlow, flow: GridFlow)
    requires GridOutcome(DirectOnlyFlow(direct), total, divisions, base, flow) && total <= divisions
    ensures total / EffectiveDivisions(total, divisions) == 1 && UpperBound(direct, total, flow.output)
    ensures Sum(flow.direct.allocation) == total
  {
    assert EffectiveDivisions(total, divisions) == total && total / total == 1 && total % total == 0;
    DirectBase(direct, total, divisions, base, flow);
    UnitGridIsExhaustive(direct, total, base.direct);
    forall a: seq<nat> | IsSplit(a, |direct|, total) ensures Output(direct, a) <= flow.output {
      assert !Beats(Candidate(a, Output(direct, a)), base.direct);
    }
  }

  // ---------- two stages ----------

  /** The second stage is solved over all its splits: few curves, or no more to
      spend than the grid has quanta. */
  predicate FullySplit(second: seq<Curve>, divisions: nat, amount: nat) { |second| <= 2 || amount <= divisions }

  /** Every amount the search hands to the second stage is solved so. */
  ghost predicate ReachedFullySplit(o: Objective, total: nat, divisions: nat)
    requires o.TwoStage?
  {
    forall u, flow {:trigger FlowAt(o, 1, total, divisions, u, flow)} ::
      FlowAt(o, 1, total, divisions, u, flow) ==> FullySplit(o.second, divisions, flow.intermediate)
  }

  /** Two curves: with a quantum of one, each split is on one of the two grids. */
  lemma TwoCurvesCovered(second: seq<Curve>, divisions: nat, rest: nat, p: Candidate, s: seq<nat>)
    requires |second| == 2 && 0 < rest < divisions && FamilyBest(second, 1, rest, divisions, p) && IsSplit(s, 2, divisions + rest)
    ensures Output(second, s) <= p.value
  {
    SumOfTwo(s);
    var r := if s[0] >= rest then 0 else 1;
    var u: seq<nat> := if r == 0 then [s[0] - rest, s[1]] else [s[0], s[1] - rest];
    SumOfTwo(u);
    assert Recipient(rest, 2, r) && CoversGrid(second, Grid(1, rest, r), divisions, p);
    assert NotBeatenBy(second, Grid(1, rest, r), u, p);
    assert Amounts(Grid(1, rest, r), u) == s;
  }

  /** An exact second-stage solve over so few curves or units is a maximum. */
  lemma ExactIsMaximum(second: seq<Curve>, divisions: nat, amount: nat, p: Candidate)
    requires divisions >= 2 && |second| > 0 && SecondSolve(second, divisions, amount, p)
    requires Exact(divisions, amount) && FullySplit(second, divisions, amount)
    ensures UpperBound(second, amount, p.value)
  {
    forall s: seq<nat> | IsSplit(s, |second|, amount) ensures Output(second, s) <= p.value {
      if amount == 0 {
        NothingInNothingOut(second, s);
      } else if amount <= divisions {
        QuotientOfItself(amount);
        assert Recipient(0, |second|, -1) && CoversGrid(second, Grid(1, 0, -1), amount, p);
        assert NotBeatenBy(second, Grid(1, 0, -1), s, p);
        assert Amounts(Grid(1, 0, -1), s) == s;
      } else if |second| == 1 {
        OnePoolSolve(second, divisions, amount, p);
        assert Sum(s) == Sum(s[..0]) + s[0];
        assert Output(second, s) == Output(second[..0], s[..0]) + At(second[0], s[0]);
      } else {
        DivisionRule(amount, divisions);
        if amount == divisions + amount % divisions && amount % divisions > 0 {
          TwoCurvesCovered(second, divisions, amount % divisions, p, s);
        }
      }
    }
  }

  lemma QuotientOfItself(n: nat)
    requires n > 0
    ensures n / n == 1 && n % n == 0
  {
  }

  /** Spending more, some split gives at least as much. */
  lemma SpendMore(second: seq<Curve>, s: seq<nat>, amount: nat) returns (more: seq<nat>)
    requires |s| == |second| > 0 && Sum(s) <= amount && AllNondecreasing(second)
    ensures IsSplit(more, |second|, amount) && Output(second, s) <= Output(second, more)
  {
    more := s[0 := s[0] + amount - Sum(s)];
    SumChanged(s, more, 0);
    OutputChanged(second, s, more, 0);
    assert Nondecreasing(second[0]);
  }

  /** What the flow of some share gives is at least what a split with that share
      gives, however its intermediate amount is spent. */
  lemma ShareDominates(o: Objective, total: nat, divisions: nat, u: nat, flow: GridFlow, a: seq<nat>, s: seq<nat>)
    requires FlowAt(o, 1, total, divisions, u, flow) && divisions >= 2 && (|o.first| == 0 <==> |o.second| == 0)
    requires Exact(divisions, flow.intermediate) && FullySplit(o.second, divisions, flow.intermediate) && AllNondecreasing(o.second)
    requires IsSplit(a, Arity(o), total) && Sum(a[|o.direct|..]) == u && IsSplit(s, |o.second|, Intermediate(o, a))
    ensures DirectOutput(o, a) + Output(o.second, s) <= flow.output
  {
    var du, fu := a[..|o.direct|], a[|o.direct|..];
    assert a == du + fu;
    SumAppend(du, fu);
    assert Amounts(UnitGrid(1), du) == du && Amounts(UnitGrid(1), fu) == fu;
    assert NotBeatenBy(o.direct, UnitGrid(1), du, flow.direct);
    assert NotBeatenBy(o.first, UnitGrid(1), fu, flow.first);
    if |o.second| > 0 {
      ExactIsMaximum(o.second, divisions, flow.intermediate, flow.second);
      var more := SpendMore(o.second, s, flow.intermediate);
    }
  }

  /** For two-stage requests: an input no larger than the grid, nondecreasing
      second-stage curves, and second-stage solves over at most two curves or
      over no more than the grid. Then the flag GloballyVerified is right. */
  lemma FlagIsGlobal(o: Objective, total: nat, divisions: nat, base: GridFlow, flow: GridFlow)
    requires GridOutcome(o, total, divisions, base, flow) && o.TwoStage? && (|o.first| == 0 <==> |o.second| == 0)
    requires total <= divisions && AllExact(o, total, divisions, base)
    requires AllNondecreasing(o.second) && ReachedFullySplit(o, total, divisions)
    ensures total / EffectiveDivisions(total, divisions) == 1 && GlobalMaximum(o, total, flow.output)
  {
    QuotientOfItself(total);
    assert EffectiveDivisions(total, divisions) == total && flow == base;
    forall a: seq<nat>, s: seq<nat> | IsSplit(a, Arity(o), total) && IsSplit(s, |o.second|, Intermediate(o, a))
      ensures DirectOutput(o, a) + Output(o.second, s) <= flow.output
    {
      var du, fu := a[..|o.direct|], a[|o.direct|..];
      assert a == du + fu;
      SumAppend(du, fu);
      var u := Sum(fu);
      assert Feasible(o, total, u);
      assert Reached(o, 1, total, divisions, u);
      var other :| FlowAt(o, 1, total, divisions, u, other);
      assert !Beats(AsCandidate(other), AsCandidate(flow));
      ShareDominates(o, total, divisions, u, other, a, s);
    }
  }

  /** The same of what the optimizer reports. */
  lemma ReportedFlagIsGlobal(request: GridRequest, base: GridFlow, r: GridResult)
    requires GridWellPosed(request) && request.totalInput <= GridDivisions(request) && AllNondecreasing(GridSorted(request).second)
    requires GridReported(GridSorted(request), request.totalInput, GridDivisions(request), base, r) && r.globallyVerified
    requires |request.second| <= 2 || ReachedFullySplit(GridSorted(request), request.totalInput, GridDivisions(request))
    ensures GlobalMaximum(GridSorted(request), request.totalInput, r.totalOutput)
  {
    var o, total, divisions := GridSorted(request), request.totalInput, GridDivisions(request);
    var flow :| GridOutcome(o, total, divisions, base, flow) && Writes(flow, r);
    SortCurvesKeeps(request.first);
    SortCurvesKeeps(request.second);
    FlagIsGlobal(o, total, divisions, base, flow);
  }

  // ---------- each condition is needed ----------

  /** Everything that is spent up to a cap. */
  function Capped(id: string, cap: nat): Curve { Curve(id, (x: nat) => if x < cap then x else cap) }

  /** A fixed intermediate amount for any input, and three capped pools. */
  function ThreePools(k: nat): Objective {
    TwoStage([], [Curve("fixed", (x: nat) => 3 * k)], [Capped("p", k), Capped("q", k), Capped("s", k)])
  }

  lemma ThreeOutputs(curves: seq<Curve>, a: seq<nat>)
    requires |curves| == 3 == |a|
    ensures Output(curves, a) == At(curves[0], a[0]) + At(curves[1], a[1]) + At(curves[2], a[2])
    ensures Sum(a) == a[0] + a[1] + a[2]
  {
    assert a[..2][..1] == a[..1] && curves[..2][..1] == curves[..1];
    OutputOfTwo(curves[..2], a[..2]);
    SumOfTwo(a[..2]);
  }

  function Cap(x: nat, cap: nat): nat { if x < cap then x else cap }

  /** Whoever gets the remainder gets more than it can use. */
  lemma OneIsWasteful(k: nat, x: nat, y: nat, z: nat, r: int)
    requires x + y + z == 3 * k && 0 <= r < 3 && k < (if r == 0 then x else if r == 1 then y else z)
    ensures Cap(x, k) + Cap(y, k) + Cap(z, k) < 3 * k
  {
  }

  lemma CapAt(k: nat, i: nat, x: nat)
    requires i < 3
    ensures At(ThreePools(k).second[i], x) == Cap(x, k)
  {
  }

  lemma ThreePoolsWaste(k: nat, p: Candidate)
    requires k >= 3 && FamilyBest(ThreePools(k).second, 1, k + 1, 2 * k - 1, p)
    ensures p.value < 3 * k
  {
    var second, a := ThreePools(k).second, p.allocation;
    FamilyGridShape(second, 1, k + 1, 2 * k - 1, p);
    ThreeOutputs(second, a);
    var r :| Recipient(k + 1, 3, r) && OnGrid(second, Grid(1, k + 1, r), 2 * k - 1, p);
    RecipientHas(second, Grid(1, k + 1, r), 2 * k - 1, p);
    CapAt(k, 0, a[0]);
    CapAt(k, 1, a[1]);
    CapAt(k, 2, a[2]);
    OneIsWasteful(k, a[0], a[1], a[2], r);
  }

  lemma RecipientHas(curves: seq<Curve>, g: Grid, total: nat, p: Candidate)
    requires OnGrid(curves, g, total, p) && 0 <= g.recipient < |curves|
    ensures |p.allocation| == |curves| && p.allocation[g.recipient] >= g.remainder
  {
    var u: seq<nat> :| IsSplit(u, |curves|, total) && p == PlanAt(curves, g, u);
    assert p.allocation[g.recipient] == GridAmount(g, g.recipient, u[g.recipient]);
  }

  /** The only flow through the three pools. */
  lemma ThreePoolsFlow(k: nat, u: int, flow: GridFlow)
    requires k >= 3 && FlowAt(ThreePools(k), 1, 1, 2 * k - 1, u, flow)
    ensures flow.intermediate == 3 * k && Exact(2 * k - 1, 3 * k) && flow.output < 3 * k
  {
    var o := ThreePools(k);
    FlowAtPlaces(o, 1, 1, 2 * k - 1, u, flow);
    UnitsOfNothing(UnitGrid(1), 1 - u, flow.direct);
    OnGridShape(o.first, UnitGrid(1), 1, flow.first);
    var a := flow.first.allocation;
    assert Sum(a) == Sum(a[..0]) + a[0];
    assert Output(o.first, a) == Output(o.first[..0], a[..0]) + At(o.first[0], a[0]);
    QuotientOne(3 * k, 2 * k - 1);
    ThreePoolsWaste(k, flow.second);
    assert flow.direct.value == 0;
  }

  ghost predicate FlowsWithin(o: Objective, total: nat, divisions: nat, bound: nat)
    requires divisions > 0
  {
    forall u, flow {:trigger FlowAt(o, 1, total, divisions, u, flow)} ::
      FlowAt(o, 1, total, divisions, u, flow) ==> Exact(divisions, flow.intermediate) && flow.output <= bound
  }

  /** On a grid of single units, what holds of every flow holds of the outcome. */
  lemma OutcomeWithin(o: Objective, total: nat, divisions: nat, base: GridFlow, flow: GridFlow, bound: nat)
    requires GridOutcome(o, total, divisions, base, flow) && total <= divisions && FlowsWithin(o, total, divisions, bound)
    ensures AllExact(o, total, divisions, base) && flow.output <= bound
  {
    QuotientOfItself(total);
    assert EffectiveDivisions(total, divisions) == total && flow == base;
    assert SearchedBelow(o, 1, total, divisions, total + 1, Some(base));
    assert BestFlowBelow(o, 1, total, divisions, total + 1, Some(base));
    var u :| 0 <= u < total + 1 && FlowAt(o, 1, total, divisions, u, base);
  }

  lemma ThreePoolsWithin(k: nat)
    requires k >= 3
    ensures FlowsWithin(ThreePools(k), 1, 2 * k - 1, 3 * k - 1)
  {
    var o, divisions := ThreePools(k), 2 * k - 1;
    forall u, other | FlowAt(o, 1, 1, divisions, u, other)
      ensures Exact(divisions, other.intermediate) && other.output <= 3 * k - 1
    {
      ThreePoolsFlow(k, u, other);
    }
  }

  /** Three second-stage curves and more to spend than the grid: the flag is set
      although the input is one unit, every quantum is one and all pools are
      concave and nondecreasing. */
  method ThreePoolsOverstate(k: nat) returns (r: GridResult, better: seq<nat>)
    requires k >= 3
    ensures r.totalInput == 1 && r.globallyVerified && IsSplit(better, 3, 3 * k)
    ensures Output(ThreePools(k).second, better) > r.totalOutput && !GlobalMaximum(ThreePools(k), 1, r.totalOutput)
  {
    var o, divisions := ThreePools(k), 2 * k - 1;
    var base, flow, allExact := SolveGrid(o, 1, divisions);
    ThreePoolsWithin(k);
    OutcomeWithin(o, 1, divisions, base, flow, 3 * k - 1);
    r := ReportGrid(o, 1, divisions, base, flow, allExact);
    better := [k, k, k];
    ThreeOutputs(o.second, better);
    BetterThanReported(k, r.totalOutput, better);
  }

  lemma BetterThanReported(k: nat, out: nat, better: seq<nat>)
    requires k >= 3 && IsSplit(better, 3, 3 * k) && Output(ThreePools(k).second, better) > out
    ensures !GlobalMaximum(ThreePools(k), 1, out)
  {
    var o := ThreePools(k);
    var a: seq<nat> := [1];
    assert a[..0] == [] && a[0..] == a;
    assert Sum(a) == Sum(a[..0]) + a[0];
    assert Output(o.first, a) == Output(o.first[..0], a[..0]) + At(o.first[0], a[0]);
    assert IsSplit(a, Arity(o), 1) && Intermediate(o, a) == 3 * k;
    assert DirectOutput(o, a) + Output(o.second, better) > out;
  }

  /** Two first-stage pools of which the better one feeds a falling pool. */
  function FallingPools(): Objective {
    TwoStage([], [Curve("one", (x: nat) => 1), Curve("two", (x: nat) => 2)],
             [Curve("falling", (x: nat) => if x == 1 then 5 else 3)])
  }

  lemma FallingFlow(divisions: nat, u: int, flow: GridFlow)
    requires divisions >= 2 && FlowAt(FallingPools(), 1, 1, divisions, u, flow)
    ensures flow.intermediate == 2 && flow.output == 3
  {
    FlowAtPlaces(FallingPools(), 1, 1, divisions, u, flow);
    UnitsOfNothing(UnitGrid(1), 1 - u, flow.direct);
    var a, b: seq<nat> := flow.first.allocation, [0, 1];
    OnGridShape(FallingPools().first, UnitGrid(1), 1, flow.first);
    SumOfTwo(a);
    SumOfTwo(b);
    OutputOfTwo(FallingPools().first, a);
    OutputOfTwo(FallingPools().first, b);
    assert Amounts(UnitGrid(1), b) == b;
    assert NotBeatenBy(FallingPools().first, UnitGrid(1), b, flow.first);
    OnePoolSolve(FallingPools().second, divisions, 2, flow.second);
  }

  /** A second-stage curve that falls: the flag is set for less than the maximum. */
  method FallingOverstates(divisions: nat) returns (r: GridResult)
    requires divisions >= 2
    ensures r.totalInput == 1 && r.globallyVerified && !GlobalMaximum(FallingPools(), 1, r.totalOutput)
  {
    var o := FallingPools();
    FallingWithin(o, divisions);
    var base, flow, allExact := SolveGrid(o, 1, divisions);
    OutcomeWithin(o, 1, divisions, base, flow, 3);
    r := ReportGrid(o, 1, divisions, base, flow, allExact);
    FallingIsBeaten(r.totalOutput);
  }

  lemma FallingWithin(o: Objective, divisions: nat)
    requires o == FallingPools() && divisions >= 2
    ensures FlowsWithin(o, 1, divisions, 3)
  {
    forall u, other | FlowAt(o, 1, 1, divisions, u, other) ensures Exact(divisions, other.intermediate) && other.output <= 3 {
      FallingFlow(divisions, u, other);
    }
  }

  lemma FallingIsBeaten(out: nat)
    requires out <= 3
    ensures !GlobalMaximum(FallingPools(), 1, out)
  {
    var a: seq<nat>, s: seq<nat> := [1, 0], [1];
    assert a[..0] == [] && a[0..] == a;
    SumOfTwo(a);
    OutputOfTwo(FallingPools().first, a);
    assert Sum(s) == Sum(s[..0]) + s[0];
    assert Output(FallingPools().second, s) == Output(FallingPools().second[..0], s[..0]) + At(FallingPools().second[0], s[0]);
    assert IsSplit(a, Arity(FallingPools()), 1) && IsSplit(s, 1, Intermediate(FallingPools(), a));
    assert DirectOutput(FallingPools(), a) + Output(FallingPools().second, s) > out;
  }

  // ---------- an input between one and two grids ----------

  /** Nothing until the whole input arrives, then one more than everything. */
  function Spike(total: nat): Curve { Curve("spike", (x: nat) => if x >= total then total + 1 else 0) }

  /** One out for one in. */
  const STRAIGHT: Curve := Curve("straight", (x: nat) => x)

  lemma SpikeBase(total: nat, divisions: nat, p: Candidate)
    requires 2 <= divisions < total && BestOnGrid([Spike(total), STRAIGHT], UnitGrid(1), divisions, p)
    ensures p.allocation == [0, divisions] && p.value == divisions
  {
    var curves := [Spike(total), STRAIGHT];
    UnitGridIsExhaustive(curves, divisions, p);
    var a := p.allocation;
    SumOfTwo(a);
    OutputOfTwo(curves, a);
    var b: seq<nat> := [0, divisions];
    SumOfTwo(b);
    OutputOfTwo(curves, b);
    assert !Beats(Candidate(b, Output(curves, b)), p);
  }

  /** Between one and two grids the quantum is 1, but the flow that the
      remainder joins is fixed before it: the true maximum is missed. */
  lemma SpikeIsMissed(total: nat, divisions: nat, base: GridFlow, flow: GridFlow)
    requires 2 <= divisions < total < 2 * divisions
    requires GridOutcome(DirectOnlyFlow([Spike(total), STRAIGHT]), total, divisions, base, flow)
    ensures total / EffectiveDivisions(total, divisions) == 1
    ensures flow.output <= total
  {
    var curves := [Spike(total), STRAIGHT];
    var o := DirectOnlyFlow(curves);
    QuotientOne(total, divisions);
    DirectBase(curves, total, divisions, base, flow);
    SpikeBase(total, divisions, base.direct);
    if flow != base {
      var rest := total - divisions;
      var i :| i < 2 && RemainderFlow(o, divisions, base, rest, i, flow);
      OutputOfTwo(curves, flow.direct.allocation);
      NothingInNothingOut([], flow.second.allocation);
    }
  }

  lemma QuotientOne(total: nat, divisions: nat)
    requires 1 <= divisions < total < 2 * divisions
    ensures total / divisions == 1 && total % divisions == total - divisions
  {
    DivisionRule(total, divisions);
    var q := total / divisions;
    assert divisions * q == divisions * (q - 1) + divisions;
    if q > 1 { MultipleAtLeast(divisions, q - 1); }
  }

  /** So for every input between one and two grids there are pools on which the
      optimizer reports GloballyVerified for less than the maximum. */
  method VerifiedFlagOverstates(total: nat, divisions: nat) returns (r: GridResult, better: seq<nat>)
    requires 2 <= divisions < total < 2 * divisions
    ensures r.globallyVerified
    ensures IsSplit(better, 2, total) && Output([Spike(total), STRAIGHT], better) > r.totalOutput
  {
    var o := DirectOnlyFlow([Spike(total), STRAIGHT]);
    var base, flow, allExact := SolveGrid(o, total, divisions);
    r := ReportGrid(o, total, divisions, base, flow, allExact);
    SpikeIsMissed(total, divisions, base, flow);
    better := [total, 0];
    SumOfTwo(better);
    OutputOfTwo([Spike(total), STRAIGHT], better);
  }

  // ---------- the same on concave pools ----------

  /** Two for one up to one grid, then one more unit at most. */
  function Steep(divisions: nat): Curve { Curve("steep", (x: nat) => if x <= divisions then 2 * x else 2 * divisions + 1) }

  /** One unit at most. */
  const SMALL: Curve := Curve("small", (x: nat) => 1)

  function ConcavePools(divisions: nat): seq<Curve> { [Steep(divisions), SMALL] }

  lemma PoolsAreConcave(divisions: nat)
    requires divisions >= 1
    ensures AllConcave(ConcavePools(divisions)) && AllNondecreasing(ConcavePools(divisions))
  {
  }

  lemma ConcaveBase(divisions: nat, p: Candidate)
    requires divisions >= 2 && BestOnGrid(ConcavePools(divisions), UnitGrid(1), divisions, p)
    ensures p.allocation == [divisions, 0] && p.value == 2 * divisions
  {
    var curves := ConcavePools(divisions);
    UnitGridIsExhaustive(curves, divisions, p);
    var a := p.allocation;
    SumOfTwo(a);
    OutputOfTwo(curves, a);
    var b: seq<nat> := [divisions, 0];
    SumOfTwo(b);
    OutputOfTwo(curves, b);
    assert !Beats(Candidate(b, Output(curves, b)), p);
  }

  /** A remainder of two units or more goes to one pool, but belongs to both. */
  lemma ConcaveIsMissed(total: nat, divisions: nat, base: GridFlow, flow: GridFlow)
    requires 2 <= divisions && divisions + 2 <= total < 2 * divisions
    requires GridOutcome(DirectOnlyFlow(ConcavePools(divisions)), total, divisions, base, flow)
    ensures total / EffectiveDivisions(total, divisions) == 1
    ensures flow.output <= 2 * divisions + 1
  {
    var curves := ConcavePools(divisions);
    var o := DirectOnlyFlow(curves);
    QuotientOne(total, divisions);
    DirectBase(curves, total, divisions, base, flow);
    ConcaveBase(divisions, base.direct);
    if flow != base {
      var rest := total - divisions;
      var i :| i < 2 && RemainderFlow(o, divisions, base, rest, i, flow);
      OutputOfTwo(curves, flow.direct.allocation);
      NothingInNothingOut([], flow.second.allocation);
    }
  }

  /** So concave, nondecreasing pools do not save the flag either. */
  method ConcaveFlagOverstates(total: nat, divisions: nat) returns (r: GridResult, better: seq<nat>)
    requires 2 <= divisions && divisions + 2 <= total < 2 * divisions
    ensures AllConcave(ConcavePools(divisions)) && AllNondecreasing(ConcavePools(divisions))
    ensures r.globallyVerified && IsSplit(better, 2, total) && Output(ConcavePools(divisions), better) > r.totalOutput
  {
    PoolsAreConcave(divisions);
    var curves := ConcavePools(divisions);
    var o := DirectOnlyFlow(curves);
    var base, flow, allExact := SolveGrid(o, total, divisions);
    r := ReportGrid(o, total, divisions, base, flow, allExact);
    ConcaveIsMissed(total, divisions, base, flow);
    better := [divisions + 1, total - divisions - 1];
    SumOfTwo(better);
    OutputOfTwo(curves, better);
  }

  /** One unit over the grid does belong to one pool: concave direct pools then
      keep the flag right, for a remainder of one. */
  lemma OneUnitOverIsGlobal(direct: seq<Curve>, divisions: nat, base: GridFlow, flow: GridFlow)
    requires divisions >= 2 && AllConcave(direct)
    requires GridOutcome(DirectOnlyFlow(direct), divisions + 1, divisions, base, flow)
    ensures (divisions + 1) / EffectiveDivisions(divisions + 1, divisions) == 1
    ensures UpperBound(direct, divisions + 1, flow.output)
  {
    QuotientOne(divisions + 1, divisions);
    DirectBase(direct, divisions + 1, divisions, base, flow);
    UnitGridIsExhaustive(direct, divisions, base.direct);
    var a := base.direct.allocation;
    forall b: seq<nat> | IsSplit(b, |direct|, divisions + 1) ensures Output(direct, b) <= flow.output {
      var i := FindDifference(b, a);
      OneLess(direct, a, b, i, divisions);
      UnitOffered(direct, divisions, base, flow, i);
    }
  }

  /** A split of one unit more gives at most what a best split does with one more
      unit where the two differ. */
  lemma OneLess(direct: seq<Curve>, a: seq<nat>, b: seq<nat>, i: nat, total: nat)
    requires AllConcave(direct) && |a| == |direct| && LeastBest(direct, total, Candidate(a, Output(direct, a)))
    requires IsSplit(b, |direct|, total + 1) && i < |b| && a[i] < b[i]
    ensures Output(direct, b) <= Output(direct, a[i := a[i] + 1])
  {
    var c, more := b[i := b[i] - 1], a[i := a[i] + 1];
    SumChanged(b, c, i);
    OutputChanged(direct, b, c, i);
    OutputChanged(direct, a, more, i);
    assert !Beats(Candidate(c, Output(direct, c)), Candidate(a, Output(direct, a)));
    assert Concave(direct[i]) && Marginal(direct[i], b[i] - 1) <= Marginal(direct[i], a[i]);
  }

  /** The unit was offered to that pool. */
  lemma UnitOffered(direct: seq<Curve>, divisions: nat, base: GridFlow, flow: GridFlow, i: nat)
    requires divisions >= 2 && GridOutcome(DirectOnlyFlow(direct), divisions + 1, divisions, base, flow)
    requires Shaped(DirectOnlyFlow(direct), base) && i < |direct| && base.first.value == 0
    ensures Output(direct, base.direct.allocation[i := base.direct.allocation[i] + 1]) <= flow.output
  {
    var o := DirectOnlyFlow(direct);
    QuotientOne(divisions + 1, divisions);
    var u :| 0 <= u < divisions + 1 && FlowAt(o, 1, divisions, divisions, u, base);
    var more := TopUp(direct, base.direct, i, 1);
    var offered := base.(direct := more, output := more.value + base.second.value);
    assert RemainderFlow(o, divisions, base, 1, i, offered);
    assert !Beats(AsCandidate(offered), AsCandidate(flow));
  }

  // ---------- the rest of the input can be lost ----------

  /** Any input gives one unit out. */
  const FLAT: Curve := Curve("flat", (x: nat) => 1)

  lemma FlatBase(p: Candidate)
    requires BestOnGrid([FLAT], UnitGrid(1), 2, p)
    ensures p.allocation == [2] && p.value == 1
  {
    UnitGridIsExhaustive([FLAT], 2, p);
    var a := p.allocation;
    assert Sum(a) == Sum(a[..0]) + a[0];
    assert Output([FLAT], a) == Output([FLAT][..0], a[..0]) + At(FLAT, a[0]);
  }

  lemma ThreeIsNotBeforeTwo()
    ensures !Text.Less(Text.AllocationKey([3] + []), Text.AllocationKey([2] + []))
  {
    assert [3] + [] == [3] && [2] + [] == [2];
    assert Text.Decimal(3) == [Text.DigitChar(3)] && Text.Decimal(2) == [Text.DigitChar(2)];
  }

  /** Three units on the flat pool do not beat two. */
  lemma FlatDoesNotPay(base: GridFlow, i: int, flow: GridFlow)
    requires Shaped(DirectOnlyFlow([FLAT]), base) && RemainderFlow(DirectOnlyFlow([FLAT]), 2, base, 1, i, flow)
    requires base.direct == Candidate([2], 1) && base.first.allocation == [] && base.output == 1
    ensures !Beats(AsCandidate(flow), AsCandidate(base))
  {
    var a := flow.direct.allocation;
    assert a == [3];
    assert Output([FLAT], a) == Output([FLAT][..0], a[..0]) + At(FLAT, a[0]);
    NothingInNothingOut([], flow.second.allocation);
    ThreeIsNotBeforeTwo();
  }

  lemma FlatLoses(base: GridFlow, flow: GridFlow)
    requires GridOutcome(DirectOnlyFlow([FLAT]), 3, 2, base, flow)
    ensures Placed(flow) == 2
  {
    var o := DirectOnlyFlow([FLAT]);
    DirectBase([FLAT], 3, 2, base, flow);
    FlatBase(base.direct);
    forall i, other | RemainderFlow(o, 2, base, 1, i, other) ensures !Beats(AsCandidate(other), AsCandidate(base)) {
      FlatDoesNotPay(base, i, other);
    }
    OutcomeShape(o, 3, 2, base, flow);
  }

  /** On a nondecreasing pool the optimizer can leave input unplaced: three
      units on a grid of two, of which it places two. */
  method RemainderCanBeLost() returns (r: GridResult)
    ensures r.totalInput == 3 && !r.gridVerified && Sum(Ins(r.direct)) + Sum(Ins(r.first)) == 2
  {
    var o := DirectOnlyFlow([FLAT]);
    var base, flow, allExact := SolveGrid(o, 3, 2);
    r := ReportGrid(o, 3, 2, base, flow, allExact);
    FlatLoses(base, flow);
  }
}
