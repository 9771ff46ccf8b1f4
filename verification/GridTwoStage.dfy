/** The grid optimizer for the two-stage flow. */
module GridTwoStage {
  import opened Common
  import opened Allocations
  import opened Ranking
  import opened Flows
  import opened GridSplit
  import opened GridFamily
  import opened TwoStageSplit

  datatype GridRequest = GridRequest(
    totalInput: int, direct: seq<Curve>, first: seq<Curve>, second: seq<Curve>, divisions: int)

  /** One way through the graph: what each family is given and what it yields. */
  datatype GridFlow = GridFlow(direct: Candidate, first: Candidate, second: Candidate, intermediate: nat, output: nat)

  datatype GridResult = GridResult(
    direct: seq<SplitAllocation>, first: seq<SplitAllocation>, second: seq<SplitAllocation>,
    totalInput: nat, intermediateOut: nat, totalOutput: nat, inputResolution: nat, gridDivisions: nat,
    gridVerified: bool, globallyVerified: bool)

  function EffectiveDivisions(total: nat, requested: nat): nat {
    if total < requested then total else requested
  }

  /** The grid for this amount has single units for quanta. */
  predicate Exact(divisions: nat, amount: nat)
    requires divisions > 0
  {
    amount == 0 || amount / EffectiveDivisions(amount, divisions) == 1
  }

  /** The second-stage solve for one intermediate amount, as a relation. */
  ghost predicate SecondSolve(second: seq<Curve>, divisions: nat, amount: nat, p: Candidate) {
    if amount == 0 || divisions == 0 then p == Candidate(Zeros(|second|), 0)
    else
      var e := EffectiveDivisions(amount, divisions);
      FamilyBest(second, amount / e, amount % e, e, p)
  }

  lemma SecondSolveUnique(second: seq<Curve>, divisions: nat, amount: nat, p: Candidate, q: Candidate)
    requires SecondSolve(second, divisions, amount, p) && SecondSolve(second, divisions, amount, q)
    ensures p == q
  {
    if amount > 0 && divisions > 0 {
      var e := EffectiveDivisions(amount, divisions);
      FamilyBestUnique(second, amount / e, amount % e, e, p, q);
    }
  }

  /** The grid optimum does not fall when there is more to spend. */
  ghost predicate SecondMonotone(second: seq<Curve>, divisions: nat) {
    forall m: nat, n: nat, p: Candidate, q: Candidate
      {:trigger SecondSolve(second, divisions, m, p), SecondSolve(second, divisions, n, q)} ::
      m <= n && SecondSolve(second, divisions, m, p) && SecondSolve(second, divisions, n, q) ==> p.value <= q.value
  }

  /** One nondecreasing pool is always monotone on the grid. */
  lemma OnePoolMonotone(second: seq<Curve>, divisions: nat)
    requires |second| == 1 && Nondecreasing(second[0])
    ensures SecondMonotone(second, divisions)
  {
    forall m: nat, n: nat, p: Candidate, q: Candidate
      | m <= n && SecondSolve(second, divisions, m, p) && SecondSolve(second, divisions, n, q)
      ensures p.value <= q.value
    {
      OnePoolSolve(second, divisions, m, p);
      OnePoolSolve(second, divisions, n, q);
    }
  }

  lemma OnePoolSolve(second: seq<Curve>, divisions: nat, m: nat, p: Candidate)
    requires |second| == 1 && SecondSolve(second, divisions, m, p)
    ensures p.value == if divisions == 0 then 0 else At(second[0], m)
  {
    if m > 0 && divisions > 0 {
      var e := EffectiveDivisions(m, divisions);
      DivisionRule(m, e);
      FamilyGridShape(second, m / e, m % e, e, p);
      assert Sum(p.allocation) == Sum(p.allocation[..0]) + p.allocation[0];
      assert Output(second, p.allocation) == Output(second[..0], p.allocation[..0]) + At(second[0], p.allocation[0]);
    }
  }

  /** Solve a family for an exact amount. exact tells that the quantum is 1. */
  method GridFamilyBest(total: nat, divisions: nat, curves: seq<Curve>) returns (r: Option<Candidate>, exact: bool)
    requires divisions >= 2
    ensures r.None? <==> total > 0 && |curves| == 0
    ensures r.Some? ==> SecondSolve(curves, divisions, total, r.value)
    ensures r.Some? ==> IsSplit(r.value.allocation, |curves|, total) && r.value.value == Output(curves, r.value.allocation)
    ensures r.Some? ==> exact == Exact(divisions, total)
  {
    if total == 0 {
      SumZeros(|curves|);
      OutputZeros(curves, Zeros(|curves|));
      return Some(Candidate(Zeros(|curves|), 0)), true;
    }
    var effective := EffectiveDivisions(total, divisions);
    var quantum, remainder := total / effective, total % effective;
    DivisionRule(total, effective);
    r := GridFamilyBestWithRemainder(quantum, remainder, effective, curves);
    if r.Some? { FamilyGridShape(curves, quantum, remainder, effective, r.value); }
    exact := quantum == 1;
  }

  // ---------- one flow ----------

  /** flow is d and f followed by the second-stage solve. */
  ghost predicate FlowFrom(o: Objective, divisions: nat, d: Candidate, f: Candidate, flow: GridFlow) {
    && o.TwoStage? && flow.direct == d && flow.first == f && flow.intermediate == f.value
    && SecondSolve(o.second, divisions, f.value, flow.second)
    && IsSplit(flow.second.allocation, |o.second|, f.value)
    && flow.second.value == Output(o.second, flow.second.allocation)
    && flow.output == d.value + flow.second.value
  }

  method EvaluateGridFlow(o: Objective, divisions: nat, d: Candidate, f: Candidate) returns (flow: GridFlow, exact: bool)
    requires o.TwoStage? && divisions >= 2 && (f.value > 0 ==> |o.second| > 0)
    ensures FlowFrom(o, divisions, d, f, flow) && exact == Exact(divisions, flow.intermediate)
  {
    var second: Option<Candidate>;
    second, exact := GridFamilyBest(f.value, divisions, o.second);
    flow := GridFlow(d, f, second.value, f.value, d.value + second.value.value);
  }

  /** A flow as a candidate: its input allocation and its output. */
  function AsCandidate(flow: GridFlow): Candidate {
    Candidate(flow.direct.allocation + flow.first.allocation, flow.output)
  }

  function UnitGrid(quantum: nat): Grid { Grid(quantum, 0, -1) }

  /** The flow that gives firstUnits quanta to the first stage. */
  ghost predicate FlowAt(o: Objective, quantum: nat, effective: nat, divisions: nat, firstUnits: int, flow: GridFlow) {
    && 0 <= firstUnits <= effective && o.TwoStage?
    && BestOnGrid(o.direct, UnitGrid(quantum), effective - firstUnits, flow.direct)
    && BestOnGrid(o.first, UnitGrid(quantum), firstUnits, flow.first)
    && FlowFrom(o, divisions, flow.direct, flow.first, flow)
  }

  lemma FlowAtUnique(o: Objective, quantum: nat, effective: nat, divisions: nat, firstUnits: int, x: GridFlow, y: GridFlow)
    requires FlowAt(o, quantum, effective, divisions, firstUnits, x)
    requires FlowAt(o, quantum, effective, divisions, firstUnits, y)
    ensures x == y
  {
    BestOnGridUnique(o.direct, UnitGrid(quantum), effective - firstUnits, x.direct, y.direct);
    BestOnGridUnique(o.first, UnitGrid(quantum), firstUnits, x.first, y.first);
    SecondSolveUnique(o.second, divisions, x.first.value, x.second, y.second);
  }

  /** The direct and first-stage units of one grid split of the input. */
  ghost predicate GridSplitOf(o: Objective, effective: nat, firstUnits: int, du: seq<nat>, fu: seq<nat>) {
    && 0 <= firstUnits <= effective && o.TwoStage?
    && IsSplit(du, |o.direct|, effective - firstUnits) && IsSplit(fu, |o.first|, firstUnits)
  }

  /** Output of a grid split followed by the second-stage grid solve p. */
  ghost function SplitOutput(o: Objective, quantum: nat, du: seq<nat>, p: Candidate): nat
    requires o.TwoStage? && |du| == |o.direct|
  {
    Output(o.direct, Amounts(UnitGrid(quantum), du)) + p.value
  }

  /** No grid split that gives firstUnits to the first stage yields more. */
  ghost predicate CoversUnits(o: Objective, quantum: nat, effective: nat, divisions: nat, firstUnits: int, out: nat) {
    forall du: seq<nat>, fu: seq<nat>, p: Candidate
      {:trigger GridSplitOf(o, effective, firstUnits, du, fu), SplitOutput(o, quantum, du, p)} ::
      GridSplitOf(o, effective, firstUnits, du, fu) &&
      SecondSolve(o.second, divisions, Output(o.first, Amounts(UnitGrid(quantum), fu)), p)
      ==> SplitOutput(o, quantum, du, p) <= out
  }

  /** The best plans of the families dominate every split of the same units. */
  lemma FlowCovers(o: Objective, quantum: nat, effective: nat, divisions: nat, firstUnits: int, flow: GridFlow, out: nat)
    requires FlowAt(o, quantum, effective, divisions, firstUnits, flow) && flow.output <= out
    requires SecondMonotone(o.second, divisions)
    ensures CoversUnits(o, quantum, effective, divisions, firstUnits, out)
  {
    var g := UnitGrid(quantum);
    forall du: seq<nat>, fu: seq<nat>, p: Candidate
      | GridSplitOf(o, effective, firstUnits, du, fu) && SecondSolve(o.second, divisions, Output(o.first, Amounts(g, fu)), p)
      ensures SplitOutput(o, quantum, du, p) <= out
    {
      assert NotBeatenBy(o.direct, g, du, flow.direct);
      assert NotBeatenBy(o.first, g, fu, flow.first);
      assert Output(o.first, Amounts(g, fu)) <= flow.first.value;
    }
  }

  // ---------- the search over first-stage units ----------

  /** best is the best flow with fewer than bound first-stage units. */
  ghost predicate BestFlowBelow(o: Objective, quantum: nat, effective: nat, divisions: nat, bound: int, best: Option<GridFlow>) {
    && (best.Some? ==> exists u :: 0 <= u < bound && FlowAt(o, quantum, effective, divisions, u, best.value))
    && forall u, flow {:trigger FlowAt(o, quantum, effective, divisions, u, flow)} ::
         u < bound && FlowAt(o, quantum, effective, divisions, u, flow)
         ==> best.Some? && !Beats(AsCandidate(flow), AsCandidate(best.value))
  }

  function BestOutput(best: Option<GridFlow>): nat { if best.Some? then best.value.output else 0 }

  ghost predicate CoversBelow(o: Objective, quantum: nat, effective: nat, divisions: nat, bound: int, out: nat) {
    forall u {:trigger CoversUnits(o, quantum, effective, divisions, u, out)} ::
      0 <= u < bound ==> CoversUnits(o, quantum, effective, divisions, u, out)
  }

  lemma BestFlowNext(o: Objective, quantum: nat, effective: nat, divisions: nat, u: nat,
                     before: Option<GridFlow>, flow: GridFlow, after: GridFlow)
    requires BestFlowBelow(o, quantum, effective, divisions, u, before) && FlowAt(o, quantum, effective, divisions, u, flow)
    requires after == if before.None? || Beats(AsCandidate(flow), AsCandidate(before.value)) then flow else before.value
    ensures BestFlowBelow(o, quantum, effective, divisions, u + 1, Some(after))
  {
    if before.Some? { KeepsBetter(AsCandidate(before.value), AsCandidate(flow), AsCandidate(after)); } else { BeatsIrreflexive(AsCandidate(flow)); }
    if before == Some(after) {
      var v :| 0 <= v < u && FlowAt(o, quantum, effective, divisions, v, after);
      assert 0 <= v < u + 1;
    }
    forall v, other | v < u + 1 && FlowAt(o, quantum, effective, divisions, v, other)
      ensures !Beats(AsCandidate(other), AsCandidate(after))
    {
      if v == u {
        FlowAtUnique(o, quantum, effective, divisions, u, other, flow);
      } else {
        UnbeatenTransitive(AsCandidate(other), AsCandidate(before.value), AsCandidate(after));
      }
    }
  }

  lemma CoversNext(o: Objective, quantum: nat, effective: nat, divisions: nat, u: nat, before: nat, after: nat)
    requires CoversBelow(o, quantum, effective, divisions, u, before) && before <= after
    requires CoversUnits(o, quantum, effective, divisions, u, after)
    ensures CoversBelow(o, quantum, effective, divisions, u + 1, after)
  {
    forall v | 0 <= v < u + 1 ensures CoversUnits(o, quantum, effective, divisions, v, after) {
      if v < u { assert CoversUnits(o, quantum, effective, divisions, v, before); }
    }
  }

  /** An empty family takes no units. */
  lemma NoSplitOfNothing(o: Objective, quantum: nat, effective: nat, divisions: nat, u: nat, out: nat)
    requires o.TwoStage? && u <= effective
    requires (|o.direct| == 0 && u < effective) || (|o.first| == 0 && u > 0)
    ensures CoversUnits(o, quantum, effective, divisions, u, out)
    ensures forall flow :: !FlowAt(o, quantum, effective, divisions, u, flow)
  {
  }

  /** Both families can take their units. */
  predicate Feasible(o: Objective, effective: nat, u: int) {
    o.TwoStage? && (|o.direct| > 0 || u == effective) && (|o.first| > 0 || u == 0)
  }

  ghost predicate Reached(o: Objective, quantum: nat, effective: nat, divisions: nat, u: int) {
    exists flow :: FlowAt(o, quantum, effective, divisions, u, flow)
  }

  /** Every share that can be taken has its flow. */
  ghost predicate ReachedBelow(o: Objective, quantum: nat, effective: nat, divisions: nat, bound: int) {
    forall u {:trigger Reached(o, quantum, effective, divisions, u)} ::
      0 <= u < bound && Feasible(o, effective, u) ==> Reached(o, quantum, effective, divisions, u)
  }

  /** Every second-stage solve of the search was exact. */
  ghost predicate ExactBelow(o: Objective, quantum: nat, effective: nat, divisions: nat, bound: int)
    requires divisions > 0
  {
    forall u, flow {:trigger FlowAt(o, quantum, effective, divisions, u, flow)} ::
      u < bound && FlowAt(o, quantum, effective, divisions, u, flow) ==> Exact(divisions, flow.intermediate)
  }

  lemma ExactNext(o: Objective, quantum: nat, effective: nat, divisions: nat, u: nat, flow: GridFlow)
    requires divisions > 0 && FlowAt(o, quantum, effective, divisions, u, flow)
    ensures ExactBelow(o, quantum, effective, divisions, u + 1)
            <==> ExactBelow(o, quantum, effective, divisions, u) && Exact(divisions, flow.intermediate)
  {
    forall other | FlowAt(o, quantum, effective, divisions, u, other) ensures other == flow {
      FlowAtUnique(o, quantum, effective, divisions, u, other, flow);
    }
  }

  ghost predicate SearchedBelow(o: Objective, quantum: nat, effective: nat, divisions: nat, bound: int, best: Option<GridFlow>) {
    && BestFlowBelow(o, quantum, effective, divisions, bound, best)
    && ReachedBelow(o, quantum, effective, divisions, bound)
    && (o.TwoStage? && SecondMonotone(o.second, divisions) ==> CoversBelow(o, quantum, effective, divisions, bound, BestOutput(best)))
  }

  lemma SearchedNext(o: Objective, quantum: nat, effective: nat, divisions: nat, u: nat,
                     before: Option<GridFlow>, flow: GridFlow, after: GridFlow)
    requires SearchedBelow(o, quantum, effective, divisions, u, before) && FlowAt(o, quantum, effective, divisions, u, flow)
    requires after == if before.None? || Beats(AsCandidate(flow), AsCandidate(before.value)) then flow else before.value
    ensures SearchedBelow(o, quantum, effective, divisions, u + 1, Some(after))
  {
    BestFlowNext(o, quantum, effective, divisions, u, before, flow, after);
    assert Reached(o, quantum, effective, divisions, u);
    if SecondMonotone(o.second, divisions) {
      FlowCovers(o, quantum, effective, divisions, u, flow, after.output);
      CoversNext(o, quantum, effective, divisions, u, BestOutput(before), after.output);
    }
  }

  lemma SearchedSkip(o: Objective, quantum: nat, effective: nat, divisions: nat, u: nat, best: Option<GridFlow>)
    requires SearchedBelow(o, quantum, effective, divisions, u, best) && o.TwoStage? && u <= effective
    requires (|o.direct| == 0 && u < effective) || (|o.first| == 0 && u > 0)
    ensures SearchedBelow(o, quantum, effective, divisions, u + 1, best)
  {
    NoSplitOfNothing(o, quantum, effective, divisions, u, BestOutput(best));
    if SecondMonotone(o.second, divisions) { CoversNext(o, quantum, effective, divisions, u, BestOutput(best), BestOutput(best)); }
    if best.Some? {
      var v :| 0 <= v < u && FlowAt(o, quantum, effective, divisions, v, best.value);
      assert 0 <= v < u + 1;
    }
  }

  lemma SearchedStart(o: Objective, quantum: nat, effective: nat, divisions: nat)
    ensures SearchedBelow(o, quantum, effective, divisions, 0, None)
  {
  }

  /** Evaluate one share, when both families can take their units. */
  method ConsiderUnits(o: Objective, quantum: nat, effective: nat, divisions: nat, firstUnits: nat,
                       d: Option<Candidate>, f: Option<Candidate>, found: Option<GridFlow>)
    returns (found': Option<GridFlow>, exact: bool)
    requires o.TwoStage? && divisions >= 2 && firstUnits <= effective && (|o.first| == 0 <==> |o.second| == 0)
    requires CellOk(o.direct, UnitGrid(quantum), effective - firstUnits, d)
    requires CellOk(o.first, UnitGrid(quantum), firstUnits, f)
    requires SearchedBelow(o, quantum, effective, divisions, firstUnits, found)
    ensures SearchedBelow(o, quantum, effective, divisions, firstUnits + 1, found')
    ensures found.Some? || (d.Some? && f.Some?) ==> found'.Some?
    ensures ExactBelow(o, quantum, effective, divisions, firstUnits + 1)
            <==> ExactBelow(o, quantum, effective, divisions, firstUnits) && exact
  {
    found', exact := found, true;
    if d.Some? && f.Some? {
      EmptyFamilyYieldsNothing(o.first, UnitGrid(quantum), firstUnits, f.value);
      var flow: GridFlow;
      flow, exact := EvaluateGridFlow(o, divisions, d.value, f.value);
      if found.None? || Beats(AsCandidate(flow), AsCandidate(found.value)) { found' := Some(flow); }
      SearchedNext(o, quantum, effective, divisions, firstUnits, found, flow, found'.value);
      ExactNext(o, quantum, effective, divisions, firstUnits, flow);
    } else {
      NoSplitOfNothing(o, quantum, effective, divisions, firstUnits, 0);
      SearchedSkip(o, quantum, effective, divisions, firstUnits, found);
    }
  }

  /** The search below bound: the best flow found, and whether all second-stage
      solves were exact; only shares that no family can take find nothing. */
  ghost predicate Searching(o: Objective, quantum: nat, effective: nat, divisions: nat, bound: int, found: Option<GridFlow>, exact: bool)
    requires divisions > 0
  {
    match found
    case None =>
      && SearchedBelow(o, quantum, effective, divisions, bound, None) && exact == ExactBelow(o, quantum, effective, divisions, bound)
      && (bound == 0 || (o.TwoStage? && |o.direct| == 0 && bound <= effective))
    case Some(_) =>
      SearchedBelow(o, quantum, effective, divisions, bound, found) && exact == ExactBelow(o, quantum, effective, divisions, bound)
  }

  lemma SearchingStarts(o: Objective, quantum: nat, effective: nat, divisions: nat)
    requires divisions > 0
    ensures Searching(o, quantum, effective, divisions, 0, None, true)
  {
    SearchedStart(o, quantum, effective, divisions);
  }

  /** One share, looked up in the tables of both families. */
  method ConsiderShare(o: Objective, quantum: nat, effective: nat, divisions: nat, firstUnits: nat,
                       directPlans: seq<Option<Candidate>>, firstPlans: seq<Option<Candidate>>, found: Option<GridFlow>, allExact: bool)
    returns (found': Option<GridFlow>, allExact': bool)
    requires o.TwoStage? && divisions >= 2 && firstUnits <= effective && (|o.first| == 0 <==> |o.second| == 0)
    requires |o.direct| > 0 || |o.first| > 0
    requires TableOk(o.direct, UnitGrid(quantum), effective, directPlans) && TableOk(o.first, UnitGrid(quantum), effective, firstPlans)
    requires Searching(o, quantum, effective, divisions, firstUnits, found, allExact)
    ensures Searching(o, quantum, effective, divisions, firstUnits + 1, found', allExact')
  {
    var d, f := directPlans[effective - firstUnits], firstPlans[firstUnits];
    assert CellOk(o.direct, UnitGrid(quantum), effective - firstUnits, d);
    assert CellOk(o.first, UnitGrid(quantum), firstUnits, f);
    var exact: bool;
    found', exact := ConsiderUnits(o, quantum, effective, divisions, firstUnits, d, f, found);
    allExact' := allExact && exact;
  }

  /** Every first-stage share in turn. */
  method SearchShares(o: Objective, quantum: nat, effective: nat, divisions: nat,
                      directPlans: seq<Option<Candidate>>, firstPlans: seq<Option<Candidate>>)
    returns (found: Option<GridFlow>, allExact: bool)
    requires o.TwoStage? && divisions >= 2 && (|o.direct| > 0 || |o.first| > 0) && (|o.first| == 0 <==> |o.second| == 0)
    requires TableOk(o.direct, UnitGrid(quantum), effective, directPlans) && TableOk(o.first, UnitGrid(quantum), effective, firstPlans)
    ensures Searching(o, quantum, effective, divisions, effective + 1, found, allExact)
  {
    found, allExact := None, true;
    SearchingStarts(o, quantum, effective, divisions);
    for firstUnits := 0 to effective + 1
      invariant Searching(o, quantum, effective, divisions, firstUnits, found, allExact)
    {
      found, allExact := ConsiderShare(o, quantum, effective, divisions, firstUnits, directPlans, firstPlans, found, allExact);
    }
  }

  /** The search over the best plans of both families. */
  method SearchGrid(o: Objective, quantum: nat, effective: nat, divisions: nat) returns (best: GridFlow, allExact: bool)
    requires o.TwoStage? && divisions >= 2 && (|o.direct| > 0 || |o.first| > 0) && (|o.first| == 0 <==> |o.second| == 0)
    ensures SearchedBelow(o, quantum, effective, divisions, effective + 1, Some(best))
    ensures allExact == ExactBelow(o, quantum, effective, divisions, effective + 1)
  {
    var directPlans := GridFamilyPlans(quantum, effective, o.direct);
    var firstPlans := GridFamilyPlans(quantum, effective, o.first);
    var found: Option<GridFlow>;
    found, allExact := SearchShares(o, quantum, effective, divisions, directPlans, firstPlans);
    best := found.value;
  }

  lemma EmptyFamilyYieldsNothing(curves: seq<Curve>, g: Grid, total: nat, p: Candidate)
    requires BestOnGrid(curves, g, total, p)
    ensures |curves| == 0 ==> p.value == 0
  {
    var u: seq<nat> :| IsSplit(u, |curves|, total) && p == PlanAt(curves, g, u);
  }

  // ---------- the remainder of the input ----------

  /** The plan with the remainder added to one of its curves. */
  function TopUp(curves: seq<Curve>, p: Candidate, index: nat, remainder: nat): Candidate
    requires |curves| == |p.allocation| && index < |curves|
  {
    var a := p.allocation[index := p.allocation[index] + remainder];
    Candidate(a, Output(curves, a))
  }

  ghost predicate Shaped(o: Objective, flow: GridFlow) {
    o.TwoStage? && |flow.direct.allocation| == |o.direct| && |flow.first.allocation| == |o.first|
  }

  /** flow is base with the remainder on curve index, direct curves first. */
  ghost predicate RemainderFlow(o: Objective, divisions: nat, base: GridFlow, remainder: nat, index: int, flow: GridFlow)
    requires Shaped(o, base)
  {
    if 0 <= index < |o.direct| then
      FlowFrom(o, divisions, TopUp(o.direct, base.direct, index, remainder), base.first, flow)
    else
      0 <= index - |o.direct| < |o.first| &&
      FlowFrom(o, divisions, base.direct, TopUp(o.first, base.first, index - |o.direct|, remainder), flow)
  }

  /** Some curve makes the remainder worth placing. */
  ghost predicate RemainderPays(o: Objective, divisions: nat, base: GridFlow, remainder: nat)
    requires Shaped(o, base)
  {
    exists i, flow :: RemainderFlow(o, divisions, base, remainder, i, flow) && Beats(AsCandidate(flow), AsCandidate(base))
  }

  /** best is base, or the best of the remainder placements below bound that
      beat it. */
  ghost predicate PlacedBelow(o: Objective, divisions: nat, base: GridFlow, remainder: nat, bound: int, best: GridFlow)
    requires Shaped(o, base)
  {
    && (best == base || (Beats(AsCandidate(best), AsCandidate(base)) &&
                         exists i :: i < bound && RemainderFlow(o, divisions, base, remainder, i, best)))
    && forall i, flow {:trigger RemainderFlow(o, divisions, base, remainder, i, flow)} ::
         i < bound && RemainderFlow(o, divisions, base, remainder, i, flow) ==> !Beats(AsCandidate(flow), AsCandidate(best))
  }

  lemma RemainderFlowUnique(o: Objective, divisions: nat, base: GridFlow, remainder: nat, i: int, x: GridFlow, y: GridFlow)
    requires Shaped(o, base)
    requires RemainderFlow(o, divisions, base, remainder, i, x) && RemainderFlow(o, divisions, base, remainder, i, y)
    ensures x == y
  {
    SecondSolveUnique(o.second, divisions, x.first.value, x.second, y.second);
  }

  /** Every second-stage solve of the remainder's placements was exact. */
  ghost predicate RemaindersExact(o: Objective, divisions: nat, base: GridFlow, remainder: nat, bound: int)
    requires Shaped(o, base) && divisions > 0
  {
    forall i, flow {:trigger RemainderFlow(o, divisions, base, remainder, i, flow)} ::
      i < bound && RemainderFlow(o, divisions, base, remainder, i, flow) ==> Exact(divisions, flow.intermediate)
  }

  lemma RemainderExactNext(o: Objective, divisions: nat, base: GridFlow, remainder: nat, i: nat, flow: GridFlow)
    requires Shaped(o, base) && divisions > 0 && RemainderFlow(o, divisions, base, remainder, i, flow)
    ensures RemaindersExact(o, divisions, base, remainder, i + 1)
            <==> RemaindersExact(o, divisions, base, remainder, i) && Exact(divisions, flow.intermediate)
  {
    forall other | RemainderFlow(o, divisions, base, remainder, i, other) ensures other == flow {
      RemainderFlowUnique(o, divisions, base, remainder, i, other, flow);
    }
  }

  lemma PlacedNext(o: Objective, divisions: nat, base: GridFlow, remainder: nat, index: int, best: GridFlow, flow: GridFlow, after: GridFlow)
    requires Shaped(o, base) && PlacedBelow(o, divisions, base, remainder, index, best)
    requires RemainderFlow(o, divisions, base, remainder, index, flow)
    requires after == if Beats(AsCandidate(flow), AsCandidate(best)) then flow else best
    ensures PlacedBelow(o, divisions, base, remainder, index + 1, after)
  {
    KeepsBetter(AsCandidate(best), AsCandidate(flow), AsCandidate(after));
    if after == best && best != base {
      var i :| i < index && RemainderFlow(o, divisions, base, remainder, i, best);
      assert i < index + 1;
    } else if after != base && best != base {
      BeatsTransitive(AsCandidate(flow), AsCandidate(best), AsCandidate(base));
    }
    forall i, other | i < index + 1 && RemainderFlow(o, divisions, base, remainder, i, other)
      ensures !Beats(AsCandidate(other), AsCandidate(after))
    {
      if i == index {
        RemainderFlowUnique(o, divisions, base, remainder, i, other, flow);
      } else {
        UnbeatenTransitive(AsCandidate(other), AsCandidate(best), AsCandidate(after));
      }
    }
  }

  /** Offer the remainder to one curve of the best remainder-free flow. */
  method OfferRemainder(o: Objective, divisions: nat, base: GridFlow, remainder: nat, index: nat, best: GridFlow)
    returns (after: GridFlow, exact: bool)
    requires Shaped(o, base) && divisions >= 2 && index < |o.direct| + |o.first|
    requires (|o.first| == 0 <==> |o.second| == 0) && (|o.first| == 0 ==> base.first.value == 0)
    requires PlacedBelow(o, divisions, base, remainder, index, best)
    ensures PlacedBelow(o, divisions, base, remainder, index + 1, after)
    ensures RemaindersExact(o, divisions, base, remainder, index + 1)
            <==> RemaindersExact(o, divisions, base, remainder, index) && exact
  {
    var flow: GridFlow;
    if index < |o.direct| {
      flow, exact := EvaluateGridFlow(o, divisions, TopUp(o.direct, base.direct, index, remainder), base.first);
    } else {
      flow, exact := EvaluateGridFlow(o, divisions, base.direct, TopUp(o.first, base.first, index - |o.direct|, remainder));
    }
    RemainderExactNext(o, divisions, base, remainder, index, flow);
    after := if Beats(AsCandidate(flow), AsCandidate(best)) then flow else best;
    PlacedNext(o, divisions, base, remainder, index, best, flow, after);
  }

  /** Offer the remainder to every curve in turn, direct curves first. */
  method PlaceRemainder(o: Objective, divisions: nat, base: GridFlow, remainder: nat) returns (best: GridFlow, allExact: bool)
    requires Shaped(o, base) && divisions >= 2
    requires |o.first| == 0 <==> |o.second| == 0
    requires |o.first| == 0 ==> base.first.value == 0
    ensures PlacedBelow(o, divisions, base, remainder, |o.direct| + |o.first|, best)
    ensures allExact == RemaindersExact(o, divisions, base, remainder, |o.direct| + |o.first|)
  {
    best, allExact := base, true;
    NothingPlaced(o, divisions, base, remainder);
    for index := 0 to |o.direct| + |o.first|
      invariant PlacedBelow(o, divisions, base, remainder, index, best)
      invariant allExact == RemaindersExact(o, divisions, base, remainder, index)
    {
      var exact: bool;
      best, exact := OfferRemainder(o, divisions, base, remainder, index, best);
      allExact := allExact && exact;
    }
  }

  lemma NothingPlaced(o: Objective, divisions: nat, base: GridFlow, remainder: nat)
    requires Shaped(o, base) && divisions > 0
    ensures PlacedBelow(o, divisions, base, remainder, 0, base) && RemaindersExact(o, divisions, base, remainder, 0)
  {
  }

  /** Units of the input a flow places. */
  ghost function Placed(flow: GridFlow): nat { Sum(flow.direct.allocation) + Sum(flow.first.allocation) }

  lemma FlowAtPlaces(o: Objective, quantum: nat, effective: nat, divisions: nat, u: int, flow: GridFlow)
    requires FlowAt(o, quantum, effective, divisions, u, flow)
    ensures Shaped(o, flow) && Placed(flow) == quantum * effective
    ensures flow.direct.value == Output(o.direct, flow.direct.allocation)
    ensures flow.first.value == Output(o.first, flow.first.allocation)
  {
    OnGridShape(o.direct, UnitGrid(quantum), effective - u, flow.direct);
    OnGridShape(o.first, UnitGrid(quantum), u, flow.first);
    Distribute(quantum, effective - u, u);
  }

  lemma RemainderFlowPlaces(o: Objective, divisions: nat, base: GridFlow, remainder: nat, i: int, flow: GridFlow)
    requires Shaped(o, base) && RemainderFlow(o, divisions, base, remainder, i, flow)
    requires base.direct.value == Output(o.direct, base.direct.allocation)
    requires base.first.value == Output(o.first, base.first.allocation)
    ensures Shaped(o, flow) && Placed(flow) == Placed(base) + remainder
    ensures flow.direct.value == Output(o.direct, flow.direct.allocation)
    ensures flow.first.value == Output(o.first, flow.first.allocation)
  {
    if i < |o.direct| {
      SumChanged(base.direct.allocation, flow.direct.allocation, i);
    } else {
      SumChanged(base.first.allocation, flow.first.allocation, i - |o.direct|);
    }
  }

  /** The remainder is placed exactly when some curve makes it worth placing. */
  lemma PlacedIffPays(o: Objective, quantum: nat, effective: nat, divisions: nat, remainder: nat, u: int, base: GridFlow, best: GridFlow)
    requires FlowAt(o, quantum, effective, divisions, u, base) && Shaped(o, base) && remainder > 0
    requires PlacedBelow(o, divisions, base, remainder, |o.direct| + |o.first|, best)
    ensures Shaped(o, best)
    ensures best.direct.value == Output(o.direct, best.direct.allocation)
    ensures best.first.value == Output(o.first, best.first.allocation)
    ensures FlowFrom(o, divisions, best.direct, best.first, best)
    ensures Placed(best) == quantum * effective + if RemainderPays(o, divisions, base, remainder) then remainder else 0
  {
    FlowAtPlaces(o, quantum, effective, divisions, u, base);
    if best != base {
      var i :| i < |o.direct| + |o.first| && RemainderFlow(o, divisions, base, remainder, i, best);
      RemainderFlowPlaces(o, divisions, base, remainder, i, best);
    }
  }

  // ---------- the optimizer ----------

  /** The books of a grid result: second stage fully spent, outputs as quoted. */
  ghost predicate GridBalanced(o: Objective, r: GridResult) {
    && o.TwoStage?
    && Materialized(o.direct, Ins(r.direct), r.direct)
    && Materialized(o.first, Ins(r.first), r.first)
    && Materialized(o.second, Ins(r.second), r.second)
    && r.intermediateOut == Output(o.first, Ins(r.first)) == Sum(Ins(r.second))
    && r.totalOutput == Output(o.direct, Ins(r.direct)) + Output(o.second, Ins(r.second))
  }

  /** Nothing on the declared grid yields more than out. */
  ghost predicate GridMaximum(o: Objective, quantum: nat, effective: nat, divisions: nat, out: nat) {
    forall u {:trigger CoversUnits(o, quantum, effective, divisions, u, out)} ::
      0 <= u <= effective ==> CoversUnits(o, quantum, effective, divisions, u, out)
  }

  /** How the grid optimizer arrives at flow from the best remainder-free base. */
  ghost predicate GridOutcome(o: Objective, total: nat, divisions: nat, base: GridFlow, flow: GridFlow) {
    var effective := EffectiveDivisions(total, divisions);
    && total > 0 && divisions >= 2 && Shaped(o, base)
    && SearchedBelow(o, total / effective, effective, divisions, effective + 1, Some(base))
    && if total % effective == 0 then flow == base
       else PlacedBelow(o, divisions, base, total % effective, |o.direct| + |o.first|, flow)
  }

  /** Every second-stage solve on the way was exact. */
  ghost predicate AllExact(o: Objective, total: nat, divisions: nat, base: GridFlow)
    requires total > 0 && divisions > 0 && Shaped(o, base)
  {
    var effective := EffectiveDivisions(total, divisions);
    && ExactBelow(o, total / effective, effective, divisions, effective + 1)
    && (total % effective > 0 ==> RemaindersExact(o, divisions, base, total % effective, |o.direct| + |o.first|))
  }

  lemma OutcomeShape(o: Objective, total: nat, divisions: nat, base: GridFlow, flow: GridFlow)
    requires GridOutcome(o, total, divisions, base, flow)
    ensures var remainder := total % EffectiveDivisions(total, divisions);
            && Shaped(o, flow)
            && flow.direct.value == Output(o.direct, flow.direct.allocation)
            && flow.first.value == Output(o.first, flow.first.allocation)
            && FlowFrom(o, divisions, flow.direct, flow.first, flow)
            && Placed(flow) == total - if RemainderPays(o, divisions, base, remainder) then 0 else remainder
  {
    var e := EffectiveDivisions(total, divisions);
    DivisionRule(total, e);
    var u :| 0 <= u < e + 1 && FlowAt(o, total / e, e, divisions, u, base);
    FlowAtPlaces(o, total / e, e, divisions, u, base);
    if total % e > 0 { PlacedIffPays(o, total / e, e, divisions, total % e, u, base, flow); }
    assert total / e * e == e * (total / e);
  }

  ghost predicate Increasing(c: Curve) { forall x: nat, y: nat :: x < y ==> At(c, x) < At(c, y) }

  /** A direct pool that always pays for more makes the remainder pay. */
  lemma IncreasingPays(o: Objective, divisions: nat, base: GridFlow, remainder: nat, i: nat)
    requires Shaped(o, base) && FlowFrom(o, divisions, base.direct, base.first, base) && remainder > 0
    requires base.direct.value == Output(o.direct, base.direct.allocation)
    requires i < |o.direct| && Increasing(o.direct[i])
    ensures RemainderPays(o, divisions, base, remainder)
  {
    var more := TopUp(o.direct, base.direct, i, remainder);
    OutputChanged(o.direct, base.direct.allocation, more.allocation, i);
    var flow := base.(direct := more, output := more.value + base.second.value);
    assert RemainderFlow(o, divisions, base, remainder, i, flow);
    assert Beats(AsCandidate(flow), AsCandidate(base));
  }

  /** So with one such pool among them the whole input is always placed. */
  lemma IncreasingPlacesAll(o: Objective, total: nat, divisions: nat, base: GridFlow, flow: GridFlow, i: nat)
    requires GridOutcome(o, total, divisions, base, flow) && i < |o.direct| && Increasing(o.direct[i])
    ensures Shaped(o, flow) && Placed(flow) == total
  {
    OutcomeShape(o, total, divisions, base, flow);
    var e := EffectiveDivisions(total, divisions);
    var u :| 0 <= u < e + 1 && FlowAt(o, total / e, e, divisions, u, base);
    FlowAtPlaces(o, total / e, e, divisions, u, base);
    if total % e > 0 { IncreasingPays(o, divisions, base, total % e, i); }
  }

  /** A grid-verified outcome is best on the declared grid. */
  lemma VerifiedOutcomeIsMaximum(o: Objective, total: nat, divisions: nat, base: GridFlow, flow: GridFlow)
    requires GridOutcome(o, total, divisions, base, flow) && total % EffectiveDivisions(total, divisions) == 0
    requires SecondMonotone(o.second, divisions)
    ensures GridMaximum(o, total / EffectiveDivisions(total, divisions), EffectiveDivisions(total, divisions), divisions, flow.output)
  {
    var e := EffectiveDivisions(total, divisions);
    SearchedIsMaximum(o, total / e, e, divisions, flow);
  }

  lemma SearchedIsMaximum(o: Objective, quantum: nat, effective: nat, divisions: nat, best: GridFlow)
    requires o.TwoStage? && SearchedBelow(o, quantum, effective, divisions, effective + 1, Some(best))
    requires SecondMonotone(o.second, divisions)
    ensures GridMaximum(o, quantum, effective, divisions, best.output)
  {
    assert CoversBelow(o, quantum, effective, divisions, effective + 1, best.output);
  }

  lemma SearchedBase(o: Objective, quantum: nat, effective: nat, divisions: nat, base: GridFlow)
    requires o.TwoStage? && divisions >= 2 && SearchedBelow(o, quantum, effective, divisions, effective + 1, Some(base))
    ensures Shaped(o, base) && (|o.first| == 0 ==> base.first.value == 0)
  {
    var u :| 0 <= u < effective + 1 && FlowAt(o, quantum, effective, divisions, u, base);
    FlowAtPlaces(o, quantum, effective, divisions, u, base);
    EmptyFamilyYieldsNothing(o.first, UnitGrid(quantum), u, base.first);
  }

  method SolveGrid(o: Objective, total: nat, divisions: nat) returns (base: GridFlow, flow: GridFlow, allExact: bool)
    requires o.TwoStage? && total > 0 && divisions >= 2 && (|o.direct| > 0 || |o.first| > 0) && (|o.first| == 0 <==> |o.second| == 0)
    ensures GridOutcome(o, total, divisions, base, flow)
    ensures allExact == AllExact(o, total, divisions, base)
  {
    var effective := EffectiveDivisions(total, divisions);
    var quantum, remainder := total / effective, total % effective;
    base, allExact := SearchGrid(o, quantum, effective, divisions);
    SearchedBase(o, quantum, effective, divisions, base);
    flow := base;
    if remainder > 0 {
      var exact: bool;
      flow, exact := PlaceRemainder(o, divisions, base, remainder);
      allExact := allExact && exact;
    }
  }

  ghost function GridSorted(request: GridRequest): Objective {
    TwoStage(SortCurves(request.direct), SortCurves(request.first), SortCurves(request.second))
  }

  function GridDivisions(request: GridRequest): int { if request.divisions == 0 then 32 else request.divisions }

  /** The result is this flow. */
  ghost predicate Writes(flow: GridFlow, r: GridResult) {
    && flow.output == r.totalOutput && flow.intermediate == r.intermediateOut
    && Ins(r.direct) == flow.direct.allocation && Ins(r.first) == flow.first.allocation && Ins(r.second) == flow.second.allocation
  }

  /** What a grid result says: its grid is that of the lesser of input and
      divisions, its books balance, its flags are what they claim on that grid,
      and it places the whole input exactly when there is no remainder or some
      curve makes the remainder pay. */
  ghost predicate GridReported(o: Objective, total: nat, divisions: nat, base: GridFlow, r: GridResult) {
    var effective := if total < divisions then total else divisions;
    && total > 0 && divisions >= 2 && Shaped(o, base) && GridBalanced(o, r)
    && (exists flow :: GridOutcome(o, total, divisions, base, flow) && Writes(flow, r))
    && r.totalInput == total && r.gridDivisions == effective && r.inputResolution == total / effective
    && r.gridVerified == (total % effective == 0)
    && r.globallyVerified == (total / effective == 1 && AllExact(o, total, divisions, base))
    && Sum(Ins(r.direct)) + Sum(Ins(r.first))
       == total - (if RemainderPays(o, divisions, base, total % effective) then 0 else total % effective)
    && (r.gridVerified && SecondMonotone(o.second, divisions) ==>
          GridMaximum(o, total / effective, effective, divisions, r.totalOutput))
  }

  /** What the grid optimizer demands of a request. */
  ghost predicate GridWellPosed(request: GridRequest) {
    && request.totalInput > 0 && |request.direct| + |request.first| > 0 && (|request.first| == 0 <==> |request.second| == 0)
    && 2 <= GridDivisions(request) <= 1024 && Accepted(GridSorted(request))
  }

  /** The grid optimizer; base is the best flow before the remainder is placed. */
  method OptimizeTwoStageSplitGrid(request: GridRequest) returns (r: Option<GridResult>, base: Option<GridFlow>)
    ensures r.Some? <==> GridWellPosed(request)
    ensures r.Some? ==> base.Some?
    ensures r.Some? ==> GridReported(GridSorted(request), request.totalInput, GridDivisions(request), base.value, r.value)
  {
    if request.totalInput <= 0 { return None, None; }
    if |request.direct| == 0 && |request.first| == 0 { return None, None; }
    if (|request.first| == 0) != (|request.second| == 0) { return None, None; }
    var divisions := GridDivisions(request);
    if divisions < 2 || divisions > 1024 { return None, None; }
    var o := ReadFamilies(request);
    if o.None? { return None, None; }
    SortCurvesKeeps(request.direct);
    SortCurvesKeeps(request.first);
    SortCurvesKeeps(request.second);
    var result, start := SolveAndReport(o.value, request.totalInput, divisions);
    return Some(result), Some(start);
  }

  /** The three families, sorted, if every curve and every ID is in order. */
  method ReadFamilies(request: GridRequest) returns (r: Option<Objective>)
    ensures r.Some? <==> Accepted(GridSorted(request))
    ensures r.Some? ==> r.value == GridSorted(request)
  {
    var direct := NewCurves(request.direct);
    if direct.None? { return None; }
    var first := NewCurves(request.first);
    if first.None? { return None; }
    var second := NewCurves(request.second);
    if second.None? { return None; }
    var unique := CheckUniqueIDs(direct.value + first.value + second.value);
    if !unique { return None; }
    r := Some(TwoStage(direct.value, first.value, second.value));
  }

  method SolveAndReport(o: Objective, total: nat, divisions: nat) returns (r: GridResult, base: GridFlow)
    requires o.TwoStage? && total > 0 && divisions >= 2 && (|o.direct| > 0 || |o.first| > 0) && (|o.first| == 0 <==> |o.second| == 0)
    ensures GridReported(o, total, divisions, base, r)
  {
    var flow: GridFlow, allExact: bool;
    base, flow, allExact := SolveGrid(o, total, divisions);
    r := ReportGrid(o, total, divisions, base, flow, allExact);
  }

  method ReportGrid(o: Objective, total: nat, divisions: nat, base: GridFlow, flow: GridFlow, allExact: bool) returns (r: GridResult)
    requires GridOutcome(o, total, divisions, base, flow)
    requires allExact == AllExact(o, total, divisions, base)
    ensures GridReported(o, total, divisions, base, r)
    ensures r.totalOutput == flow.output && Ins(r.direct) == flow.direct.allocation && Ins(r.first) == flow.first.allocation
  {
    OutcomeShape(o, total, divisions, base, flow);
    var effective := EffectiveDivisions(total, divisions);
    var direct := Materialize(o.direct, flow.direct.allocation);
    var first := Materialize(o.first, flow.first.allocation);
    var second := Materialize(o.second, flow.second.allocation);
    r := GridResult(direct, first, second, total, flow.intermediate, flow.output, total / effective, effective,
                    total % effective == 0, total / effective == 1 && allExact);
    ReportHolds(o, total, divisions, base, flow, allExact, r);
  }

  lemma ReportHolds(o: Objective, total: nat, divisions: nat, base: GridFlow, flow: GridFlow, allExact: bool, r: GridResult)
    requires GridOutcome(o, total, divisions, base, flow) && allExact == AllExact(o, total, divisions, base)
    requires GridBalanced(o, r) && Writes(flow, r) && r.totalInput == total
    requires var e := EffectiveDivisions(total, divisions);
             && r.inputResolution == total / e && r.gridDivisions == e && r.gridVerified == (total % e == 0)
             && r.globallyVerified == (total / e == 1 && allExact)
    ensures GridReported(o, total, divisions, base, r)
  {
    OutcomeShape(o, total, divisions, base, flow);
    if total % EffectiveDivisions(total, divisions) == 0 && SecondMonotone(o.second, divisions) {
      VerifiedOutcomeIsMaximum(o, total, divisions, base, flow);
    }
  }
}
