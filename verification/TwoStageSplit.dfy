/** The two-stage optimizer: direct pools plus a fungible branch through an
    intermediate token, solved by one search inside another. */
module TwoStageSplit {
  import opened Common
  import opened Allocations
  import opened Concavity
  import opened Ranking
  import opened Optimum
  import opened Flows
  import opened Climbs
  import opened SecondStage
  import opened SplitSolver
  import Text

  datatype Request = Request(
    totalInput: int, direct: seq<Curve>, first: seq<Curve>, second: seq<Curve>,
    maxSweeps: int, maxStarts: int, neighborhood: int, exhaustiveLimit: int)

  datatype SplitAllocation = SplitAllocation(curveID: string, amountIn: nat, amountOut: nat)

  datatype Result = Result(
    direct: seq<SplitAllocation>, first: seq<SplitAllocation>, second: seq<SplitAllocation>,
    totalInput: nat, intermediateOut: nat, totalOutput: nat,
    pairwiseOptimal: bool, globallyVerified: bool)

  // ---------- accepting the curves ----------

  predicate IsSpace(c: char) {
    '\t' <= c <= '\r' || c == ' ' || c == '\U{85}' || c == '\U{A0}' || c == '\U{1680}' ||
    '\U{2000}' <= c <= '\U{200A}' || c == '\U{2028}' || c == '\U{2029}' || c == '\U{202F}' ||
    c == '\U{205F}' || c == '\U{3000}'
  }

  /** Trimming white space leaves nothing. */
  predicate Blank(s: string) { forall i :: 0 <= i < |s| ==> IsSpace(s[i]) }

  function InsertCurve(c: Curve, s: seq<Curve>): seq<Curve> {
    if |s| == 0 || Text.Less(c.id, s[0].id) then [c] + s else [s[0]] + InsertCurve(c, s[1..])
  }

  function SortCurves(s: seq<Curve>): seq<Curve> {
    if |s| == 0 then [] else InsertCurve(s[0], SortCurves(s[1..]))
  }

  lemma {:induction false} InsertCurveKeeps(c: Curve, s: seq<Curve>)
    ensures multiset(InsertCurve(c, s)) == multiset{c} + multiset(s)
  {
    if !(|s| == 0 || Text.Less(c.id, s[0].id)) {
      InsertCurveKeeps(c, s[1..]);
      assert s == [s[0]] + s[1..];
    }
  }

  /** Sorting by ID drops and invents no curve. */
  lemma {:induction false} SortCurvesKeeps(s: seq<Curve>)
    ensures multiset(SortCurves(s)) == multiset(s) && |SortCurves(s)| == |s|
  {
    if |s| > 0 {
      SortCurvesKeeps(s[1..]);
      InsertCurveKeeps(s[0], SortCurves(s[1..]));
      assert s == [s[0]] + s[1..];
      assert |multiset(SortCurves(s))| == |multiset(s)|;
    }
  }

  ghost predicate NoneBlank(curves: seq<Curve>) { forall i :: 0 <= i < |curves| ==> !Blank(curves[i].id) }

  method NewCurves(configured: seq<Curve>) returns (r: Option<seq<Curve>>)
    ensures r.Some? <==> NoneBlank(SortCurves(configured))
    ensures r.Some? ==> r.value == SortCurves(configured)
  {
    var curves := SortCurves(configured);
    for i := 0 to |curves|
      invariant forall k :: 0 <= k < i ==> !Blank(curves[k].id)
    {
      if Blank(curves[i].id) { return None; }
    }
    return Some(curves);
  }

  ghost predicate UniqueIDs(curves: seq<Curve>) {
    forall i, j :: 0 <= i < j < |curves| ==> curves[i].id != curves[j].id
  }

  method CheckUniqueIDs(curves: seq<Curve>) returns (ok: bool)
    ensures ok == UniqueIDs(curves)
  {
    var seen: set<string> := {};
    for i := 0 to |curves|
      invariant seen == set k | 0 <= k < i :: curves[k].id
      invariant UniqueIDs(curves[..i])
    {
      if curves[i].id in seen { return false; }
      seen := seen + {curves[i].id};
      assert curves[..i + 1] == curves[..i] + [curves[i]];
    }
    assert curves[..|curves|] == curves;
    return true;
  }

  // ---------- the answer ----------

  ghost function Ins(allocations: seq<SplitAllocation>): (a: seq<nat>)
    ensures |a| == |allocations| && forall i :: 0 <= i < |a| ==> a[i] == allocations[i].amountIn
  {
    seq(|allocations|, i requires 0 <= i < |allocations| => allocations[i].amountIn)
  }

  /** allocations pairs each curve with its amount and what it quotes for it. */
  ghost predicate Materialized(curves: seq<Curve>, a: seq<nat>, allocations: seq<SplitAllocation>) {
    && |curves| == |a| == |allocations|
    && forall i {:trigger allocations[i]} :: 0 <= i < |a| ==>
         allocations[i] == SplitAllocation(curves[i].id, a[i], At(curves[i], a[i]))
  }

  method Materialize(curves: seq<Curve>, a: seq<nat>) returns (allocations: seq<SplitAllocation>)
    requires |curves| == |a|
    ensures Materialized(curves, a, allocations) && Ins(allocations) == a
  {
    allocations := [];
    for i := 0 to |a|
      invariant |allocations| == i
      invariant forall k :: 0 <= k < i ==> allocations[k] == SplitAllocation(curves[k].id, a[k], At(curves[k], a[k]))
    {
      allocations := allocations + [SplitAllocation(curves[i].id, a[i], At(curves[i], a[i]))];
    }
  }

  /** The books balance: all input is placed, all intermediate output is spent,
      and the reported output is what the curves quote. */
  ghost predicate Balanced(o: Objective, total: nat, r: Result) {
    && o.TwoStage? && r.totalInput == total
    && Materialized(o.direct, Ins(r.direct), r.direct)
    && Materialized(o.first, Ins(r.first), r.first)
    && Materialized(o.second, Ins(r.second), r.second)
    && Sum(Ins(r.direct)) + Sum(Ins(r.first)) == total
    && r.intermediateOut == Output(o.first, Ins(r.first)) == Sum(Ins(r.second))
    && r.totalOutput == Output(o.direct, Ins(r.direct)) + Output(o.second, Ins(r.second))
  }

  /** No split of the input, whatever is then done with the intermediate
      token, gives more than out. */
  ghost predicate GlobalMaximum(o: Objective, total: nat, out: nat) {
    && o.TwoStage?
    && forall a: seq<nat>, s: seq<nat> {:trigger DirectOutput(o, a), Output(o.second, s)} ::
         IsSplit(a, Arity(o), total) && IsSplit(s, |o.second|, Intermediate(o, a))
         ==> DirectOutput(o, a) + Output(o.second, s) <= out
  }

  /** Every second-stage plan solved so far is a maximum. */
  ghost predicate SecondSolved(o: Objective, plans: map<nat, StagePlan>) {
    o.TwoStage? && (AllExhaustive(plans) || AllConcave(o.second)) && PlansOk(o, plans)
  }

  lemma SecondAtMost(o: Objective, plans: map<nat, StagePlan>, m: nat, s: seq<nat>)
    requires SecondSolved(o, plans) && IsSplit(s, |o.second|, m) && (m == 0 || m in plans)
    ensures Output(o.second, s) <= if m == 0 then 0 else plans[m].output
  {
    if m == 0 {
      NothingInNothingOut(o.second, s);
    } else {
      assert PlanOk(o.second, m, plans[m]);
    }
  }

  /** Exhausting the input splits over solved second stages is exhausting all. */
  lemma CoveredIsGlobalMaximum(ev: Evaluator, best: Candidate)
    requires ev.Valid() && SecondSolved(ev.objective, ev.secondCache) && AllCovered(ev, best)
    ensures GlobalMaximum(ev.objective, ev.total, best.value)
  {
    var o := ev.objective;
    forall a: seq<nat>, s: seq<nat> | IsSplit(a, Arity(o), ev.total) && IsSplit(s, |o.second|, Intermediate(o, a))
      ensures DirectOutput(o, a) + Output(o.second, s) <= best.value
    {
      assert Covered(ev.cache, a, best);
      assert Worth(o, ev.total, ev.secondCache, a, ev.cache[a]);
      SecondAtMost(o, ev.secondCache, Intermediate(o, a), s);
    }
  }

  /** With nondecreasing curves, placing more cannot give less. */
  lemma DirectOnlyAtLeast(direct: seq<Curve>, d: seq<nat>, total: nat, out: nat)
    requires |direct| == |d| >= 1 && Sum(d) <= total && AllNondecreasing(direct) && UpperBound(direct, total, out)
    ensures Output(direct, d) <= out
  {
    var more := d[0 := d[0] + total - Sum(d)];
    SumChanged(d, more, 0);
    OutputChanged(direct, d, more, 0);
    assert Nondecreasing(direct[0]);
    assert IsSplit(more, |direct|, total);
  }

  /** The direct-only allocation as an allocation of the whole input. */
  lemma DirectOnlyValue(o: Objective, d: seq<nat>, a: seq<nat>, total: nat)
    requires o.TwoStage? && IsSplit(d, |o.direct|, total) && a == d + Zeros(|o.first|)
    ensures IsSplit(a, Arity(o), total) && Intermediate(o, a) == 0 && DirectOutput(o, a) == Output(o.direct, d)
    ensures a[..|o.direct|] == d && a[|o.direct|..] == Zeros(|o.first|)
  {
    SumAppend(d, Zeros(|o.first|));
    SumZeros(|o.first|);
    assert a[..|o.direct|] == d && a[|o.direct|..] == Zeros(|o.first|);
    OutputZeros(o.first, Zeros(|o.first|));
  }

  /** Replacing a dust allocation by the best direct-only one keeps the output. */
  lemma FallbackKeepsOutput(ev: Evaluator, best: Candidate, plan: StagePlan)
    requires ev.Valid() && ev.objective.TwoStage? && |ev.objective.direct| >= 1
    requires AllCovered(ev, best) && Current(ev, best) && AllNondecreasing(ev.objective.direct)
    requires best.value == DirectOutput(ev.objective, best.allocation)
    requires PlanOk(ev.objective.direct, ev.total, plan) && plan.exhaustive
    ensures plan.output == best.value
  {
    var o := ev.objective;
    var d := best.allocation[..|o.direct|];
    assert best.allocation == d + best.allocation[|o.direct|..];
    SumAppend(d, best.allocation[|o.direct|..]);
    DirectOnlyAtLeast(o.direct, d, ev.total, plan.output);
    var a := plan.allocations + Zeros(|o.first|);
    DirectOnlyValue(o, plan.allocations, a, ev.total);
    assert Covered(ev.cache, a, best);
    assert Worth(o, ev.total, ev.secondCache, a, ev.cache[a]);
  }

  predicate AnyPositive(a: seq<nat>) { exists i :: 0 <= i < |a| && a[i] > 0 }

  /** An intermediate branch that ends up producing nothing. */
  predicate Dust(o: Objective, a: seq<nat>, intermediate: nat, secondOutput: nat)
    requires o.TwoStage? && |a| == Arity(o)
  {
    |o.direct| > 0 &&
    ((intermediate > 0 && secondOutput == 0) || (AnyPositive(a[|o.direct|..]) && intermediate == 0))
  }

  function EffectiveSettings(r: Request): Settings {
    Settings(if r.maxSweeps == 0 then 64 else r.maxSweeps,
             if r.maxStarts == 0 then 3 else r.maxStarts,
             if r.neighborhood == 0 then 32 else r.neighborhood,
             if r.exhaustiveLimit == 0 then 10_000 else r.exhaustiveLimit)
  }

  /** plan spends what a feeds the second stage, and says what that gives. */
  ghost predicate FlowOf(o: Objective, total: nat, a: seq<nat>, plan: StagePlan) {
    && o.TwoStage? && IsSplit(a, Arity(o), total)
    && IsSplit(plan.allocations, |o.second|, Intermediate(o, a))
    && plan.output == Output(o.second, plan.allocations)
  }

  lemma EmptySecond(o: Objective, total: nat, a: seq<nat>)
    requires o.TwoStage? && IsSplit(a, Arity(o), total) && Intermediate(o, a) == 0
    ensures FlowOf(o, total, a, StagePlan(Zeros(|o.second|), 0, 0, true))
  {
    SumZeros(|o.second|);
    OutputZeros(o.second, Zeros(|o.second|));
  }

  /** Look the chosen allocation up again for its second-stage plan. */
  method FinalFlow(ev: Evaluator, best: Candidate) returns (plan: StagePlan)
    requires ev.Valid() && ev.objective.TwoStage? && Current(ev, best)
    modifies ev`secondCache, ev`allSecondVerified
    ensures ev.Valid() && ev.secondCache == old(ev.secondCache)
    ensures FlowOf(ev.objective, ev.total, best.allocation, plan)
    ensures best.value == DirectOutput(ev.objective, best.allocation) + plan.output
    ensures plan.allocations == SecondSplit(ev.objective, ev.settings, best.allocation)
  {
    var o := ev.objective;
    assert Worth(o, ev.total, ev.secondCache, best.allocation, ev.cache[best.allocation]);
    var intermediate := SumOutputs(o.first, best.allocation[|o.direct|..]);
    assert intermediate == Intermediate(o, best.allocation);
    var found := ev.OptimizeSecond(intermediate);
    plan := found.value;
    if intermediate == 0 {
      EmptySecond(o, ev.total, best.allocation);
    } else {
      assert PlanOk(o.second, intermediate, ev.secondCache[intermediate]);
      assert Search(Independent(o.second), intermediate, ev.settings) == Some(ev.secondCache[intermediate].allocations);
    }
  }

  /** How the search spends the intermediate amount: its answer for it. */
  ghost function SecondSplit(o: Objective, settings: Settings, a: seq<nat>): seq<nat>
    requires o.TwoStage? && |a| == Arity(o) && ValidSettings(settings)
  {
    var m := Intermediate(o, a);
    var answer := Search(Independent(o.second), m, settings);
    if m == 0 || answer.None? then Zeros(|o.second|) else answer.value
  }

  /** The answer of the search for the input ends in dust. */
  ghost predicate DustAt(o: Objective, settings: Settings, a: seq<nat>)
    requires o.TwoStage? && |a| == Arity(o) && ValidSettings(settings)
  {
    Dust(o, a, Intermediate(o, a), At(SecondCurve(o.second, settings), Intermediate(o, a)))
  }

  /** What a request comes to: the answer of the search over the flow it sees; or,
      where that ends in dust, the answer of the search over the direct pools
      alone. The flag tells which. */
  ghost function Executed(o: Objective, total: nat, settings: Settings): Option<(seq<nat>, bool)>
    requires o.TwoStage? && ValidSettings(settings)
  {
    var answer := Search(Effective(o, settings), total, settings);
    if answer.None? then None
    else if |answer.value| == Arity(o) && DustAt(o, settings, answer.value) then
      var direct := Search(Independent(o.direct), total, settings);
      if direct.None? then None else Some((direct.value + Zeros(|o.first|), true))
    else Some((answer.value, false))
  }

  lemma SeenIs(ev: Evaluator)
    requires ev.Valid()
    ensures ValidSettings(ev.settings) && ev.seen == Effective(ev.objective, ev.settings)
  {
    assert Looked(0);
  }

  /** Whatever the whole input can be exhausted over, the direct pools can. */
  lemma DirectIsExhaustive(o: Objective, total: nat, limit: int)
    requires o.TwoStage? && |o.direct| >= 1
    ensures Visits(Arity(o), total) <= limit ==> Visits(|o.direct|, total) <= limit
  {
    VisitsMonotone(|o.direct|, Arity(o), total);
  }

  /** Replace a dust allocation by the best direct-only one. */
  method DirectOnly(ev: Evaluator, outer: CoordinateResult) returns (r: Option<seq<nat>>)
    requires ev.Valid() && ev.objective.TwoStage? && |ev.objective.direct| >= 1
    requires Current(ev, outer.best) && outer.best.value == DirectOutput(ev.objective, outer.best.allocation)
    requires outer.exhaustive == Affordable(ev.objective, ev.total, ev.settings)
    requires outer.exhaustive ==> AllCovered(ev, outer.best)
    ensures r.Some? ==> IsSplit(r.value, Arity(ev.objective), ev.total) && Intermediate(ev.objective, r.value) == 0
    ensures r.Some? ==> r.value[|ev.objective.direct|..] == Zeros(|ev.objective.first|)
    ensures r.Some? && outer.exhaustive && AllNondecreasing(ev.objective.direct) ==>
              DirectOutput(ev.objective, r.value) == outer.best.value
    ensures r.Some? && ConcaveFlow(ev.objective) && Worthless(ev.objective) ==>
              Greatest(ev.objective, ev.total, DirectOutput(ev.objective, r.value))
    ensures var direct := Search(Independent(ev.objective.direct), ev.total, ev.settings);
            if r.Some? then direct.Some? && r.value == direct.value + Zeros(|ev.objective.first|) else direct.None?
    ensures outer.exhaustive || Arity(ev.objective) <= 2 ==> r.Some?
  {
    var o := ev.objective;
    SearchIff(Independent(o.direct), ev.total, ev.settings);
    DirectIsExhaustive(o, ev.total, ev.settings.exhaustiveLimit);
    var plan := OptimizeIndependent(ev.total, o.direct, ev.settings);
    if plan.None? { return None; }
    var allocation := plan.value.allocations + Zeros(|o.first|);
    DirectOnlyValue(o, plan.value.allocations, allocation, ev.total);
    if outer.exhaustive && AllNondecreasing(o.direct) { FallbackKeepsOutput(ev, outer.best, plan.value); }
    if ConcaveFlow(o) && Worthless(o) { DirectIsGreatest(o, ev.total, plan.value.output); }
    return Some(allocation);
  }

  /** Where the branch gives nothing, the best direct-only split is best. */
  lemma DirectIsGreatest(o: Objective, total: nat, out: nat)
    requires o.TwoStage? && |o.direct| >= 1 && AllConcave(o.direct) && Worthless(o) && UpperBound(o.direct, total, out)
    ensures Greatest(o, total, out)
  {
    AllConcaveRise(o.direct);
    forall a: seq<nat> | IsSplit(a, Arity(o), total) ensures Value(o, a) <= out {
      var d := a[..|o.direct|];
      assert a == d + a[|o.direct|..];
      SumAppend(d, a[|o.direct|..]);
      DirectOnlyAtLeast(o.direct, d, total, out);
      assert Best(o.second, Intermediate(o, a)) == 0;
    }
  }

  /** Dust in an allocation that no exchange improves: through concave pools the
      branch never gives anything. */
  lemma DustIsWorthless(o: Objective, total: nat, a: seq<nat>, plan: StagePlan)
    requires ConcaveFlow(o) && FlowOf(o, total, a, plan) && |o.first| > 0 && FlowOptimal(o, a)
    requires plan.output == Best(o.second, Intermediate(o, a)) && Dust(o, a, Intermediate(o, a), plan.output)
    ensures Worthless(o)
  {
    if Intermediate(o, a) > 0 {
      NothingForSomething(o, Intermediate(o, a));
    } else {
      var i :| 0 <= i < |a[|o.direct|..]| && a[|o.direct|..][i] > 0;
      NothingFromSomething(o, a, i);
    }
  }

  /** What the search found and what is to be executed. */
  datatype Flow = Flow(allocation: seq<nat>, second: StagePlan, outer: CoordinateResult, replaced: bool)

  ghost predicate FlowOk(o: Objective, total: nat, settings: Settings, f: Flow)
    requires ValidSettings(settings)
  {
    && FlowOf(o, total, f.allocation, f.second)
    && (!f.replaced ==> f.allocation == f.outer.best.allocation)
    && !Dust(o, f.allocation, Intermediate(o, f.allocation), f.second.output)
    && (!f.replaced || (f.outer.exhaustive && AllNondecreasing(o.direct)) ==>
          DirectOutput(o, f.allocation) + f.second.output == f.outer.best.value)
    && (f.replaced ==> |o.direct| > 0 && |o.first| > 0 && f.allocation[|o.direct|..] == Zeros(|o.first|))
    && f.second.allocations == SecondSplit(o, settings, f.allocation)
    && Executed(o, total, settings) == Some((f.allocation, f.replaced))
  }

  /** Everything the request calls for can be searched exhaustively. */
  ghost predicate Verifiable(o: Objective, total: nat, settings: Settings) {
    Affordable(o, total, settings) && SecondAffordable(o, total, settings)
  }

  /** The search cannot fail: every allocation can be evaluated, and there are
      few enough allocations or only one line of them. */
  ghost predicate Searchable(o: Objective, total: nat, settings: Settings)
    requires ValidSettings(settings)
  {
    Solvable(o, total, settings) && (Affordable(o, total, settings) || Arity(o) <= 2)
  }

  /** A second stage of at most two curves never stops the search. */
  lemma ShortSecondIsSearchable(o: Objective, total: nat, settings: Settings)
    requires o.TwoStage? && |o.second| <= 2 && (|o.first| == 0 <==> |o.second| == 0) && ValidSettings(settings)
    requires Affordable(o, total, settings) || Arity(o) <= 2
    ensures Searchable(o, total, settings)
  {
    forall a: seq<nat> | IsSplit(a, Arity(o), total) ensures SecondSolvable(o.second, Intermediate(o, a), settings) {
      if |o.first| == 0 { assert a[|o.direct|..] == []; } else { SearchIff(Independent(o.second), Intermediate(o, a), settings); }
    }
  }

  /** After an exhaustive search the second-stage plans are those of all the
      amounts that allocations yield. */
  lemma VerifiedExactly(ev: Evaluator, outer: CoordinateResult)
    requires ev.Valid() && ev.objective.TwoStage?
    requires outer.exhaustive == Affordable(ev.objective, ev.total, ev.settings)
    requires outer.exhaustive ==> AllCovered(ev, outer.best)
    ensures (outer.exhaustive && ev.allSecondVerified) <==> Verifiable(ev.objective, ev.total, ev.settings)
  {
    var o, plans := ev.objective, ev.secondCache;
    forall m | m in plans
      ensures plans[m].exhaustive == Affordable(Independent(o.second), m, ev.settings) && ReachedAmount(o, ev.total, m) && m > 0
    {
      assert PlanOk(o.second, m, plans[m]);
    }
    if outer.exhaustive {
      forall a: seq<nat> | IsSplit(a, Arity(o), ev.total) && Intermediate(o, a) > 0
        ensures Intermediate(o, a) in plans
      {
        assert Covered(ev.cache, a, outer.best);
        assert Worth(o, ev.total, plans, a, ev.cache[a]);
      }
      if SecondAffordable(o, ev.total, ev.settings) {
        forall m | m in plans ensures plans[m].exhaustive {
          var a: seq<nat> :| IsSplit(a, Arity(o), ev.total) && Intermediate(o, a) == m;
        }
      }
    }
  }

  /** The search and, for a dust branch, the direct-only replacement. */
  method SearchFlow(ev: Evaluator) returns (r: Option<Flow>)
    requires ev.Valid() && ev.objective.TwoStage?
    modifies ev
    ensures ev.Valid()
    ensures r.Some? ==> FlowOk(ev.objective, ev.total, ev.settings, r.value)
    ensures r.Some? ==> r.value.outer.exhaustive == Affordable(ev.objective, ev.total, ev.settings)
    ensures r.Some? && r.value.outer.exhaustive && SecondSolved(ev.objective, ev.secondCache) ==>
              GlobalMaximum(ev.objective, ev.total, r.value.outer.best.value)
    ensures r.Some? ==> r.value.outer.pairwiseOptimal
    ensures r.Some? ==> Searched(ev.seen, ev.total, ev.settings, r.value.outer)
    ensures r.None? && Solvable(ev.objective, ev.total, ev.settings) ==> Executed(ev.objective, ev.total, ev.settings) == None
    ensures r.Some? && ConcaveFlow(ev.objective) ==> ConcaveEnd(ev.objective, ev.total, r.value)
    ensures r.Some? && ConcaveFamily(ev.objective) ==> UpperBound(ev.objective.direct, ev.total, r.value.outer.best.value)
    ensures r.Some? ==> ((r.value.outer.exhaustive && ev.allSecondVerified) <==> Verifiable(ev.objective, ev.total, ev.settings))
    ensures Arity(ev.objective) >= 1 && Searchable(ev.objective, ev.total, ev.settings) ==> r.Some?
  {
    SeenIs(ev);
    if Arity(ev.objective) >= 1 { SearchIff(ev.seen, ev.total, ev.settings); }
    var outer := CoordinateOptimize(ev);
    if outer.None? { return None; }
    VerifiedExactly(ev, outer.value);
    var o := ev.objective;
    if outer.value.exhaustive && SecondSolved(o, ev.secondCache) { CoveredIsGlobalMaximum(ev, outer.value.best); }
    if outer.value.exhaustive && IsFamily(o) { CoveredFamilyIsMaximum(ev, outer.value.best); }
    r := FinishFlow(ev, outer.value);
  }

  /** From what the search found to what is executed. */
  method FinishFlow(ev: Evaluator, outer: CoordinateResult) returns (r: Option<Flow>)
    requires ev.Valid() && ev.objective.TwoStage? && Current(ev, outer.best)
    requires outer.exhaustive == Affordable(ev.objective, ev.total, ev.settings)
    requires outer.exhaustive ==> AllCovered(ev, outer.best)
    requires Searched(ev.seen, ev.total, ev.settings, outer)
    modifies ev`secondCache, ev`allSecondVerified
    ensures ev.Valid() && ev.secondCache == old(ev.secondCache)
    ensures r.Some? ==> FlowOk(ev.objective, ev.total, ev.settings, r.value) && r.value.outer == outer
    ensures r.Some? && ConcaveFlow(ev.objective) ==> ConcaveEnd(ev.objective, ev.total, r.value)
    ensures r.None? ==> Executed(ev.objective, ev.total, ev.settings) == None
    ensures outer.exhaustive || Arity(ev.objective) <= 2 ==> r.Some?
  {
    var o, best := ev.objective, outer.best;
    SeenIs(ev);
    if ConcaveFlow(o) { ConcaveAnswer(ev, outer); }
    var plan := FinalFlow(ev, best);
    var intermediate := SumOutputs(o.first, best.allocation[|o.direct|..]);
    SecondIsSeen(ev, best, plan.output);
    if !Dust(o, best.allocation, intermediate, plan.output) {
      return Some(Flow(best.allocation, plan, outer, false));
    }
    r := ReplaceDust(ev, outer, plan);
  }

  /** The direct-only flow in place of one that ends in dust. */
  method ReplaceDust(ev: Evaluator, outer: CoordinateResult, plan: StagePlan) returns (r: Option<Flow>)
    requires ev.Valid() && ev.objective.TwoStage? && Current(ev, outer.best)
    requires outer.exhaustive == Affordable(ev.objective, ev.total, ev.settings)
    requires outer.exhaustive ==> AllCovered(ev, outer.best)
    requires FlowOf(ev.objective, ev.total, outer.best.allocation, plan)
    requires outer.best.value == DirectOutput(ev.objective, outer.best.allocation) + plan.output
    requires Dust(ev.objective, outer.best.allocation, Intermediate(ev.objective, outer.best.allocation), plan.output)
    requires ConcaveFlow(ev.objective) ==>
               outer.best.value == Value(ev.objective, outer.best.allocation) && FlowOptimal(ev.objective, outer.best.allocation)
    requires Search(Effective(ev.objective, ev.settings), ev.total, ev.settings) == Some(outer.best.allocation)
    requires DustAt(ev.objective, ev.settings, outer.best.allocation)
    ensures r.Some? ==> FlowOk(ev.objective, ev.total, ev.settings, r.value) && r.value.outer == outer
    ensures r.Some? && ConcaveFlow(ev.objective) ==> ConcaveEnd(ev.objective, ev.total, r.value)
    ensures r.None? ==> Executed(ev.objective, ev.total, ev.settings) == None
    ensures outer.exhaustive || Arity(ev.objective) <= 2 ==> r.Some?
  {
    var o, best := ev.objective, outer.best;
    if Intermediate(o, best.allocation) == 0 { NothingInNothingOut(o.second, plan.allocations); }
    if ConcaveFlow(o) { DustIsWorthless(o, ev.total, best.allocation, plan); }
    var allocation := DirectOnly(ev, outer);
    if allocation.None? { return None; }
    EmptySecond(o, ev.total, allocation.value);
    r := Some(Flow(allocation.value, StagePlan(Zeros(|o.second|), 0, 0, true), outer, true));
    if ConcaveFlow(o) { ReplacedIsOptimal(o, ev.total, r.value); }
  }

  /** What the second stage is seen to yield is what its plan yields. */
  lemma SecondIsSeen(ev: Evaluator, best: Candidate, output: nat)
    requires ev.Valid() && ev.objective.TwoStage? && Current(ev, best) && best.value == Value(ev.seen, best.allocation)
    requires best.value == DirectOutput(ev.objective, best.allocation) + output
    ensures output == At(SecondCurve(ev.objective.second, ev.settings), Intermediate(ev.objective, best.allocation))
  {
    SeenIs(ev);
  }

  /** Through concave pools the answer is exchange optimal for its true worth. */
  lemma ConcaveAnswer(ev: Evaluator, outer: CoordinateResult)
    requires ev.Valid() && ConcaveFlow(ev.objective) && Searched(ev.seen, ev.total, ev.settings, outer)
    ensures outer.best.value == Value(ev.objective, outer.best.allocation) && FlowOptimal(ev.objective, outer.best.allocation)
  {
    SeenIs(ev);
    ConcaveIsSeen(ev.objective, ev.settings);
    OptimalAgrees(ev.objective, ev.seen, ev.total, outer.best.allocation);
  }

  /** Two flows that agree on the worth of every split of the input. */
  ghost predicate AgreeOn(o: Objective, e: Objective, total: nat) {
    Arity(o) == Arity(e) && forall a: seq<nat> {:trigger Value(e, a)} {:trigger Value(o, a)} :: IsSplit(a, Arity(o), total) ==> Value(e, a) == Value(o, a)
  }

  lemma LinesAgree(o: Objective, e: Objective, total: nat, a: seq<nat>, l: nat, r: nat)
    requires AgreeOn(o, e, total) && IsSplit(a, Arity(o), total) && l < r < |a|
    ensures PairLine(o, a, l, r) == PairLine(e, a, l, r)
  {
    var x, y := PairLine(o, a, l, r), PairLine(e, a, l, r);
    forall v | 0 <= v < |x| ensures x[v] == y[v] { SumChanged2(a, Exchange(a, l, r, a[l] + a[r], v), l, r); }
  }

  lemma OptimalAgrees(o: Objective, e: Objective, total: nat, a: seq<nat>)
    requires AgreeOn(o, e, total) && IsSplit(a, Arity(o), total)
    ensures FlowOptimal(o, a) <==> FlowOptimal(e, a)
  {
    forall l, r | 0 <= l < r < |a| ensures ExchangeOptimal(o, a, l, r) <==> ExchangeOptimal(e, a, l, r) { LinesAgree(o, e, total, a, l, r); }
  }

  lemma SweptAgrees(o: Objective, e: Objective, total: nat, a: seq<nat>, distance: int)
    requires AgreeOn(o, e, total) && IsSplit(a, Arity(o), total) && Swept(e, a, distance)
    ensures Swept(o, a, distance)
  {
    forall l | 0 <= l < |a| ensures RowSwept(o, a, l, |a|, distance) {
      assert RowSwept(e, a, l, |a|, distance);
      forall r | l < r < |a| ensures NothingNear(o, a, l, r, distance) {
        assert NothingNear(e, a, l, r, distance);
        LinesAgree(o, e, total, a, l, r);
      }
    }
  }

  /** What is executed through concave pools: no exchange improves it, and where
      a branch was dropped it is worth the most. */
  ghost predicate ConcaveEnd(o: Objective, total: nat, f: Flow)
    requires FlowOf(o, total, f.allocation, f.second)
  {
    var out := DirectOutput(o, f.allocation) + f.second.output;
    && out == Value(o, f.allocation) && FlowOptimal(o, f.allocation)
    && (f.replaced ==> Greatest(o, total, out))
  }

  lemma ReplacedIsOptimal(o: Objective, total: nat, f: Flow)
    requires FlowOf(o, total, f.allocation, f.second) && Intermediate(o, f.allocation) == 0 && f.second.output == 0
    requires Greatest(o, total, DirectOutput(o, f.allocation))
    ensures ConcaveEnd(o, total, f)
  {
    BestOfNothing(o.second);
    GreatestIsOptimal(o, f.allocation, total);
  }

  /** The greatest worth is the maximum over both stages. */
  lemma GreatestIsGlobal(o: Objective, total: nat, out: nat)
    requires o.TwoStage? && Greatest(o, total, out)
    ensures GlobalMaximum(o, total, out)
  {
    forall a: seq<nat>, s: seq<nat> | IsSplit(a, Arity(o), total) && IsSplit(s, |o.second|, Intermediate(o, a))
      ensures DirectOutput(o, a) + Output(o.second, s) <= out
    {
      BestBounds(o.second, Intermediate(o, a), s);
      assert Value(o, a) <= out;
    }
  }

  /** Solve and report, for curves already accepted. */
  method Solve(o: Objective, total: nat, settings: Settings) returns (r: Option<Result>, replaced: bool)
    requires o.TwoStage? && ValidSettings(settings)
    ensures r.Some? ==> Balanced(o, total, r.value) && NoDust(o, r.value)
    ensures r.Some? && replaced ==> forall i :: 0 <= i < |r.value.first| ==> r.value.first[i].amountIn == 0
    ensures r.Some? ==> r.value.pairwiseOptimal && (r.value.globallyVerified <==> Verifiable(o, total, settings))
    ensures Arity(o) >= 1 && Searchable(o, total, settings) ==> r.Some?
    ensures r.Some? ==> Answers(o, total, settings, r.value, replaced)
    ensures Solvable(o, total, settings) ==> (r.Some? <==> Executed(o, total, settings).Some?)
    ensures r.Some? ==> FlagMeans(o, total, settings, r.value, replaced)
    ensures r.Some? && ConcaveFamily(o) ==> UpperBound(o.direct, total, r.value.totalOutput) && AllPairsOptimal(o.direct, Ins(r.value.direct))
    ensures r.Some? && (!replaced || AllNondecreasing(o.direct)) &&
              (r.value.globallyVerified || (Affordable(o, total, settings) && AllConcave(o.second)))
            ==> GlobalMaximum(o, total, r.value.totalOutput)
  {
    var ev := new Evaluator(o, total, settings);
    var flow := SearchFlow(ev);
    if flow.None? { return None, false; }
    var result := Report(o, total, settings, flow.value, ev.allSecondVerified);
    if ConcaveFamily(o) { FamilyReport(o, total, result); }
    FlagJustified(o, total, settings, flow.value, result);
    return Some(result), flow.value.replaced;
  }

  /** Where the input goes, over direct and first-stage curves. */
  ghost function Placement(r: Result): seq<nat> { Ins(r.direct) + Ins(r.first) }

  /** With direct pools to fall back on, a branch that takes input yields
      intermediate output, and that yields output. */
  ghost predicate NoDust(o: Objective, r: Result) {
    && o.TwoStage? && |Placement(r)| == Arity(o) && |Ins(r.second)| == |o.second|
    && !Dust(o, Placement(r), r.intermediateOut, Output(o.second, Ins(r.second)))
  }

  /** The result is what the request comes to, its intermediate amount spent as the
      second stage's search answers. */
  ghost predicate Answers(o: Objective, total: nat, settings: Settings, r: Result, replaced: bool)
    requires ValidSettings(settings)
  {
    && o.TwoStage? && |Placement(r)| == Arity(o)
    && Executed(o, total, settings) == Some((Placement(r), replaced)) && Ins(r.second) == SecondSplit(o, settings, Placement(r))
  }

  /** What the flag PairwiseOptimal is worth, in the flow e: none of the exchanges
      improves the placement if all was searched; over two amounts none does
      exactly if a peak of their line is near enough to where bisection ends; and
      otherwise none does that a search of its line would look at. */
  ghost predicate FlagIn(e: Objective, total: nat, settings: Settings, r: Result) {
    && |Placement(r)| == Arity(e) && r.totalOutput == Value(e, Placement(r))
    && if Affordable(e, total, settings) then FlowOptimal(e, Placement(r))
       else if Arity(e) == 2 then FlowOptimal(e, Placement(r)) <==> PeakNear(WholeLine(e, total), settings.neighborhood)
       else Swept(e, Placement(r), settings.neighborhood)
  }

  /** So it is worth in the flow the search sees, and where the worth of every
      allocation is settled in the true one, unless a dust branch was dropped;
      through concave pools no exchange improves the placement in any case. */
  ghost predicate FlagMeans(o: Objective, total: nat, settings: Settings, r: Result, replaced: bool)
    requires ValidSettings(settings)
  {
    && o.TwoStage? && |Placement(r)| == Arity(o)
    && (ConcaveFlow(o) ==> FlowOptimal(o, Placement(r)) && r.totalOutput == Value(o, Placement(r)))
    && (ConcaveFlow(o) && replaced ==> GlobalMaximum(o, total, r.totalOutput))
    && (!replaced ==> FlagIn(Effective(o, settings), total, settings, r))
    && (!replaced && Determined(o, total, settings) ==> FlagIn(o, total, settings, r))
  }

  lemma FlagJustified(o: Objective, total: nat, settings: Settings, f: Flow, r: Result)
    requires ValidSettings(settings) && FlowOk(o, total, settings, f)
    requires Placement(r) == f.allocation && r.totalOutput == DirectOutput(o, f.allocation) + f.second.output
    requires f.outer.exhaustive == Affordable(o, total, settings) && Searched(Effective(o, settings), total, settings, f.outer)
    requires ConcaveFlow(o) ==> ConcaveEnd(o, total, f)
    ensures FlagMeans(o, total, settings, r, f.replaced)
  {
    if ConcaveFlow(o) && f.replaced { GreatestIsGlobal(o, total, r.totalOutput); }
    if !f.replaced {
      FlagSeen(o, total, settings, f, r);
      if Determined(o, total, settings) { FlagAgrees(o, total, settings, f, r); }
    }
  }

  lemma FlagSeen(o: Objective, total: nat, settings: Settings, f: Flow, r: Result)
    requires ValidSettings(settings) && FlowOk(o, total, settings, f) && !f.replaced
    requires Placement(r) == f.allocation && r.totalOutput == DirectOutput(o, f.allocation) + f.second.output
    requires f.outer.exhaustive == Affordable(o, total, settings) && Searched(Effective(o, settings), total, settings, f.outer)
    ensures FlagIn(Effective(o, settings), total, settings, r)
  {
    var e := Effective(o, settings);
    if !f.outer.exhaustive && Arity(o) == 2 {
      SearchIs(e, total, settings, f.allocation);
      FoundSays(e, total, settings, f.allocation);
      LineIsOptimalIff(e, total, settings.neighborhood, f.allocation);
    }
  }

  lemma FlagAgrees(o: Objective, total: nat, settings: Settings, f: Flow, r: Result)
    requires ValidSettings(settings) && FlowOk(o, total, settings, f) && Placement(r) == f.allocation
    requires FlagIn(Effective(o, settings), total, settings, r) && Determined(o, total, settings)
    ensures FlagIn(o, total, settings, r)
  {
    var e := Effective(o, settings);
    assert AgreeOn(o, e, total) by {
      forall a: seq<nat> | IsSplit(a, Arity(o), total) ensures Value(e, a) == Value(o, a) { DeterminedIsSeen(o, total, settings, a); }
    }
    OptimalAgrees(o, e, total, f.allocation);
    if Affordable(o, total, settings) {
    } else if Arity(o) == 2 {
      SingleSplits(2, 1, total);
      LinesAgree(o, e, total, Single(2, 1, total), 0, 1);
    } else {
      SweptAgrees(o, e, total, f.allocation, settings.neighborhood);
    }
  }

  /** Without a branch the report is about the direct pools alone. */
  lemma FamilyReport(o: Objective, total: nat, r: Result)
    requires Balanced(o, total, r) && |o.first| == 0 && UpperBound(o.direct, total, r.totalOutput)
    ensures AllPairsOptimal(o.direct, Ins(r.direct))
  {
    var a, s := Ins(r.direct), Ins(r.second);
    assert Ins(r.first) == [];
    NothingInNothingOut(o.second, s);
    MaximumIsPairOptimal(o.direct, a, total);
  }

  /** The optimizer. A verified result is a maximum over every input split and
      every second-stage split; replaced tells that a dust branch was dropped. */
  method OptimizeTwoStageSplit(request: Request) returns (r: Option<Result>, replaced: bool)
    ensures r.Some? ==> WellPosed(request)
    ensures WellPosed(request) && Searchable(Sorted(request), request.totalInput, EffectiveSettings(request)) ==> r.Some?
    ensures r.Some? ==> r.value.pairwiseOptimal
    ensures r.Some? ==>
              (r.value.globallyVerified <==> Verifiable(Sorted(request), request.totalInput, EffectiveSettings(request)))
    ensures r.Some? ==> Balanced(Sorted(request), request.totalInput, r.value) && NoDust(Sorted(request), r.value)
    ensures r.Some? ==>
              Answers(Sorted(request), request.totalInput, EffectiveSettings(request), r.value, replaced)
    ensures WellPosed(request) && Solvable(Sorted(request), request.totalInput, EffectiveSettings(request)) ==>
              (r.Some? <==> Executed(Sorted(request), request.totalInput, EffectiveSettings(request)).Some?)
    ensures r.Some? ==>
              FlagMeans(Sorted(request), request.totalInput, EffectiveSettings(request), r.value, replaced)
    ensures r.Some? && AllConcave(request.direct + request.first + request.second) ==>
              FlowOptimal(Sorted(request), Placement(r.value))
    ensures r.Some? && |request.first| == 0 && AllConcave(request.direct) ==>
              UpperBound(Sorted(request).direct, request.totalInput, r.value.totalOutput) &&
              AllPairsOptimal(Sorted(request).direct, Ins(r.value.direct))
    ensures r.Some? && replaced ==> forall i :: 0 <= i < |r.value.first| ==> r.value.first[i].amountIn == 0
    ensures r.Some? && r.value.globallyVerified && (!replaced || AllNondecreasing(request.direct))
            ==> GlobalMaximum(Sorted(request), request.totalInput, r.value.totalOutput)
    ensures r.Some? && AllConcave(request.second) && (!replaced || AllNondecreasing(request.direct)) &&
              Affordable(Sorted(request), request.totalInput, EffectiveSettings(request))
            ==> GlobalMaximum(Sorted(request), request.totalInput, r.value.totalOutput)
  {
    if request.totalInput <= 0 { return None, false; }
    if |request.direct| == 0 && |request.first| == 0 { return None, false; }
    if (|request.first| == 0) != (|request.second| == 0) { return None, false; }
    var settings := EffectiveSettings(request);
    if !ValidSettings(settings) { return None, false; }
    var direct := NewCurves(request.direct);
    if direct.None? { return None, false; }
    var first := NewCurves(request.first);
    if first.None? { return None, false; }
    var second := NewCurves(request.second);
    if second.None? { return None, false; }
    var unique := CheckUniqueIDs(direct.value + first.value + second.value);
    if !unique { return None, false; }
    SortedKeeps(request);
    r, replaced := Solve(TwoStage(direct.value, first.value, second.value), request.totalInput, settings);
  }

  /** What the optimizer demands of a request. */
  ghost predicate WellPosed(request: Request) {
    && request.totalInput > 0 && |request.direct| + |request.first| > 0 && (|request.first| == 0 <==> |request.second| == 0)
    && ValidSettings(EffectiveSettings(request)) && Accepted(Sorted(request))
  }

  /** Curve IDs are distinct across the families and none is blank. */
  ghost predicate Accepted(o: Objective) {
    && o.TwoStage? && UniqueIDs(o.direct + o.first + o.second)
    && NoneBlank(o.direct) && NoneBlank(o.first) && NoneBlank(o.second)
  }

  /** The curves as the search sees them: each family sorted by ID. */
  ghost function Sorted(request: Request): Objective {
    TwoStage(SortCurves(request.direct), SortCurves(request.first), SortCurves(request.second))
  }

  lemma SortedKeeps(request: Request)
    ensures |Sorted(request).direct| == |request.direct| && |Sorted(request).first| == |request.first|
    ensures |Sorted(request).second| == |request.second|
    ensures AllNondecreasing(request.direct) ==> AllNondecreasing(Sorted(request).direct)
    ensures AllConcave(request.second) ==> AllConcave(Sorted(request).second)
    ensures AllConcave(request.direct) ==> AllConcave(Sorted(request).direct)
    ensures AllConcave(request.direct + request.first + request.second) ==> ConcaveFlow(Sorted(request))
  {
    SortCurvesKeeps(request.direct);
    SortCurvesKeeps(request.first);
    SortCurvesKeeps(request.second);
    var all := request.direct + request.first + request.second;
    assert AllConcave(all) ==> AllConcave(request.direct) && AllConcave(request.first) && AllConcave(request.second) by {
      if AllConcave(all) { AllConcaveParts(request.direct, request.first, request.second); }
    }
    SortedProperties(request.direct);
    SortedProperties(request.first);
    SortedProperties(request.second);
  }

  lemma AllConcaveParts(x: seq<Curve>, y: seq<Curve>, z: seq<Curve>)
    requires AllConcave(x + y + z)
    ensures AllConcave(x) && AllConcave(y) && AllConcave(z)
  {
    var all := x + y + z;
    forall i | 0 <= i < |x| ensures Concave(x[i]) { assert all[i] == x[i]; }
    forall i | 0 <= i < |y| ensures Concave(y[i]) { assert all[|x| + i] == y[i]; }
    forall i | 0 <= i < |z| ensures Concave(z[i]) { assert all[|x| + |y| + i] == z[i]; }
  }

  lemma SortedProperties(curves: seq<Curve>)
    ensures AllNondecreasing(curves) ==> AllNondecreasing(SortCurves(curves))
    ensures AllConcave(curves) ==> AllConcave(SortCurves(curves))
  {
    SortCurvesKeeps(curves);
    var s := SortCurves(curves);
    forall i | 0 <= i < |s| ensures exists k :: 0 <= k < |curves| && curves[k] == s[i] {
      assert s[i] in multiset(curves);
    }
  }

  /** Write the chosen flow down with what every curve quotes for it. */
  method Report(o: Objective, total: nat, ghost settings: Settings, flow: Flow, allSecondVerified: bool) returns (r: Result)
    requires ValidSettings(settings) && FlowOk(o, total, settings, flow)
    ensures Balanced(o, total, r) && Placement(r) == flow.allocation && NoDust(o, r) && Ins(r.second) == flow.second.allocations
    ensures r.totalOutput == DirectOutput(o, flow.allocation) + flow.second.output
    ensures r.globallyVerified == (flow.outer.exhaustive && allSecondVerified) && r.pairwiseOptimal == flow.outer.pairwiseOptimal
    ensures flow.replaced ==> forall i :: 0 <= i < |r.first| ==> r.first[i].amountIn == 0
  {
    var a := flow.allocation;
    assert a == a[..|o.direct|] + a[|o.direct|..];
    SumAppend(a[..|o.direct|], a[|o.direct|..]);
    var direct := Materialize(o.direct, a[..|o.direct|]);
    var first := Materialize(o.first, a[|o.direct|..]);
    var second := Materialize(o.second, flow.second.allocations);
    var directOut := SumOutputs(o.direct, a[..|o.direct|]);
    var intermediate := SumOutputs(o.first, a[|o.direct|..]);
    r := Result(direct, first, second, total, intermediate, directOut + flow.second.output,
                flow.outer.pairwiseOptimal, flow.outer.exhaustive && allSecondVerified);
  }
}
