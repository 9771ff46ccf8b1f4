/** Solving one family for an exact amount on the grid, remainder included, and
    the shortcuts for one and two curves. */
module GridFamily {
  import opened Common
  import opened Allocations
  import opened Ranking
  import opened Climbs
  import opened SplitSolver
  import opened GridSplit

  /** Who may receive the remainder. */
  predicate Recipient(remainder: nat, count: nat, r: int) {
    if remainder == 0 then r == -1 else 0 <= r < count
  }

  ghost predicate CoversGrid(curves: seq<Curve>, g: Grid, divisions: nat, p: Candidate) {
    forall u: seq<nat> {:trigger NotBeatenBy(curves, g, u, p)} ::
      IsSplit(u, |curves|, divisions) ==> NotBeatenBy(curves, g, u, p)
  }

  ghost predicate OnFamilyGrid(curves: seq<Curve>, quantum: nat, remainder: nat, divisions: nat, p: Candidate) {
    exists r :: Recipient(remainder, |curves|, r) && OnGrid(curves, Grid(quantum, remainder, r), divisions, p)
  }

  /** p is best over every recipient of the remainder and every grid split. */
  ghost predicate FamilyBest(curves: seq<Curve>, quantum: nat, remainder: nat, divisions: nat, p: Candidate) {
    && OnFamilyGrid(curves, quantum, remainder, divisions, p)
    && forall r :: Recipient(remainder, |curves|, r) ==> CoversGrid(curves, Grid(quantum, remainder, r), divisions, p)
  }

  /** The declared grid has one best plan, whichever way it is searched for. */
  lemma FamilyBestUnique(curves: seq<Curve>, quantum: nat, remainder: nat, divisions: nat, p: Candidate, q: Candidate)
    requires FamilyBest(curves, quantum, remainder, divisions, p) && FamilyBest(curves, quantum, remainder, divisions, q)
    ensures p == q
  {
    NotBeatenOnGrid(curves, quantum, remainder, divisions, p, q);
    NotBeatenOnGrid(curves, quantum, remainder, divisions, q, p);
    FamilyGridShape(curves, quantum, remainder, divisions, p);
    FamilyGridShape(curves, quantum, remainder, divisions, q);
    if p.allocation != q.allocation { BeatsTotal(p, q); }
  }

  lemma NotBeatenOnGrid(curves: seq<Curve>, quantum: nat, remainder: nat, divisions: nat, p: Candidate, q: Candidate)
    requires OnFamilyGrid(curves, quantum, remainder, divisions, p) && FamilyBest(curves, quantum, remainder, divisions, q)
    ensures !Beats(p, q)
  {
    var r :| Recipient(remainder, |curves|, r) && OnGrid(curves, Grid(quantum, remainder, r), divisions, p);
    var g := Grid(quantum, remainder, r);
    var u: seq<nat> :| IsSplit(u, |curves|, divisions) && p == PlanAt(curves, g, u);
    assert CoversGrid(curves, g, divisions, q);
    assert NotBeatenBy(curves, g, u, q);
  }

  /** Plans on the grid place exactly the total and report their real output. */
  lemma FamilyGridShape(curves: seq<Curve>, quantum: nat, remainder: nat, divisions: nat, p: Candidate)
    requires OnFamilyGrid(curves, quantum, remainder, divisions, p)
    ensures IsSplit(p.allocation, |curves|, quantum * divisions + remainder)
    ensures p.value == Output(curves, p.allocation)
  {
    var r :| Recipient(remainder, |curves|, r) && OnGrid(curves, Grid(quantum, remainder, r), divisions, p);
    var g := Grid(quantum, remainder, r);
    OnGridShape(curves, g, divisions, p);
  }

  lemma OnGridShape(curves: seq<Curve>, g: Grid, divisions: nat, p: Candidate)
    requires OnGrid(curves, g, divisions, p)
    ensures |p.allocation| == |curves| && p.value == Output(curves, p.allocation)
    ensures Sum(p.allocation) == g.quantum * divisions + if 0 <= g.recipient < |curves| then g.remainder else 0
  {
    var u: seq<nat> :| IsSplit(u, |curves|, divisions) && p == PlanAt(curves, g, u);
    AmountsSum(g, u);
  }

  /** best, so far over the recipients below bound. */
  ghost predicate BestBelow(curves: seq<Curve>, quantum: nat, remainder: nat, divisions: nat, bound: int, best: Option<Candidate>) {
    && (best.Some? ==> OnFamilyGrid(curves, quantum, remainder, divisions, best.value))
    && forall r :: Recipient(remainder, |curves|, r) && r < bound ==>
         best.Some? && CoversGrid(curves, Grid(quantum, remainder, r), divisions, best.value)
  }

  lemma BestBelowNext(curves: seq<Curve>, quantum: nat, remainder: nat, divisions: nat, r: int,
                      before: Option<Candidate>, after: Candidate)
    requires Recipient(remainder, |curves|, r) && BestBelow(curves, quantum, remainder, divisions, r, before)
    requires before == Some(after) || OnGrid(curves, Grid(quantum, remainder, r), divisions, after)
    requires before.Some? ==> !Beats(before.value, after)
    requires CoversGrid(curves, Grid(quantum, remainder, r), divisions, after)
    ensures BestBelow(curves, quantum, remainder, divisions, r + 1, Some(after))
  {
    forall s | Recipient(remainder, |curves|, s) && s < r + 1
      ensures CoversGrid(curves, Grid(quantum, remainder, s), divisions, after)
    {
      if s < r {
        var g := Grid(quantum, remainder, s);
        forall u: seq<nat> | IsSplit(u, |curves|, divisions) ensures NotBeatenBy(curves, g, u, after) {
          assert CoversGrid(curves, g, divisions, before.value);
          assert NotBeatenBy(curves, g, u, before.value);
          UnbeatenTransitive(PlanAt(curves, g, u), before.value, after);
        }
      }
    }
  }

  lemma BestBelowAll(curves: seq<Curve>, quantum: nat, remainder: nat, divisions: nat, best: Option<Candidate>)
    requires |curves| > 0
    requires BestBelow(curves, quantum, remainder, divisions, if remainder == 0 then 0 else |curves|, best)
    ensures best.Some? && FamilyBest(curves, quantum, remainder, divisions, best.value)
  {
    assert Recipient(remainder, |curves|, if remainder == 0 then -1 else 0);
  }

  // ---------- the general program ----------

  /** One dynamic program, or one for each possible recipient. */
  method GeneralBest(quantum: nat, remainder: nat, divisions: nat, curves: seq<Curve>) returns (best: Candidate)
    requires |curves| > 0
    ensures FamilyBest(curves, quantum, remainder, divisions, best)
  {
    if remainder == 0 {
      var plans := GridFamilyPlansWithRemainder(quantum, 0, divisions, curves, -1);
      assert CellOk(curves, Grid(quantum, 0, -1), divisions, plans[divisions]);
      best := plans[divisions].value;
      assert Recipient(0, |curves|, -1);
      return;
    }
    var found: Option<Candidate> := None;
    for recipient := 0 to |curves|
      invariant BestBelow(curves, quantum, remainder, divisions, recipient, found)
    {
      var plans := GridFamilyPlansWithRemainder(quantum, remainder, divisions, curves, recipient);
      assert CellOk(curves, Grid(quantum, remainder, recipient), divisions, plans[divisions]);
      var plan := plans[divisions].value;
      ghost var before := found;
      if Better(Some(plan), found) {
        if before.Some? { BeatsAsymmetric(plan, before.value); }
        found := Some(plan);
      } else {
        BeatsIrreflexive(found.value);
        CoverKept(curves, Grid(quantum, remainder, recipient), divisions, plan, found.value);
      }
      BestBelowNext(curves, quantum, remainder, divisions, recipient, before, found.value);
    }
    BestBelowAll(curves, quantum, remainder, divisions, found);
    best := found.value;
  }

  lemma BeatsAsymmetric(x: Candidate, y: Candidate)
    requires Beats(x, y)
    ensures !Beats(y, x)
  {
    if Beats(y, x) { BeatsTransitive(x, y, x); BeatsIrreflexive(x); }
  }

  lemma CoverKept(curves: seq<Curve>, g: Grid, divisions: nat, plan: Candidate, best: Candidate)
    requires CoversGrid(curves, g, divisions, plan) && !Beats(plan, best)
    ensures CoversGrid(curves, g, divisions, best)
  {
    forall u: seq<nat> | IsSplit(u, |curves|, divisions) ensures NotBeatenBy(curves, g, u, best) {
      assert NotBeatenBy(curves, g, u, plan);
      UnbeatenTransitive(PlanAt(curves, g, u), plan, best);
    }
  }

  // ---------- the shortcuts ----------

  ghost predicate LeftCovered(curves: seq<Curve>, g: Grid, divisions: nat, left: nat, p: Candidate)
    requires |curves| == 2 && left <= divisions
  {
    NotBeatenBy(curves, g, [left, divisions - left], p)
  }

  ghost predicate ScannedBelow(curves: seq<Curve>, g: Grid, divisions: nat, bound: nat, p: Candidate)
    requires |curves| == 2
  {
    forall l: nat {:trigger LeftCovered(curves, g, divisions, l, p)} ::
      l < bound && l <= divisions ==> LeftCovered(curves, g, divisions, l, p)
  }

  lemma ScanStep(curves: seq<Curve>, g: Grid, divisions: nat, left: nat, before: Option<Candidate>, after: Candidate)
    requires |curves| == 2 && left <= divisions
    requires left > 0 ==> before.Some? && ScannedBelow(curves, g, divisions, left, before.value)
    requires before.Some? ==> !Beats(before.value, after)
    requires !Beats(PlanAt(curves, g, [left, divisions - left]), after)
    ensures ScannedBelow(curves, g, divisions, left + 1, after)
  {
    forall l: nat | l < left + 1 && l <= divisions ensures LeftCovered(curves, g, divisions, l, after) {
      if l < left {
        assert LeftCovered(curves, g, divisions, l, before.value);
        UnbeatenTransitive(PlanAt(curves, g, [l, divisions - l]), before.value, after);
      }
    }
  }

  lemma ScannedAll(curves: seq<Curve>, g: Grid, divisions: nat, p: Candidate)
    requires |curves| == 2 && ScannedBelow(curves, g, divisions, divisions + 1, p)
    ensures CoversGrid(curves, g, divisions, p)
  {
    forall u: seq<nat> | IsSplit(u, 2, divisions) ensures NotBeatenBy(curves, g, u, p) {
      SumOfTwo(u);
      assert u == [u[0], divisions - u[0]];
      assert LeftCovered(curves, g, divisions, u[0], p);
    }
  }

  /** Two curves: scan how many units the first one takes. */
  method ScanTwo(curves: seq<Curve>, g: Grid, divisions: nat, best: Option<Candidate>) returns (best': Candidate)
    requires |curves| == 2
    ensures best == Some(best') || OnGrid(curves, g, divisions, best')
    ensures best.Some? ==> !Beats(best.value, best')
    ensures CoversGrid(curves, g, divisions, best')
  {
    var found := best;
    if best.Some? { BeatsIrreflexive(best.value); }
    for leftUnits := 0 to divisions + 1
      invariant found.Some? ==> found == best || OnGrid(curves, g, divisions, found.value)
      invariant best.Some? ==> found.Some? && !Beats(best.value, found.value)
      invariant leftUnits > 0 ==> found.Some? && ScannedBelow(curves, g, divisions, leftUnits, found.value)
    {
      var left, right := GridAmount(g, 0, leftUnits), GridAmount(g, 1, divisions - leftUnits);
      var candidate := Candidate([left, right], At(curves[0], left) + At(curves[1], right));
      TwoCurvePlan(curves, g, divisions, leftUnits);
      ghost var before := found;
      if Better(Some(candidate), found) { found := Some(candidate); }
      if before.Some? { KeepsBetter(before.value, candidate, found.value); } else { BeatsIrreflexive(candidate); }
      ScanStep(curves, g, divisions, leftUnits, before, found.value);
      if best.Some? { UnbeatenTransitive(best.value, before.value, found.value); }
    }
    best' := found.value;
    ScannedAll(curves, g, divisions, best');
  }

  lemma KeepsBetter(before: Candidate, candidate: Candidate, after: Candidate)
    requires after == if Beats(candidate, before) then candidate else before
    ensures !Beats(before, after) && !Beats(candidate, after)
  {
    BeatsIrreflexive(before);
    BeatsIrreflexive(candidate);
    if Beats(candidate, before) { BeatsAsymmetric(candidate, before); }
  }

  lemma TwoCurvePlan(curves: seq<Curve>, g: Grid, divisions: nat, l: nat)
    requires |curves| == 2 && l <= divisions
    ensures PlanAt(curves, g, [l, divisions - l])
         == Candidate([GridAmount(g, 0, l), GridAmount(g, 1, divisions - l)],
                      At(curves[0], GridAmount(g, 0, l)) + At(curves[1], GridAmount(g, 1, divisions - l)))
    ensures IsSplit([l, divisions - l], 2, divisions)
    ensures OnGrid(curves, g, divisions, PlanAt(curves, g, [l, divisions - l]))
  {
    SumOfTwo([l, divisions - l]);
    var a := [GridAmount(g, 0, l), GridAmount(g, 1, divisions - l)];
    assert Amounts(g, [l, divisions - l]) == a;
    OutputOfTwo(curves, a);
  }

  /** A grid on which every split is the same plan. */
  lemma OnlyPlan(curves: seq<Curve>, g: Grid, divisions: nat, p: Candidate, u: seq<nat>)
    requires IsSplit(u, |curves|, divisions) && PlanAt(curves, g, u) == p
    requires forall v: seq<nat> :: IsSplit(v, |curves|, divisions) ==> v == u
    ensures OnGrid(curves, g, divisions, p) && CoversGrid(curves, g, divisions, p)
  {
    BeatsIrreflexive(p);
  }

  lemma OneCurveCovers(curves: seq<Curve>, g: Grid, divisions: nat, p: Candidate)
    requires |curves| == 1
    requires |p.allocation| == 1 && p.allocation[0] == GridAmount(g, 0, divisions) && p.value == At(curves[0], p.allocation[0])
    ensures OnGrid(curves, g, divisions, p) && CoversGrid(curves, g, divisions, p)
  {
    var u: seq<nat> := [divisions];
    assert [] + [divisions] == u;
    SumSnoc([], divisions);
    forall v: seq<nat> | IsSplit(v, 1, divisions) ensures v == u {
      assert Sum(v) == Sum(v[..0]) + v[0];
    }
    OneCurvePlan(curves, g, u, divisions, p);
    OnlyPlan(curves, g, divisions, p, u);
  }

  lemma OneCurvePlan(curves: seq<Curve>, g: Grid, u: seq<nat>, divisions: nat, p: Candidate)
    requires |curves| == 1 && |u| == 1 && u[0] == divisions
    requires |p.allocation| == 1 && p.allocation[0] == GridAmount(g, 0, divisions) && p.value == At(curves[0], p.allocation[0])
    ensures PlanAt(curves, g, u) == p
  {
    assert Amounts(g, u) == p.allocation;
    assert Output(curves, p.allocation) == Output(curves[..0], p.allocation[..0]) + p.value;
  }

  lemma OneCurveBest(curves: seq<Curve>, quantum: nat, remainder: nat, divisions: nat, p: Candidate)
    requires |curves| == 1 && |p.allocation| == 1
    requires p.allocation[0] == quantum * divisions + remainder && p.value == At(curves[0], p.allocation[0])
    ensures FamilyBest(curves, quantum, remainder, divisions, p)
  {
    var r := if remainder == 0 then -1 else 0;
    assert Recipient(remainder, 1, r);
    OneCurveCovers(curves, Grid(quantum, remainder, r), divisions, p);
  }

  /** Best plan for quantum * divisions + remainder on the declared grid. */
  method GridFamilyBestWithRemainder(quantum: nat, remainder: nat, divisions: nat, curves: seq<Curve>)
    returns (best: Option<Candidate>)
    ensures best.None? <==> |curves| == 0
    ensures best.Some? ==> FamilyBest(curves, quantum, remainder, divisions, best.value)
    ensures best.Some? ==> IsSplit(best.value.allocation, |curves|, quantum * divisions + remainder)
  {
    if |curves| == 0 { return None; }
    if |curves| == 1 {
      var amount := quantum * divisions + remainder;
      best := Some(Candidate([amount], At(curves[0], amount)));
      OneCurveBest(curves, quantum, remainder, divisions, best.value);
    } else if |curves| == 2 {
      var found: Option<Candidate> := None;
      var recipient := if remainder > 0 then 0 else -1;
      var last := if remainder > 0 then 1 else -1;
      while recipient <= last
        invariant (if remainder > 0 then 0 else -1) <= recipient <= last + 1
        invariant BestBelow(curves, quantum, remainder, divisions, recipient, found)
      {
        var plan := ScanTwo(curves, Grid(quantum, remainder, recipient), divisions, found);
        BestBelowNext(curves, quantum, remainder, divisions, recipient, found, plan);
        found := Some(plan);
        recipient := recipient + 1;
      }
      BestBelowAll(curves, quantum, remainder, divisions, found);
      best := found;
    } else {
      var plan := GeneralBest(quantum, remainder, divisions, curves);
      best := Some(plan);
    }
    FamilyGridShape(curves, quantum, remainder, divisions, best.value);
  }

  /** The shortcuts return the plan of the general program, tie-break included. */
  method ShortcutAgreesWithGeneral(quantum: nat, remainder: nat, divisions: nat, curves: seq<Curve>)
    returns (shortcut: Option<Candidate>, general: Candidate)
    requires |curves| > 0
    ensures shortcut == Some(general)
  {
    shortcut := GridFamilyBestWithRemainder(quantum, remainder, divisions, curves);
    general := GeneralBest(quantum, remainder, divisions, curves);
    FamilyBestUnique(curves, quantum, remainder, divisions, shortcut.value, general);
  }

  /** The grid at quantum 1 and the exhaustive search return one allocation. */
  method UnitGridAgreesWithExhaustive(total: nat, curves: seq<Curve>, settings: Settings)
    returns (grid: Candidate, exhaustive: StagePlan)
    requires |curves| >= 1 && ValidSettings(settings) && Visits(|curves|, total) <= settings.exhaustiveLimit
    ensures grid.allocation == exhaustive.allocations && grid.value == exhaustive.output
  {
    var plans := GridFamilyPlans(1, total, curves);
    assert CellOk(curves, Grid(1, 0, -1), total, plans[total]);
    grid := plans[total].value;
    UnitGridIsExhaustive(curves, total, grid);
    var plan := OptimizeIndependent(total, curves, settings);
    exhaustive := plan.value;
    LeastBestUnique(curves, total, grid, Candidate(exhaustive.allocations, exhaustive.output));
  }
}
