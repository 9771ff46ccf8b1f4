/** The bounded grid optimizer for one family of curves: a dynamic program over
    equal quanta, with the indivisible rest given to one curve in turn. */
module GridSplit {
  import opened Common
  import opened Allocations
  import opened Ranking
  import opened Climbs
  import opened SplitSolver
  import Text

  /** Amounts are multiples of quantum; recipient, if it is a curve, also gets
      the remainder. */
  datatype Grid = Grid(quantum: nat, remainder: nat, recipient: int)

  function GridAmount(g: Grid, curve: nat, units: nat): nat {
    g.quantum * units + if curve == g.recipient then g.remainder else 0
  }

  function Amounts(g: Grid, units: seq<nat>): (a: seq<nat>)
    ensures |a| == |units| && forall i :: 0 <= i < |a| ==> a[i] == GridAmount(g, i, units[i])
  {
    seq(|units|, i requires 0 <= i < |units| => GridAmount(g, i, units[i]))
  }

  /** The plan that gives each curve its units. */
  function PlanAt(curves: seq<Curve>, g: Grid, units: seq<nat>): Candidate
    requires |curves| == |units|
  {
    Candidate(Amounts(g, units), Output(curves, Amounts(g, units)))
  }

  /** p is no worse than giving units. */
  ghost predicate NotBeatenBy(curves: seq<Curve>, g: Grid, units: seq<nat>, p: Candidate)
    requires |curves| == |units|
  {
    !Beats(PlanAt(curves, g, units), p)
  }

  ghost predicate OnGrid(curves: seq<Curve>, g: Grid, total: nat, p: Candidate) {
    exists u: seq<nat> :: IsSplit(u, |curves|, total) && p == PlanAt(curves, g, u)
  }

  /** p is the best grid plan for total units: most output, then least key. */
  ghost predicate BestOnGrid(curves: seq<Curve>, g: Grid, total: nat, p: Candidate) {
    && OnGrid(curves, g, total, p)
    && forall u: seq<nat> {:trigger NotBeatenBy(curves, g, u, p)} ::
         IsSplit(u, |curves|, total) ==> NotBeatenBy(curves, g, u, p)
  }

  /** A grid has one best plan. */
  lemma BestOnGridUnique(curves: seq<Curve>, g: Grid, total: nat, p: Candidate, q: Candidate)
    requires BestOnGrid(curves, g, total, p) && BestOnGrid(curves, g, total, q)
    ensures p == q
  {
    var u: seq<nat> :| IsSplit(u, |curves|, total) && p == PlanAt(curves, g, u);
    var v: seq<nat> :| IsSplit(v, |curves|, total) && q == PlanAt(curves, g, v);
    assert NotBeatenBy(curves, g, u, q) && NotBeatenBy(curves, g, v, p);
    if p.allocation != q.allocation { BeatsTotal(p, q); }
  }

  lemma Distribute(q: nat, a: nat, b: nat)
    ensures q * (a + b) == q * a + q * b
  {
  }

  /** Placing the units places quantum each, and the remainder once. */
  lemma {:induction false} AmountsSum(g: Grid, units: seq<nat>)
    ensures Sum(Amounts(g, units)) == g.quantum * Sum(units) + if 0 <= g.recipient < |units| then g.remainder else 0
  {
    if |units| > 0 {
      var n := |units| - 1;
      AmountsSum(g, units[..n]);
      var a := Amounts(g, units);
      assert a[..n] == Amounts(g, units[..n]);
      Distribute(g.quantum, Sum(units[..n]), units[n]);
    } else {
      assert Amounts(g, units) == [];
    }
  }

  /** At quantum 1 the grid is every unit split, so its best plan is what the
      exhaustive search of the same curves finds. */
  lemma UnitGridIsExhaustive(curves: seq<Curve>, total: nat, p: Candidate)
    ensures BestOnGrid(curves, Grid(1, 0, -1), total, p) <==> LeastBest(curves, total, p)
  {
    var g := Grid(1, 0, -1);
    forall u: seq<nat> ensures Amounts(g, u) == u { }
    if BestOnGrid(curves, g, total, p) {
      forall a: seq<nat> | IsSplit(a, |curves|, total) ensures !Beats(Candidate(a, Output(curves, a)), p) {
        assert NotBeatenBy(curves, g, a, p);
      }
    }
    if LeastBest(curves, total, p) {
      assert p == PlanAt(curves, g, p.allocation);
    }
  }

  // ---------- the dynamic program ----------

  /** A plan with one more curve at its end. */
  function Extend(p: Candidate, amount: nat, output: nat): Candidate {
    Candidate(p.allocation + [amount], p.value + output)
  }

  /** Extending two plans alike keeps their order, tie-break included. */
  lemma ExtendUnbeaten(x: Candidate, y: Candidate, amount: nat, output: nat)
    requires |x.allocation| == |y.allocation| && !Beats(x, y)
    ensures !Beats(Extend(x, amount, output), Extend(y, amount, output))
  {
    var a, b := x.allocation, y.allocation;
    if x.value == y.value {
      Text.KeyOrder(a, b);
      Text.KeyOrder(a + [amount], b + [amount]);
      Text.KeyLessTotal(a, b);
      if a == b {
        Text.KeyLessIrreflexive(a + [amount]);
      } else {
        Text.KeyLessAppend(b, a, amount);
        if Text.KeyLess(a + [amount], b + [amount]) {
          Text.KeyLessTransitive(a + [amount], b + [amount], a + [amount]);
          Text.KeyLessIrreflexive(a + [amount]);
        }
      }
    }
  }

  /** A plan over n + 1 curves is a plan over n curves, extended. */
  lemma PlanAtExtends(curves: seq<Curve>, g: Grid, u: seq<nat>)
    requires |u| == |curves| > 0
    ensures var n := |u| - 1;
            PlanAt(curves, g, u)
            == Extend(PlanAt(curves[..n], g, u[..n]), GridAmount(g, n, u[n]), At(curves[n], GridAmount(g, n, u[n])))
  {
    var n := |u| - 1;
    assert Amounts(g, u)[..n] == Amounts(g, u[..n]);
    assert Amounts(g, u) == Amounts(g, u[..n]) + [GridAmount(g, n, u[n])];
  }

  /** Best among the plans whose last curve gets at most bound units. */
  ghost predicate BestUpTo(curves: seq<Curve>, g: Grid, total: nat, bound: int, p: Option<Candidate>) {
    && (p.Some? ==> OnGrid(curves, g, total, p.value))
    && (forall u: seq<nat> {:trigger IsSplit(u, |curves|, total)} ::
          |curves| > 0 && IsSplit(u, |curves|, total) && u[|curves| - 1] <= bound
          ==> p.Some? && NotBeatenBy(curves, g, u, p.value))
  }

  function Better(candidate: Option<Candidate>, current: Option<Candidate>): bool {
    candidate.Some? && (current.None? || Beats(candidate.value, current.value))
  }

  /** What the table of the first n curves says about total units. */
  ghost predicate CellOk(curves: seq<Curve>, g: Grid, total: nat, cell: Option<Candidate>) {
    if |curves| == 0 && total > 0 then cell.None?
    else cell.Some? && BestOnGrid(curves, g, total, cell.value)
  }

  lemma EmptyCell(curves: seq<Curve>, g: Grid)
    requires curves == []
    ensures CellOk(curves, g, 0, Some(Candidate([], 0)))
  {
    assert PlanAt(curves, g, []) == Candidate([], 0);
    forall u: seq<nat> | IsSplit(u, 0, 0) ensures NotBeatenBy(curves, g, u, Candidate([], 0)) {
      BeatsIrreflexive(Candidate([], 0));
    }
  }

  /** The candidate a cell offers when the last curve takes x units: every plan
      with that last share is no better. */
  lemma OfferCovers(curves: seq<Curve>, g: Grid, total: nat, x: nat, prefix: Candidate, u: seq<nat>)
    requires |curves| > 0 && x <= total
    requires BestOnGrid(curves[..|curves| - 1], g, total - x, prefix)
    requires IsSplit(u, |curves|, total) && u[|curves| - 1] == x
    ensures NotBeatenBy(curves, g, u,
              Extend(prefix, GridAmount(g, |curves| - 1, x), At(curves[|curves| - 1], GridAmount(g, |curves| - 1, x))))
  {
    var n := |curves| - 1;
    PlanAtExtends(curves, g, u);
    assert NotBeatenBy(curves[..n], g, u[..n], prefix);
    ExtendUnbeaten(PlanAt(curves[..n], g, u[..n]), prefix, GridAmount(g, n, x), At(curves[n], GridAmount(g, n, x)));
  }

  lemma OfferOnGrid(curves: seq<Curve>, g: Grid, total: nat, x: nat, prefix: Candidate)
    requires |curves| > 0 && x <= total && OnGrid(curves[..|curves| - 1], g, total - x, prefix)
    ensures OnGrid(curves, g, total,
              Extend(prefix, GridAmount(g, |curves| - 1, x), At(curves[|curves| - 1], GridAmount(g, |curves| - 1, x))))
  {
    var n := |curves| - 1;
    var v: seq<nat> :| IsSplit(v, n, total - x) && prefix == PlanAt(curves[..n], g, v);
    var u := v + [x];
    SumSnoc(v, x);
    assert u[..n] == v;
    PlanAtExtends(curves, g, u);
    assert IsSplit(u, |curves|, total);
  }

  /** What the cell is offered when the newest curve takes x units. */
  function Offer(curves: seq<Curve>, g: Grid, x: nat, prefix: Option<Candidate>): Option<Candidate>
    requires |curves| > 0
  {
    if prefix.None? then None
    else Some(Extend(prefix.value, GridAmount(g, |curves| - 1, x), At(curves[|curves| - 1], GridAmount(g, |curves| - 1, x))))
  }

  lemma OfferMade(curves: seq<Curve>, g: Grid, total: nat, x: nat, prefix: Option<Candidate>, u: seq<nat>)
    requires |curves| > 0 && x <= total && CellOk(curves[..|curves| - 1], g, total - x, prefix)
    requires IsSplit(u, |curves|, total) && u[|curves| - 1] == x
    ensures prefix.Some? && NotBeatenBy(curves, g, u, Offer(curves, g, x, prefix).value)
  {
    var n := |curves| - 1;
    assert Sum(u) == Sum(u[..n]) + x;
    if n == 0 { assert u[..n] == []; }
    OfferCovers(curves, g, total, x, prefix.value, u);
  }

  /** One more share considered for a cell. */
  lemma CellStep(curves: seq<Curve>, g: Grid, total: nat, x: nat, before: Option<Candidate>, prefix: Option<Candidate>)
    requires |curves| > 0 && x <= total
    requires CellOk(curves[..|curves| - 1], g, total - x, prefix)
    requires BestUpTo(curves, g, total, x - 1, before)
    ensures var offer := Offer(curves, g, x, prefix);
            BestUpTo(curves, g, total, x, if Better(offer, before) then offer else before)
  {
    var n := |curves| - 1;
    var offer := Offer(curves, g, x, prefix);
    var after := if Better(offer, before) then offer else before;
    if offer.Some? { OfferOnGrid(curves, g, total, x, prefix.value); }
    forall u: seq<nat> | IsSplit(u, |curves|, total) && u[n] <= x
      ensures after.Some? && NotBeatenBy(curves, g, u, after.value)
    {
      if u[n] == x { OfferMade(curves, g, total, x, prefix, u); }
      BetterCovers(PlanAt(curves, g, u), offer, before);
    }
  }

  /** The better of two plans is beaten by nothing that fails to beat either. */
  lemma BetterCovers(plan: Candidate, offer: Option<Candidate>, before: Option<Candidate>)
    requires (offer.Some? && !Beats(plan, offer.value)) || (before.Some? && !Beats(plan, before.value))
    ensures var after := if Better(offer, before) then offer else before;
            after.Some? && !Beats(plan, after.value)
  {
    if offer.Some? && before.Some? {
      if Better(offer, before) {
        if !Beats(plan, before.value) { NoWorseThanBeaten(plan, before.value, offer.value); }
      } else {
        if !Beats(plan, offer.value) { UnbeatenTransitive(plan, offer.value, before.value); }
      }
    }
  }

  lemma NoWorseThanBeaten(x: Candidate, y: Candidate, z: Candidate)
    requires !Beats(x, y) && Beats(z, y)
    ensures !Beats(x, z)
  {
    if Beats(x, z) { BeatsTransitive(x, z, y); }
  }

  lemma BestUpToAll(curves: seq<Curve>, g: Grid, total: nat, p: Option<Candidate>)
    requires |curves| > 0 && BestUpTo(curves, g, total, total, p)
    ensures CellOk(curves, g, total, p)
  {
    var n := |curves| - 1;
    SingleSplits(|curves|, n, total);
    assert IsSplit(Single(|curves|, n, total), |curves|, total);
    forall u: seq<nat> | IsSplit(u, |curves|, total) ensures NotBeatenBy(curves, g, u, p.value) {
      SumAtLeast(u, n);
    }
  }

  /** Fill one cell: try every share of the newest curve. */
  method FillCell(curves: seq<Curve>, g: Grid, previous: seq<Option<Candidate>>, quotes: seq<nat>, total: nat)
    returns (cell: Option<Candidate>)
    requires |curves| > 0 && total < |previous| && total < |quotes|
    requires forall t :: 0 <= t < |previous| ==> CellOk(curves[..|curves| - 1], g, t, previous[t])
    requires forall u :: 0 <= u < |quotes| ==> quotes[u] == At(curves[|curves| - 1], GridAmount(g, |curves| - 1, u))
    ensures CellOk(curves, g, total, cell)
  {
    cell := None;
    for curveUnits := 0 to total + 1
      invariant BestUpTo(curves, g, total, curveUnits - 1, cell)
    {
      CellStep(curves, g, total, curveUnits, cell, previous[total - curveUnits]);
      var prefix := previous[total - curveUnits];
      if prefix.Some? {
        var candidate := Some(Extend(prefix.value, GridAmount(g, |curves| - 1, curveUnits), quotes[curveUnits]));
        if Better(candidate, cell) { cell := candidate; }
      }
    }
    BestUpToAll(curves, g, total, cell);
  }

  ghost predicate TableOk(curves: seq<Curve>, g: Grid, divisions: nat, table: seq<Option<Candidate>>) {
    |table| == divisions + 1 &&
    forall t {:trigger CellOk(curves, g, t, table[t])} :: 0 <= t <= divisions ==> CellOk(curves, g, t, table[t])
  }

  method QuoteCurve(c: Curve, g: Grid, index: nat, divisions: nat) returns (quotes: seq<nat>)
    ensures |quotes| == divisions + 1 && forall u :: 0 <= u <= divisions ==> quotes[u] == At(c, GridAmount(g, index, u))
  {
    quotes := [];
    for units := 0 to divisions + 1
      invariant |quotes| == units && forall u :: 0 <= u < units ==> quotes[u] == At(c, GridAmount(g, index, u))
    {
      quotes := quotes + [At(c, GridAmount(g, index, units))];
    }
  }

  method FillRow(curves: seq<Curve>, g: Grid, divisions: nat, previous: seq<Option<Candidate>>, quotes: seq<nat>)
    returns (current: seq<Option<Candidate>>)
    requires |curves| > 0 && TableOk(curves[..|curves| - 1], g, divisions, previous)
    requires |quotes| == divisions + 1
    requires forall u :: 0 <= u <= divisions ==> quotes[u] == At(curves[|curves| - 1], GridAmount(g, |curves| - 1, u))
    ensures TableOk(curves, g, divisions, current)
  {
    current := [];
    for totalUnits := 0 to divisions + 1
      invariant |current| == totalUnits && forall t :: 0 <= t < totalUnits ==> CellOk(curves, g, t, current[t])
    {
      var cell := FillCell(curves, g, previous, quotes, totalUnits);
      current := current + [cell];
    }
  }

  /** For every unit count, the best plan over all the curves. */
  method FamilyPlans(curves: seq<Curve>, g: Grid, divisions: nat) returns (plans: seq<Option<Candidate>>)
    ensures TableOk(curves, g, divisions, plans)
  {
    plans := seq(divisions + 1, i => if i == 0 then Some(Candidate([], 0)) else None);
    EmptyCell(curves[..0], g);
    for curveIndex := 0 to |curves|
      invariant TableOk(curves[..curveIndex], g, divisions, plans)
    {
      var quotes := QuoteCurve(curves[curveIndex], g, curveIndex, divisions);
      var family := curves[..curveIndex + 1];
      assert family[..curveIndex] == curves[..curveIndex];
      plans := FillRow(family, g, divisions, plans, quotes);
    }
    assert curves[..|curves|] == curves;
  }

  /** Best plans without a remainder. */
  method GridFamilyPlans(quantum: nat, divisions: nat, curves: seq<Curve>) returns (plans: seq<Option<Candidate>>)
    ensures TableOk(curves, Grid(quantum, 0, -1), divisions, plans)
  {
    plans := FamilyPlans(curves, Grid(quantum, 0, -1), divisions);
  }

  /** Best plans when one curve also receives the remainder. */
  method GridFamilyPlansWithRemainder(quantum: nat, remainder: nat, divisions: nat, curves: seq<Curve>, recipient: int)
    returns (plans: seq<Option<Candidate>>)
    ensures TableOk(curves, Grid(quantum, remainder, recipient), divisions, plans)
  {
    plans := FamilyPlans(curves, Grid(quantum, remainder, recipient), divisions);
  }
}
