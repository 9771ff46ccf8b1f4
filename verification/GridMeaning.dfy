/** What the declared grid is, in amounts: quanta of the input divided by the
    lesser of itself and the requested divisions; and for what is handed to the
    second stage a grid of its own, made the same way. */
module GridMeaning {
  import opened Common
  import opened Allocations
  import opened Ranking
  import opened Flows
  import opened Climbs
  import opened GridSplit
  import opened GridFamily
  import opened GridTwoStage

  /** Whole quanta, and on one of the amounts the remainder too. */
  ghost predicate InQuanta(a: seq<nat>, quantum: nat, remainder: nat, extra: int) {
    quantum > 0 &&
    forall i {:trigger a[i]} :: 0 <= i < |a| ==>
      var rest := if i == extra then remainder else 0;
      rest <= a[i] && (a[i] - rest) % quantum == 0
  }

  /** s spends m over count curves on the grid of m itself. */
  ghost predicate OnOwnGrid(count: nat, divisions: nat, m: nat, s: seq<nat>, extra: int)
    requires divisions > 0
  {
    && |s| == count && Sum(s) == m
    && (m > 0 ==>
          var n := if m < divisions then m else divisions;
          InQuanta(s, m / n, m % n, extra) && (m % n > 0 ==> 0 <= extra < count))
  }

  // ---------- from amounts to units ----------

  function Units(a: seq<nat>, quantum: nat, remainder: nat, extra: int): (u: seq<nat>)
    requires quantum > 0 && forall i {:trigger a[i]} :: 0 <= i < |a| ==> (if i == extra then remainder else 0) <= a[i]
    ensures |u| == |a|
  {
    seq(|a|, i requires 0 <= i < |a| => (a[i] - if i == extra then remainder else 0) / quantum)
  }

  lemma UnitsMakeAmounts(a: seq<nat>, quantum: nat, remainder: nat, extra: int)
    requires InQuanta(a, quantum, remainder, extra)
    ensures Amounts(Grid(quantum, remainder, extra), Units(a, quantum, remainder, extra)) == a
  {
    var g, u := Grid(quantum, remainder, extra), Units(a, quantum, remainder, extra);
    forall i | 0 <= i < |a| ensures GridAmount(g, i, u[i]) == a[i] {
      assert a[i] == a[i];
      DivisionRule(a[i] - if i == extra then remainder else 0, quantum);
    }
  }

  lemma SameProduct(q: nat, a: nat, b: nat)
    requires q > 0 && q * a == q * b
    ensures a == b
  {
    assert q * (b - a) == q * b - q * a;
    assert q * (a - b) == q * a - q * b;
    if a < b { MultipleAtLeast(q, b - a); } else if b < a { MultipleAtLeast(q, a - b); }
  }

  /** Placing m on its grid takes exactly its divisions. */
  lemma UnitsAddUp(a: seq<nat>, quantum: nat, remainder: nat, extra: int, n: nat)
    requires InQuanta(a, quantum, remainder, extra) && Sum(a) == quantum * n + remainder
    requires remainder == 0 || 0 <= extra < |a|
    ensures Sum(Units(a, quantum, remainder, extra)) == n
  {
    var u := Units(a, quantum, remainder, extra);
    UnitsMakeAmounts(a, quantum, remainder, extra);
    AmountsSum(Grid(quantum, remainder, extra), u);
    SameProduct(quantum, Sum(u), n);
  }

  // ---------- the second stage ----------

  lemma QuotientPositive(m: nat, n: nat)
    requires 0 < n <= m
    ensures m / n > 0
  {
    var q := m / n;
    DivisionRule(m, n);
    assert q == 0 ==> n * q == 0;
  }

  /** The second-stage solve is at least as good as any spending on the grid of
      its amount. */
  lemma SolveBeatsOwnGrid(second: seq<Curve>, divisions: nat, m: nat, p: Candidate, s: seq<nat>, extra: int)
    requires divisions >= 2 && SecondSolve(second, divisions, m, p) && OnOwnGrid(|second|, divisions, m, s, extra)
    ensures Output(second, s) <= p.value
  {
    if m == 0 {
      NothingInNothingOut(second, s);
    } else {
      var n := if m < divisions then m else divisions;
      DivisionRule(m, n);
      QuotientPositive(m, n);
      UnitGridBeats(second, m / n, m % n, n, p, s, extra);
    }
  }

  lemma UnitGridBeats(second: seq<Curve>, quantum: nat, remainder: nat, n: nat, p: Candidate, s: seq<nat>, extra: int)
    requires FamilyBest(second, quantum, remainder, n, p) && |s| == |second| && quantum > 0
    requires InQuanta(s, quantum, remainder, extra) && (remainder > 0 ==> 0 <= extra < |second|) && Sum(s) == quantum * n + remainder
    ensures Output(second, s) <= p.value
  {
    var r := if remainder == 0 then -1 else extra;
    assert InQuanta(s, quantum, remainder, r);
    var u := Units(s, quantum, remainder, r);
    UnitsMakeAmounts(s, quantum, remainder, r);
    UnitsAddUp(s, quantum, remainder, r, n);
    assert Recipient(remainder, |second|, r) && CoversGrid(second, Grid(quantum, remainder, r), n, p);
    assert NotBeatenBy(second, Grid(quantum, remainder, r), u, p);
  }

  // ---------- every amount has a solve ----------

  lemma {:induction false} BestOf(list: seq<Candidate>) returns (best: Candidate)
    requires |list| > 0
    ensures best in list && forall c :: c in list ==> !Beats(c, best)
  {
    var n := |list| - 1;
    BeatsIrreflexive(list[n]);
    if n == 0 { return list[0]; }
    var before := BestOf(list[..n]);
    best := if Beats(list[n], before) then list[n] else before;
    forall c | c in list ensures !Beats(c, best) {
      if c != list[n] {
        var k :| 0 <= k < n && list[k] == c;
        assert list[..n][k] == c;
        if best != before { BeatenBy(c, before, best); }
      }
    }
  }

  /** The plans of a grid, listed. */
  lemma ListPlans(curves: seq<Curve>, g: Grid, n: nat) returns (list: seq<Candidate>)
    ensures forall p :: p in list <==> OnGrid(curves, g, n, p)
  {
    var units := ListSplits(|curves|, n);
    assert forall i :: 0 <= i < |units| ==> units[i] in units && IsSplit(units[i], |curves|, n);
    list := seq(|units|, i requires 0 <= i < |units| => PlanAt(curves, g, units[i]));
    forall p ensures p in list <==> OnGrid(curves, g, n, p) {
      if p in list {
        var i :| 0 <= i < |list| && list[i] == p;
        assert IsSplit(units[i], |curves|, n);
      }
      if OnGrid(curves, g, n, p) {
        var u: seq<nat> :| IsSplit(u, |curves|, n) && p == PlanAt(curves, g, u);
        assert u in units;
        var i :| 0 <= i < |units| && units[i] == u;
        assert list[i] == p;
      }
    }
  }

  lemma {:induction false} ListRecipients(curves: seq<Curve>, quantum: nat, remainder: nat, n: nat, bound: nat) returns (list: seq<Candidate>)
    ensures forall p :: p in list <==> exists r {:trigger Grid(quantum, remainder, r)} :: 0 <= r < bound && OnGrid(curves, Grid(quantum, remainder, r), n, p)
  {
    if bound == 0 { return []; }
    var before := ListRecipients(curves, quantum, remainder, n, bound - 1);
    var last := ListPlans(curves, Grid(quantum, remainder, bound - 1), n);
    list := before + last;
  }

  /** Every plan of the grid, whichever curve has the remainder. */
  lemma ListFamily(curves: seq<Curve>, quantum: nat, remainder: nat, n: nat) returns (list: seq<Candidate>)
    ensures forall p :: p in list <==> OnFamilyGrid(curves, quantum, remainder, n, p)
  {
    if remainder == 0 {
      list := ListPlans(curves, Grid(quantum, 0, -1), n);
      forall p ensures p in list <==> OnFamilyGrid(curves, quantum, remainder, n, p) {
        assert Recipient(0, |curves|, -1);
      }
    } else {
      list := ListRecipients(curves, quantum, remainder, n, |curves|);
      forall p ensures p in list <==> OnFamilyGrid(curves, quantum, remainder, n, p) {
        if r :| Recipient(remainder, |curves|, r) && OnGrid(curves, Grid(quantum, remainder, r), n, p) {
          assert 0 <= r < |curves|;
        }
      }
    }
  }

  lemma FamilyBestExists(curves: seq<Curve>, quantum: nat, remainder: nat, n: nat) returns (p: Candidate)
    requires |curves| > 0
    ensures FamilyBest(curves, quantum, remainder, n, p)
  {
    var first := if remainder == 0 then -1 else 0;
    SomePlan(curves, Grid(quantum, remainder, first), n);
    var list := ListFamily(curves, quantum, remainder, n);
    assert Recipient(remainder, |curves|, first);
    assert PlanAt(curves, Grid(quantum, remainder, first), Single(|curves|, 0, n)) in list;
    p := BestOf(list);
    forall r | Recipient(remainder, |curves|, r) ensures CoversGrid(curves, Grid(quantum, remainder, r), n, p) {
      ListCovers(curves, quantum, remainder, n, list, p, r);
    }
  }

  lemma SomePlan(curves: seq<Curve>, g: Grid, n: nat)
    requires |curves| > 0
    ensures OnGrid(curves, g, n, PlanAt(curves, g, Single(|curves|, 0, n)))
  {
    SingleSplits(|curves|, 0, n);
  }

  lemma ListCovers(curves: seq<Curve>, quantum: nat, remainder: nat, n: nat, list: seq<Candidate>, p: Candidate, r: int)
    requires forall c :: OnFamilyGrid(curves, quantum, remainder, n, c) ==> c in list
    requires (forall c :: c in list ==> !Beats(c, p)) && Recipient(remainder, |curves|, r)
    ensures CoversGrid(curves, Grid(quantum, remainder, r), n, p)
  {
    var g := Grid(quantum, remainder, r);
    forall u: seq<nat> | IsSplit(u, |curves|, n) ensures NotBeatenBy(curves, g, u, p) {
      assert OnGrid(curves, g, n, PlanAt(curves, g, u));
    }
  }

  lemma SolveExists(second: seq<Curve>, divisions: nat, m: nat) returns (p: Candidate)
    requires divisions >= 2 && (|second| > 0 || m == 0)
    ensures SecondSolve(second, divisions, m, p)
  {
    if m == 0 {
      p := Candidate(Zeros(|second|), 0);
    } else {
      var e := EffectiveDivisions(m, divisions);
      p := FamilyBestExists(second, m / e, m % e, e);
    }
  }

  // ---------- the whole grid ----------

  /** Without a second stage there is nothing to be monotone. */
  lemma NoSecondIsMonotone(divisions: nat)
    ensures SecondMonotone([], divisions)
  {
    forall m: nat, p: Candidate | SecondSolve([], divisions, m, p) ensures p.value == 0 {
    }
  }

  /** Splits of the input in whole quanta are splits of the grid's units. */
  lemma UnitsOfInput(d: seq<nat>, f: seq<nat>, quantum: nat, n: nat)
    requires InQuanta(d, quantum, 0, -1) && InQuanta(f, quantum, 0, -1) && Sum(d) + Sum(f) == quantum * n
    ensures var du, fu := Units(d, quantum, 0, -1), Units(f, quantum, 0, -1);
            Amounts(UnitGrid(quantum), du) == d && Amounts(UnitGrid(quantum), fu) == f && Sum(du) + Sum(fu) == n
  {
    var du, fu := Units(d, quantum, 0, -1), Units(f, quantum, 0, -1);
    UnitsMakeAmounts(d, quantum, 0, -1);
    UnitsMakeAmounts(f, quantum, 0, -1);
    AmountsSum(UnitGrid(quantum), du);
    AmountsSum(UnitGrid(quantum), fu);
    SumProduct(quantum, Sum(du), Sum(fu), n);
  }

  lemma SumProduct(q: nat, x: nat, y: nat, n: nat)
    requires q > 0 && q * x + q * y == q * n
    ensures x + y == n
  {
    Distribute(q, x, y);
    SameProduct(q, x + y, n);
  }

  /** The searched flow beats every split of the input in whole quanta. */
  lemma BaseBeatsGrid(o: Objective, quantum: nat, n: nat, divisions: nat, base: GridFlow, d: seq<nat>, f: seq<nat>, p: Candidate)
    requires o.TwoStage? && SearchedBelow(o, quantum, n, divisions, n + 1, Some(base)) && SecondMonotone(o.second, divisions)
    requires |d| == |o.direct| && |f| == |o.first| && InQuanta(d, quantum, 0, -1) && InQuanta(f, quantum, 0, -1)
    requires Sum(d) + Sum(f) == quantum * n && SecondSolve(o.second, divisions, Output(o.first, f), p)
    ensures Output(o.direct, d) + p.value <= base.output
  {
    UnitsOfInput(d, f, quantum, n);
    CoveredBeats(o, quantum, n, divisions, base, Units(d, quantum, 0, -1), Units(f, quantum, 0, -1), p);
  }

  lemma CoveredBeats(o: Objective, quantum: nat, n: nat, divisions: nat, base: GridFlow, du: seq<nat>, fu: seq<nat>, p: Candidate)
    requires o.TwoStage? && SearchedBelow(o, quantum, n, divisions, n + 1, Some(base)) && SecondMonotone(o.second, divisions)
    requires |du| == |o.direct| && |fu| == |o.first| && Sum(du) + Sum(fu) == n
    requires SecondSolve(o.second, divisions, Output(o.first, Amounts(UnitGrid(quantum), fu)), p)
    ensures Output(o.direct, Amounts(UnitGrid(quantum), du)) + p.value <= base.output
  {
    SearchedIsMaximum(o, quantum, n, divisions, base);
    assert CoversUnits(o, quantum, n, divisions, Sum(fu), base.output);
    assert GridSplitOf(o, n, Sum(fu), du, fu);
    assert SplitOutput(o, quantum, du, p) <= base.output;
  }

  /** The reported output is at least that of every split of the input in quanta
      of the input divided by the lesser of input and divisions, however its
      intermediate amount is spent on a grid made the same way; wherever more to
      spend never gives the second stage less, and so always without one. */
  lemma ReportedBeatsGrid(o: Objective, total: nat, divisions: nat, base: GridFlow, r: GridResult,
                          d: seq<nat>, f: seq<nat>, s: seq<nat>, extra: int)
    requires GridReported(o, total, divisions, base, r) && (|o.first| == 0 <==> |o.second| == 0)
    requires SecondMonotone(o.second, divisions) || o.second == []
    requires |d| == |o.direct| && |f| == |o.first|
    requires var n := if total < divisions then total else divisions;
             InQuanta(d, total / n, 0, -1) && InQuanta(f, total / n, 0, -1) && Sum(d) + Sum(f) == total / n * n
    requires OnOwnGrid(|o.second|, divisions, Output(o.first, f), s, extra)
    ensures Output(o.direct, d) + Output(o.second, s) <= r.totalOutput
  {
    NoSecondIsMonotone(divisions);
    if |o.first| == 0 { assert Output(o.first, f) == 0; }
    var n := if total < divisions then total else divisions;
    BaseIsSearched(o, total, divisions, base, r, n);
    var p := SolveExists(o.second, divisions, Output(o.first, f));
    SolveBeatsOwnGrid(o.second, divisions, Output(o.first, f), p, s, extra);
    BaseBeatsGrid(o, total / n, n, divisions, base, d, f, p);
  }

  /** The grid searched is the one declared, and what is reported is no worse. */
  lemma BaseIsSearched(o: Objective, total: nat, divisions: nat, base: GridFlow, r: GridResult, n: nat)
    requires GridReported(o, total, divisions, base, r) && n == if total < divisions then total else divisions
    ensures SearchedBelow(o, total / n, n, divisions, n + 1, Some(base)) && base.output <= r.totalOutput
  {
    var flow :| GridOutcome(o, total, divisions, base, flow) && Writes(flow, r);
  }
}
