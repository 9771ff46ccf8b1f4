/** The second stage as the search of the first one sees it: one curve, the
    output of the answer for each amount. */
module SecondStage {
  import opened Common
  import opened Allocations
  import opened Concavity
  import opened Ranking
  import opened Optimum
  import opened Flows
  import opened Climbs

  /** The second stage can be solved for this amount: nothing to spend, or a
      search that ends. */
  ghost predicate SecondSolvable(second: seq<Curve>, amount: nat, settings: Settings)
    requires ValidSettings(settings)
  {
    amount == 0 || (|second| >= 1 && Search(Independent(second), amount, settings).Some?)
  }

  /** Every allocation can be evaluated. */
  ghost predicate Solvable(o: Objective, total: nat, settings: Settings)
    requires ValidSettings(settings)
  {
    match o
    case Independent(_) => true
    case TwoStage(_, _, second) =>
      forall a: seq<nat> {:trigger Intermediate(o, a)} ::
        IsSplit(a, Arity(o), total) ==> SecondSolvable(second, Intermediate(o, a), settings)
  }

  /** Every second stage that an allocation can call for is affordable. */
  ghost predicate SecondAffordable(o: Objective, total: nat, settings: Settings) {
    o.TwoStage? ==>
      forall a: seq<nat> {:trigger Intermediate(o, a)} ::
        IsSplit(a, Arity(o), total) && Intermediate(o, a) > 0 ==> Affordable(Independent(o.second), Intermediate(o, a), settings)
  }

  /** Some allocation of the input yields this intermediate amount. */
  ghost predicate ReachedAmount(o: Objective, total: nat, amount: nat) {
    o.TwoStage? && exists a: seq<nat> {:trigger Intermediate(o, a)} :: IsSplit(a, Arity(o), total) && Intermediate(o, a) == amount
  }

  /** What the second stage yields for an amount: the output of the search's
      answer. Where the search has none, nothing depends on it. */
  ghost function SecondWorth(second: seq<Curve>, settings: Settings, amount: nat): nat
    requires ValidSettings(settings)
  {
    var answer := Search(Independent(second), amount, settings);
    if answer.Some? && |answer.value| == |second| then Output(second, answer.value) else Best(second, amount)
  }

  ghost function SecondCurve(second: seq<Curve>, settings: Settings): Curve
    requires ValidSettings(settings)
  {
    Curve("second", (amount: nat) => SecondWorth(second, settings, amount))
  }

  /** The flow as its search sees it: the second stage is one curve. */
  ghost function Effective(o: Objective, settings: Settings): (e: Objective)
    requires ValidSettings(settings)
    ensures Arity(e) == Arity(o) && IsFamily(e) == IsFamily(o) && Family(e) == Family(o)
  {
    if o.Independent? then o else TwoStage(o.direct, o.first, [SecondCurve(o.second, settings)])
  }

  /** What an allocation is worth is settled: every second stage that matters is
      solved to its maximum, whichever way it is searched. */
  ghost predicate Determined(o: Objective, total: nat, settings: Settings) {
    IsFamily(o) || AllConcave(o.second) || SecondAffordable(o, total, settings)
  }

  // ---------- what an answer is worth ----------

  /** An exhaustive answer, or one over concave curves, is a maximum. */
  lemma AnswerIsMaximum(curves: seq<Curve>, total: nat, s: Settings, a: seq<nat>)
    requires ValidSettings(s) && Search(Independent(curves), total, s) == Some(a)
    requires Affordable(Independent(curves), total, s) || AllConcave(curves)
    ensures IsSplit(a, |curves|, total) && UpperBound(curves, total, Output(curves, a)) && Output(curves, a) == Best(curves, total)
  {
    var o := Independent(curves);
    SearchIs(o, total, s, a);
    FoundSays(o, total, s, a);
    if Affordable(o, total, s) {
      forall b: seq<nat> | IsSplit(b, |curves|, total) ensures Output(curves, b) <= Output(curves, a) {
        assert Value(o, b) == Output(curves, b);
        assert !Beats(Rated(o, b), Rated(o, a));
      }
    } else {
      AnswerIsSwept(o, total, s, a);
      SweptIsMaximum(o, a, s.neighborhood);
    }
    MaximumIsBest(curves, total, a);
  }

  /** An answer that is not exhaustive is swept. */
  lemma AnswerIsSwept(o: Objective, total: nat, s: Settings, a: seq<nat>)
    requires ValidSettings(s) && Search(o, total, s) == Some(a) && !Affordable(o, total, s)
    ensures IsSplit(a, Arity(o), total) && Swept(o, a, s.neighborhood)
  {
    SearchIs(o, total, s, a);
    FoundSays(o, total, s, a);
    if Arity(o) == 2 {
      SumOfTwo(a);
      LineIsSwept(o, total, s.neighborhood, a);
    } else {
      ClimbedIsSwept(o, total, s, a);
    }
  }

  lemma LineOf(o: Objective, total: nat, a: seq<nat>)
    requires Arity(o) == 2 == |a| && a[0] + a[1] == total
    ensures PairLine(o, a, 0, 1) == WholeLine(o, total)
  {
    assert a == Exchange(Single(2, 1, total), 0, 1, total, a[0]);
    PairLineMoved(o, Single(2, 1, total), 0, 1, a[0]);
  }

  /** The end of a line search leaves nothing to gain exactly if a peak of the
      line is near the end of bisection. */
  lemma LineIsOptimalIff(o: Objective, total: nat, distance: int, a: seq<nat>)
    requires Arity(o) == 2 && OnLine(o, total, distance, a)
    ensures FlowOptimal(o, a) <==> PeakNear(WholeLine(o, total), distance)
  {
    LineOf(o, total, a);
    ScannedIsPeakIff(WholeLine(o, total), distance, a[0]);
    assert FlowOptimal(o, a) <==> ExchangeOptimal(o, a, 0, 1);
  }

  /** It is swept in any case. */
  lemma LineIsSwept(o: Objective, total: nat, distance: int, a: seq<nat>)
    requires Arity(o) == 2 && OnLine(o, total, distance, a)
    ensures Swept(o, a, distance)
  {
    LineOf(o, total, a);
    PairLineHere(o, a, 0, 1);
    NoGainNear(o, a, 0, 1, distance, a[0]);
  }

  /** The line of two independent curves is what they give together. */
  lemma WholeLineOfTwo(curves: seq<Curve>, total: nat)
    requires |curves| == 2
    ensures WholeLine(Independent(curves), total) == ShareLine(curves[0], curves[1], total)
  {
    var o, base := Independent(curves), Single(2, 1, total);
    forall v | 0 <= v <= total ensures WholeLine(o, total)[v] == At(curves[0], v) + At(curves[1], total - v) {
      OutputOfTwo(curves, Exchange(base, 0, 1, total, v));
    }
  }

  // ---------- when the curve is the true optimum ----------

  /** Through concave pools the flow that is seen is the true one. */
  lemma ConcaveIsSeen(o: Objective, settings: Settings)
    requires ValidSettings(settings) && ConcaveFlow(o)
    ensures ConcaveFlow(Effective(o, settings))
    ensures forall a: seq<nat> {:trigger Value(Effective(o, settings), a)} :: |a| == Arity(o) ==> Value(Effective(o, settings), a) == Value(o, a)
  {
    var e := Effective(o, settings);
    if o.TwoStage? && |o.first| > 0 {
      var c := SecondCurve(o.second, settings);
      forall m: nat ensures At(c, m) == At(BestCurve(o.second), m) { ConcaveWorth(o.second, settings, m); }
      BestIsConcave(o.second);
      assert Concave(c) by {
        forall x: nat, y: nat | x <= y ensures Marginal(c, y) <= Marginal(c, x) {
          assert Marginal(BestCurve(o.second), y) <= Marginal(BestCurve(o.second), x);
        }
      }
      forall a: seq<nat> | |a| == Arity(o) ensures Value(e, a) == Value(o, a) { BestCurveAt(o.second, Intermediate(o, a)); }
    } else {
      forall a: seq<nat> | |a| == Arity(o) ensures Value(e, a) == Value(o, a) {
        FamilyValue(o, a);
        FamilyValue(e, a);
      }
    }
  }

  lemma ConcaveWorth(second: seq<Curve>, settings: Settings, m: nat)
    requires ValidSettings(settings) && AllConcave(second)
    ensures At(SecondCurve(second, settings), m) == At(BestCurve(second), m)
  {
    BestCurveAt(second, m);
    BestOfNothing(second);
    if Search(Independent(second), m, settings).Some? {
      AnswerIsMaximum(second, m, settings, Search(Independent(second), m, settings).value);
    }
  }

  /** Where every second stage is solved to its maximum, each allocation is worth
      in it what it truly is. */
  lemma DeterminedIsSeen(o: Objective, total: nat, settings: Settings, a: seq<nat>)
    requires ValidSettings(settings) && Determined(o, total, settings) && IsSplit(a, Arity(o), total)
    ensures Value(Effective(o, settings), a) == Value(o, a)
  {
    var e := Effective(o, settings);
    if IsFamily(o) {
      FamilyValue(o, a);
      FamilyValue(e, a);
    } else {
      var m := Intermediate(o, a);
      BestOfNothing(o.second);
      if AllConcave(o.second) {
        ConcaveWorth(o.second, settings, m);
        BestCurveAt(o.second, m);
      } else if m > 0 {
        SearchIff(Independent(o.second), m, settings);
        AnswerIsMaximum(o.second, m, settings, Search(Independent(o.second), m, settings).value);
      }
    }
  }
}
