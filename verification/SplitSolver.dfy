/** The integer split optimizer: exhaustive search when it is affordable,
    otherwise bisection on lines and multistart pairwise exchange. The same
    search runs twice, over one family of curves and over the two-stage flow. */
module SplitSolver {
  import opened Common
  import opened Allocations
  import opened Concavity
  import opened Flows
  import opened Climbs
  import opened SecondStage
  import opened Ranking
  import Text

  const MAX_INT64: nat := 0x7FFF_FFFF_FFFF_FFFF

  /** One solved stage. */
  datatype StagePlan = StagePlan(allocations: seq<nat>, output: nat, sweeps: nat, exhaustive: bool)

  datatype CoordinateResult =
    CoordinateResult(best: Candidate, sweeps: nat, pairwiseOptimal: bool, exhaustive: bool)

  /** v is what a is worth under the second-stage plans solved so far. */
  ghost predicate Worth(o: Objective, total: nat, plans: map<nat, StagePlan>, a: seq<nat>, v: nat) {
    && IsSplit(a, Arity(o), total)
    && match o
       case Independent(curves) => v == Output(curves, a)
       case TwoStage(_, _, _) =>
         var m := Intermediate(o, a);
         if m == 0 then v == DirectOutput(o, a) else m in plans && v == DirectOutput(o, a) + plans[m].output
  }

  /** Over one family an allocation is worth what the curves give. */
  lemma FamilyWorth(o: Objective, total: nat, plans: map<nat, StagePlan>, a: seq<nat>, v: nat)
    requires IsFamily(o) && Worth(o, total, plans, a, v)
    ensures |a| == |Family(o)| && v == Output(Family(o), a)
  {
    if o.TwoStage? { assert a[..|o.direct|] == a && a[|o.direct|..] == []; }
  }

  /** The evaluator searches this flow. */
  ghost predicate SeenAs(o: Objective, settings: Settings, seen: Objective)
    requires ValidSettings(settings)
  {
    && Arity(seen) == Arity(o) && IsFamily(seen) == IsFamily(o) && Family(seen) == Family(o)
    && forall k {:trigger Looked(k)} :: Looked(k) ==> seen == Effective(o, settings)
  }

  /** What a solved stage guarantees. */
  ghost predicate PlanOk(curves: seq<Curve>, total: nat, plan: StagePlan) {
    && IsSplit(plan.allocations, |curves|, total)
    && plan.output == Output(curves, plan.allocations)
    && (plan.exhaustive || AllConcave(curves) ==> UpperBound(curves, total, plan.output))
  }

  ghost predicate Grows<K, V>(before: map<K, V>, after: map<K, V>) {
    forall k :: k in before ==> k in after && after[k] == before[k]
  }

  /** c has been evaluated. */
  ghost predicate Scored(cache: map<seq<nat>, nat>, c: Candidate) {
    c.allocation in cache && c.value == cache[c.allocation]
  }

  /** a has been evaluated and does not beat best. */
  ghost predicate Covered(cache: map<seq<nat>, nat>, a: seq<nat>, best: Candidate) {
    a in cache && !Beats(Candidate(a, cache[a]), best)
  }

  lemma CoveredGrows(before: map<seq<nat>, nat>, after: map<seq<nat>, nat>, a: seq<nat>, best: Candidate, better: Candidate)
    requires Grows(before, after) && Covered(before, a, best) && !Beats(best, better)
    ensures Covered(after, a, better)
  {
    UnbeatenTransitive(Candidate(a, before[a]), best, better);
  }

  /** The loop behind every evaluation: one curve after the other. */
  method SumOutputs(curves: seq<Curve>, a: seq<nat>) returns (out: nat)
    requires |curves| == |a|
    ensures out == Output(curves, a)
  {
    out := 0;
    for i := 0 to |curves|
      invariant out == Output(curves[..i], a[..i])
    {
      out := out + At(curves[i], a[i]);
      assert curves[..i + 1][..i] == curves[..i] && a[..i + 1][..i] == a[..i];
    }
    assert curves[..|curves|] == curves && a[..|a|] == a;
  }

  method Conserves(a: seq<nat>, total: nat) returns (ok: bool)
    ensures ok == (Sum(a) == total)
  {
    var sum := 0;
    for i := 0 to |a|
      invariant sum == Sum(a[..i])
    {
      sum := sum + a[i];
      assert a[..i + 1][..i] == a[..i];
    }
    assert a[..|a|] == a;
    ok := sum == total;
  }

  ghost predicate PlansOk(o: Objective, plans: map<nat, StagePlan>) {
    match o
    case Independent(_) => true
    case TwoStage(_, _, second) => forall m {:trigger PlanOk(second, m, plans[m])} :: m in plans ==> PlanOk(second, m, plans[m])
  }

  /** The solved amounts are amounts that allocations yield, and each plan is
      the answer of its search, exhaustive exactly if that was affordable. */
  ghost predicate PlansFlagged(o: Objective, total: nat, settings: Settings, plans: map<nat, StagePlan>)
    requires ValidSettings(settings)
  {
    match o
    case Independent(_) => true
    case TwoStage(_, _, second) =>
      forall m {:trigger PlanOk(second, m, plans[m])} :: m in plans ==>
        && m > 0 && ReachedAmount(o, total, m) && plans[m].exhaustive == Affordable(Independent(second), m, settings)
        && Search(Independent(second), m, settings) == Some(plans[m].allocations)
  }

  ghost predicate CacheOk(o: Objective, total: nat, plans: map<nat, StagePlan>, cache: map<seq<nat>, nat>) {
    forall a {:trigger Worth(o, total, plans, a, cache[a])} :: a in cache ==> Worth(o, total, plans, a, cache[a])
  }

  ghost predicate AllExhaustive(plans: map<nat, StagePlan>) {
    forall m {:trigger plans[m]} :: m in plans ==> plans[m].exhaustive
  }

  lemma CacheOkGrows(o: Objective, total: nat, before: map<nat, StagePlan>, after: map<nat, StagePlan>, cache: map<seq<nat>, nat>)
    requires CacheOk(o, total, before, cache) && Grows(before, after)
    ensures CacheOk(o, total, after, cache)
  {
    forall a | a in cache ensures Worth(o, total, after, a, cache[a]) {
      assert Worth(o, total, before, a, cache[a]);
    }
  }

  /** What the evaluator's state says. */
  ghost predicate Sound(o: Objective, total: nat, settings: Settings, seen: Objective, plans: map<nat, StagePlan>,
                        cache: map<seq<nat>, nat>, allVerified: bool)
  {
    match o
    case Independent(_) =>
      && ValidSettings(settings) && SeenAs(o, settings, seen)
      && CacheOk(o, total, plans, cache) && (allVerified <==> AllExhaustive(plans))
    case TwoStage(_, _, _) =>
      && ValidSettings(settings) && SeenAs(o, settings, seen)
      && CacheOk(o, total, plans, cache) && (allVerified <==> AllExhaustive(plans))
      && PlansOk(o, plans) && PlansFlagged(o, total, settings, plans)
  }

  /** The objective with its state: the values computed so far, the
      second-stage plans solved so far, and whether every one of those was
      found exhaustively. */
  class Evaluator {
    const objective: Objective
    const total: nat
    const settings: Settings
    ghost const seen: Objective
    var cache: map<seq<nat>, nat>
    var secondCache: map<nat, StagePlan>
    var allSecondVerified: bool

    ghost predicate Valid()
      reads this
    {
      Sound(objective, total, settings, seen, secondCache, cache, allSecondVerified)
    }

    constructor (objective: Objective, total: nat, settings: Settings)
      requires ValidSettings(settings)
      ensures Valid() && this.objective == objective && this.total == total && this.settings == settings
      ensures this.seen == Effective(objective, settings)
      ensures cache == map[] && secondCache == map[]
    {
      this.objective, this.total, this.settings := objective, total, settings;
      this.seen := Effective(objective, settings);
      cache, secondCache, allSecondVerified := map[], map[], true;
    }

    /** Solve the second stage for one intermediate amount, once. */
    method OptimizeSecond(amount: nat) returns (r: Option<StagePlan>)
      requires Valid() && objective.TwoStage? && ReachedAmount(objective, total, amount)
      modifies this`secondCache, this`allSecondVerified
      ensures Valid() && Grows(old(secondCache), secondCache)
      ensures r.Some? && amount == 0 ==> r.value == StagePlan(Zeros(|objective.second|), 0, 0, true)
      ensures r.Some? && amount > 0 ==> amount in secondCache && secondCache[amount] == r.value
      ensures amount == 0 || amount in old(secondCache) ==> r.Some? && secondCache == old(secondCache)
      ensures SecondSolvable(objective.second, amount, settings) ==> r.Some?
      decreases 1, 0, 0
    {
      if amount == 0 {
        return Some(StagePlan(Zeros(|objective.second|), 0, 0, true));
      }
      if amount in secondCache {
        return Some(secondCache[amount]);
      }
      r := OptimizeIndependent(amount, objective.second, settings);
      if r.Some? {
        AddPlan(objective, secondCache, amount, r.value);
        PlanFlagged(objective, total, settings, secondCache, amount, r.value);
        CacheOkGrows(objective, total, secondCache, secondCache[amount := r.value], cache);
        if !r.value.exhaustive { allSecondVerified := false; }
        secondCache := secondCache[amount := r.value];
      }
    }

    /** Evaluate one allocation; an allocation that loses input is refused. */
    method Evaluate(a: seq<nat>) returns (r: Option<nat>)
      requires Valid() && |a| == Arity(objective)
      modifies this
      ensures Valid() && Grows(old(cache), cache)
      ensures r.Some? ==> Scored(cache, Candidate(a, r.value))
      ensures Solvable(objective, total, settings) && Sum(a) == total ==> r.Some?
      decreases Rank(objective), 1, 0
    {
      if a in cache { return Some(cache[a]); }
      var ok := Conserves(a, total);
      if !ok { return None; }
      match objective {
      case Independent(curves) =>
        var out := SumOutputs(curves, a);
        r := Some(out);
      case TwoStage(direct, first, second) =>
        var directOut := SumOutputs(direct, a[..|direct|]);
        var intermediate := SumOutputs(first, a[|direct|..]);
        assert IsSplit(a, Arity(objective), total) && intermediate == Intermediate(objective, a);
        var plan := OptimizeSecond(intermediate);
        if plan.None? { return None; }
        r := Some(directOut + plan.value.output);
      }
      assert Worth(objective, total, secondCache, a, r.value);
      AddValue(objective, total, secondCache, cache, a, r.value);
      cache := cache[a := r.value];
    }
  }

  lemma AddPlan(o: Objective, plans: map<nat, StagePlan>, m: nat, plan: StagePlan)
    requires o.TwoStage? && PlansOk(o, plans) && PlanOk(o.second, m, plan) && m !in plans
    ensures PlansOk(o, plans[m := plan]) && Grows(plans, plans[m := plan])
    ensures AllExhaustive(plans[m := plan]) <==> AllExhaustive(plans) && plan.exhaustive
  {
    var after := plans[m := plan];
    forall k | k in after ensures PlanOk(o.second, k, after[k]) {
      if k != m { assert PlanOk(o.second, k, plans[k]); }
    }
    assert after[m] == plan && forall k :: k in plans ==> after[k] == plans[k];
  }

  lemma PlanFlagged(o: Objective, total: nat, settings: Settings, plans: map<nat, StagePlan>, m: nat, plan: StagePlan)
    requires ValidSettings(settings) && o.TwoStage? && PlansOk(o, plans) && PlansFlagged(o, total, settings, plans) && m !in plans
    requires m > 0 && ReachedAmount(o, total, m) && plan.exhaustive == Affordable(Independent(o.second), m, settings)
    requires Search(Independent(o.second), m, settings) == Some(plan.allocations)
    ensures PlansFlagged(o, total, settings, plans[m := plan])
  {
    var after := plans[m := plan];
    forall k | k in after
      ensures k > 0 && ReachedAmount(o, total, k) && after[k].exhaustive == Affordable(Independent(o.second), k, settings)
      ensures Search(Independent(o.second), k, settings) == Some(after[k].allocations)
    {
      if k != m { assert PlanOk(o.second, k, plans[k]); }
    }
  }

  lemma AddValue(o: Objective, total: nat, plans: map<nat, StagePlan>, cache: map<seq<nat>, nat>, a: seq<nat>, v: nat)
    requires CacheOk(o, total, plans, cache) && Worth(o, total, plans, a, v) && a !in cache
    ensures CacheOk(o, total, plans, cache[a := v]) && Grows(cache, cache[a := v])
  {
    var after := cache[a := v];
    forall b | b in after ensures Worth(o, total, plans, b, after[b]) {
      if b != a { assert Worth(o, total, plans, b, cache[b]); }
    }
  }

  ghost function Rank(o: Objective): nat { if o.TwoStage? then 1 else 0 }

  // ---------- exhaustive search ----------

  /** Whether walking every allocation stays within the limit, by a running
      binomial product that stops as soon as it passes the limit. */
  method CompositionCountAtMost(total: nat, count: int, limit: int) returns (r: bool)
    ensures r <==> count >= 1 && Visits(count, total) <= limit
  {
    if count < 1 { return false; }
    if count == 1 { return limit >= 1; }
    var combinations := 1;
    for index := 1 to count
      invariant combinations == Visits(index, total)
      invariant index > 1 ==> combinations <= limit
    {
      NextCount(total, index);
      combinations := combinations * (total + index) / index;
      if combinations > limit {
        VisitsMonotone(index + 1, count, total);
        return false;
      }
    }
    return true;
  }

  /** a is an allocation of total that starts with prefix. */
  ghost predicate Extends(a: seq<nat>, prefix: seq<nat>, count: nat, total: nat) {
    |prefix| < count && IsSplit(a, count, total) && a[..|prefix|] == prefix
  }

  /** Every extension of prefix whose next amount is below bound is covered. */
  ghost predicate CoveredBelow(cache: map<seq<nat>, nat>, prefix: seq<nat>, count: nat, total: nat, bound: nat, best: Candidate) {
    forall a: seq<nat> {:trigger Covered(cache, a, best)} ::
      Extends(a, prefix, count, total) && a[|prefix|] < bound ==> Covered(cache, a, best)
  }

  ghost predicate CoveredFrom(cache: map<seq<nat>, nat>, prefix: seq<nat>, count: nat, total: nat, best: Candidate) {
    forall a: seq<nat> {:trigger Covered(cache, a, best)} ::
      Extends(a, prefix, count, total) ==> Covered(cache, a, best)
  }

  lemma CoveredNext(before: map<seq<nat>, nat>, after: map<seq<nat>, nat>, prefix: seq<nat>, count: nat, total: nat,
                    value: nat, previous: Option<Candidate>, best: Candidate)
    requires Grows(before, after) && |prefix| + 1 < count
    requires value > 0 ==> previous.Some? && CoveredBelow(before, prefix, count, total, value, previous.value)
    requires previous.Some? ==> !Beats(previous.value, best)
    requires CoveredFrom(after, prefix + [value], count, total, best)
    ensures CoveredBelow(after, prefix, count, total, value + 1, best)
  {
    forall a: seq<nat> | Extends(a, prefix, count, total) && a[|prefix|] < value + 1 ensures Covered(after, a, best) {
      if a[|prefix|] == value {
        assert a[..|prefix| + 1] == prefix + [value];
        assert Extends(a, prefix + [value], count, total);
      } else {
        CoveredGrows(before, after, a, previous.value, best);
      }
    }
  }

  lemma CoveredAll(cache: map<seq<nat>, nat>, prefix: seq<nat>, count: nat, total: nat, remaining: nat, best: Candidate)
    requires CoveredBelow(cache, prefix, count, total, remaining + 1, best) && Sum(prefix) + remaining == total
    ensures CoveredFrom(cache, prefix, count, total, best)
  {
    forall a: seq<nat> | Extends(a, prefix, count, total) ensures Covered(cache, a, best) {
      NextIsBounded(prefix, a, remaining, count, total);
    }
  }

  /** Visit every way of sharing remaining over the coordinates from index on,
      keeping the best candidate met so far. The walk writes one shared
      allocation in place; prefix is what it holds before index. */
  method Walk(ev: Evaluator, allocation: array<nat>, index: nat, remaining: nat, best: Option<Candidate>,
              ghost prefix: seq<nat>)
    returns (ok: bool, best': Option<Candidate>, visits: nat)
    requires ev.Valid() && index < allocation.Length == Arity(ev.objective)
    requires allocation[..index] == prefix && Sum(prefix) + remaining == ev.total
    requires best.Some? ==> Scored(ev.cache, best.value)
    modifies ev, allocation
    ensures ev.Valid() && Grows(old(ev.cache), ev.cache)
    ensures allocation[..index] == prefix
    ensures Solvable(ev.objective, ev.total, ev.settings) ==> ok
    ensures ok ==> visits == Visits(allocation.Length - index, remaining)
    ensures ok ==> best'.Some? && Scored(ev.cache, best'.value)
    ensures ok && best.Some? ==> !Beats(best.value, best'.value)
    ensures ok ==> CoveredFrom(ev.cache, prefix, allocation.Length, ev.total, best'.value)
    decreases Rank(ev.objective), 3, allocation.Length - index, 1
  {
    var count := allocation.Length;
    if index == count - 1 {
      allocation[index] := remaining;
      assert allocation[..index] == prefix;
      LastIsForced(prefix, allocation[..], remaining, count, ev.total);
      ok, best' := Visit(ev, allocation[..], best);
      return ok, best', 1;
    }
    best', visits := best, 0;
    if best.Some? { BeatsIrreflexive(best.value); }
    for value := 0 to remaining + 1
      invariant ev.Valid() && Grows(old(ev.cache), ev.cache)
      invariant allocation[..index] == prefix
      invariant best'.Some? ==> Scored(ev.cache, best'.value)
      invariant best.Some? ==> best'.Some? && !Beats(best.value, best'.value)
      invariant visits == VisitsBelow(count - index, remaining, value)
      invariant value > 0 ==> best'.Some? && CoveredBelow(ev.cache, prefix, count, ev.total, value, best'.value)
    {
      ghost var previous := best';
      var more: nat;
      ok, best', more := WalkValue(ev, allocation, index, remaining, value, best', prefix);
      if !ok { return false, best', visits; }
      visits := visits + more;
      if best.Some? { UnbeatenTransitive(best.value, previous.value, best'.value); }
    }
    ok := true;
    CoveredAll(ev.cache, prefix, count, ev.total, remaining, best'.value);
  }

  /** How many allocations have a first amount below bound. */
  ghost function VisitsBelow(count: nat, total: nat, bound: nat): int {
    Visits(count, total) - if bound <= total then Visits(count, total - bound) else 0
  }

  /** One value of the current coordinate, and everything below it. */
  method WalkValue(ev: Evaluator, allocation: array<nat>, index: nat, remaining: nat, value: nat,
                   best: Option<Candidate>, ghost prefix: seq<nat>)
    returns (ok: bool, best': Option<Candidate>, visits: nat)
    requires ev.Valid() && index + 1 < allocation.Length == Arity(ev.objective) && value <= remaining
    requires allocation[..index] == prefix && Sum(prefix) + remaining == ev.total
    requires best.Some? ==> Scored(ev.cache, best.value)
    requires value > 0 ==> best.Some? && CoveredBelow(ev.cache, prefix, allocation.Length, ev.total, value, best.value)
    modifies ev, allocation
    ensures ev.Valid() && Grows(old(ev.cache), ev.cache)
    ensures allocation[..index] == prefix
    ensures Solvable(ev.objective, ev.total, ev.settings) ==> ok
    ensures ok ==> VisitsBelow(allocation.Length - index, remaining, value) + visits
                   == VisitsBelow(allocation.Length - index, remaining, value + 1)
    ensures ok ==> best'.Some? && Scored(ev.cache, best'.value)
    ensures ok && best.Some? ==> !Beats(best.value, best'.value)
    ensures ok ==> CoveredBelow(ev.cache, prefix, allocation.Length, ev.total, value + 1, best'.value)
    decreases Rank(ev.objective), 3, allocation.Length - index, 0
  {
    allocation[index] := value;
    assert allocation[..index + 1] == prefix + [value];
    SumSnoc(prefix, value);
    ghost var before := ev.cache;
    ok, best', visits := Walk(ev, allocation, index + 1, remaining - value, best, prefix + [value]);
    assert allocation[..index] == allocation[..index + 1][..index];
    if ok {
      CoveredNext(before, ev.cache, prefix, allocation.Length, ev.total, value, best, best'.value);
    }
  }

  lemma SumSnoc(a: seq<nat>, x: nat)
    ensures Sum(a + [x]) == Sum(a) + x
  {
    assert (a + [x])[..|a|] == a;
  }

  lemma LastIsForced(prefix: seq<nat>, full: seq<nat>, remaining: nat, count: nat, total: nat)
    requires |prefix| + 1 == count == |full| && full[..|prefix|] == prefix && full[|prefix|] == remaining
    requires Sum(prefix) + remaining == total
    ensures Sum(full) == total
    ensures forall a: seq<nat> :: Extends(a, prefix, count, total) ==> a == full
  {
    forall a: seq<nat> | Extends(a, prefix, count, total) ensures a == full {
      assert a == a[..|prefix|] + [a[|prefix|]];
      assert full == full[..|prefix|] + [full[|prefix|]];
    }
  }

  lemma NextIsBounded(prefix: seq<nat>, a: seq<nat>, remaining: nat, count: nat, total: nat)
    requires Extends(a, prefix, count, total) && Sum(prefix) + remaining == total
    ensures a[|prefix|] <= remaining
  {
    assert a == prefix + a[|prefix|..];
    SumAppend(prefix, a[|prefix|..]);
    SumAtLeast(a[|prefix|..], 0);
  }

  /** Evaluate one complete allocation against the best so far. */
  method Visit(ev: Evaluator, a: seq<nat>, best: Option<Candidate>) returns (ok: bool, best': Option<Candidate>)
    requires ev.Valid() && |a| == Arity(ev.objective) && Sum(a) == ev.total
    requires best.Some? ==> Scored(ev.cache, best.value)
    modifies ev
    ensures ev.Valid() && Grows(old(ev.cache), ev.cache)
    ensures Solvable(ev.objective, ev.total, ev.settings) ==> ok
    ensures ok ==> best'.Some? && Scored(ev.cache, best'.value) && Covered(ev.cache, a, best'.value)
    ensures ok && best.Some? ==> !Beats(best.value, best'.value)
    decreases Rank(ev.objective), 2, 0
  {
    var value := ev.Evaluate(a);
    if value.None? { return false, best; }
    var candidate := Candidate(a, value.value);
    BeatsIrreflexive(candidate);
    if best.None? || Beats(candidate, best.value) {
      if best.Some? && Beats(best.value, candidate) { BeatsTransitive(candidate, best.value, candidate); }
      return true, Some(candidate);
    }
    BeatsIrreflexive(best.value);
    return true, best;
  }

  /** Every allocation, best first by output and then by least key. The width
      check is never the reason to give up below the exhaustive limit. */
  method ExhaustiveCoordinates(ev: Evaluator) returns (r: Option<Candidate>, visits: nat)
    requires ev.Valid() && Arity(ev.objective) >= 1
    modifies ev
    ensures ev.Valid() && Grows(old(ev.cache), ev.cache)
    ensures Solvable(ev.objective, ev.total, ev.settings) && ev.total <= MAX_INT64 ==> r.Some?
    ensures r.Some? ==> visits == Visits(Arity(ev.objective), ev.total)
    ensures r.Some? ==> Scored(ev.cache, r.value) && AllCovered(ev, r.value)
    decreases Rank(ev.objective), 4, 0
  {
    if ev.total > MAX_INT64 { return None, 0; }
    var allocation := new nat[Arity(ev.objective)];
    assert allocation[..0] == [];
    var ok: bool;
    ok, r, visits := Walk(ev, allocation, 0, ev.total, None, []);
    if !ok { return None, visits; }
    forall a: seq<nat> | IsSplit(a, Arity(ev.objective), ev.total) ensures Covered(ev.cache, a, r.value) {
      assert Extends(a, [], Arity(ev.objective), ev.total);
    }
  }

  /** Every allocation was evaluated and none beats best. */
  ghost predicate AllCovered(ev: Evaluator, best: Candidate)
    reads ev
  {
    forall a: seq<nat> {:trigger Covered(ev.cache, a, best)} ::
      IsSplit(a, Arity(ev.objective), ev.total) ==> Covered(ev.cache, a, best)
  }

  // ---------- line search ----------

  /** The evaluator gives each allocation what it is worth in the flow it sees. */
  lemma WorthIsSeen(ev: Evaluator, a: seq<nat>)
    requires ev.Valid() && a in ev.cache
    ensures |a| == Arity(ev.objective) && ev.cache[a] == Value(ev.seen, a)
  {
    var o, plans := ev.objective, ev.secondCache;
    assert Looked(0);
    assert Worth(o, ev.total, plans, a, ev.cache[a]);
    if o.TwoStage? {
      var m := Intermediate(o, a);
      assert DirectOutput(ev.seen, a) == DirectOutput(o, a) && Intermediate(ev.seen, a) == m;
      if m > 0 {
        assert PlanOk(o.second, m, plans[m]);
        assert Search(Independent(o.second), m, ev.settings) == Some(plans[m].allocations);
      }
    }
  }

  /** Value of base with the pair shared out so that left holds value. */
  method EvaluateExchange(ev: Evaluator, base: seq<nat>, left: nat, right: nat, value: nat) returns (r: Option<nat>)
    requires ev.Valid() && IsSplit(base, Arity(ev.objective), ev.total)
    requires left < right < |base| && value <= base[left] + base[right]
    modifies ev
    ensures ev.Valid() && Grows(old(ev.cache), ev.cache)
    ensures r.Some? ==> Scored(ev.cache, Candidate(Exchange(base, left, right, base[left] + base[right], value), r.value))
    ensures Solvable(ev.objective, ev.total, ev.settings) ==> r.Some?
    ensures r.Some? ==> r.value == PairLine(ev.seen, base, left, right)[value]
    decreases Rank(ev.objective), 2, 0
  {
    var candidate := Exchange(base, left, right, base[left] + base[right], value);
    SumChanged2(base, candidate, left, right);
    r := ev.Evaluate(candidate);
    if r.Some? { WorthIsSeen(ev, candidate); }
  }

  /** Whether the share after the middle one is at least as good. */
  method ProbePair(ev: Evaluator, base: seq<nat>, left: nat, right: nat, middle: nat) returns (r: Option<bool>)
    requires ev.Valid() && IsSplit(base, Arity(ev.objective), ev.total) && left < right < |base|
    requires middle < base[left] + base[right]
    modifies ev
    ensures ev.Valid() && Grows(old(ev.cache), ev.cache)
    ensures Solvable(ev.objective, ev.total, ev.settings) ==> r.Some?
    ensures r.Some? ==>
              r.value == (PairLine(ev.seen, base, left, right)[middle] <= PairLine(ev.seen, base, left, right)[middle + 1])
    decreases Rank(ev.objective), 3, 0
  {
    var middleValue := EvaluateExchange(ev, base, left, right, middle);
    if middleValue.None? { return None; }
    var nextValue := EvaluateExchange(ev, base, left, right, middle + 1);
    if nextValue.None? { return None; }
    return Some(nextValue.value >= middleValue.value);
  }

  /** The shares that bisection is down to. */
  datatype Span = Span(low: nat, high: nat)

  /** Where bisection from there ends. */
  ghost predicate EndsAt(line: seq<int>, span: Span, end: nat) {
    match span
    case Span(low, high) => low <= high < |line| && Bisected(line, low, high) == end
  }

  lemma EndStays(line: seq<int>, low: nat, high: nat, middle: nat, rising: bool, end: nat)
    requires EndsAt(line, Span(low, high), end) && low < high < |line| && middle == (low + high) / 2
    requires rising == (line[middle] <= line[middle + 1])
    ensures EndsAt(line, if rising then Span(middle + 1, high) else Span(low, middle), end)
  {
  }

  lemma EndFound(line: seq<int>, at: nat, end: nat)
    requires EndsAt(line, Span(at, at), end)
    ensures at == end
  {
  }

  lemma EndSought(line: seq<int>, high: nat) returns (end: nat)
    requires high + 1 == |line|
    ensures EndsAt(line, Span(0, high), end) && end == Middle(line)
  {
    end := Middle(line);
  }

  method HalveLine(ev: Evaluator, base: seq<nat>, left: nat, right: nat, span: Span, ghost end: nat) returns (r: Option<Span>)
    requires ev.Valid() && IsSplit(base, Arity(ev.objective), ev.total) && left < right < |base|
    requires span.low < span.high <= base[left] + base[right] && EndsAt(PairLine(ev.seen, base, left, right), span, end)
    modifies ev
    ensures ev.Valid() && Grows(old(ev.cache), ev.cache)
    ensures Solvable(ev.objective, ev.total, ev.settings) ==> r.Some?
    ensures r.Some? ==> span.low <= r.value.low <= r.value.high <= span.high && r.value.high - r.value.low < span.high - span.low
    ensures r.Some? ==> EndsAt(PairLine(ev.seen, base, left, right), r.value, end)
    decreases Rank(ev.objective), 3, 1
  {
    var middle := (span.low + span.high) / 2;
    var rising := ProbePair(ev, base, left, right, middle);
    if rising.None? { return None; }
    EndStays(PairLine(ev.seen, base, left, right), span.low, span.high, middle, rising.value, end);
    r := Some(if rising.value then Span(middle + 1, span.high) else Span(span.low, middle));
  }

  /** Bisection on one line. It ends where the comparisons of neighbours lead,
      on the line of a concave flow on a peak. */
  method BisectPair(ev: Evaluator, base: seq<nat>, left: nat, right: nat) returns (r: Option<nat>)
    requires ev.Valid() && IsSplit(base, Arity(ev.objective), ev.total) && left < right < |base|
    modifies ev
    ensures ev.Valid() && Grows(old(ev.cache), ev.cache)
    ensures Solvable(ev.objective, ev.total, ev.settings) ==> r.Some?
    ensures r.Some? ==> r.value <= base[left] + base[right]
    ensures r.Some? ==> r.value == Middle(PairLine(ev.seen, base, left, right))
    ensures r.Some? && ConcaveFlow(ev.seen) ==>
              Peak(PairLine(ev.seen, base, left, right), 0, base[left] + base[right], r.value)
    decreases Rank(ev.objective), 4, 1
  {
    var span := Span(0, base[left] + base[right]);
    ghost var line := PairLine(ev.seen, base, left, right);
    ghost var end := EndSought(line, span.high);
    while span.low < span.high
      invariant ev.Valid() && Grows(old(ev.cache), ev.cache) && span.low <= span.high <= base[left] + base[right]
      invariant EndsAt(line, span, end)
      decreases span.high - span.low
    {
      var halved := HalveLine(ev, base, left, right, span, end);
      if halved.None? { return None; }
      span := halved.value;
    }
    EndFound(line, span.low, end);
    if ConcaveFlow(ev.seen) { MiddleIsPeak(ev.seen, base, left, right); }
    return Some(span.low);
  }

  lemma MiddleIsPeak(o: Objective, base: seq<nat>, left: nat, right: nat)
    requires ConcaveFlow(o) && |base| == Arity(o) && left < right < |base|
    ensures var line := PairLine(o, base, left, right); Peak(line, 0, base[left] + base[right], Middle(line))
  {
    FlowLineConcave(o, base, left, right);
    BisectedIsPeak(PairLine(o, base, left, right), 0, base[left] + base[right]);
  }

  /** share is scored with its value, which is its worth on the line. */
  ghost predicate ShareOk(ev: Evaluator, base: seq<nat>, left: nat, right: nat, share: nat, value: nat)
    requires |base| == Arity(ev.seen) && left < right < |base|
    reads ev
  {
    && share <= base[left] + base[right]
    && Scored(ev.cache, Candidate(Exchange(base, left, right, base[left] + base[right], share), value))
    && value == PairLine(ev.seen, base, left, right)[share]
  }

  /** Among center and the neighbours before next, share is the least best. */
  ghost predicate ScannedTo(line: seq<int>, center: nat, low: int, next: int, share: nat) {
    && share < |line| && (share == center || low <= share < next)
    && forall x {:trigger line[x]} :: 0 <= x < |line| && (x == center || low <= x < next) ==>
         line[x] <= line[share] && (line[x] == line[share] ==> share <= x)
  }

  lemma ScannedNext(line: seq<int>, center: nat, low: int, next: nat, share: nat)
    requires center < |line| && next < |line| && low <= next && ScannedTo(line, center, low, next, share)
    ensures ScannedTo(line, center, low, next + 1,
                      if line[next] > line[share] || (line[next] == line[share] && next < share) then next else share)
  {
  }

  lemma ScannedAll(line: seq<int>, center: nat, distance: nat, low: int, next: int, share: nat)
    requires center < |line| && ScannedTo(line, center, low, next, share)
    requires low == (if center < distance then 0 else center - distance)
    requires next == (if center + distance > |line| - 1 then |line| - 1 else center + distance) + 1
    ensures Scanned(line, center, distance, share)
  {
  }

  /** The neighbours of where bisection ended, the smallest share among equals. */
  method ScanAround(ev: Evaluator, base: seq<nat>, left: nat, right: nat, center: nat, centerValue: nat) returns (r: Option<(nat, nat)>)
    requires ev.Valid() && IsSplit(base, Arity(ev.objective), ev.total) && left < right < |base|
    requires ShareOk(ev, base, left, right, center, centerValue)
    modifies ev
    ensures ev.Valid() && Grows(old(ev.cache), ev.cache)
    ensures Solvable(ev.objective, ev.total, ev.settings) ==> r.Some?
    ensures r.Some? ==> ShareOk(ev, base, left, right, r.value.0, r.value.1) && r.value.1 >= centerValue
    ensures r.Some? ==>
              Scanned(PairLine(ev.seen, base, left, right), center, ev.settings.neighborhood, r.value.0)
    decreases Rank(ev.objective), 3, 0
  {
    var pairTotal := base[left] + base[right];
    ghost var line := PairLine(ev.seen, base, left, right);
    var best: nat, bestValue: nat := center, centerValue;
    var low: nat := if center < ev.settings.neighborhood then 0 else center - ev.settings.neighborhood;
    var end := if center + ev.settings.neighborhood > pairTotal then pairTotal else center + ev.settings.neighborhood;
    var candidate := low;
    while candidate <= end
      invariant low <= candidate <= end + 1
      invariant ev.Valid() && Grows(old(ev.cache), ev.cache)
      invariant ShareOk(ev, base, left, right, best, bestValue) && bestValue >= centerValue
      invariant ScannedTo(line, center, low, candidate, best)
    {
      var value := EvaluateExchange(ev, base, left, right, candidate);
      if value.None? { return None; }
      ScannedNext(line, center, low, candidate, best);
      if value.value > bestValue || (value.value == bestValue && candidate < best) {
        best, bestValue := candidate, value.value;
      }
      candidate := candidate + 1;
    }
    ScannedAll(line, center, ev.settings.neighborhood, low, candidate, best);
    return Some((best, bestValue));
  }

  /** Best share for the pair: bisection, then the neighbours of where it ended. */
  method MaximizePair(ev: Evaluator, base: seq<nat>, left: nat, right: nat) returns (r: Option<(nat, nat)>)
    requires ev.Valid() && IsSplit(base, Arity(ev.objective), ev.total) && left < right < |base|
    modifies ev
    ensures ev.Valid() && Grows(old(ev.cache), ev.cache)
    ensures Solvable(ev.objective, ev.total, ev.settings) ==> r.Some?
    ensures r.Some? ==> r.value.0 <= base[left] + base[right]
    ensures r.Some? ==> Scored(ev.cache, Candidate(Exchange(base, left, right, base[left] + base[right], r.value.0), r.value.1))
    ensures r.Some? ==> r.value.1 == PairLine(ev.seen, base, left, right)[r.value.0]
    ensures r.Some? ==>
              var line := PairLine(ev.seen, base, left, right);
              && Scanned(line, Middle(line), ev.settings.neighborhood, r.value.0)
              && r.value.0 == SearchedShare(line, ev.settings.neighborhood)
              && (Peak(line, 0, |line| - 1, r.value.0) <==> PeakNear(line, ev.settings.neighborhood))
    ensures r.Some? && ConcaveFlow(ev.seen) ==>
              Peak(PairLine(ev.seen, base, left, right), 0, base[left] + base[right], r.value.0)
    decreases Rank(ev.objective), 5, 0
  {
    var found := BisectPair(ev, base, left, right);
    if found.None? { return None; }
    var center: nat := found.value;
    var value := EvaluateExchange(ev, base, left, right, center);
    if value.None? { return None; }
    r := ScanAround(ev, base, left, right, center, value.value);
    if r.Some? { ShareSearched(ev.seen, base, left, right, ev.settings.neighborhood, r.value.0); }
  }

  lemma ShareSearched(o: Objective, base: seq<nat>, left: nat, right: nat, distance: nat, share: nat)
    requires |base| == Arity(o) && left < right < |base|
    requires var line := PairLine(o, base, left, right); Scanned(line, Middle(line), distance, share)
    ensures var line := PairLine(o, base, left, right);
            && share == SearchedShare(line, distance)
            && (Peak(line, 0, |line| - 1, share) <==> PeakNear(line, distance))
            && (ConcaveFlow(o) ==> Peak(line, 0, |line| - 1, share))
  {
    var line := PairLine(o, base, left, right);
    SearchedIsScanned(line, distance);
    ScannedUnique(line, Middle(line), distance, share, SearchedShare(line, distance));
    ScannedIsPeakIff(line, distance, share);
    if ConcaveFlow(o) {
      FlowLineConcave(o, base, left, right);
      ConcaveHasPeakNear(line, distance);
    }
  }

  // ---------- pairwise exchange ----------

  /** a candidate evaluated under ev. */
  ghost predicate Current(ev: Evaluator, c: Candidate)
    reads ev
  {
    Scored(ev.cache, c) && IsSplit(c.allocation, Arity(ev.objective), ev.total)
  }

  /** One exchange, made if it improves. */
  method TryPair(ev: Evaluator, c: Candidate, left: nat, right: nat) returns (r: Option<(Candidate, bool)>)
    requires ev.Valid() && Current(ev, c) && left < right < |c.allocation|
    modifies ev
    ensures ev.Valid() && Grows(old(ev.cache), ev.cache)
    ensures Solvable(ev.objective, ev.total, ev.settings) ==> r.Some?
    ensures r.Some? ==> Current(ev, r.value.0)
    ensures r.Some? ==> if r.value.1 then r.value.0.value > c.value else r.value.0 == c
    ensures r.Some? ==> r.value.0.allocation == PairStep(ev.seen, c.allocation, left, right, ev.settings.neighborhood)
    decreases Rank(ev.objective), 5, 1
  {
    var a := c.allocation;
    var pair := MaximizePair(ev, a, left, right);
    if pair.None? { return None; }
    WorthIsSeen(ev, a);
    PairStepBy(ev.seen, a, left, right, ev.settings.neighborhood, pair.value.0, pair.value.1, c.value);
    if pair.value.1 > c.value {
      var next := Exchange(a, left, right, a[left] + a[right], pair.value.0);
      SumChanged2(a, next, left, right);
      return Some((Candidate(next, pair.value.1), true));
    }
    return Some((c, false));
  }

  /** Try to improve c by exchanges between left and every later coordinate. */
  method SweepRow(ev: Evaluator, start: Candidate, left: nat) returns (r: Option<(Candidate, bool)>)
    requires ev.Valid() && Current(ev, start) && left < |start.allocation|
    modifies ev
    ensures ev.Valid() && Grows(old(ev.cache), ev.cache)
    ensures Solvable(ev.objective, ev.total, ev.settings) ==> r.Some?
    ensures r.Some? ==> Current(ev, r.value.0)
    ensures r.Some? ==> if r.value.1 then r.value.0.value > start.value else r.value.0 == start
    ensures r.Some? ==> r.value.0.allocation == RowStep(ev.seen, start.allocation, left, |start.allocation|, ev.settings.neighborhood)
    decreases Rank(ev.objective), 6, 0
  {
    var c, improved := start, false;
    for right := left + 1 to |start.allocation|
      invariant ev.Valid() && Grows(old(ev.cache), ev.cache)
      invariant Current(ev, c)
      invariant if improved then c.value > start.value else c == start
      invariant c.allocation == RowStep(ev.seen, start.allocation, left, right, ev.settings.neighborhood)
    {
      var tried := TryPair(ev, c, left, right);
      if tried.None? { return None; }
      c, improved := tried.value.0, improved || tried.value.1;
    }
    return Some((c, improved));
  }

  /** One sweep over every pair. */
  method Sweep(ev: Evaluator, start: Candidate) returns (r: Option<(Candidate, bool)>)
    requires ev.Valid() && Current(ev, start)
    modifies ev
    ensures ev.Valid() && Grows(old(ev.cache), ev.cache)
    ensures Solvable(ev.objective, ev.total, ev.settings) ==> r.Some?
    ensures r.Some? ==> Current(ev, r.value.0)
    ensures r.Some? ==> if r.value.1 then r.value.0.value > start.value else r.value.0 == start
    ensures r.Some? ==> r.value.0.allocation == SweepStep(ev.seen, start.allocation, |start.allocation|, ev.settings.neighborhood)
    decreases Rank(ev.objective), 7, 0
  {
    var c, improved := start, false;
    for left := 0 to |start.allocation|
      invariant ev.Valid() && Grows(old(ev.cache), ev.cache)
      invariant Current(ev, c)
      invariant if improved then c.value > start.value else c == start
      invariant c.allocation == SweepStep(ev.seen, start.allocation, left, ev.settings.neighborhood)
    {
      var row := SweepRow(ev, c, left);
      if row.None? { return None; }
      c, improved := row.value.0, improved || row.value.1;
    }
    return Some((c, improved));
  }

  /** Sweep until nothing improves, or give up after the permitted sweeps. */
  method Ascend(ev: Evaluator, start: Candidate) returns (r: Option<Candidate>, sweeps: nat)
    requires ev.Valid() && Current(ev, start)
    modifies ev
    ensures ev.Valid() && Grows(old(ev.cache), ev.cache)
    ensures r.Some? ==> Current(ev, r.value) && r.value.value >= start.value
    ensures r.Some? || Solvable(ev.objective, ev.total, ev.settings) ==>
              ClimbEnd(ev.seen, start.allocation, ev.settings.maxSweeps, ev.settings.neighborhood)
              == if r.Some? then Some(r.value.allocation) else None
    decreases Rank(ev.objective), 8, 0
  {
    var c := start;
    sweeps := 0;
    ghost var end := ClimbEnd(ev.seen, start.allocation, ev.settings.maxSweeps, ev.settings.neighborhood);
    while sweeps < ev.settings.maxSweeps
      invariant ev.Valid() && Grows(old(ev.cache), ev.cache)
      invariant Current(ev, c) && c.value >= start.value && sweeps <= ev.settings.maxSweeps
      invariant end == ClimbEnd(ev.seen, c.allocation, ev.settings.maxSweeps - sweeps, ev.settings.neighborhood)
    {
      var swept := Sweep(ev, c);
      if swept.None? { return None, sweeps; }
      ClimbNext(ev.seen, c.allocation, swept.value.0.allocation, ev.settings.maxSweeps - sweeps, ev.settings.neighborhood);
      sweeps := sweeps + 1;
      if !swept.value.1 { return Some(c), sweeps; }
      c := swept.value.0;
    }
    return None, sweeps;
  }

  lemma ClimbNext(o: Objective, a: seq<nat>, b: seq<nat>, sweeps: nat, distance: nat)
    requires |a| == Arity(o) && sweeps > 0 && b == SweepStep(o, a, |a|, distance)
    ensures ClimbEnd(o, a, sweeps, distance) == if a == b then Some(a) else ClimbEnd(o, b, sweeps - 1, distance)
  {
  }

  // ---------- starting points ----------

  ghost function KeysOf(starts: seq<seq<nat>>): set<string> { set i | 0 <= i < |starts| :: Text.AllocationKey(starts[i]) }

  ghost predicate AllStarts(starts: seq<seq<nat>>, count: nat, total: nat) {
    forall i {:trigger IsStart(starts[i], count, total)} :: 0 <= i < |starts| ==> IsStart(starts[i], count, total)
  }

  ghost predicate StartsOk(starts: seq<seq<nat>>, seen: set<string>, count: nat, total: nat) {
    Distinct(starts) && AllStarts(starts, count, total) && seen == KeysOf(starts)
  }

  /** A key is seen exactly if the allocation is among the starts. */
  lemma KeyKnown(starts: seq<seq<nat>>, candidate: seq<nat>, count: nat, total: nat)
    requires AllStarts(starts, count, total) && IsStart(candidate, count, total)
    ensures Text.AllocationKey(candidate) in KeysOf(starts) <==> candidate in starts
  {
    if Text.AllocationKey(candidate) in KeysOf(starts) {
      var i :| 0 <= i < |starts| && Text.AllocationKey(starts[i]) == Text.AllocationKey(candidate);
      assert IsStart(starts[i], count, total);
      Text.AllocationKeyInjective(starts[i], candidate);
    }
  }

  lemma StartAdded(starts: seq<seq<nat>>, candidate: seq<nat>, count: nat, total: nat)
    requires StartsOk(starts, KeysOf(starts), count, total) && IsStart(candidate, count, total) && candidate !in starts
    ensures StartsOk(starts + [candidate], KeysOf(starts) + {Text.AllocationKey(candidate)}, count, total)
  {
    var all := starts + [candidate];
    forall i | 0 <= i < |all| ensures IsStart(all[i], count, total) {
      if i < |starts| { assert IsStart(starts[i], count, total); }
    }
    forall k | k in KeysOf(starts) ensures k in KeysOf(all) {
      var i :| 0 <= i < |starts| && Text.AllocationKey(starts[i]) == k;
      assert all[i] == starts[i];
    }
    assert Text.AllocationKey(all[|starts|]) in KeysOf(all);
  }

  /** Add a candidate unless its key was already seen. */
  method AddStart(starts: seq<seq<nat>>, seen: set<string>, candidate: seq<nat>, ghost count: nat, ghost total: nat)
    returns (starts': seq<seq<nat>>, seen': set<string>)
    requires StartsOk(starts, seen, count, total) && IsStart(candidate, count, total)
    ensures StartsOk(starts', seen', count, total) && candidate in starts'
    ensures forall s :: s in starts ==> s in starts'
  {
    var key := Text.AllocationKey(candidate);
    KeyKnown(starts, candidate, count, total);
    if key in seen { return starts, seen; }
    starts', seen' := starts + [candidate], seen + {key};
    StartAdded(starts, candidate, count, total);
  }

  /** What the first i equal shares amount to. */
  function Shared(i: nat, share: nat, remainder: nat): nat { i * share + if i < remainder then i else remainder }

  lemma SharedNext(i: nat, share: nat, remainder: nat)
    ensures Shared(i + 1, share, remainder) == Shared(i, share, remainder) + share + if i < remainder then 1 else 0
  {
    assert (i + 1) * share == i * share + share;
  }

  lemma SharedAll(total: nat, count: nat)
    requires count >= 1
    ensures Shared(count, total / count, total % count) == total
  {
    DivisionRule(total, count);
  }

  method EqualSplit(total: nat, count: nat) returns (equal: seq<nat>)
    requires count >= 1
    ensures IsSplit(equal, count, total) && equal == Equal(count, total)
  {
    equal := [];
    var share, remainder := total / count, total % count;
    for i := 0 to count
      invariant |equal| == i && Sum(equal) == Shared(i, share, remainder)
      invariant forall k :: 0 <= k < i ==> equal[k] == share + if k < remainder then 1 else 0
    {
      SumSnoc(equal, share + if i < remainder then 1 else 0);
      SharedNext(i, share, remainder);
      equal := equal + [share + if i < remainder then 1 else 0];
    }
    SharedAll(total, count);
  }

  lemma SingleIsStart(count: nat, index: nat, total: nat)
    requires index < count
    ensures IsStart(Single(count, index, total), count, total)
  {
    SingleSplits(count, index, total);
  }

  lemma HalvesSplit(count: nat, left: nat, right: nat, total: nat)
    requires left < right < count
    ensures IsStart(Halves(count, left, right, total), count, total)
  {
    SingleSplits(count, right, total);
    SumChanged2(Single(count, right, total), Halves(count, left, right, total), left, right);
  }

  /** Every pair with left as its first curve and a second below bound. */
  ghost predicate HalvesFrom(starts: seq<seq<nat>>, count: nat, total: nat, left: nat, bound: nat) {
    forall r {:trigger Halves(count, left, r, total)} :: left < r < bound && r < count ==> Halves(count, left, r, total) in starts
  }

  ghost predicate AllHalves(starts: seq<seq<nat>>, count: nat, total: nat, bound: nat) {
    forall l {:trigger HalvesFrom(starts, count, total, l, count)} :: 0 <= l < bound ==> HalvesFrom(starts, count, total, l, count)
  }

  ghost predicate AllSingles(starts: seq<seq<nat>>, count: nat, total: nat, bound: nat) {
    forall i {:trigger Single(count, i, total)} :: 0 <= i < bound && i < count ==> Single(count, i, total) in starts
  }

  /** The deterministic starting points, each once: each curve alone, the equal
      split, and every pair of curves sharing the total in halves. */
  method CoordinateStarts(total: nat, count: nat) returns (starts: seq<seq<nat>>)
    requires count >= 1
    ensures Distinct(starts) && AllStarts(starts, count, total)
    ensures AllSingles(starts, count, total, count) && Equal(count, total) in starts && AllHalves(starts, count, total, count)
  {
    var seen: set<string>;
    starts, seen := SingleStarts(total, count);
    var equal := EqualSplit(total, count);
    ghost var singles := starts;
    starts, seen := AddStart(starts, seen, equal, count, total);
    SinglesKept(singles, starts, count, total);
    ghost var firsts := starts;
    starts := AddAllHalves(starts, seen, count, total);
    SinglesKept(firsts, starts, count, total);
  }

  lemma SinglesKept(before: seq<seq<nat>>, after: seq<seq<nat>>, count: nat, total: nat)
    requires AllSingles(before, count, total, count) && forall s :: s in before ==> s in after
    ensures AllSingles(after, count, total, count)
  {
  }

  lemma HalvesKept(before: seq<seq<nat>>, after: seq<seq<nat>>, count: nat, total: nat, bound: nat)
    requires AllHalves(before, count, total, bound) && forall s :: s in before ==> s in after
    ensures AllHalves(after, count, total, bound)
  {
    forall l | 0 <= l < bound ensures HalvesFrom(after, count, total, l, count) {
      assert HalvesFrom(before, count, total, l, count);
    }
  }

  method SingleStarts(total: nat, count: nat) returns (starts: seq<seq<nat>>, seen: set<string>)
    requires count >= 1
    ensures StartsOk(starts, seen, count, total) && AllSingles(starts, count, total, count)
  {
    starts, seen := [], {};
    for index := 0 to count
      invariant StartsOk(starts, seen, count, total) && AllSingles(starts, count, total, index)
    {
      SingleIsStart(count, index, total);
      starts, seen := AddStart(starts, seen, Single(count, index, total), count, total);
    }
  }

  /** Every pair of curves. */
  method AddAllHalves(starts: seq<seq<nat>>, seen: set<string>, count: nat, total: nat) returns (starts': seq<seq<nat>>)
    requires StartsOk(starts, seen, count, total)
    ensures Distinct(starts') && AllStarts(starts', count, total)
    ensures AllHalves(starts', count, total, count) && forall s :: s in starts ==> s in starts'
  {
    var seen' := seen;
    starts' := starts;
    for left := 0 to count
      invariant StartsOk(starts', seen', count, total) && AllHalves(starts', count, total, left)
      invariant forall s :: s in starts ==> s in starts'
    {
      ghost var before := starts';
      starts', seen' := AddHalves(starts', seen', left, count, total);
      HalvesKept(before, starts', count, total, left);
    }
  }

  /** The pairs of one curve with every later one. */
  method AddHalves(starts: seq<seq<nat>>, seen: set<string>, left: nat, count: nat, total: nat)
    returns (starts': seq<seq<nat>>, seen': set<string>)
    requires StartsOk(starts, seen, count, total) && left < count
    ensures StartsOk(starts', seen', count, total) && HalvesFrom(starts', count, total, left, count)
    ensures forall s :: s in starts ==> s in starts'
  {
    starts', seen' := starts, seen;
    for right := left + 1 to count
      invariant StartsOk(starts', seen', count, total) && HalvesFrom(starts', count, total, left, right)
      invariant forall s :: s in starts ==> s in starts'
    {
      HalvesSplit(count, left, right, total);
      var single := Single(count, right, total);
      var candidate := Exchange(single, left, right, total, total / 2);
      starts', seen' := AddStart(starts', seen', candidate, count, total);
    }
  }

  // ---------- the search ----------

  /** best is at least as good as giving everything to any one curve. */
  ghost predicate BeatsSingles(ev: Evaluator, best: Candidate)
    reads ev
  {
    forall i {:trigger Single(Arity(ev.objective), i, ev.total)} :: 0 <= i < Arity(ev.objective) ==>
      && Single(Arity(ev.objective), i, ev.total) in ev.cache
      && ev.cache[Single(Arity(ev.objective), i, ev.total)] <= best.value
  }

  ghost predicate AllCurrent(ev: Evaluator, cs: seq<Candidate>)
    reads ev
  {
    forall i {:trigger cs[i]} :: 0 <= i < |cs| ==> Current(ev, cs[i])
  }

  ghost function AllocationsOf(cs: seq<Candidate>): (list: seq<seq<nat>>)
    ensures |list| == |cs| && forall i :: 0 <= i < |cs| ==> list[i] == cs[i].allocation
  {
    seq(|cs|, i requires 0 <= i < |cs| => cs[i].allocation)
  }

  /** Evaluate the starting points and rank them, best first. */
  method RankStarts(ev: Evaluator) returns (r: Option<seq<Candidate>>)
    requires ev.Valid() && Arity(ev.objective) >= 1
    modifies ev
    ensures ev.Valid() && Grows(old(ev.cache), ev.cache)
    ensures Solvable(ev.objective, ev.total, ev.settings) ==> r.Some?
    ensures r.Some? ==> |r.value| > 0 && AllCurrent(ev, r.value) && BeatsSingles(ev, r.value[0])
    ensures r.Some? ==> RankedStarts(ev.seen, ev.total, AllocationsOf(r.value))
    decreases Rank(ev.objective), 2, 0
  {
    var count := Arity(ev.objective);
    var starts := CoordinateStarts(ev.total, count);
    var scored: seq<Candidate> := [];
    for index := 0 to |starts|
      invariant ev.Valid() && Grows(old(ev.cache), ev.cache)
      invariant |scored| == index && AllCurrent(ev, scored)
      invariant forall i :: 0 <= i < index ==> scored[i].allocation == starts[i]
    {
      assert IsStart(starts[index], count, ev.total);
      var value := ev.Evaluate(starts[index]);
      if value.None? { return None; }
      scored := scored + [Candidate(starts[index], value.value)];
    }
    assert Single(count, 0, ev.total) in starts;
    FirstIsBest(ev, scored);
    FirstBeatsSingles(ev, starts, scored, Ranked(scored)[0]);
    StartsAreRanked(ev, starts, scored);
    r := Some(Ranked(scored));
  }

  /** What is evaluated is rated as the flow that is seen rates it. */
  lemma CurrentIsRated(ev: Evaluator, c: Candidate)
    requires ev.Valid() && Current(ev, c)
    ensures |c.allocation| == Arity(ev.seen) && c == Rated(ev.seen, c.allocation)
  {
    WorthIsSeen(ev, c.allocation);
  }

  lemma StartsAreRanked(ev: Evaluator, starts: seq<seq<nat>>, scored: seq<Candidate>)
    requires ev.Valid() && AllCurrent(ev, scored) && |scored| == |starts| && Arity(ev.objective) >= 1
    requires forall i :: 0 <= i < |starts| ==> scored[i].allocation == starts[i]
    requires Distinct(starts) && AllStarts(starts, Arity(ev.objective), ev.total)
    requires AllSingles(starts, Arity(ev.objective), ev.total, Arity(ev.objective)) && Equal(Arity(ev.objective), ev.total) in starts
    requires AllHalves(starts, Arity(ev.objective), ev.total, Arity(ev.objective))
    ensures RankedStarts(ev.seen, ev.total, AllocationsOf(Ranked(scored)))
  {
    forall i | 0 <= i < |scored| ensures |scored[i].allocation| == Arity(ev.seen) && scored[i] == Rated(ev.seen, scored[i].allocation) {
      assert Current(ev, scored[i]);
      CurrentIsRated(ev, scored[i]);
    }
    RankedStartsAre(ev.seen, ev.total, starts, scored);
  }

  lemma RankedStartsAre(o: Objective, total: nat, starts: seq<seq<nat>>, scored: seq<Candidate>)
    requires |scored| == |starts| && Arity(o) >= 1 && Distinct(starts) && AllStarts(starts, Arity(o), total)
    requires forall i {:trigger scored[i]} :: 0 <= i < |starts| ==>
               scored[i].allocation == starts[i] && |starts[i]| == Arity(o) && scored[i] == Rated(o, starts[i])
    requires AllSingles(starts, Arity(o), total, Arity(o)) && Equal(Arity(o), total) in starts && AllHalves(starts, Arity(o), total, Arity(o))
    ensures RankedStarts(o, total, AllocationsOf(Ranked(scored)))
  {
    var list := AllocationsOf(Ranked(scored));
    assert OneEach(scored);
    RankedInOrder(scored);
    RankedDistinct(scored);
    RankedAreRated(o, scored);
    forall s: seq<nat> ensures s in list <==> IsStart(s, Arity(o), total) { RankedHasStart(o, total, starts, scored, s); }
  }

  lemma RankedAreRated(o: Objective, scored: seq<Candidate>)
    requires forall i {:trigger scored[i]} :: 0 <= i < |scored| ==> |scored[i].allocation| == Arity(o) && scored[i] == Rated(o, scored[i].allocation)
    ensures var r := Ranked(scored);
            forall i {:trigger r[i]} :: 0 <= i < |r| ==> |r[i].allocation| == Arity(o) && r[i] == Rated(o, r[i].allocation)
  {
    RankedInOrder(scored);
    var r := Ranked(scored);
    forall i | 0 <= i < |r| ensures |r[i].allocation| == Arity(o) && r[i] == Rated(o, r[i].allocation) {
      assert r[i] in multiset(scored);
      var k :| 0 <= k < |scored| && scored[k] == r[i];
    }
  }

  lemma RankedHasStart(o: Objective, total: nat, starts: seq<seq<nat>>, scored: seq<Candidate>, s: seq<nat>)
    requires |scored| == |starts| && Arity(o) >= 1 && AllStarts(starts, Arity(o), total)
    requires forall i {:trigger scored[i]} :: 0 <= i < |starts| ==> scored[i].allocation == starts[i]
    requires AllSingles(starts, Arity(o), total, Arity(o)) && Equal(Arity(o), total) in starts && AllHalves(starts, Arity(o), total, Arity(o))
    ensures s in AllocationsOf(Ranked(scored)) <==> IsStart(s, Arity(o), total)
  {
    var r, list := Ranked(scored), AllocationsOf(Ranked(scored));
    RankedInOrder(scored);
    if s in list {
      var i :| 0 <= i < |list| && list[i] == s;
      assert r[i] in multiset(scored);
      var k :| 0 <= k < |scored| && scored[k] == r[i];
      assert IsStart(starts[k], Arity(o), total);
    }
    if IsStart(s, Arity(o), total) {
      IsAmongStarts(starts, s, Arity(o), total);
      var k :| 0 <= k < |starts| && starts[k] == s;
      assert scored[k] in multiset(r);
      var i :| 0 <= i < |r| && r[i] == scored[k];
      assert list[i] == s;
    }
  }

  lemma IsAmongStarts(starts: seq<seq<nat>>, s: seq<nat>, count: nat, total: nat)
    requires IsStart(s, count, total) && AllSingles(starts, count, total, count) && Equal(count, total) in starts
    requires AllHalves(starts, count, total, count)
    ensures s in starts
  {
    if i :| 0 <= i < count && s == Single(count, i, total) {
    } else if s != Equal(count, total) {
      var l, r :| 0 <= l < r < count && s == Halves(count, l, r, total);
      assert HalvesFrom(starts, count, total, l, count);
    }
  }

  lemma FirstBeatsSingles(ev: Evaluator, starts: seq<seq<nat>>, scored: seq<Candidate>, first: Candidate)
    requires |scored| == |starts| && AllCurrent(ev, scored) && AllSingles(starts, Arity(ev.objective), ev.total, Arity(ev.objective))
    requires forall i :: 0 <= i < |starts| ==> scored[i].allocation == starts[i] && scored[i].value <= first.value
    ensures BeatsSingles(ev, first)
  {
    var count := Arity(ev.objective);
    forall i | 0 <= i < count
      ensures Single(count, i, ev.total) in ev.cache && ev.cache[Single(count, i, ev.total)] <= first.value
    {
      assert Single(count, i, ev.total) in starts;
      var k :| 0 <= k < |starts| && starts[k] == Single(count, i, ev.total);
      assert Current(ev, scored[k]);
    }
  }

  lemma FirstIsBest(ev: Evaluator, cs: seq<Candidate>)
    requires |cs| > 0 && AllCurrent(ev, cs)
    ensures |Ranked(cs)| > 0 && AllCurrent(ev, Ranked(cs))
    ensures forall i :: 0 <= i < |cs| ==> cs[i].value <= Ranked(cs)[0].value
  {
    RankedInOrder(cs);
    var r := Ranked(cs);
    assert cs[0] in multiset(r);
    forall i | 0 <= i < |r| ensures Current(ev, r[i]) {
      assert r[i] in multiset(cs);
      var k :| 0 <= k < |cs| && cs[k] == r[i];
    }
    forall i | 0 <= i < |cs| ensures cs[i].value <= r[0].value {
      assert cs[i] in multiset(r);
      var k :| 0 <= k < |r| && r[k] == cs[i];
      assert k == 0 || !Beats(r[k], r[0]);
    }
  }

  /** Climb from the best-ranked starts and keep the best end point. */
  method MultiStart(ev: Evaluator) returns (r: Option<Candidate>, sweeps: nat)
    requires ev.Valid() && Arity(ev.objective) >= 1
    modifies ev
    ensures ev.Valid() && Grows(old(ev.cache), ev.cache)
    ensures r.Some? ==> Current(ev, r.value) && BeatsSingles(ev, r.value)
    ensures r.Some? || Solvable(ev.objective, ev.total, ev.settings) ==> ClimbsCome(ev.seen, ev.total, ev.settings, r)
    decreases Rank(ev.objective), 9, 0
  {
    sweeps := 0;
    var starts := RankStarts(ev);
    if starts.None? { return None, sweeps; }
    var ranked := if |starts.value| > ev.settings.maxStarts then starts.value[..ev.settings.maxStarts] else starts.value;
    ghost var all, tops, ends: seq<seq<nat>> := AllocationsOf(starts.value), AllocationsOf(ranked), [];
    assert tops == Chosen(all, ev.settings.maxStarts);
    ghost var failed: nat;
    r, sweeps, ends, failed := ClimbAll(ev, ranked, tops);
    if r.Some? {
      ClimbedAll(ev.seen, ev.total, ev.settings, all, ends, r.value);
    } else if Solvable(ev.objective, ev.total, ev.settings) {
      OneDoesNotEnd(ev.seen, ev.total, ev.settings, all, failed);
    }
  }

  /** The climbs one after the other, up to one that does not end. */
  method ClimbAll(ev: Evaluator, ranked: seq<Candidate>, ghost tops: seq<seq<nat>>)
    returns (best: Option<Candidate>, sweeps: nat, ghost ends: seq<seq<nat>>, ghost failed: nat)
    requires ev.Valid() && |ranked| > 0 && AllCurrent(ev, ranked) && BeatsSingles(ev, ranked[0]) && tops == AllocationsOf(ranked)
    modifies ev
    ensures ev.Valid() && Grows(old(ev.cache), ev.cache)
    ensures best.Some? ==> Current(ev, best.value) && BeatsSingles(ev, best.value)
    ensures best.Some? ==> |ends| == |tops| && EndsAre(ev.seen, tops, ends, ev.settings) && BestIs(ev.seen, ends, best)
    ensures best.None? && Solvable(ev.objective, ev.total, ev.settings) ==>
              failed < |tops| && |tops[failed]| == Arity(ev.seen) &&
              ClimbEnd(ev.seen, tops[failed], ev.settings.maxSweeps, ev.settings.neighborhood) == None
    decreases Rank(ev.objective), 8, 2
  {
    best, sweeps, ends, failed := None, 0, [], 0;
    SizedTops(ev, ranked, tops);
    for index := 0 to |ranked|
      invariant ev.Valid() && Grows(old(ev.cache), ev.cache)
      invariant AllCurrent(ev, ranked) && BeatsSingles(ev, ranked[0]) && |ends| == index
      invariant best.Some? ==> Current(ev, best.value) && best.value.value >= ranked[0].value
      invariant EndsAre(ev.seen, tops, ends, ev.settings) && BestIs(ev.seen, ends, best)
    {
      var peak, used := ClimbFrom(ev, ranked, tops, index);
      sweeps := sweeps + used;
      if peak.None? { return None, sweeps, ends, index; }
      EndsNext(ev.seen, tops, ends, ev.settings, peak.value.allocation);
      BestNext(ev.seen, ends, best, peak.value);
      ends := ends + [peak.value.allocation];
      if best.None? || Beats(peak.value, best.value) {
        best := peak;
      }
    }
  }

  /** One climb; what was known of the starts is still known. */
  method ClimbFrom(ev: Evaluator, ranked: seq<Candidate>, ghost tops: seq<seq<nat>>, index: nat)
    returns (r: Option<Candidate>, sweeps: nat)
    requires ev.Valid() && index < |ranked| && AllCurrent(ev, ranked) && BeatsSingles(ev, ranked[0]) && tops == AllocationsOf(ranked)
    modifies ev
    ensures ev.Valid() && Grows(old(ev.cache), ev.cache) && AllCurrent(ev, ranked) && BeatsSingles(ev, ranked[0])
    ensures r.Some? ==> Current(ev, r.value) && |r.value.allocation| == Arity(ev.seen) && r.value == Rated(ev.seen, r.value.allocation)
    ensures r.Some? && index == 0 ==> r.value.value >= ranked[0].value
    ensures r.Some? || Solvable(ev.objective, ev.total, ev.settings) ==>
              |tops[index]| == Arity(ev.seen) &&
              ClimbEnd(ev.seen, tops[index], ev.settings.maxSweeps, ev.settings.neighborhood)
              == if r.Some? then Some(r.value.allocation) else None
    decreases Rank(ev.objective), 8, 1
  {
    assert Current(ev, ranked[index]) && tops[index] == ranked[index].allocation;
    r, sweeps := Ascend(ev, ranked[index]);
    if r.Some? { CurrentIsRated(ev, r.value); }
  }

  lemma SizedTops(ev: Evaluator, ranked: seq<Candidate>, tops: seq<seq<nat>>)
    requires ev.Valid() && AllCurrent(ev, ranked) && tops == AllocationsOf(ranked)
    ensures AllSized(ev.seen, tops)
  {
    forall i | 0 <= i < |tops| ensures |tops[i]| == Arity(ev.seen) { assert Current(ev, ranked[i]); }
  }

  /** What a search finds: its answer with its worth; exhaustive, an allocation
      worth the most; otherwise one that no searched exchange improves, and
      through concave pools none at all. */
  ghost predicate Searched(o: Objective, total: nat, settings: Settings, c: CoordinateResult)
    requires ValidSettings(settings)
  {
    var a := c.best.allocation;
    && IsSplit(a, Arity(o), total) && c.best.value == Value(o, a) && Search(o, total, settings) == Some(a)
    && (c.exhaustive ==> Greatest(o, total, c.best.value))
    && (!c.exhaustive ==> Swept(o, a, settings.neighborhood))
    && (c.exhaustive || ConcaveFlow(o) ==> FlowOptimal(o, a))
  }

  /** The search proper. Exhaustive when affordable. */
  method CoordinateOptimize(ev: Evaluator) returns (r: Option<CoordinateResult>)
    requires ev.Valid()
    modifies ev
    ensures ev.Valid()
    ensures r.Some? ==> Arity(ev.objective) >= 1 && Current(ev, r.value.best)
    ensures r.Some? ==> r.value.exhaustive == Affordable(ev.objective, ev.total, ev.settings)
    ensures r.Some? && r.value.exhaustive ==> AllCovered(ev, r.value.best)
    ensures r.Some? && !r.value.exhaustive && Arity(ev.objective) != 2 ==> BeatsSingles(ev, r.value.best)
    ensures r.Some? && !r.value.exhaustive && ConcaveFamily(ev.objective) ==>
              UpperBound(Family(ev.objective), ev.total, r.value.best.value)
    ensures r.Some? ==> r.value.pairwiseOptimal
    ensures r.Some? ==> Searched(ev.seen, ev.total, ev.settings, r.value)
    ensures Solvable(ev.objective, ev.total, ev.settings) ==> (r.Some? <==> Search(ev.seen, ev.total, ev.settings).Some?)
    decreases Rank(ev.objective), 10, 0
  {
    var count := Arity(ev.objective);
    if count < 1 {
      NothingFound(ev.seen, ev.total, ev.settings);
      return None;
    }
    if count == 1 {
      var allocation := Single(1, 0, ev.total);
      SingleSplits(1, 0, ev.total);
      LastIsForced([], allocation, ev.total, 1, ev.total);
      var ok, best := Visit(ev, allocation, None);
      if !ok { return None; }
      OnlyOne(ev, allocation, best.value);
      CoveredIsGreatest(ev, best.value);
      FoundExhaustively(ev.seen, ev.total, ev.settings, best.value.allocation);
      return Some(CoordinateResult(best.value, 1, true, true));
    }
    var affordable := CompositionCountAtMost(ev.total, count, ev.settings.exhaustiveLimit);
    if affordable {
      VisitsGrow(count, ev.total);
      var best, visits := ExhaustiveCoordinates(ev);
      if best.None? { return None; }
      assert Worth(ev.objective, ev.total, ev.secondCache, best.value.allocation, ev.cache[best.value.allocation]);
      CoveredIsGreatest(ev, best.value);
      FoundExhaustively(ev.seen, ev.total, ev.settings, best.value.allocation);
      return Some(CoordinateResult(best.value, 1, true, true));
    }
    if count == 2 {
      var best := LineOptimize(ev);
      if best.None? { return None; }
      LineEnds(ev, best.value);
      FoundOnLine(ev.seen, ev.total, ev.settings, best.value.allocation);
      return Some(CoordinateResult(best.value, 1, true, false));
    }
    var best, sweeps := MultiStart(ev);
    if best.None? {
      if Solvable(ev.objective, ev.total, ev.settings) { NothingFound(ev.seen, ev.total, ev.settings); }
      return None;
    }
    SearchStops(ev, best.value);
    FoundByClimbs(ev.seen, ev.total, ev.settings, best.value.allocation);
    return Some(CoordinateResult(best.value, sweeps, true, false));
  }

  /** Once every allocation is evaluated, the best is worth the most. */
  lemma CoveredIsGreatest(ev: Evaluator, best: Candidate)
    requires ev.Valid() && AllCovered(ev, best) && Current(ev, best)
    ensures best == Rated(ev.seen, best.allocation) && Greatest(ev.seen, ev.total, best.value)
    ensures FlowOptimal(ev.seen, best.allocation) && Unbeaten(ev.seen, ev.total, best.allocation)
  {
    var o := ev.seen;
    CurrentIsRated(ev, best);
    forall a: seq<nat> | IsSplit(a, Arity(ev.objective), ev.total) ensures Value(o, a) <= best.value && !Beats(Rated(o, a), best) {
      assert Covered(ev.cache, a, best);
      WorthIsSeen(ev, a);
    }
    GreatestIsOptimal(o, best.allocation, ev.total);
  }

  /** Where nothing near improves it, the end of a search through concave pools
      is optimal. */
  lemma SearchStops(ev: Evaluator, best: Candidate)
    requires ev.Valid() && Current(ev, best) && Swept(ev.seen, best.allocation, ev.settings.neighborhood)
    ensures best == Rated(ev.seen, best.allocation)
    ensures ConcaveFlow(ev.seen) ==> FlowOptimal(ev.seen, best.allocation)
    ensures ConcaveFamily(ev.objective) ==> UpperBound(Family(ev.objective), ev.total, best.value)
  {
    CurrentIsRated(ev, best);
    if ConcaveFlow(ev.seen) { SweptIsOptimal(ev.seen, best.allocation, ev.settings.neighborhood); }
    if ConcaveFamily(ev.objective) {
      SweptIsMaximum(ev.seen, best.allocation, ev.settings.neighborhood);
      FamilyValue(ev.seen, best.allocation);
    }
  }

  lemma LineEnds(ev: Evaluator, best: Candidate)
    requires ev.Valid() && Current(ev, best) && Arity(ev.objective) == 2
    requires OnLine(ev.seen, ev.total, ev.settings.neighborhood, best.allocation)
    ensures best == Rated(ev.seen, best.allocation) && Swept(ev.seen, best.allocation, ev.settings.neighborhood)
    ensures ConcaveFlow(ev.seen) ==> FlowOptimal(ev.seen, best.allocation)
    ensures ConcaveFamily(ev.objective) ==> UpperBound(Family(ev.objective), ev.total, best.value)
  {
    LineIsSwept(ev.seen, ev.total, ev.settings.neighborhood, best.allocation);
    SearchStops(ev, best);
  }

  lemma OnlyOne(ev: Evaluator, allocation: seq<nat>, best: Candidate)
    requires ev.Valid() && Arity(ev.objective) == 1 && Covered(ev.cache, allocation, best) && Scored(ev.cache, best)
    requires forall a: seq<nat> :: Extends(a, [], 1, ev.total) ==> a == allocation
    ensures AllCovered(ev, best) && Current(ev, best)
  {
    assert Worth(ev.objective, ev.total, ev.secondCache, best.allocation, ev.cache[best.allocation]);
    forall a: seq<nat> | IsSplit(a, 1, ev.total) ensures Covered(ev.cache, a, best) {
      assert Extends(a, [], 1, ev.total);
    }
  }

  /** Two curves: the whole problem is one line. */
  method LineOptimize(ev: Evaluator) returns (r: Option<Candidate>)
    requires ev.Valid() && Arity(ev.objective) == 2
    modifies ev
    ensures ev.Valid()
    ensures Solvable(ev.objective, ev.total, ev.settings) ==> r.Some?
    ensures r.Some? ==> Current(ev, r.value)
    ensures r.Some? ==> OnLine(ev.seen, ev.total, ev.settings.neighborhood, r.value.allocation)
    decreases Rank(ev.objective), 6, 0
  {
    var base := Single(2, 1, ev.total);
    SingleSplits(2, 1, ev.total);
    var pair := MaximizePair(ev, base, 0, 1);
    if pair.None? { return None; }
    var allocation := Exchange(base, 0, 1, ev.total, pair.value.0);
    SumChanged2(base, allocation, 0, 1);
    return Some(Candidate(allocation, pair.value.1));
  }

  /** A maximum leaves nothing to gain between any two curves. */
  lemma MaximumIsPairOptimal(curves: seq<Curve>, a: seq<nat>, total: nat)
    requires IsSplit(a, |curves|, total) && UpperBound(curves, total, Output(curves, a))
    ensures AllPairsOptimal(curves, a)
  {
    forall l, r | 0 <= l < r < |a| ensures PairOptimal(curves, a, l, r) {
      var pairTotal := a[l] + a[r];
      forall v | 0 <= v <= pairTotal
        ensures ShareLine(curves[l], curves[r], pairTotal)[v] <= ShareLine(curves[l], curves[r], pairTotal)[a[l]]
      {
        var b := Exchange(a, l, r, pairTotal, v);
        SumChanged2(a, b, l, r);
        OutputChanged2(curves, a, b, l, r);
      }
    }
  }

  /** Solve one family of independent curves. */
  method OptimizeIndependent(total: nat, curves: seq<Curve>, settings: Settings) returns (r: Option<StagePlan>)
    requires ValidSettings(settings)
    ensures r.Some? ==> PlanOk(curves, total, r.value)
    ensures r.Some? && r.value.exhaustive ==> LeastBest(curves, total, Candidate(r.value.allocations, r.value.output))
    ensures r.Some? && |curves| != 2 ==> forall i :: 0 <= i < |curves| ==> At(curves[i], total) <= r.value.output
    ensures 1 <= |curves| && (|curves| == 1 || Visits(|curves|, total) <= settings.exhaustiveLimit) ==>
              r.Some? && r.value.exhaustive
    ensures r.Some? && |curves| > 0 ==> r.value.exhaustive == Affordable(Independent(curves), total, settings)
    ensures r.Some? && (r.value.exhaustive || AllConcave(curves)) ==> AllPairsOptimal(curves, r.value.allocations)
    ensures |curves| == 2 && r.Some? && !r.value.exhaustive ==>
              (AllPairsOptimal(curves, r.value.allocations)
               <==> PeakNear(ShareLine(curves[0], curves[1], total), settings.neighborhood))
    ensures |curves| > 0 ==> Search(Independent(curves), total, settings) == if r.Some? then Some(r.value.allocations) else None
    ensures |curves| == 0 ==> (r.Some? <==> total == 0)
    decreases 0, 20, 0
  {
    if |curves| == 0 {
      if total == 0 {
        return Some(StagePlan([], 0, 0, false));
      }
      return None;
    }
    var ev := new Evaluator(Independent(curves), total, settings);
    SearchIff(Independent(curves), total, settings);
    var found := CoordinateOptimize(ev);
    if found.None? { return None; }
    var best := found.value.best;
    FamilyFound(ev, curves, found.value);
    return Some(StagePlan(best.allocation, best.value, found.value.sweeps, found.value.exhaustive));
  }

  /** What the search over one family found, in terms of its curves. */
  lemma FamilyFound(ev: Evaluator, curves: seq<Curve>, c: CoordinateResult)
    requires ev.Valid() && ev.objective == ev.seen == Independent(curves) && |curves| > 0 && Current(ev, c.best)
    requires Searched(ev.seen, ev.total, ev.settings, c) && c.exhaustive == Affordable(ev.objective, ev.total, ev.settings)
    requires c.exhaustive ==> AllCovered(ev, c.best)
    requires !c.exhaustive && |curves| != 2 ==> BeatsSingles(ev, c.best)
    requires !c.exhaustive && AllConcave(curves) ==> UpperBound(curves, ev.total, c.best.value)
    ensures PlanOk(curves, ev.total, StagePlan(c.best.allocation, c.best.value, c.sweeps, c.exhaustive))
    ensures c.exhaustive ==> LeastBest(curves, ev.total, c.best)
    ensures |curves| != 2 ==> forall i :: 0 <= i < |curves| ==> At(curves[i], ev.total) <= c.best.value
    ensures c.exhaustive || AllConcave(curves) ==> AllPairsOptimal(curves, c.best.allocation)
    ensures |curves| == 2 && !c.exhaustive ==>
              (AllPairsOptimal(curves, c.best.allocation)
               <==> PeakNear(ShareLine(curves[0], curves[1], ev.total), ev.settings.neighborhood))
  {
    assert Worth(ev.objective, ev.total, ev.secondCache, c.best.allocation, ev.cache[c.best.allocation]);
    if c.exhaustive { CoveredIsLeastBest(ev, curves, c.best); }
    if |curves| != 2 { FamilyBeatsSingles(ev, curves, c); }
    FamilyOptimal(ev.objective, c.best.allocation);
    if |curves| == 2 && !c.exhaustive {
      SearchIs(ev.seen, ev.total, ev.settings, c.best.allocation);
      FoundSays(ev.seen, ev.total, ev.settings, c.best.allocation);
      LineIsOptimalIff(ev.objective, ev.total, ev.settings.neighborhood, c.best.allocation);
      WholeLineOfTwo(curves, ev.total);
    }
  }

  lemma FamilyBeatsSingles(ev: Evaluator, curves: seq<Curve>, c: CoordinateResult)
    requires ev.Valid() && ev.objective == Independent(curves) && |curves| > 0
    requires c.exhaustive ==> UpperBound(curves, ev.total, c.best.value)
    requires !c.exhaustive ==> BeatsSingles(ev, c.best)
    ensures forall i :: 0 <= i < |curves| ==> At(curves[i], ev.total) <= c.best.value
  {
    forall i | 0 <= i < |curves| ensures At(curves[i], ev.total) <= c.best.value {
      SingleOutput(curves, i, ev.total);
      SingleSplits(|curves|, i, ev.total);
      if !c.exhaustive {
        var a := Single(|curves|, i, ev.total);
        assert Worth(ev.objective, ev.total, ev.secondCache, a, ev.cache[a]);
      }
    }
  }

  /** The maximum, and among equal outputs the allocation with the least key. */
  ghost predicate LeastBest(curves: seq<Curve>, total: nat, best: Candidate) {
    && IsSplit(best.allocation, |curves|, total) && best.value == Output(curves, best.allocation)
    && forall a: seq<nat> :: IsSplit(a, |curves|, total) ==> !Beats(Candidate(a, Output(curves, a)), best)
  }

  /** There is only one such allocation. */
  lemma LeastBestUnique(curves: seq<Curve>, total: nat, x: Candidate, y: Candidate)
    requires LeastBest(curves, total, x) && LeastBest(curves, total, y)
    ensures x == y
  {
    if x.allocation != y.allocation { BeatsTotal(x, y); }
  }

  lemma CoveredFamilyIsMaximum(ev: Evaluator, best: Candidate)
    requires ev.Valid() && IsFamily(ev.objective) && AllCovered(ev, best)
    ensures UpperBound(Family(ev.objective), ev.total, best.value)
  {
    var curves := Family(ev.objective);
    forall a: seq<nat> | IsSplit(a, |curves|, ev.total) ensures Output(curves, a) <= best.value {
      assert Covered(ev.cache, a, best);
      FamilyWorth(ev.objective, ev.total, ev.secondCache, a, ev.cache[a]);
    }
  }

  lemma CoveredIsLeastBest(ev: Evaluator, curves: seq<Curve>, best: Candidate)
    requires ev.Valid() && ev.objective == Independent(curves) && AllCovered(ev, best) && Current(ev, best)
    ensures LeastBest(curves, ev.total, best) && UpperBound(curves, ev.total, best.value)
  {
    assert Worth(ev.objective, ev.total, ev.secondCache, best.allocation, ev.cache[best.allocation]);
    forall a: seq<nat> | IsSplit(a, |curves|, ev.total)
      ensures !Beats(Candidate(a, Output(curves, a)), best) && Output(curves, a) <= best.value
    {
      assert Covered(ev.cache, a, best);
      assert Worth(ev.objective, ev.total, ev.secondCache, a, ev.cache[a]);
    }
  }

  lemma SingleOutput(curves: seq<Curve>, index: nat, total: nat)
    requires index < |curves|
    ensures Output(curves, Single(|curves|, index, total)) == At(curves[index], total)
  {
    OutputZeros(curves, Zeros(|curves|));
    OutputChanged(curves, Zeros(|curves|), Single(|curves|, index, total), index);
  }
}
