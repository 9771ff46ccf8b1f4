/** What every run of the sequential executor promises. */
module ExecutorLaws {
  import opened Common
  import opened SequentialPlan
  import opened SagaJournal
  import opened SequentialExecutor

  // ---------- which call may follow which ----------

  /** A settled call is followed by a later stage; a failed one only if it was a
      sale that definitely failed, and then by the same stage or a later one. */
  predicate Follows(c: Call, next: int) {
    match c.outcome
    case Settled(_, _, _) => c.stage.ordinal < next
    case Failed(disposition, _, _, _) => c.stage.kind == Sell && Definitive(disposition) && c.stage.ordinal <= next
  }

  /** The call at i and the two after it. */
  predicate CallAt(calls: seq<Call>, i: nat) {
    && (i + 1 < |calls| ==> Follows(calls[i], calls[i + 1].stage.ordinal))
    && (i + 2 < |calls| ==> calls[i].stage.ordinal < calls[i + 2].stage.ordinal)
  }

  ghost predicate TraceOk(calls: seq<Call>) {
    forall i {:trigger CallAt(calls, i)} :: 0 <= i < |calls| ==> CallAt(calls, i)
  }

  /** The next call may be for this ordinal. */
  ghost predicate Ready(calls: seq<Call>, attempts: map<int, nat>, next: int) {
    && (|calls| > 0 ==> Follows(calls[|calls| - 1], next))
    && (|calls| > 0 && calls[|calls| - 1].outcome.Failed? ==> calls[|calls| - 1].stage.ordinal in attempts)
    && (|calls| > 1 ==> calls[|calls| - 2].stage.ordinal < next)
  }

  lemma CallKeeps(calls: seq<Call>, attempts: map<int, nat>, c: Call)
    requires TraceOk(calls) && Ready(calls, attempts, c.stage.ordinal)
    ensures TraceOk(calls + [c])
  {
    forall i | 0 <= i < |calls + [c]| ensures CallAt(calls + [c], i) {
      assert i < |calls| ==> CallAt(calls, i);
    }
  }

  lemma SettledReady(calls: seq<Call>, attempts: map<int, nat>, c: Call, next: int)
    requires Ready(calls, attempts, c.stage.ordinal) && c.outcome.Settled? && c.stage.ordinal < next
    ensures Ready(calls + [c], attempts, next)
  {
  }

  lemma FailedReady(calls: seq<Call>, attempts: map<int, nat>, c: Call, tried: nat, next: int)
    requires Ready(calls, attempts, c.stage.ordinal) && c.stage.ordinal !in attempts
    requires c.outcome.Failed? && c.stage.kind == Sell && Definitive(c.outcome.disposition) && c.stage.ordinal <= next
    ensures Ready(calls + [c], attempts[c.stage.ordinal := tried], next)
  {
  }

  // ---------- a transported run ----------

  /** The stages of either exit: buy and bridge as planned, then a destination
      sale and its return, or the way back and a sale at the origin. */
  ghost predicate Itinerary(plan: Plan, stages: seq<Stage>) {
    && |stages| == 4 && |plan.stages| == 4 && stages[0] == plan.stages[0] && stages[1] == plan.stages[1]
    && (forall i :: 0 <= i < 4 ==> stages[i].ordinal == i + 1 && stages[i].inputFrom == 0 && stages[i].dependsOn == [])
    && Chained(stages, plan.initialInput.token)
    && stages[0].kind == Buy && stages[1].kind == BridgeBase
    && ((stages[2].kind == Sell && stages[3].kind == BridgeQuoteReturn) || (stages[2].kind == BridgeBase && stages[3].kind == Sell))
  }

  lemma PlannedItinerary(plan: Plan, stages: seq<Stage>)
    requires TransportedShape(plan) && Itinerary(plan, stages)
    ensures Itinerary(plan, plan.stages) && Take(stages, 2) + Drop(plan.stages, 2) == plan.stages
  {
  }

  lemma ReturnItinerary(plan: Plan, stages: seq<Stage>)
    requires TransportedShape(plan) && Itinerary(plan, stages)
    ensures ReturnExitStages(plan).Some? && Itinerary(plan, Take(stages, 2) + ReturnExitStages(plan).value)
  {
    ReturnExitCloses(plan);
    assert Take(stages, 2) == plan.stages[..2];
  }

  function Carried(ss: seq<Settlement>, initial: Amount): Amount {
    if |ss| == 0 then initial else ss[|ss| - 1].actualOut
  }

  /** A settlement is of its stage and consumed exactly what the one before it
      produced. */
  ghost predicate LinkedAt(ss: seq<Settlement>, stages: seq<Stage>, initial: Amount, i: nat)
    requires i < |ss| <= |stages|
  {
    ss[i].stage == stages[i] && ss[i].input == Carried(ss[..i], initial) && ss[i].actualOut.token == stages[i].outputToken
  }

  ghost predicate Linked(ss: seq<Settlement>, stages: seq<Stage>, initial: Amount) {
    |ss| <= |stages| && forall i {:trigger LinkedAt(ss, stages, initial, i)} :: 0 <= i < |ss| ==> LinkedAt(ss, stages, initial, i)
  }

  /** Where the run stands: so much settled along an itinerary. */
  ghost predicate Way(plan: Plan, stages: seq<Stage>, ss: seq<Settlement>, current: Amount) {
    && Itinerary(plan, stages) && |ss| <= 4
    && Linked(ss, stages, plan.initialInput) && current == Carried(ss, plan.initialInput)
  }

  /** The calls so far, when n stages are settled: one each, and one more per
      retried sale. */
  ghost predicate Trail(calls: seq<Call>, attempts: map<int, nat>, n: nat) {
    && attempts.Keys <= {3, 4} && (forall o :: o in attempts ==> attempts[o] >= 1)
    && |calls| == n + |attempts| && TraceOk(calls)
    && (n < 4 ==> Ready(calls, attempts, n + 1))
  }

  ghost predicate Underway(plan: Plan, s: Execution) {
    && Way(plan, s.stages, s.journal.settlements, s.current) && s.index == |s.journal.settlements|
    && Trail(s.calls, s.attempts, s.index)
  }

  ghost predicate OnlySale(ss: seq<Settlement>, sale: nat) {
    sale < |ss| && forall i :: 0 <= i < |ss| ==> (ss[i].stage.kind == Sell <==> i == sale)
  }

  /** Settled once each, in order, every stage fed by the one before, one sale,
      and back in the starting token. */
  ghost predicate RoundTrip(plan: Plan, ss: seq<Settlement>) {
    && |ss| == 4
    && (forall i :: 0 <= i < 4 ==> ss[i].stage.ordinal == i + 1)
    && ss[0].input == plan.initialInput
    && (forall i :: 0 <= i < 3 ==> ss[i + 1].input == ss[i].actualOut)
    && (exists sale :: OnlySale(ss, sale))
    && ss[3].actualOut.token == plan.initialInput.token
  }

  ghost predicate TransportedOk(plan: Plan, s: Execution) {
    && (s.state == Running ==> Underway(plan, s))
    && TraceOk(s.calls) && |s.calls| <= 6
    && (s.state == Aborted ==> s.journal.settlements == [])
    && (s.state == Completed ==> RoundTrip(plan, s.journal.settlements))
  }

  lemma AttemptsBound(attempts: map<int, nat>)
    requires attempts.Keys <= {3, 4}
    ensures |attempts| <= 2
  {
    var rest := {3, 4} - attempts.Keys;
    assert {3, 4} == attempts.Keys + rest;
    assert |{3, 4}| == |attempts.Keys| + |rest|;
  }

  /** At the end of the itinerary the round trip is complete. */
  lemma WayCompletes(plan: Plan, stages: seq<Stage>, ss: seq<Settlement>, current: Amount)
    requires Way(plan, stages, ss, current) && |ss| == 4
    ensures RoundTrip(plan, ss)
  {
    var sale := if stages[2].kind == Sell then 2 else 3;
    assert LinkedAt(ss, stages, plan.initialInput, 0) && LinkedAt(ss, stages, plan.initialInput, 1);
    assert LinkedAt(ss, stages, plan.initialInput, 2) && LinkedAt(ss, stages, plan.initialInput, 3);
    assert OnlySale(ss, sale);
    forall i | 0 <= i < 3 ensures ss[i + 1].input == ss[i].actualOut {
      assert LinkedAt(ss, stages, plan.initialInput, i + 1);
      assert ss[..i + 1][i] == ss[i];
    }
  }

  /** The stage takes what the previous one left, without conversion. */
  lemma TakesCarried(plan: Plan, s: Execution, converted: Option<Amount>)
    requires TransportedShape(plan) && Underway(plan, s) && s.index < 4
    ensures ResolveInput(plan, s.stages[s.index], s.current, s.outputs, converted) == Some(s.current)
  {
    if s.index > 0 { assert LinkedAt(s.journal.settlements, s.stages, plan.initialInput, s.index - 1); assert s.stages[s.index - 1].outputToken == s.stages[s.index].inputToken; }
  }

  lemma RecordedLinked(ss: seq<Settlement>, stages: seq<Stage>, initial: Amount, settlement: Settlement)
    requires Linked(ss, stages, initial) && |ss| < |stages|
    requires settlement.stage == stages[|ss|] && settlement.input == Carried(ss, initial)
    requires settlement.actualOut.token == settlement.stage.outputToken
    ensures Linked(ss + [settlement], stages, initial)
  {
    var next := ss + [settlement];
    forall i | 0 <= i < |next| ensures LinkedAt(next, stages, initial, i) {
      assert next[..i] == ss[..i];
      if i == |ss| { assert ss[..i] == ss; } else { assert LinkedAt(ss, stages, initial, i); }
    }
  }

  lemma Relinked(ss: seq<Settlement>, stages: seq<Stage>, other: seq<Stage>, initial: Amount)
    requires Linked(ss, stages, initial) && |ss| <= |other| && forall i :: 0 <= i < |ss| ==> other[i] == stages[i]
    ensures Linked(ss, other, initial)
  {
    forall i | 0 <= i < |ss| ensures LinkedAt(ss, other, initial, i) { assert LinkedAt(ss, stages, initial, i); }
  }

  lemma AttemptAdded(attempts: map<int, nat>, o: int, tried: nat)
    requires o !in attempts
    ensures |attempts[o := tried]| == |attempts| + 1
  {
    assert attempts[o := tried].Keys == attempts.Keys + {o};
  }

  /** One more call, settled. */
  lemma SettledTrail(calls: seq<Call>, attempts: map<int, nat>, n: nat, c: Call)
    requires Trail(calls, attempts, n) && n < 4 && c.stage.ordinal == n + 1 && c.outcome.Settled?
    ensures Trail(calls + [c], attempts, n + 1)
  {
    CallKeeps(calls, attempts, c);
    SettledReady(calls, attempts, c, n + 2);
  }

  /** One more call, a sale that failed for the first time. */
  lemma FailedTrail(calls: seq<Call>, attempts: map<int, nat>, n: nat, c: Call)
    requires Trail(calls, attempts, n) && 2 <= n < 4 && c.stage.ordinal == n + 1 && c.outcome.Failed?
    requires c.stage.kind == Sell && Definitive(c.outcome.disposition) && n + 1 !in attempts
    ensures Trail(calls + [c], attempts[n + 1 := 1], n)
  {
    CallKeeps(calls, attempts, c);
    FailedReady(calls, attempts, c, 1, n + 1);
    AttemptAdded(attempts, n + 1, 1);
  }

  /** Any further call stays within six. */
  lemma TrailBound(calls: seq<Call>, attempts: map<int, nat>, n: nat, c: Call)
    requires Trail(calls, attempts, n) && n < 4 && c.stage.ordinal == n + 1
    ensures TraceOk(calls + [c]) && |calls + [c]| <= 6
  {
    CallKeeps(calls, attempts, c);
    AttemptsBound(attempts);
  }

  /** Two stages in, the rest of the itinerary can still be exchanged. */
  lemma ReturnWay(plan: Plan, stages: seq<Stage>, ss: seq<Settlement>, current: Amount)
    requires TransportedShape(plan) && Way(plan, stages, ss, current) && |ss| == 2
    ensures ReturnExitStages(plan).Some? && Way(plan, Take(stages, 2) + ReturnExitStages(plan).value, ss, current)
  {
    ReturnItinerary(plan, stages);
    Relinked(ss, stages, Take(stages, 2) + ReturnExitStages(plan).value, plan.initialInput);
  }

  lemma PlannedWay(plan: Plan, stages: seq<Stage>, ss: seq<Settlement>, current: Amount)
    requires TransportedShape(plan) && Way(plan, stages, ss, current) && |ss| == 2
    ensures Way(plan, Take(stages, 2) + Drop(plan.stages, 2), ss, current)
  {
    PlannedItinerary(plan, stages);
    Relinked(ss, stages, plan.stages, plan.initialInput);
  }

  /** An exit choice changes the stages ahead or stops the run, nothing else. */
  ghost predicate OnlyRoute(plan: Plan, s: Execution, n: Execution) {
    && n.calls == s.calls && n.journal.settlements == s.journal.settlements && n.attempts == s.attempts && n.current == s.current
    && (n.state == Manual || (n.state == Running && RouteAhead(plan, s.stages, n.stages)))
  }

  ghost predicate RouteAhead(plan: Plan, before: seq<Stage>, after: seq<Stage>) {
    || after == before
    || after == Take(before, 2) + Drop(plan.stages, 2)
    || (ReturnExitStages(plan).Some? && after == Take(before, 2) + ReturnExitStages(plan).value)
  }

  lemma ChooseOnlyRoute(plan: Plan, selector: bool, s: Execution, stage: Stage, a: Answer)
    requires plan.policy == Transported && s.state == Running
    ensures var n := ChooseExit(plan, selector, s, stage, a);
            && OnlyRoute(plan, s, n)
            && (n.state == Running ==> n.index == s.index + 1 && (stage.ordinal != 2 ==> n.stages == s.stages))
  {
  }

  lemma ReselectOnlyRoute(plan: Plan, s: Execution, stage: Stage, a: Answer)
    requires plan.policy == Transported && s.state == Running
    ensures var n := ReselectExit(plan, s, stage, a);
            && OnlyRoute(plan, s, n)
            && (n.state == Running ==> n.index == s.index && (stage.ordinal != 3 ==> n.stages == s.stages))
  {
  }

  lemma RouteKeeps(plan: Plan, s: Execution, n: Execution)
    requires TransportedShape(plan) && OnlyRoute(plan, s, n)
    requires Way(plan, s.stages, s.journal.settlements, s.current)
    requires n.state == Running ==> |s.journal.settlements| == 2 || n.stages == s.stages
    ensures n.state == Running ==> Way(plan, n.stages, n.journal.settlements, n.current)
  {
    if |s.journal.settlements| == 2 {
      ReturnWay(plan, s.stages, s.journal.settlements, s.current);
      PlannedWay(plan, s.stages, s.journal.settlements, s.current);
    }
  }

  /** After a settlement was recorded. */
  lemma ChooseKeeps(plan: Plan, selector: bool, s: Execution, stage: Stage, a: Answer)
    requires TransportedShape(plan) && s.state == Running && s.index < 4 && stage.ordinal == s.index + 1
    requires Way(plan, s.stages, s.journal.settlements, s.current) && |s.journal.settlements| == s.index + 1
    requires Trail(s.calls, s.attempts, s.index + 1) && |s.calls| <= 6
    ensures TransportedOk(plan, ChooseExit(plan, selector, s, stage, a))
  {
    var n := ChooseExit(plan, selector, s, stage, a);
    ChooseOnlyRoute(plan, selector, s, stage, a);
    RouteKeeps(plan, s, n);
  }

  /** After a sale failed definitely for the first time. */
  lemma ReselectKeeps(plan: Plan, s: Execution, stage: Stage, a: Answer)
    requires TransportedShape(plan) && s.state == Running && stage.ordinal == s.index + 1 && |s.calls| <= 6
    requires Underway(plan, s)
    ensures TransportedOk(plan, ReselectExit(plan, s, stage, a))
  {
    var n := ReselectExit(plan, s, stage, a);
    ReselectOnlyRoute(plan, s, stage, a);
    RouteKeeps(plan, s, n);
  }

  lemma SettledKeeps(plan: Plan, selector: bool, s: Execution, c: Call, settlement: Settlement, proven: bool, a: Answer)
    requires TransportedShape(plan) && s.state == Running && Underway(plan, s) && s.index < 4
    requires settlement.stage == s.stages[s.index] == c.stage && settlement.input == s.current && c.outcome.Settled?
    ensures TransportedOk(plan, Settle(plan, selector, s.(calls := s.calls + [c]), settlement, proven, a))
  {
    TrailBound(s.calls, s.attempts, s.index, c);
    if SettlementOk(settlement.stage, settlement.input, settlement.actualIn, settlement.actualOut, proven) && a.settlementWrite == Written {
      RecordedLinked(s.journal.settlements, s.stages, plan.initialInput, settlement);
      SettledTrail(s.calls, s.attempts, s.index, c);
      var out := settlement.actualOut;
      var u := s.(calls := s.calls + [c], journal := s.journal.(settlements := s.journal.settlements + [settlement]),
                  current := out, outputs := s.outputs[settlement.stage.ordinal := out]);
      ChooseKeeps(plan, selector, u, settlement.stage, a);
    }
  }

  /** A sale that may be tried again comes third or fourth, for the first time. */
  lemma RetriedSale(plan: Plan, s: Execution, d: Disposition)
    requires Underway(plan, s) && s.index < 4
    requires CanRecoverSwap(plan, s.stages[s.index], d, Attempts(s.attempts, s.index + 1))
    ensures 2 <= s.index && s.index + 1 !in s.attempts
  {
  }

  lemma RetryKeeps(plan: Plan, s: Execution, c: Call, a: Answer)
    requires TransportedShape(plan) && s.state == Running && Underway(plan, s) && s.index < 4
    requires c.stage == s.stages[s.index] && c.outcome.Failed?
    requires CanRecoverSwap(plan, c.stage, c.outcome.disposition, Attempts(s.attempts, c.stage.ordinal))
    ensures TransportedOk(plan, ReselectExit(plan, s.(calls := s.calls + [c], attempts := s.attempts[c.stage.ordinal := 1]), c.stage, a))
  {
    TrailBound(s.calls, s.attempts, s.index, c);
    RetriedSale(plan, s, c.outcome.disposition);
    FailedTrail(s.calls, s.attempts, s.index, c);
    ReselectKeeps(plan, s.(calls := s.calls + [c], attempts := s.attempts[c.stage.ordinal := 1]), c.stage, a);
  }

  /** A failure either is tried again or ends the run, aborted only at the first
      stage. */
  lemma FailureGoesOneWay(plan: Plan, s: Execution, stage: Stage, d: Disposition, costs: Costs, a: Answer)
    ensures var n := Fail(plan, s, stage, d, costs, a);
            || (CanRecoverSwap(plan, stage, d, Attempts(s.attempts, stage.ordinal))
                && n == ReselectExit(plan, s.(attempts := s.attempts[stage.ordinal := 1]), stage, a))
            || n == Finish(s, Manual, a)
            || (stage.ordinal == 1 && n == Finish(s, Aborted, a))
  {
  }

  lemma FailedKeeps(plan: Plan, s: Execution, c: Call, a: Answer)
    requires TransportedShape(plan) && s.state == Running && Underway(plan, s) && s.index < 4
    requires c.stage == s.stages[s.index] && c.outcome.Failed?
    ensures TransportedOk(plan, Fail(plan, s.(calls := s.calls + [c]), c.stage, c.outcome.disposition, c.outcome.costs, a))
  {
    TrailBound(s.calls, s.attempts, s.index, c);
    var t := s.(calls := s.calls + [c]);
    var n := Fail(plan, t, c.stage, c.outcome.disposition, c.outcome.costs, a);
    FailureGoesOneWay(plan, t, c.stage, c.outcome.disposition, c.outcome.costs, a);
    if n != Finish(t, Manual, a) && n != Finish(t, Aborted, a) {
      RetryKeeps(plan, s, c, a);
      var r := s.(calls := s.calls + [c], attempts := s.attempts[c.stage.ordinal := 1]);
      assert r == t.(attempts := t.attempts[c.stage.ordinal := 1]);
      assert n == ReselectExit(plan, r, c.stage, a);
    }
  }

  lemma StageKeeps(plan: Plan, selector: bool, s: Execution, a: Answer)
    requires TransportedShape(plan) && s.state == Running && Underway(plan, s) && s.index < 4
    ensures TransportedOk(plan, Iterate(plan, selector, s, a))
  {
    TakesCarried(plan, s, a.converted);
    var stage := s.stages[s.index];
    var c := Call(stage, s.current, a.driven);
    TrailBound(s.calls, s.attempts, s.index, c);
    match a.driven
    case Settled(actualIn, actualOut, proven) => SettledKeeps(plan, selector, s, c, Settlement(stage, s.current, actualIn, actualOut), proven, a);
    case Failed(_, _, _, _) => FailedKeeps(plan, s, c, a);
  }

  lemma IterateKeeps(plan: Plan, selector: bool, s: Execution, a: Answer)
    requires TransportedShape(plan) && TransportedOk(plan, s)
    ensures TransportedOk(plan, Iterate(plan, selector, s, a))
  {
    if s.state == Running {
      if s.index == 4 {
        WayCompletes(plan, s.stages, s.journal.settlements, s.current);
      } else {
        StageKeeps(plan, selector, s, a);
      }
    }
  }

  /** Every state of every transported run: at most six driver calls, each
      allowed by the one before; aborted only with nothing settled; completed
      only after the round trip. */
  lemma {:induction false} TransportedRun(plan: Plan, selector: bool, answers: seq<Answer>)
    requires TransportedShape(plan)
    ensures TransportedOk(plan, RunExecution(plan, selector, answers))
  {
    if |answers| > 0 {
      TransportedRun(plan, selector, answers[..|answers| - 1]);
      IterateKeeps(plan, selector, RunExecution(plan, selector, answers[..|answers| - 1]), answers[|answers| - 1]);
    }
  }

  // ---------- reading a trace ----------

  lemma {:induction false} OrdinalsClimb(calls: seq<Call>, i: nat, j: nat)
    requires TraceOk(calls) && i < j < |calls|
    ensures calls[i].stage.ordinal <= calls[j].stage.ordinal
    ensures j >= i + 2 ==> calls[i].stage.ordinal < calls[j].stage.ordinal
    decreases j - i
  {
    assert CallAt(calls, i);
    if j > i + 2 { OrdinalsClimb(calls, i + 2, j); }
  }

  /** Only a sale is ever driven again, right away, at most once per ordinal and
      only after a rejected or confirmed failure; and nothing is driven after an
      uncertain failure. */
  lemma OnlySalesAgain(calls: seq<Call>, i: nat, j: nat)
    requires TraceOk(calls) && i < j < |calls|
    ensures calls[i].stage.ordinal == calls[j].stage.ordinal ==>
              j == i + 1 && calls[i].stage.kind == Sell && calls[i].outcome.Failed? && Definitive(calls[i].outcome.disposition)
    ensures calls[i].outcome.Failed? ==> Definitive(calls[i].outcome.disposition)
  {
    assert CallAt(calls, i);
    OrdinalsClimb(calls, i, j);
  }

  // ---------- a prefunded sequential run ----------

  const Destination := [1, 2, 3, 4]
  const Origin := [1, 5]

  /** The settled ordinals and those still ahead make up one route, and the
      durable decision says which. */
  predicate Heading(settled: seq<int>, left: seq<int>, decision: Option<Route>) {
    || (settled + left == Destination && decision != Some(SellAtOrigin) && (|settled| == 0 ==> decision == None))
    || (|settled| >= 1 && settled + left == Origin && decision == Some(SellAtOrigin))
  }

  /** What may be durable: a beginning of one route, fitting the decision once
      the routes differ. */
  predicate OnRoute(settled: seq<int>, decision: Option<Route>) {
    || (settled <= Destination && (|settled| >= 2 ==> decision != Some(SellAtOrigin)))
    || (settled <= Origin && (|settled| >= 2 ==> decision == Some(SellAtOrigin)))
  }

  predicate WholeRoute(settled: seq<int>) { settled == Destination || settled == Origin }

  predicate JournalOk(j: Journal) {
    && OnRoute(Ordinals(j.settlements), j.decision)
    && (j.state == Completed ==> WholeRoute(Ordinals(j.settlements)))
    && (j.state == Aborted ==> j.settlements == [])
  }

  ghost predicate PrefundedTrail(calls: seq<Call>, attempts: map<int, nat>, n: nat) {
    attempts.Keys <= {2} && (forall o :: o in attempts ==> attempts[o] >= 1) && |calls| == n + |attempts| && TraceOk(calls)
  }

  function Left(s: Execution): seq<int> { StageOrdinals(Drop(s.stages, s.index)) }

  ghost predicate PrefundedUnderway(s: Execution) {
    && s.journal.state == Running
    && Heading(Ordinals(s.journal.settlements), Left(s), s.journal.decision)
    && PrefundedTrail(s.calls, s.attempts, |s.journal.settlements|)
    && (Left(s) != [] ==> Ready(s.calls, s.attempts, Left(s)[0]))
  }

  ghost predicate PrefundedOk(s: Execution) {
    && (s.state == Running ==> PrefundedUnderway(s))
    && JournalOk(s.journal) && TraceOk(s.calls) && |s.calls| <= 5
    && (s.state == Aborted ==> s.journal.settlements == [])
    && (s.state == Completed ==> WholeRoute(Ordinals(s.journal.settlements)))
  }

  lemma HeadingOnRoute(settled: seq<int>, left: seq<int>, decision: Option<Route>)
    requires Heading(settled, left, decision)
    ensures OnRoute(settled, decision)
    ensures left == [] ==> WholeRoute(settled)
  {
    assert settled <= settled + left;
    assert left == [] ==> settled + left == settled;
  }

  /** What is next on a route, and what comes after it. */
  lemma NextOnRoute(settled: seq<int>, left: seq<int>, decision: Option<Route>)
    requires Heading(settled, left, decision) && left != []
    ensures |settled| <= 3 && left[0] == (if |settled| == 1 && decision == Some(SellAtOrigin) then 5 else |settled| + 1)
    ensures left[0] == 1 <==> settled == []
    ensures left[0] == 2 ==> settled == [1]
    ensures Heading(settled + [left[0]], left[1..], if settled == [] then None else decision)
    ensures |left| > 1 ==> left[0] < left[1]
  {
    var route := settled + left;
    assert route[|settled|] == left[0];
    assert |left| > 1 ==> route[|settled| + 1] == left[1];
    assert settled + [left[0]] + left[1..] == route;
    assert |settled| > 0 ==> route[0] == settled[0];
    if |settled| == 0 { assert route == left; }
  }

  lemma LeftNext(s: Execution)
    requires s.index < |s.stages|
    ensures Left(s) != [] && Left(s)[0] == s.stages[s.index].ordinal && StageOrdinals(Drop(s.stages, s.index + 1)) == Left(s)[1..]
  {
  }

  /** The breaker's stages, or what follows the buy, are what is left of the
      respective route. */
  lemma RoutesAfterBuy(plan: Plan, stages: seq<Stage>, n: nat)
    requires PrefundedShape(plan)
    ensures StageOrdinals(Drop(Take(stages, n) + plan.circuitBreaker, |Take(stages, n)|)) == [5]
    ensures StageOrdinals(Drop(plan.circuitBreaker, 0)) == [5]
    ensures StageOrdinals(Drop(Drop(plan.stages, 1), 0)) == [2, 3, 4]
  {
    assert Drop(Take(stages, n) + plan.circuitBreaker, |Take(stages, n)|) == plan.circuitBreaker;
  }

  lemma ReadyLater(calls: seq<Call>, attempts: map<int, nat>, next: int, later: int)
    requires Ready(calls, attempts, next) && next <= later
    ensures Ready(calls, attempts, later)
  {
  }

  /** A stop, or an exit choice: no call, no settlement. */
  ghost predicate Chosen(s: Execution, n: Execution) {
    && n.calls == s.calls && n.attempts == s.attempts && n.journal.settlements == s.journal.settlements && n.outputs == s.outputs
    && (n.state == Running ==> n.journal.state == s.journal.state)
    && (n.state == Running || n.state == Manual)
    && (n.journal.state == s.journal.state || n.journal.state == Manual)
  }

  /** The choice after the buy: what is ahead follows the decision. */
  lemma PrefundedChoice(plan: Plan, selector: bool, s: Execution, stage: Stage, a: Answer)
    requires PrefundedShape(plan) && s.state == Running && s.index < |s.stages|
    ensures var n := ChooseExit(plan, selector, s, stage, a);
            && Chosen(s, n)
            && (stage.ordinal != 1 ==> n.state == Running && n.journal == s.journal && Left(n) == StageOrdinals(Drop(s.stages, s.index + 1)))
            && (n.state == Running && stage.ordinal == 1 ==> n.journal.decision.Some?)
            && (n.state == Running && stage.ordinal == 1 ==>
                Left(n) == if n.journal.decision == Some(SellAtOrigin) then [5] else StageOrdinals(Drop(s.stages, s.index + 1)))
  {
    if stage.ordinal == 1 {
      AfterBuyChoice(plan, selector, s, stage, a);
      RoutesAfterBuy(plan, s.stages, s.index + 1);
    }
  }

  lemma AfterBuyChoice(plan: Plan, selector: bool, s: Execution, stage: Stage, a: Answer)
    requires plan.policy == PrefundedSequential && stage.ordinal == 1 && s.state == Running
    ensures var n := ChooseExit(plan, selector, s, stage, a);
            && Chosen(s, n)
            && (n.state == Running ==> n.journal.decision.Some? && n.index == s.index + 1)
            && (n.state == Running ==>
                n.stages == if n.journal.decision == Some(SellAtOrigin) then Take(s.stages, s.index + 1) + plan.circuitBreaker else s.stages)
  {
  }

  /** The choice after the destination sale failed. */
  lemma PrefundedRetry(plan: Plan, s: Execution, stage: Stage, a: Answer)
    requires PrefundedShape(plan) && s.state == Running && stage.ordinal == 2
    ensures var n := ReselectExit(plan, s, stage, a);
            && Chosen(s, n)
            && (n.state == Running ==>
                (n.journal.decision == Some(SellAtOrigin) && Left(n) == [5]) ||
                (n.journal.decision == Some(SellAtDestination) && Left(n) == [2, 3, 4]))
  {
    AfterFailedSale(plan, s, stage, a);
    RoutesAfterBuy(plan, s.stages, 0);
  }

  lemma AfterFailedSale(plan: Plan, s: Execution, stage: Stage, a: Answer)
    requires plan.policy == PrefundedSequential && stage.ordinal == 2 && s.state == Running
    ensures var n := ReselectExit(plan, s, stage, a);
            && Chosen(s, n)
            && (n.state == Running ==> n.index == 0)
            && (n.state == Running ==>
                (n.journal.decision == Some(SellAtOrigin) && n.stages == plan.circuitBreaker) ||
                (n.journal.decision == Some(SellAtDestination) && n.stages == Drop(plan.stages, 1)))
  {
  }

  lemma TrailBound5(calls: seq<Call>, attempts: map<int, nat>, n: nat, c: Call)
    requires PrefundedTrail(calls, attempts, n) && n <= 3 && Ready(calls, attempts, c.stage.ordinal)
    ensures TraceOk(calls + [c]) && |calls + [c]| <= 5
  {
    CallKeeps(calls, attempts, c);
    var rest := {2} - attempts.Keys;
    assert {2} == attempts.Keys + rest;
    assert |{2}| == |attempts.Keys| + |rest|;
  }

  lemma OrdinalsAppend(ss: seq<Settlement>, settlement: Settlement)
    ensures Ordinals(ss + [settlement]) == Ordinals(ss) + [settlement.stage.ordinal]
  {
  }

  /** After a settlement, with rest the ordinals behind it. */
  lemma PrefundedChooseKeeps(plan: Plan, selector: bool, s: Execution, stage: Stage, before: seq<int>, rest: seq<int>, a: Answer)
    requires PrefundedShape(plan) && s.state == Running && s.index < |s.stages| && s.journal.state == Running
    requires Ordinals(s.journal.settlements) == before + [stage.ordinal] && rest == StageOrdinals(Drop(s.stages, s.index + 1))
    requires Heading(before, [stage.ordinal] + rest, s.journal.decision)
    requires PrefundedTrail(s.calls, s.attempts, |s.journal.settlements|) && Ready(s.calls, s.attempts, stage.ordinal + 1) && |s.calls| <= 5
    ensures PrefundedOk(ChooseExit(plan, selector, s, stage, a))
  {
    var n := ChooseExit(plan, selector, s, stage, a);
    PrefundedChoice(plan, selector, s, stage, a);
    HeadingAfter(before, stage.ordinal, rest, s.journal.decision, Left(n), n.journal.decision, n.state == Running);
    if n.state == Running && Left(n) != [] { ReadyLater(n.calls, n.attempts, stage.ordinal + 1, Left(n)[0]); }
  }

  /** One stage on: the heading follows the decision made after the buy. */
  lemma HeadingAfter(before: seq<int>, o: int, rest: seq<int>, decision: Option<Route>, left: seq<int>, decided: Option<Route>, running: bool)
    requires Heading(before, [o] + rest, decision)
    requires o != 1 ==> decided == decision && left == rest
    requires o == 1 && running ==> decided.Some? && left == if decided == Some(SellAtOrigin) then [5] else rest
    ensures OnRoute(before + [o], decided)
    ensures running ==> Heading(before + [o], left, decided)
    ensures running && left != [] ==> o < left[0]
  {
    NextOnRoute(before, [o] + rest, decision);
    assert ([o] + rest)[1..] == rest;
    if o == 1 {
      assert before + ([1] + rest) == Destination;
      assert rest == Destination[1..];
    } else {
      HeadingOnRoute(before + [o], rest, decision);
    }
  }

  /** What holds once the next stage was driven, however it went. */
  lemma PrefundedCall(s: Execution, c: Call)
    requires PrefundedUnderway(s) && s.index < |s.stages| && c.stage == s.stages[s.index]
    ensures var before := Ordinals(s.journal.settlements);
            var rest := StageOrdinals(Drop(s.stages, s.index + 1));
            && TraceOk(s.calls + [c]) && |s.calls + [c]| <= 5
            && Heading(before, [c.stage.ordinal] + rest, s.journal.decision)
            && OnRoute(before + [c.stage.ordinal], s.journal.decision)
            && Ready(s.calls, s.attempts, c.stage.ordinal)
            && (c.stage.ordinal == 1 <==> before == []) && (c.stage.ordinal == 2 ==> before == [1])
  {
    var before := Ordinals(s.journal.settlements);
    LeftNext(s);
    NextOnRoute(before, Left(s), s.journal.decision);
    TrailBound5(s.calls, s.attempts, |before|, c);
    assert [c.stage.ordinal] + Left(s)[1..] == Left(s);
    HeadingOnRoute(before + [c.stage.ordinal], Left(s)[1..], if before == [] then None else s.journal.decision);
  }

  lemma PrefundedSettledKeeps(plan: Plan, selector: bool, s: Execution, c: Call, settlement: Settlement, proven: bool, a: Answer)
    requires PrefundedShape(plan) && s.state == Running && PrefundedOk(s) && s.index < |s.stages|
    requires settlement.stage == s.stages[s.index] == c.stage && c.outcome.Settled?
    ensures PrefundedOk(Settle(plan, selector, s.(calls := s.calls + [c]), settlement, proven, a))
  {
    var stage, before := c.stage, Ordinals(s.journal.settlements);
    PrefundedCall(s, c);
    var ss := s.journal.settlements + [settlement];
    OrdinalsAppend(s.journal.settlements, settlement);
    if SettlementOk(settlement.stage, settlement.input, settlement.actualIn, settlement.actualOut, proven) && a.settlementWrite == Written {
      var out := settlement.actualOut;
      SettledReady(s.calls, s.attempts, c, stage.ordinal + 1);
      var u := s.(calls := s.calls + [c], journal := s.journal.(settlements := ss), current := out, outputs := s.outputs[stage.ordinal := out]);
      PrefundedChooseKeeps(plan, selector, u, stage, before, StageOrdinals(Drop(s.stages, s.index + 1)), a);
    }
  }

  lemma PrefundedRetryKeeps(plan: Plan, s: Execution, c: Call, a: Answer)
    requires PrefundedShape(plan) && s.state == Running && PrefundedUnderway(s) && s.index < |s.stages|
    requires c.stage == s.stages[s.index] && c.outcome.Failed?
    requires CanRecoverSwap(plan, c.stage, c.outcome.disposition, Attempts(s.attempts, c.stage.ordinal))
    ensures PrefundedOk(ReselectExit(plan, s.(calls := s.calls + [c], attempts := s.attempts[c.stage.ordinal := 1]), c.stage, a))
  {
    PrefundedCall(s, c);
    var r := s.(calls := s.calls + [c], attempts := s.attempts[c.stage.ordinal := 1]);
    var n := ReselectExit(plan, r, c.stage, a);
    PrefundedRetry(plan, r, c.stage, a);
    FailedReady(s.calls, s.attempts, c, 1, 2);
    AttemptAdded(s.attempts, 2, 1);
    if n.state == Running { ReadyLater(n.calls, n.attempts, 2, Left(n)[0]); }
  }

  lemma PrefundedFailedKeeps(plan: Plan, s: Execution, c: Call, a: Answer)
    requires PrefundedShape(plan) && s.state == Running && PrefundedOk(s) && s.index < |s.stages|
    requires c.stage == s.stages[s.index] && c.outcome.Failed?
    ensures PrefundedOk(Fail(plan, s.(calls := s.calls + [c]), c.stage, c.outcome.disposition, c.outcome.costs, a))
  {
    var t := s.(calls := s.calls + [c]);
    PrefundedCall(s, c);
    var n := Fail(plan, t, c.stage, c.outcome.disposition, c.outcome.costs, a);
    FailureGoesOneWay(plan, t, c.stage, c.outcome.disposition, c.outcome.costs, a);
    if n != Finish(t, Manual, a) && n != Finish(t, Aborted, a) {
      PrefundedRetryKeeps(plan, s, c, a);
      var r := s.(calls := s.calls + [c], attempts := s.attempts[c.stage.ordinal := 1]);
      assert r == t.(attempts := t.attempts[c.stage.ordinal := 1]);
      assert n == ReselectExit(plan, r, c.stage, a);
    }
  }

  lemma PrefundedIterateKeeps(plan: Plan, selector: bool, s: Execution, a: Answer)
    requires PrefundedShape(plan) && PrefundedOk(s)
    ensures PrefundedOk(Iterate(plan, selector, s, a))
  {
    if s.state != Running { return; }
    if s.index >= |s.stages| {
      HeadingOnRoute(Ordinals(s.journal.settlements), Left(s), s.journal.decision);
      return;
    }
    var stage := s.stages[s.index];
    var input := ResolveInput(plan, stage, s.current, s.outputs, a.converted);
    if input.None? || !RequestOk(stage, input.value) { return; }
    var c := Call(stage, input.value, a.driven);
    match a.driven
    case Settled(actualIn, actualOut, proven) =>
      PrefundedSettledKeeps(plan, selector, s, c, Settlement(stage, input.value, actualIn, actualOut), proven, a);
    case Failed(_, _, _, _) => PrefundedFailedKeeps(plan, s, c, a);
  }

  /** Every state of every prefunded sequential run: at most five driver calls,
      each allowed by the one before; what is durable is the beginning of one of
      the two routes; completed only with a whole route, aborted only with
      nothing settled. */
  lemma {:induction false} PrefundedRun(plan: Plan, selector: bool, answers: seq<Answer>)
    requires PrefundedShape(plan)
    ensures PrefundedOk(RunExecution(plan, selector, answers))
  {
    if |answers| == 0 {
      assert Left(Start(plan)) == [1, 2, 3, 4];
    } else {
      PrefundedRun(plan, selector, answers[..|answers| - 1]);
      PrefundedIterateKeeps(plan, selector, RunExecution(plan, selector, answers[..|answers| - 1]), answers[|answers| - 1]);
    }
  }
}
