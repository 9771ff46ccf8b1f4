/** A transported operation across crashes: the round trip survives them as
    long as the journal takes exit decisions only while they still mean
    something, and never keeps one it reported as failed. */
module TransportedRecoveryLaws {
  import opened Common
  import opened SequentialPlan
  import opened SagaJournal
  import opened SequentialRecovery
  import SequentialExecutor
  import opened ExecutorLaws
  import opened RecoveryLaws

  /** The itinerary a decision stands for. */
  function RouteStages(plan: Plan, decision: Option<Route>): seq<Stage> {
    if decision == Some(ReturnToOrigin) && ReturnExitStages(plan).Some? then Take(plan.stages, 2) + ReturnExitStages(plan).value
    else plan.stages
  }

  /** A transported plan knows two exits; a selector may answer a third. */
  predicate Sensible(decision: Option<Decision>) { decision.Some? ==> decision.value.route != SellAtOrigin }

  /** What is durable follows the decided itinerary. */
  ghost predicate JournalWay(plan: Plan, j: Journal) {
    && j.decision != Some(SellAtOrigin)
    && |j.settlements| <= 4 && Linked(j.settlements, RouteStages(plan, j.decision), plan.initialInput)
    && (j.state == Completed ==> |j.settlements| == 4)
  }

  lemma RouteIsItinerary(plan: Plan, decision: Option<Route>)
    requires TransportedShape(plan)
    ensures Itinerary(plan, RouteStages(plan, decision))
  {
    PlannedItinerary(plan, plan.stages);
    ReturnItinerary(plan, plan.stages);
  }

  /** Up to the arrival of the base token the decision is still open. */
  lemma DecisionOpen(plan: Plan, j: Journal, decision: Option<Route>)
    requires TransportedShape(plan) && JournalWay(plan, j) && |j.settlements| <= 2 && decision != Some(SellAtOrigin)
    ensures JournalWay(plan, j.(decision := decision))
  {
    RouteIsItinerary(plan, j.decision);
    RouteIsItinerary(plan, decision);
    Relinked(j.settlements, RouteStages(plan, j.decision), RouteStages(plan, decision), plan.initialInput);
  }

  /** A whole journal is a round trip. */
  lemma WholeJournal(plan: Plan, j: Journal)
    requires TransportedShape(plan) && JournalWay(plan, j) && |j.settlements| == 4
    ensures RoundTrip(plan, j.settlements)
  {
    RouteIsItinerary(plan, j.decision);
    WayCompletes(plan, RouteStages(plan, j.decision), j.settlements, Carried(j.settlements, plan.initialInput));
  }

  // ---------- the executor ----------

  ghost predicate ExecutionWay(plan: Plan, s: SequentialExecutor.Execution) {
    && JournalWay(plan, s.journal)
    && (s.state == Running ==> s.stages == RouteStages(plan, s.journal.decision))
    && (s.state == Running ==> s.journal.state == Running && (|s.journal.settlements| < 2 ==> s.journal.decision == None))
  }

  /** An iteration that chooses: the settlements stay, and where the run goes on
      its stages are those of the durable decision. */
  ghost predicate Decided(plan: Plan, s: SequentialExecutor.Execution, n: SequentialExecutor.Execution) {
    && n.journal.settlements == s.journal.settlements && n.journal.decision != Some(SellAtOrigin)
    && (n.journal.state == s.journal.state || n.journal.state == Manual) && (n.state == Running ==> n.journal.state == s.journal.state)
    && (n.state == Running ==> n.stages == RouteStages(plan, n.journal.decision))
  }

  /** From either itinerary either can still be taken after two stages. */
  lemma RoutesRejoin(plan: Plan, decision: Option<Route>)
    requires TransportedShape(plan)
    ensures Take(RouteStages(plan, decision), 2) + Drop(plan.stages, 2) == plan.stages
    ensures ReturnExitStages(plan).Some?
    ensures Take(RouteStages(plan, decision), 2) + ReturnExitStages(plan).value == RouteStages(plan, Some(ReturnToOrigin))
  {
    RouteIsItinerary(plan, decision);
    RouteIsItinerary(plan, None);
    ReturnItinerary(plan, plan.stages);
    PlannedItinerary(plan, plan.stages);
    assert Take(RouteStages(plan, decision), 2) == Take(plan.stages, 2);
  }

  lemma ChoiceFollows(plan: Plan, selector: bool, s: SequentialExecutor.Execution, stage: Stage, a: SequentialExecutor.Answer)
    requires TransportedShape(plan) && s.state == Running && s.stages == RouteStages(plan, s.journal.decision)
    requires Sensible(a.decision) && s.journal.decision != Some(SellAtOrigin)
    requires stage.ordinal == 2 ==> s.journal.decision == None
    ensures var n := SequentialExecutor.ChooseExit(plan, selector, s, stage, a);
            Decided(plan, s, n) && (stage.ordinal != 2 ==> n.journal.decision == s.journal.decision)
  {
    RoutesRejoin(plan, s.journal.decision);
  }

  lemma RetryFollows(plan: Plan, s: SequentialExecutor.Execution, stage: Stage, a: SequentialExecutor.Answer)
    requires TransportedShape(plan) && s.state == Running && s.stages == RouteStages(plan, s.journal.decision)
    requires Sensible(a.decision) && s.journal.decision != Some(SellAtOrigin)
    ensures var n := SequentialExecutor.ReselectExit(plan, s, stage, a);
            Decided(plan, s, n) && (stage.ordinal != 3 ==> n.journal.decision == s.journal.decision)
  {
    RoutesRejoin(plan, s.journal.decision);
  }

  lemma ExecutionSettles(plan: Plan, selector: bool, s: SequentialExecutor.Execution, settlement: Settlement, proven: bool, a: SequentialExecutor.Answer)
    requires TransportedShape(plan) && s.state == Running && ExecutionWay(plan, s) && |s.journal.settlements| < 4 && Sensible(a.decision)
    requires settlement.stage == RouteStages(plan, s.journal.decision)[|s.journal.settlements|]
    requires settlement.stage.ordinal == |s.journal.settlements| + 1
    requires settlement.input == Carried(s.journal.settlements, plan.initialInput)
    ensures ExecutionWay(plan, SequentialExecutor.Settle(plan, selector, s, settlement, proven, a))
  {
    if SettlementOk(settlement.stage, settlement.input, settlement.actualIn, settlement.actualOut, proven) {
      RecordedLinked(s.journal.settlements, s.stages, plan.initialInput, settlement);
      var j := s.journal.(settlements := s.journal.settlements + [settlement]);
      assert JournalWay(plan, j);
      if a.settlementWrite == Written {
        var out, o := settlement.actualOut, settlement.stage.ordinal;
        var u := s.(journal := j, current := out, outputs := s.outputs[o := out]);
        var n := SequentialExecutor.ChooseExit(plan, selector, u, settlement.stage, a);
        ChoiceFollows(plan, selector, u, settlement.stage, a);
        if o == 2 { DecisionOpen(plan, j, n.journal.decision); }
      }
    }
  }

  lemma ExecutionFails(plan: Plan, s: SequentialExecutor.Execution, stage: Stage, d: Disposition, costs: Costs, a: SequentialExecutor.Answer)
    requires TransportedShape(plan) && s.state == Running && ExecutionWay(plan, s) && |s.journal.settlements| < 4 && Sensible(a.decision)
    requires stage.ordinal == |s.journal.settlements| + 1 && (stage.kind == Sell ==> stage.ordinal >= 3)
    ensures ExecutionWay(plan, SequentialExecutor.Fail(plan, s, stage, d, costs, a))
  {
    if costs != CostsNotRecorded && SequentialExecutor.CanRecoverSwap(plan, stage, d, SequentialExecutor.Attempts(s.attempts, stage.ordinal)) {
      var r := s.(attempts := s.attempts[stage.ordinal := SequentialExecutor.Attempts(s.attempts, stage.ordinal) + 1]);
      var n := SequentialExecutor.ReselectExit(plan, r, stage, a);
      RetryFollows(plan, r, stage, a);
      if stage.ordinal == 3 { DecisionOpen(plan, s.journal, n.journal.decision); }
    }
  }

  lemma ExecutionIterates(plan: Plan, selector: bool, s: SequentialExecutor.Execution, a: SequentialExecutor.Answer)
    requires TransportedShape(plan) && TransportedOk(plan, s) && ExecutionWay(plan, s) && Sensible(a.decision)
    ensures ExecutionWay(plan, SequentialExecutor.Iterate(plan, selector, s, a))
  {
    if s.state != Running || s.index >= |s.stages| { return; }
    TakesCarried(plan, s, a.converted);
    var stage := s.stages[s.index];
    if !RequestOk(stage, s.current) { return; }
    var t := s.(calls := s.calls + [Call(stage, s.current, a.driven)]);
    match a.driven
    case Settled(actualIn, actualOut, proven) =>
      ExecutionSettles(plan, selector, t, Settlement(stage, s.current, actualIn, actualOut), proven, a);
    case Failed(disposition, costs, _, _) => ExecutionFails(plan, t, stage, disposition, costs, a);
  }

  // ---------- the recovery ----------

  ghost predicate RecoveryWay(plan: Plan, s: Recovery) {
    && JournalWay(plan, s.journal)
    && (s.phase == Looping ==>
        && s.stages == RouteStages(plan, s.journal.decision) && s.journal.state == Running
        && s.current == Carried(s.journal.settlements, plan.initialInput)
        && s.settled == SettledOrdinals(s.journal.settlements) && s.currentStage == |s.journal.settlements|)
    && (s.phase == Finished(Completed) ==> |s.journal.settlements| == 4)
  }

  /** The selector answers with an exit of the plan; the journal keeps an exit
      decision only while at most two stages are settled, and one it reports as
      failed it did not keep. */
  predicate Careful(s: Recovery, a: Answer) {
    Sensible(a.decision) && a.decisionWrite != Reported && (|s.journal.settlements| >= 3 ==> a.decisionWrite == Lost)
  }

  lemma NextOnWay(plan: Plan, s: Recovery)
    requires TransportedShape(plan) && RecoveryWay(plan, s) && s.phase == Looping
    ensures var n := |s.journal.settlements|;
            NextUnsettled(s.stages, s.settled) == if n < 4 then Some(s.stages[n]) else None
    ensures Itinerary(plan, s.stages)
  {
    var ss, n := s.journal.settlements, |s.journal.settlements|;
    RouteIsItinerary(plan, s.journal.decision);
    forall i | 0 <= i < n ensures ss[i].stage.ordinal == i + 1 && s.stages[i].ordinal in s.settled {
      assert LinkedAt(ss, s.stages, plan.initialInput, i);
      assert ss[i].stage == s.stages[i];
    }
    NextAfterPrefix(s.stages, s.settled, n);
  }

  lemma ReselectWay(plan: Plan, s: Recovery, a: Answer)
    requires TransportedShape(plan) && RecoveryWay(plan, s) && s.phase == Looping && Sensible(a.decision) && a.decisionWrite != Reported
    requires |s.journal.settlements| >= 3 ==> a.decisionWrite == Lost
    ensures var (t, ok) := Reselect(plan, s, a);
            && RecoveryWay(plan, t) && (!ok ==> t == s)
            && t.phase == Looping && t.journal.settlements == s.journal.settlements
  {
    ReturnItinerary(plan, plan.stages) by { RouteIsItinerary(plan, None); }
    var (t, ok) := Reselect(plan, s, a);
    if ok { DecisionOpen(plan, s.journal, t.journal.decision); }
  }

  /** A failure stops the run, changes nothing, or compares the exits anew. */
  lemma FailOutcomes(plan: Plan, s: Recovery, stage: Stage, d: Driven, a: Answer)
    requires plan.policy == Transported && d.Failed?
    ensures var n := Fail(plan, s, stage, d, a);
            var t := Reselect(plan, s, a).0;
            n == s || n == s.(phase := Stopped) || n == Block(s, a) || n == t || n == t.(exitRefreshed := true)
  {
  }

  lemma FailWay(plan: Plan, s: Recovery, stage: Stage, d: Driven, a: Answer)
    requires TransportedShape(plan) && RecoveryWay(plan, s) && s.phase == Looping && Careful(s, a) && d.Failed?
    ensures RecoveryWay(plan, Fail(plan, s, stage, d, a))
  {
    FailOutcomes(plan, s, stage, d, a);
    ReselectWay(plan, s, a);
  }

  /** One more stage of the itinerary settled. */
  lemma RecordedWay(plan: Plan, s: Recovery, settlement: Settlement)
    requires TransportedShape(plan) && RecoveryWay(plan, s) && s.phase == Looping && |s.journal.settlements| < 4
    requires settlement.stage == s.stages[|s.journal.settlements|] && settlement.input == s.current
    requires settlement.actualOut.token == settlement.stage.outputToken
    ensures RecoveryWay(plan, Recorded(s, settlement)) && settlement.stage.ordinal == |s.journal.settlements| + 1
  {
    RouteIsItinerary(plan, s.journal.decision);
    RecordedLinked(s.journal.settlements, s.stages, plan.initialInput, settlement);
    SettledAppend(s.journal.settlements, settlement);
  }

  lemma SettleWay(plan: Plan, s: Recovery, settlement: Settlement, proven: bool, a: Answer)
    requires TransportedShape(plan) && RecoveryWay(plan, s) && s.phase == Looping && Careful(s, a) && |s.journal.settlements| < 4
    requires settlement.stage == s.stages[|s.journal.settlements|] && settlement.input == s.current
    ensures RecoveryWay(plan, Settle(plan, s, settlement, proven, a))
  {
    SettleOutcomes(plan, s, settlement, proven, a);
    if SettlementOk(settlement.stage, settlement.input, settlement.actualIn, settlement.actualOut, proven) {
      RecordedWay(plan, s, settlement);
      if settlement.stage.ordinal == 2 { ReselectWay(plan, Recorded(s, settlement), a); }
    }
  }

  lemma RecoveryTakesCarried(plan: Plan, s: Recovery, a: Answer)
    requires TransportedShape(plan) && RecoveryWay(plan, s) && s.phase == Looping && |s.journal.settlements| < 4
    requires Itinerary(plan, s.stages)
    ensures ResolveRecoveryInput(plan, s.stages[|s.journal.settlements|], s.current, s.outputs, a.converted) == Some(s.current)
  {
    var n := |s.journal.settlements|;
    if n > 0 {
      assert LinkedAt(s.journal.settlements, s.stages, plan.initialInput, n - 1);
      assert s.stages[n - 1].outputToken == s.stages[n].inputToken;
    }
  }

  lemma AttemptWay(plan: Plan, s: Recovery, a: Answer)
    requires TransportedShape(plan) && RecoveryWay(plan, s) && s.phase == Looping && Careful(s, a) && |s.journal.settlements| < 4
    ensures RecoveryWay(plan, Attempt(plan, s, s.stages[|s.journal.settlements|], a))
  {
    NextOnWay(plan, s);
    RecoveryTakesCarried(plan, s, a);
    var stage := s.stages[|s.journal.settlements|];
    var t := s.(calls := s.calls + [Call(stage, s.current, a.driven)]);
    match a.driven
    case Failed(_, _, _, _) => FailWay(plan, t, stage, a.driven, a);
    case Settled(actualIn, actualOut, proven) => SettleWay(plan, t, Settlement(stage, s.current, actualIn, actualOut), proven, a);
  }

  lemma TurnWay(plan: Plan, s: Recovery, a: Answer)
    requires TransportedShape(plan) && RecoveryWay(plan, s) && Careful(s, a)
    ensures RecoveryWay(plan, Turn(plan, s, a))
  {
    if s.phase != Looping { return; }
    NextOnWay(plan, s);
    if |s.journal.settlements| < 4 {
      ReselectWay(plan, s, a);
      AttemptWay(plan, s, a);
    }
  }

  lemma ResumeWay(plan: Plan, j: Journal, a: Answer)
    requires TransportedShape(plan) && JournalWay(plan, j) && Resumable(j)
    ensures RecoveryWay(plan, Resume(plan, j, a))
  {
    RouteIsItinerary(plan, j.decision);
    ReturnItinerary(plan, plan.stages) by { RouteIsItinerary(plan, None); }
    if |j.settlements| > 0 { assert LinkedAt(j.settlements, RouteStages(plan, j.decision), plan.initialInput, |j.settlements| - 1); }
  }

  // ---------- across crashes ----------

  ghost predicate ProcessWay(plan: Plan, p: Process) {
    match p
    case Executing(s) => TransportedOk(plan, s) && ExecutionWay(plan, s)
    case Down(j) => JournalWay(plan, j)
    case Resumed(s) => RecoveryWay(plan, s)
  }

  /** What the theorem asks of selectors and journal, event by event. */
  predicate CarefulEvent(p: Process, e: Event) {
    match e
    case ExecutorTurn(a) => Sensible(a.decision)
    case RecoveryTurn(a) => p.Resumed? ==> Careful(p.recovery, a)
    case _ => true
  }

  predicate CarefulRun(plan: Plan, selector: bool, events: seq<Event>) {
    |events| > 0 ==>
      var before := events[..|events| - 1];
      CarefulRun(plan, selector, before) && CarefulEvent(RunAll(plan, selector, before), events[|events| - 1])
  }

  /** Every event keeps it. */
  lemma WayHappens(plan: Plan, selector: bool, p: Process, e: Event)
    requires TransportedShape(plan) && ProcessWay(plan, p) && CarefulEvent(p, e)
    ensures ProcessWay(plan, Happen(plan, selector, p, e))
  {
    match e
    case ExecutorTurn(a) => if p.Executing? { IterateKeeps(plan, selector, p.execution, a); ExecutionIterates(plan, selector, p.execution, a); }
    case Crash =>
    case Resumption(a) => if p.Down? && Resumable(p.journal) { ResumeWay(plan, p.journal, a); }
    case RecoveryTurn(a) => if p.Resumed? { TurnWay(plan, p.recovery, a); }
  }

  lemma {:induction false} ProcessStaysOnWay(plan: Plan, selector: bool, events: seq<Event>)
    requires TransportedShape(plan) && CarefulRun(plan, selector, events)
    ensures ProcessWay(plan, RunAll(plan, selector, events))
  {
    if |events| == 0 {
      TransportedRun(plan, selector, []);
    } else {
      ProcessStaysOnWay(plan, selector, events[..|events| - 1]);
      WayHappens(plan, selector, RunAll(plan, selector, events[..|events| - 1]), events[|events| - 1]);
    }
  }

  /** Wherever it crashes and however often it is resumed: settled in order, each
      stage fed exactly what the one before it produced, and a completed
      operation made the whole round trip with one sale. */
  lemma RoundTripAcrossCrashes(plan: Plan, selector: bool, events: seq<Event>)
    requires TransportedShape(plan) && CarefulRun(plan, selector, events)
    ensures var j := Durable(RunAll(plan, selector, events));
            && Linked(j.settlements, RouteStages(plan, j.decision), plan.initialInput)
            && (j.state == Completed ==> RoundTrip(plan, j.settlements))
  {
    ProcessStaysOnWay(plan, selector, events);
    var j := Durable(RunAll(plan, selector, events));
    if j.state == Completed { WholeJournal(plan, j); }
  }

  // ---------- why the journal must refuse late decisions ----------

  /** The sale fails for now, and the exits are compared once more. */
  const SaleFails := Answer(None, false, 0, Failed(Rejected, NoCosts, Temporary, false), false, false, None, Written,
                            Some(Decision(SellAtDestination, true)), Written, true, true, Written)

  /** The quote bridge settles; everything is written down. */
  function BridgeSettles(stage: Stage): Answer {
    Answer(Some(Amount(stage.inputToken, 1)), false, 0, Settled(Amount(stage.inputToken, 1), Amount(stage.outputToken, 1), true), false,
           false, None, Written, None, Written, true, true, Written)
  }

  ghost predicate NoSale(ss: seq<Settlement>) { forall i :: 0 <= i < |ss| ==> ss[i].stage.kind != Sell }

  /** Back at the origin with only the sale to do. */
  ghost predicate BackAtOrigin(plan: Plan, s: Recovery) {
    RecoveryWay(plan, s) && s.phase == Looping && |s.journal.settlements| == 3 && s.journal.decision == Some(ReturnToOrigin) && s.current.units != 0
  }

  lemma LateDecisionTaken(plan: Plan, s: Recovery)
    requires TransportedShape(plan) && BackAtOrigin(plan, s)
    ensures var n := Turn(plan, s, SaleFails);
            && n.phase == Looping && n.stages == plan.stages && n.settled == s.settled && n.current == s.current
            && n.currentStage == 3 && n.journal.settlements == s.journal.settlements
  {
    NextOnWay(plan, s);
    RecoveryTakesCarried(plan, s, SaleFails);
    ReturnExitCloses(plan);
    assert s.stages[3] == ReturnExitStages(plan).value[1];
  }

  lemma NoSaleYet(plan: Plan, s: Recovery)
    requires TransportedShape(plan) && BackAtOrigin(plan, s)
    ensures NoSale(s.journal.settlements)
  {
    ReturnExitCloses(plan);
    RouteIsItinerary(plan, s.journal.decision);
    var ss := s.journal.settlements;
    assert LinkedAt(ss, s.stages, plan.initialInput, 0) && LinkedAt(ss, s.stages, plan.initialInput, 1) && LinkedAt(ss, s.stages, plan.initialInput, 2);
    assert s.stages[2] == ReturnExitStages(plan).value[0];
  }

  lemma QuoteBridgeSettles(plan: Plan, s: Recovery)
    requires TransportedShape(plan) && s.phase == Looping && s.stages == plan.stages && s.settled == {1, 2, 3}
    requires s.currentStage == 3 && s.current.units != 0 && |s.journal.settlements| == 3 && NoSale(s.journal.settlements)
    ensures var n := Turn(plan, s, BridgeSettles(plan.stages[3]));
            n.phase == Looping && n.stages == plan.stages && n.settled == {1, 2, 3, 4} && |n.journal.settlements| == 4 && NoSale(n.journal.settlements)
  {
    NextAfterPrefix(s.stages, s.settled, 3);
    assert AllStages(plan)[3] == plan.stages[3] && StageOk(AllStages(plan)[3]);
  }

  /** A journal that takes a decision after the third stage lets an operation
      complete without any sale. */
  lemma LateDecisionLosesSale(plan: Plan, s: Recovery)
    requires TransportedShape(plan) && BackAtOrigin(plan, s)
    ensures var b := BridgeSettles(plan.stages[3]);
            var n := Turn(plan, Turn(plan, Turn(plan, s, SaleFails), b), b);
            n.phase == Finished(Completed) && |n.journal.settlements| == 4 && NoSale(n.journal.settlements)
  {
    var b := BridgeSettles(plan.stages[3]);
    var s1 := Turn(plan, s, SaleFails);
    LateDecisionTaken(plan, s);
    NoSaleYet(plan, s);
    SettledThree(plan, s);
    QuoteBridgeSettles(plan, s1);
    var s2 := Turn(plan, s1, b);
    NextAfterPrefix(s2.stages, s2.settled, 4);
  }

  lemma SettledThree(plan: Plan, s: Recovery)
    requires TransportedShape(plan) && BackAtOrigin(plan, s)
    ensures s.settled == {1, 2, 3}
  {
    NextOnWay(plan, s);
    var ss := s.journal.settlements;
    assert LinkedAt(ss, s.stages, plan.initialInput, 0) && LinkedAt(ss, s.stages, plan.initialInput, 1) && LinkedAt(ss, s.stages, plan.initialInput, 2);
    assert forall o :: o in s.settled <==> o == ss[0].stage.ordinal || o == ss[1].stage.ordinal || o == ss[2].stage.ordinal;
  }

  // ---------- why a decision reported as failed must not be kept ----------

  /** The sale fails for now; the decision to go back is kept although the write
      comes back with an error. */
  const DecisionReported := Answer(None, false, 0, Failed(Rejected, NoCosts, Temporary, false), false, false, None, Written,
                                   Some(Decision(ReturnToOrigin, true)), Reported, true, true, Written)

  /** The stage settles, from a converted input if need be. */
  function StageSettles(stage: Stage): Answer {
    Answer(Some(Amount(stage.inputToken, 1)), false, 0, Settled(Amount(stage.inputToken, 1), Amount(stage.outputToken, 1), true), false,
           false, None, Written, None, Written, true, true, Written)
  }

  /** The base token has arrived and the destination sale is next. */
  ghost predicate AtDestination(plan: Plan, s: Recovery) {
    && RecoveryWay(plan, s) && s.phase == Looping && |s.journal.settlements| == 2
    && s.stages == plan.stages && s.exitRefreshed && s.current.units != 0
  }

  lemma SettledTwo(plan: Plan, s: Recovery)
    requires TransportedShape(plan) && AtDestination(plan, s)
    ensures s.settled == {1, 2} && s.current.token == plan.stages[2].inputToken
    ensures s.journal.settlements[0].stage.ordinal == 1 && s.journal.settlements[1].stage.ordinal == 2
  {
    NextOnWay(plan, s);
    var ss := s.journal.settlements;
    assert LinkedAt(ss, s.stages, plan.initialInput, 0) && LinkedAt(ss, s.stages, plan.initialInput, 1);
    assert forall o :: o in s.settled <==> o == ss[0].stage.ordinal || o == ss[1].stage.ordinal;
  }

  /** The old sale is still what the loop tries, the journal says otherwise. */
  lemma DecisionKept(plan: Plan, s: Recovery)
    requires TransportedShape(plan) && AtDestination(plan, s)
    ensures Turn(plan, s, DecisionReported).journal == s.journal.(decision := Some(ReturnToOrigin))
    ensures var n := Turn(plan, s, DecisionReported);
            && n.phase == Looping && n.stages == plan.stages && n.settled == {1, 2} && n.current == s.current && n.exitRefreshed
  {
    SettledTwo(plan, s);
    NextAfterPrefix(s.stages, s.settled, 2);
  }

  lemma DestinationSold(plan: Plan, s: Recovery)
    requires TransportedShape(plan) && s.phase == Looping && s.stages == plan.stages && s.settled == {1, 2} && s.exitRefreshed
    requires s.current.units != 0 && s.current.token == plan.stages[2].inputToken
    ensures var n := Turn(plan, s, StageSettles(plan.stages[2]));
            exists sold: Settlement :: sold.stage == plan.stages[2] && sold.actualOut == Amount(plan.stages[2].outputToken, 1)
              && n.journal == s.journal.(settlements := s.journal.settlements + [sold])
  {
    NextAfterPrefix(s.stages, s.settled, 2);
    assert AllStages(plan)[2] == plan.stages[2] && StageOk(AllStages(plan)[2]);
    var a := StageSettles(plan.stages[2]);
    var sold := Settlement(plan.stages[2], s.current, a.driven.actualIn, a.driven.actualOut);
    assert Turn(plan, s, a).journal == s.journal.(settlements := s.journal.settlements + [sold]);
  }

  /** Resumed, the operation sells again and completes. */
  lemma SoldAgain(plan: Plan, j: Journal, first: Answer)
    requires TransportedShape(plan) && Resumable(j) && j.decision == Some(ReturnToOrigin) && |j.settlements| == 3
    requires forall i :: 0 <= i < 3 ==> j.settlements[i].stage.ordinal == i + 1
    requires j.settlements[2].actualOut.units == 1
    ensures ReturnExitStages(plan).Some?
    ensures var again := ReturnExitStages(plan).value[1];
            var n := Turn(plan, Turn(plan, Resume(plan, j, first), StageSettles(again)), StageSettles(again));
            && n.phase == Finished(Completed) && |n.journal.settlements| == 4 && n.journal.settlements[..3] == j.settlements
            && n.journal.settlements[3].stage.kind == Sell
  {
    ReturnExitCloses(plan);
    RouteIsItinerary(plan, j.decision);
    var again := ReturnExitStages(plan).value[1];
    var s := Resume(plan, j, first);
    assert s.stages == RouteStages(plan, j.decision) && s.stages[3] == again;
    assert j.settlements[0].stage.ordinal in s.settled && j.settlements[1].stage.ordinal in s.settled && j.settlements[2].stage.ordinal in s.settled;
    NextAfterPrefix(s.stages, s.settled, 3);
    ReturnSaleOk(plan);
    var s1 := Turn(plan, s, StageSettles(again));
    NextAfterPrefix(s1.stages, s1.settled, 4);
  }

  lemma ReturnSaleOk(plan: Plan)
    requires ReturnExitStages(plan).Some?
    ensures StageOk(ReturnExitStages(plan).value[1]) && ReturnExitStages(plan).value[1].kind == Sell
  {
  }

  /** A journal that keeps a decision it reported as failed lets an operation
      sell twice and complete. */
  lemma ReportedDecisionSellsTwice(plan: Plan, s: Recovery, first: Answer)
    requires TransportedShape(plan) && AtDestination(plan, s)
    ensures ReturnExitStages(plan).Some?
    ensures var j := Turn(plan, Turn(plan, s, DecisionReported), StageSettles(plan.stages[2])).journal;
            var again := StageSettles(ReturnExitStages(plan).value[1]);
            var n := Turn(plan, Turn(plan, Resume(plan, j, first), again), again);
            && n.phase == Finished(Completed) && |n.journal.settlements| == 4
            && n.journal.settlements[2].stage.kind == Sell && n.journal.settlements[3].stage.kind == Sell
  {
    SettledTwo(plan, s);
    DecisionKept(plan, s);
    var s1 := Turn(plan, s, DecisionReported);
    DestinationSold(plan, s1);
    var j := Turn(plan, s1, StageSettles(plan.stages[2])).journal;
    SoldAgain(plan, j, first);
    var again := StageSettles(ReturnExitStages(plan).value[1]);
    var n := Turn(plan, Turn(plan, Resume(plan, j, first), again), again);
    assert n.journal.settlements[2] == n.journal.settlements[..3][2];
  }

  // ---------- why the selector must answer with an exit of the plan ----------

  /** A resumption that finds the prefunded plans' exit decided has nothing left to
      do: with buy and bridge settled the operation completes without a sale. */
  lemma OriginDecisionLosesSale(plan: Plan, j: Journal, first: Answer, turn: Answer)
    requires TransportedShape(plan) && plan.circuitBreaker == [] && Resumable(j)
    requires j.decision == Some(SellAtOrigin) && Ordinals(j.settlements) == [1, 2] && NoSale(j.settlements)
    requires turn.accounted && turn.resultKept && turn.finishWrite == Written
    ensures var n := Turn(plan, Resume(plan, j, first), turn);
            && n.phase == Finished(Completed) && n.journal.state == Completed
            && n.journal.settlements == j.settlements && NoSale(n.journal.settlements)
  {
    var s := Resume(plan, j, first);
    assert j.settlements[0].stage.ordinal == 1;
    assert s.stages == [plan.stages[0]] && 1 in s.settled;
    NextAfterPrefix(s.stages, s.settled, 1);
  }

  // An input: the buy settles, the bridge settles and the selector answers with
  // the prefunded plans' exit, the process crashes and is resumed.

  function Settles(stage: Stage, decision: Option<Decision>): SequentialExecutor.Answer {
    SequentialExecutor.Answer(None, Settled(Amount(stage.inputToken, 1), Amount(stage.outputToken, 1), true), Written, decision, Written, true, Written)
  }

  lemma BuySettled(plan: Plan)
    requires TransportedShape(plan)
    ensures var n := SequentialExecutor.Iterate(plan, true, SequentialExecutor.Start(plan), Settles(plan.stages[0], None));
            && n.state == Running && n.stages == plan.stages && n.index == 1 && n.current == Amount(plan.stages[0].outputToken, 1)
            && n.journal.state == Running && Ordinals(n.journal.settlements) == [1] && NoSale(n.journal.settlements)
  {
    PlannedItinerary(plan, plan.stages) by { RouteIsItinerary(plan, None); }
    assert AllStages(plan)[0] == plan.stages[0] && StageOk(AllStages(plan)[0]);
  }

  lemma BridgeDecides(plan: Plan, s: SequentialExecutor.Execution)
    requires TransportedShape(plan) && s.state == Running && s.stages == plan.stages && s.index == 1
    requires s.current == Amount(plan.stages[0].outputToken, 1)
    requires s.journal.state == Running && Ordinals(s.journal.settlements) == [1] && NoSale(s.journal.settlements)
    ensures var n := SequentialExecutor.Iterate(plan, true, s, Settles(plan.stages[1], Some(Decision(SellAtOrigin, true))));
            && n.journal.state == Running && n.journal.decision == Some(SellAtOrigin)
            && Ordinals(n.journal.settlements) == [1, 2] && NoSale(n.journal.settlements)
  {
    assert AllStages(plan)[1] == plan.stages[1] && StageOk(AllStages(plan)[1]);
    assert plan.stages[0].outputToken == plan.stages[1].inputToken;
  }

  predicate OriginEvents(plan: Plan, events: seq<Event>)
    requires |plan.stages| == 4
  {
    && |events| == 5
    && events[0] == ExecutorTurn(Settles(plan.stages[0], None))
    && events[1] == ExecutorTurn(Settles(plan.stages[1], Some(Decision(SellAtOrigin, true))))
    && events[2] == Crash && events[3] == Resumption(StageSettles(plan.stages[0])) && events[4] == RecoveryTurn(StageSettles(plan.stages[0]))
  }

  /** Nothing is late and nothing reported as failed, and yet there is no sale. */
  lemma OriginDecisionAt(plan: Plan, events: seq<Event>)
    requires TransportedShape(plan) && plan.circuitBreaker == [] && OriginEvents(plan, events)
    ensures var j := Durable(RunAll(plan, true, events)); j.state == Completed && |j.settlements| == 2 && NoSale(j.settlements)
  {
    var r := StageSettles(plan.stages[0]);
    var s := DecidesForOrigin(plan, events[0], events[1]);
    OriginDecisionLosesSale(plan, s.journal, r, r);
    FiveEvents(plan, events, Executing(s));
  }

  lemma DecidesForOrigin(plan: Plan, first: Event, second: Event) returns (s: SequentialExecutor.Execution)
    requires TransportedShape(plan) && first == ExecutorTurn(Settles(plan.stages[0], None))
    requires second == ExecutorTurn(Settles(plan.stages[1], Some(Decision(SellAtOrigin, true))))
    ensures Executing(s) == Happen(plan, true, Happen(plan, true, Executing(SequentialExecutor.Start(plan)), first), second)
    ensures s.journal.state == Running && s.journal.decision == Some(SellAtOrigin)
    ensures Ordinals(s.journal.settlements) == [1, 2] && NoSale(s.journal.settlements)
  {
    BuySettled(plan);
    var s1 := SequentialExecutor.Iterate(plan, true, SequentialExecutor.Start(plan), Settles(plan.stages[0], None));
    BridgeDecides(plan, s1);
    s := SequentialExecutor.Iterate(plan, true, s1, Settles(plan.stages[1], Some(Decision(SellAtOrigin, true))));
  }

  /** Five events in turn. */
  lemma FiveEvents(plan: Plan, events: seq<Event>, second: Process)
    requires |events| == 5
    requires second == Happen(plan, true, Happen(plan, true, Executing(SequentialExecutor.Start(plan)), events[0]), events[1])
    ensures RunAll(plan, true, events)
            == Happen(plan, true, Happen(plan, true, Happen(plan, true, second, events[2]), events[3]), events[4])
  {
    assert events[..0] == [] && events[..5] == events;
    RunNext(plan, events, 0);
    RunNext(plan, events, 1);
    RunNext(plan, events, 2);
    RunNext(plan, events, 3);
    RunNext(plan, events, 4);
  }

  lemma RunNext(plan: Plan, events: seq<Event>, i: nat)
    requires i < |events|
    ensures RunAll(plan, true, events[..i + 1]) == Happen(plan, true, RunAll(plan, true, events[..i]), events[i])
  {
    assert events[..i + 1][..i] == events[..i];
  }
}
