/** What took effect in a transported operation, durable or not. A recovery
    compares the exits anew without looking at the sale: how far can the world be
    ahead of the journal, and when can both sales take effect? */
module TransportedEffectLaws {
  import opened Common
  import opened SequentialPlan
  import opened SagaJournal
  import opened SequentialRecovery
  import opened RecoveryLaws
  import opened ExecutorLaws
  import opened TransportedRecoveryLaws
  import opened Effects
  import SequentialExecutor

  /** An operation, and the stages that took effect so far. */
  datatype World = World(process: Process, landed: set<Stage>)

  function Landing(report: Option<Report>, lands: bool): set<Stage> {
    var stage := Landed(report, lands);
    if stage.None? then {} else {stage.value}
  }

  function Act(plan: Plan, selector: bool, w: World, step: Step): World {
    World(Happen(plan, selector, w.process, step.event), w.landed + Landing(ReportOf(plan, w.process, step.event), step.lands))
  }

  function Live(plan: Plan, selector: bool, w: World, steps: seq<Step>): World {
    if |steps| == 0 then w else Act(plan, selector, Live(plan, selector, w, steps[..|steps| - 1]), steps[|steps| - 1])
  }

  function Begin(plan: Plan): World { World(Executing(SequentialExecutor.Start(plan)), {}) }

  predicate BuyLanded(w: World) { exists stage :: stage in w.landed && stage.ordinal == 1 }

  /** Drivers tell the truth about a stage that took effect: it did not fail
      definitely, and its transactions are not all rejected or reverted. */
  predicate Truthful(plan: Plan, w: World, step: Step) {
    var report := ReportOf(plan, w.process, step.event);
    && (report.Some? && report.value.stage in w.landed ==> !DefinitelyFailed(report.value.driven))
    && (GivesUpBuy(w.process, step.event) ==> !BuyLanded(w))
  }

  /** And selectors and journal are what the round trip asks of them. */
  predicate Proper(plan: Plan, w: World, step: Step) { CarefulEvent(w.process, step.event) && Truthful(plan, w, step) }

  predicate ProperRun(plan: Plan, selector: bool, w: World, steps: seq<Step>) {
    |steps| > 0 ==>
      var before := steps[..|steps| - 1];
      ProperRun(plan, selector, w, before) && Proper(plan, Live(plan, selector, w, before), steps[|steps| - 1])
  }

  // ---------- what every world keeps ----------

  function SettledStages(j: Journal): set<Stage> { set i | 0 <= i < |j.settlements| :: j.settlements[i].stage }

  /** The stage that the journal says is next. */
  function Upcoming(plan: Plan, j: Journal): set<Stage> {
    if |j.settlements| < |RouteStages(plan, j.decision)| then {RouteStages(plan, j.decision)[|j.settlements|]} else {}
  }

  /** The third stage of the exit that is not decided. */
  function OtherThird(plan: Plan, decision: Option<Route>): Stage
    requires |plan.stages| == 4 && ReturnExitStages(plan).Some?
  {
    if decision == Some(ReturnToOrigin) then plan.stages[2] else ReturnExitStages(plan).value[0]
  }

  /** Where both exits have been open, that one may have been taken too. */
  function Aside(plan: Plan, j: Journal): set<Stage>
    requires |plan.stages| == 4 && ReturnExitStages(plan).Some?
  {
    if |j.settlements| >= 2 then {OtherThird(plan, j.decision)} else {}
  }

  /** A plan with both exits. */
  ghost predicate BothExits(plan: Plan) {
    TransportedShape(plan) && |plan.stages| == 4 && ReturnExitStages(plan).Some? && |ReturnExitStages(plan).value| == 2
  }

  lemma HasBothExits(plan: Plan)
    requires TransportedShape(plan)
    ensures BothExits(plan)
    ensures forall d :: Itinerary(plan, RouteStages(plan, d))
  {
    ReturnExitCloses(plan);
    forall d ensures Itinerary(plan, RouteStages(plan, d)) { RouteIsItinerary(plan, d); }
  }

  /** What is durable took effect; beyond that at most the next stage did, and the
      third stage of the other exit; nothing did if the operation was aborted. */
  ghost predicate Tally(plan: Plan, j: Journal, landed: set<Stage>)
    requires BothExits(plan)
  {
    && SettledStages(j) <= landed <= SettledStages(j) + Upcoming(plan, j) + Aside(plan, j)
    && (j.state == Aborted ==> landed == {})
    && forall i {:trigger j.settlements[i]} :: 0 <= i < |j.settlements| ==> j.settlements[i].actualOut.units != 0
  }

  ghost predicate Followed(plan: Plan, w: World) {
    BothExits(plan) && ProcessWay(plan, w.process) && Tally(plan, Durable(w.process), w.landed)
  }

  /** The settlement that a report may add. */
  ghost predicate Adds(r: Report, before: Journal, after: Journal) {
    r.driven.Settled? &&
    exists x: Settlement :: after.settlements == before.settlements + [x] && x.stage == r.stage && x.actualOut.units != 0
  }

  /** A turn as the journal sees it: at most the driven stage is settled, and the
      decision changes only while both exits are open. */
  ghost predicate Noted(plan: Plan, report: Option<Report>, givesUp: bool, before: Journal, after: Journal) {
    && (report.Some? ==> before.state != Aborted && Upcoming(plan, before) == {report.value.stage})
    && (after.settlements == before.settlements || (report.Some? && Adds(report.value, before, after)))
    && (after.decision == before.decision || |after.settlements| == 2)
    && (after.state == Aborted && before.state != Aborted ==>
          before.settlements == [] && after.settlements == [] && after.decision == before.decision
          && if report.None? then givesUp else DefinitelyFailed(report.value.driven))
  }

  lemma SettledAdds(before: Journal, after: Journal, r: Report)
    requires Adds(r, before, after)
    ensures SettledStages(after) == SettledStages(before) + {r.stage} && |after.settlements| == |before.settlements| + 1
    ensures forall i :: 0 <= i < |after.settlements| ==>
              after.settlements[i].actualOut.units != 0 || (i < |before.settlements| && after.settlements[i] == before.settlements[i])
  {
    var x: Settlement :| after.settlements == before.settlements + [x] && x.stage == r.stage && x.actualOut.units != 0;
    forall stage | stage in SettledStages(before) + {r.stage} ensures stage in SettledStages(after) {
      if stage == r.stage {
        assert after.settlements[|before.settlements|].stage == stage;
      } else {
        var i :| 0 <= i < |before.settlements| && before.settlements[i].stage == stage;
        assert after.settlements[i].stage == stage;
      }
    }
  }

  /** With two stages settled both exits are open, whatever is decided. */
  lemma BothThirds(plan: Plan, j: Journal)
    requires BothExits(plan) && JournalWay(plan, j) && |j.settlements| == 2
    ensures Upcoming(plan, j) + Aside(plan, j) == {plan.stages[2], ReturnExitStages(plan).value[0]}
  {
    HasBothExits(plan);
  }

  lemma TallyKeeps(plan: Plan, report: Option<Report>, givesUp: bool, before: Journal, after: Journal, landed: set<Stage>, lands: bool)
    requires BothExits(plan) && JournalWay(plan, before) && JournalWay(plan, after)
    requires Tally(plan, before, landed) && Noted(plan, report, givesUp, before, after)
    requires report.Some? && report.value.stage in landed ==> !DefinitelyFailed(report.value.driven)
    requires givesUp ==> forall stage :: stage in landed ==> stage.ordinal != 1
    ensures Tally(plan, after, landed + Landing(report, lands))
  {
    HasBothExits(plan);
    if after.settlements == before.settlements {
      assert SettledStages(after) == SettledStages(before);
      if after.decision != before.decision {
        BothThirds(plan, before);
        BothThirds(plan, after);
      }
      if after.state == Aborted && before.state != Aborted { AbortedKeeps(plan, report, before, landed); }
    } else {
      SettledAdds(before, after, report.value);
    }
  }

  lemma AbortedKeeps(plan: Plan, report: Option<Report>, before: Journal, landed: set<Stage>)
    requires BothExits(plan) && JournalWay(plan, before) && Tally(plan, before, landed) && before.settlements == []
    requires if report.None? then forall stage :: stage in landed ==> stage.ordinal != 1
             else Upcoming(plan, before) == {report.value.stage} && report.value.stage !in landed
    ensures landed == {}
  {
    OnlyBuyLanded(plan, before, landed);
    if stage :| stage in landed { assert stage in Upcoming(plan, before) && stage.ordinal == 1; }
  }

  /** Without a settlement only the buy can have taken effect. */
  lemma OnlyBuyLanded(plan: Plan, j: Journal, landed: set<Stage>)
    requires BothExits(plan) && JournalWay(plan, j) && Tally(plan, j, landed) && j.settlements == []
    ensures landed <= Upcoming(plan, j) && forall stage :: stage in landed ==> stage.ordinal == 1
  {
    HasBothExits(plan);
  }

  // ---------- the executor's steps ----------

  lemma ChoiceNotes(plan: Plan, selector: bool, s: SequentialExecutor.Execution, stage: Stage, a: SequentialExecutor.Answer)
    requires plan.policy == Transported && s.journal.state == Running
    ensures var n := SequentialExecutor.ChooseExit(plan, selector, s, stage, a);
            && n.journal.settlements == s.journal.settlements && n.journal.state != Aborted
            && (stage.ordinal == 2 || n.journal.decision == s.journal.decision)
  {
  }

  lemma SettleNotes(plan: Plan, selector: bool, s: SequentialExecutor.Execution, x: Settlement, proven: bool, a: SequentialExecutor.Answer)
    requires plan.policy == Transported && s.journal.state == Running
    ensures var n := SequentialExecutor.Settle(plan, selector, s, x, proven, a);
            && n.journal.state != Aborted
            && (|| (n.journal.settlements == s.journal.settlements && n.journal.decision == s.journal.decision)
                || (n.journal.settlements == s.journal.settlements + [x] && x.actualOut.units != 0
                    && (x.stage.ordinal == 2 || n.journal.decision == s.journal.decision)))
  {
    if SettlementOk(x.stage, x.input, x.actualIn, x.actualOut, proven) && a.settlementWrite == Written {
      var t := s.(journal := s.journal.(settlements := s.journal.settlements + [x]), current := x.actualOut,
                  outputs := s.outputs[x.stage.ordinal := x.actualOut]);
      ChoiceNotes(plan, selector, t, x.stage, a);
    }
  }

  lemma RetryNotes(plan: Plan, s: SequentialExecutor.Execution, stage: Stage, a: SequentialExecutor.Answer)
    requires plan.policy == Transported && s.journal.state == Running
    ensures var n := SequentialExecutor.ReselectExit(plan, s, stage, a);
            && n.journal.settlements == s.journal.settlements && n.journal.state != Aborted
            && (stage.ordinal == 3 || n.journal.decision == s.journal.decision)
  {
  }

  lemma FailNotes(plan: Plan, s: SequentialExecutor.Execution, stage: Stage, d: Disposition, costs: Costs, a: SequentialExecutor.Answer)
    requires plan.policy == Transported && s.journal.state == Running
    ensures var n := SequentialExecutor.Fail(plan, s, stage, d, costs, a);
            && n.journal.settlements == s.journal.settlements
            && (stage.ordinal == 3 || n.journal.decision == s.journal.decision)
            && (n.journal.state == Aborted ==> stage.ordinal == 1 && Definitive(d) && n.journal.decision == s.journal.decision)
  {
    if costs != CostsNotRecorded && SequentialExecutor.CanRecoverSwap(plan, stage, d, SequentialExecutor.Attempts(s.attempts, stage.ordinal)) {
      RetryNotes(plan, s.(attempts := s.attempts[stage.ordinal := SequentialExecutor.Attempts(s.attempts, stage.ordinal) + 1]), stage, a);
    }
  }

  lemma ExecutorUpcoming(plan: Plan, s: SequentialExecutor.Execution)
    requires TransportedShape(plan) && TransportedOk(plan, s) && ExecutionWay(plan, s) && s.state == Running && s.index < |s.stages|
    ensures Upcoming(plan, s.journal) == {s.stages[s.index]} && s.stages[s.index].ordinal == |s.journal.settlements| + 1
    ensures s.index == |s.journal.settlements| && s.journal.state == Running
  {
  }

  lemma ExecutorNotes(plan: Plan, selector: bool, s: SequentialExecutor.Execution, a: SequentialExecutor.Answer)
    requires TransportedShape(plan) && TransportedOk(plan, s) && ExecutionWay(plan, s)
    ensures Noted(plan, ExecutorReport(plan, s, a), false, s.journal, SequentialExecutor.Iterate(plan, selector, s, a).journal)
  {
    if s.state != Running || s.index >= |s.stages| { return; }
    ExecutorUpcoming(plan, s);
    IterationNotes(plan, selector, s, s.stages[s.index], a);
  }

  lemma IterationNotes(plan: Plan, selector: bool, s: SequentialExecutor.Execution, stage: Stage, a: SequentialExecutor.Answer)
    requires plan.policy == Transported && s.state == Running && s.index < |s.stages| && stage == s.stages[s.index]
    requires s.journal.state == Running && s.index == |s.journal.settlements| && stage.ordinal == |s.journal.settlements| + 1
    requires Upcoming(plan, s.journal) == {stage}
    ensures Noted(plan, ExecutorReport(plan, s, a), false, s.journal, SequentialExecutor.Iterate(plan, selector, s, a).journal)
  {
    var input := ResolveInput(plan, stage, s.current, s.outputs, a.converted);
    if input.None? || !RequestOk(stage, input.value) { return; }
    var t := s.(calls := s.calls + [Call(stage, input.value, a.driven)]);
    match a.driven
    case Failed(d, costs, _, _) => FailNotes(plan, t, stage, d, costs, a);
    case Settled(actualIn, actualOut, proven) => SettleNotes(plan, selector, t, Settlement(stage, input.value, actualIn, actualOut), proven, a);
  }

  // ---------- the recovery's steps ----------

  lemma ReselectNotes(plan: Plan, s: Recovery, a: Answer)
    ensures var n := Reselect(plan, s, a).0;
            && n.journal.settlements == s.journal.settlements && n.journal.state == s.journal.state
            && (a.decisionWrite == Lost ==> n.journal.decision == s.journal.decision)
  {
  }

  lemma RecoveryFailNotes(plan: Plan, s: Recovery, stage: Stage, d: Driven, a: Answer)
    requires plan.policy == Transported && d.Failed? && s.journal.state == Running
    ensures var n := SequentialRecovery.Fail(plan, s, stage, d, a);
            && n.journal.settlements == s.journal.settlements && n.journal.state != Aborted
            && (n.journal.decision == s.journal.decision || (stage.kind == Sell && a.decisionWrite != Lost))
  {
    ReselectNotes(plan, s, a);
  }

  lemma DriveNotes(plan: Plan, s: Recovery, stage: Stage, input: Amount, a: Answer)
    requires plan.policy == Transported && s.journal.state == Running
    ensures var n := Drive(plan, s, stage, input, a).journal;
            && n.state != Aborted
            && (n.settlements == s.journal.settlements || Adds(Report(stage, a.driven), s.journal, n))
            && (n.decision == s.journal.decision
                || (n.settlements == s.journal.settlements && stage.kind == Sell && a.decisionWrite != Lost)
                || (n.settlements != s.journal.settlements && stage.ordinal == 2))
  {
    var t := s.(calls := s.calls + [Call(stage, input, a.driven)]);
    match a.driven
    case Failed(_, _, _, _) => RecoveryFailNotes(plan, t, stage, a.driven, a);
    case Settled(actualIn, actualOut, proven) =>
      var x := Settlement(stage, input, actualIn, actualOut);
      SettleOutcomes(plan, t, x, proven, a);
      ReselectNotes(plan, Recorded(t, x), a);
  }

  /** A stage of the itinerary, driven. */
  lemma DrivenNotes(plan: Plan, s: Recovery, stage: Stage, a: Answer)
    requires plan.policy == Transported && s.journal.state == Running && Careful(s, a) && |s.journal.settlements| < 4
    requires Upcoming(plan, s.journal) == {stage} && stage.ordinal == |s.journal.settlements| + 1 && (stage.kind == Sell ==> stage.ordinal >= 3)
    ensures Noted(plan, Some(Report(stage, a.driven)), false, s.journal, Drive(plan, s, stage, s.current, a).journal)
  {
    DriveNotes(plan, s, stage, s.current, a);
  }

  lemma RecoveryUpcoming(plan: Plan, s: Recovery, a: Answer)
    requires TransportedShape(plan) && RecoveryWay(plan, s) && s.phase == Looping && |s.journal.settlements| < 4
    ensures Itinerary(plan, s.stages)
    ensures var stage := s.stages[|s.journal.settlements|];
            && NextUnsettled(s.stages, s.settled) == Some(stage) && Upcoming(plan, s.journal) == {stage}
            && stage.ordinal == |s.journal.settlements| + 1 && (stage.kind == Sell ==> stage.ordinal >= 3)
            && ResolveRecoveryInput(plan, stage, s.current, s.outputs, a.converted) == Some(s.current)
  {
    NextOnWay(plan, s);
    RecoveryTakesCarried(plan, s, a);
  }

  lemma TurnNotes(plan: Plan, s: Recovery, a: Answer)
    requires TransportedShape(plan) && RecoveryWay(plan, s) && Careful(s, a)
    ensures Noted(plan, RecoveryReport(plan, s, a), GivesUpBuy(Resumed(s), RecoveryTurn(a)), s.journal, Turn(plan, s, a).journal)
  {
    if s.phase != Looping { return; }
    if |s.journal.settlements| >= 4 { NextOnWay(plan, s); return; }
    RecoveryUpcoming(plan, s, a);
    StageNotes(plan, s, s.stages[|s.journal.settlements|], a);
  }

  lemma StageNotes(plan: Plan, s: Recovery, stage: Stage, a: Answer)
    requires plan.policy == Transported && s.phase == Looping && s.journal.state == Running && Careful(s, a)
    requires |s.journal.settlements| < 4 && s.currentStage == |s.journal.settlements|
    requires NextUnsettled(s.stages, s.settled) == Some(stage) && Upcoming(plan, s.journal) == {stage}
    requires stage.ordinal == |s.journal.settlements| + 1 && (stage.kind == Sell ==> stage.ordinal >= 3)
    requires ResolveRecoveryInput(plan, stage, s.current, s.outputs, a.converted) == Some(s.current)
    ensures Noted(plan, RecoveryReport(plan, s, a), GivesUpBuy(Resumed(s), RecoveryTurn(a)), s.journal, Turn(plan, s, a).journal)
  {
    if ComparesExits(plan, s) {
      ReselectNotes(plan, s, a);
    } else if !(stage.ordinal == 1 && a.conclusive) {
      DrivenNotes(plan, s, stage, a);
    }
  }

  // ---------- runs ----------

  lemma WayJournal(plan: Plan, p: Process)
    requires ProcessWay(plan, p)
    ensures JournalWay(plan, Durable(p))
  {
  }

  /** An event as the journal sees it. */
  lemma EventNoted(plan: Plan, selector: bool, p: Process, e: Event)
    requires TransportedShape(plan) && ProcessWay(plan, p) && CarefulEvent(p, e)
    ensures Noted(plan, ReportOf(plan, p, e), GivesUpBuy(p, e), Durable(p), Durable(Happen(plan, selector, p, e)))
  {
    match e
    case ExecutorTurn(a) => if p.Executing? { ExecutorNotes(plan, selector, p.execution, a); }
    case Crash =>
    case Resumption(a) => if p.Down? && Resumable(p.journal) { ResumeNotes(plan, p.journal, a); }
    case RecoveryTurn(a) => if p.Resumed? { TurnNotes(plan, p.recovery, a); }
  }

  /** Resuming settles and decides nothing. */
  lemma ResumeNotes(plan: Plan, j: Journal, a: Answer)
    requires TransportedShape(plan) && JournalWay(plan, j)
    ensures var s := Resume(plan, j, a);
            && s.journal == j.(state := Running) && s == Load(plan, j).(stages := RouteStages(plan, j.decision)) && s.phase == Looping
  {
    HasBothExits(plan);
  }

  lemma FollowedAct(plan: Plan, selector: bool, w: World, step: Step)
    requires TransportedShape(plan) && Followed(plan, w) && Proper(plan, w, step)
    ensures Followed(plan, Act(plan, selector, w, step))
  {
    var n := Happen(plan, selector, w.process, step.event);
    WayHappens(plan, selector, w.process, step.event);
    WayJournal(plan, w.process);
    WayJournal(plan, n);
    EventNoted(plan, selector, w.process, step.event);
    TallyKeeps(plan, ReportOf(plan, w.process, step.event), GivesUpBuy(w.process, step.event), Durable(w.process), Durable(n), w.landed, step.lands);
  }

  lemma {:induction false} FollowedLive(plan: Plan, selector: bool, w: World, steps: seq<Step>)
    requires TransportedShape(plan) && Followed(plan, w) && ProperRun(plan, selector, w, steps)
    ensures Followed(plan, Live(plan, selector, w, steps))
  {
    if |steps| > 0 {
      var before := steps[..|steps| - 1];
      FollowedLive(plan, selector, w, before);
      FollowedAct(plan, selector, Live(plan, selector, w, before), steps[|steps| - 1]);
    }
  }

  lemma FollowedStart(plan: Plan)
    requires TransportedShape(plan)
    ensures Followed(plan, Begin(plan))
  {
    HasBothExits(plan);
    ProcessStaysOnWay(plan, true, []);
  }

  /** What took effect is what is durable and at most the next stage, and while
      both exits were open also the third stage of the other one; an operation is
      aborted only if nothing took effect. */
  lemma LandedFollows(plan: Plan, selector: bool, steps: seq<Step>)
    requires TransportedShape(plan) && ProperRun(plan, selector, Begin(plan), steps)
    ensures BothExits(plan)
    ensures var w := Live(plan, selector, Begin(plan), steps);
            var j := Durable(w.process);
            && SettledStages(j) <= w.landed <= SettledStages(j) + Upcoming(plan, j) + Aside(plan, j)
            && (j.state == Aborted ==> w.landed == {})
  {
    FollowedStart(plan);
    FollowedLive(plan, selector, Begin(plan), steps);
  }

  // ---------- one stage ahead ----------

  /** A step that makes the other exit durable although the third stage of the one
      decided so far took effect. */
  ghost predicate Switches(plan: Plan, selector: bool, w: World, step: Step)
    requires BothExits(plan)
  {
    var n := Act(plan, selector, w, step);
    var before, after := Durable(w.process), Durable(n.process);
    && |before.settlements| == 2 == |after.settlements| && OtherThird(plan, before.decision) != OtherThird(plan, after.decision)
    && OtherThird(plan, after.decision) in n.landed
  }

  ghost predicate NeverSwitches(plan: Plan, selector: bool, w: World, steps: seq<Step>)
    requires BothExits(plan)
  {
    |steps| > 0 ==>
      var before := steps[..|steps| - 1];
      NeverSwitches(plan, selector, w, before) && !Switches(plan, selector, Live(plan, selector, w, before), steps[|steps| - 1])
  }

  /** Nothing of the exit that is not decided took effect. */
  ghost predicate Straight(plan: Plan, w: World)
    requires BothExits(plan)
  {
    Aside(plan, Durable(w.process)) !! w.landed
  }

  /** The stages of the two exits differ. */
  lemma ExitsDiffer(plan: Plan)
    requires TransportedShape(plan) && BothExits(plan)
    ensures var back, sale := ReturnExitStages(plan).value[0], ReturnExitStages(plan).value[1];
            && back.kind == BridgeBase && back.ordinal == 3 && sale.kind == Sell && sale.ordinal == 4
            && plan.stages[2].kind == Sell && plan.stages[3].kind == BridgeQuoteReturn
            && (forall i :: 0 <= i < 4 ==> plan.stages[i].ordinal == i + 1)
  {
    ReturnExitCloses(plan);
  }

  /** The third stage of the other exit is on no route that is taken. */
  lemma OtherIsElsewhere(plan: Plan, j: Journal)
    requires TransportedShape(plan) && BothExits(plan) && JournalWay(plan, j)
    ensures OtherThird(plan, j.decision) !in SettledStages(j) && OtherThird(plan, j.decision) !in Upcoming(plan, j)
  {
    ExitsDiffer(plan);
    HasBothExits(plan);
    var other, route := OtherThird(plan, j.decision), RouteStages(plan, j.decision);
    assert forall i :: 0 <= i < 4 ==> route[i].ordinal == i + 1;
    assert route[2] != other;
    SettledAlong(plan, j);
  }

  lemma SettledAlong(plan: Plan, j: Journal)
    requires JournalWay(plan, j) && |RouteStages(plan, j.decision)| == 4
    ensures forall i :: 0 <= i < |j.settlements| ==> j.settlements[i].stage == RouteStages(plan, j.decision)[i]
  {
    forall i | 0 <= i < |j.settlements| ensures j.settlements[i].stage == RouteStages(plan, j.decision)[i] {
      assert LinkedAt(j.settlements, RouteStages(plan, j.decision), plan.initialInput, i);
    }
  }

  lemma StraightAct(plan: Plan, selector: bool, w: World, step: Step)
    requires TransportedShape(plan) && Followed(plan, w) && Straight(plan, w) && Proper(plan, w, step)
    requires !Switches(plan, selector, w, step)
    ensures Straight(plan, Act(plan, selector, w, step))
  {
    var n := Act(plan, selector, w, step);
    var before, after := Durable(w.process), Durable(n.process);
    WayJournal(plan, w.process);
    FollowedAct(plan, selector, w, step);
    WayJournal(plan, n.process);
    EventNoted(plan, selector, w.process, step.event);
    OtherIsElsewhere(plan, before);
    OtherIsElsewhere(plan, after);
    if after.settlements != before.settlements { SettledAdds(before, after, ReportOf(plan, w.process, step.event).value); }
  }

  lemma {:induction false} StraightLive(plan: Plan, selector: bool, w: World, steps: seq<Step>)
    requires TransportedShape(plan) && Followed(plan, w) && Straight(plan, w)
    requires ProperRun(plan, selector, w, steps) && NeverSwitches(plan, selector, w, steps)
    ensures Straight(plan, Live(plan, selector, w, steps))
  {
    if |steps| > 0 {
      var before := steps[..|steps| - 1];
      StraightLive(plan, selector, w, before);
      FollowedLive(plan, selector, w, before);
      StraightAct(plan, selector, Live(plan, selector, w, before), steps[|steps| - 1]);
    }
  }

  predicate BothSold(plan: Plan, landed: set<Stage>)
    requires |plan.stages| == 4 && ReturnExitStages(plan).Some?
  {
    plan.stages[2] in landed && |ReturnExitStages(plan).value| == 2 && ReturnExitStages(plan).value[1] in landed
  }

  lemma StraightSays(plan: Plan, w: World)
    requires TransportedShape(plan) && Followed(plan, w) && Straight(plan, w)
    ensures var j := Durable(w.process);
            && SettledStages(j) <= w.landed <= SettledStages(j) + Upcoming(plan, j) && !BothSold(plan, w.landed)
            && (|j.settlements| == 4 ==> w.landed == SettledStages(j))
  {
    var j := Durable(w.process);
    WayJournal(plan, w.process);
    ExitsDiffer(plan);
    HasBothExits(plan);
    var route := RouteStages(plan, j.decision);
    SettledAlong(plan, j);
    assert forall stage :: stage in w.landed ==> exists i :: 0 <= i < 4 && route[i] == stage;
    assert forall i :: 0 <= i < 4 ==> route[i].ordinal == i + 1;
  }

  /** From the executor's start through any crashes and resumes: unless an exit is
      given up after its third stage took effect, what took effect is what is
      durable and at most the stage after it, never both sales. */
  lemma OneStageAhead(plan: Plan, selector: bool, steps: seq<Step>)
    requires TransportedShape(plan) && BothExits(plan)
    requires ProperRun(plan, selector, Begin(plan), steps) && NeverSwitches(plan, selector, Begin(plan), steps)
    ensures var w := Live(plan, selector, Begin(plan), steps);
            var j := Durable(w.process);
            && SettledStages(j) <= w.landed <= SettledStages(j) + Upcoming(plan, j) && !BothSold(plan, w.landed)
            && (j.state == Completed ==> w.landed == SettledStages(j) && RoundTrip(plan, j.settlements))
  {
    FollowedStart(plan);
    FollowedLive(plan, selector, Begin(plan), steps);
    StraightLive(plan, selector, Begin(plan), steps);
    var w := Live(plan, selector, Begin(plan), steps);
    StraightSays(plan, w);
    WayJournal(plan, w.process);
    if Durable(w.process).state == Completed { WholeJournal(plan, Durable(w.process)); }
  }

  // ---------- two sales ----------

  function OriginSale(plan: Plan): Stage
    requires ReturnExitStages(plan).Some? && |ReturnExitStages(plan).value| == 2
  {
    ReturnExitStages(plan).value[1]
  }

  /** A future, proper in every step, in which the origin sale takes effect. */
  ghost predicate CanSellAtOrigin(plan: Plan, selector: bool, w: World)
    requires ReturnExitStages(plan).Some? && |ReturnExitStages(plan).value| == 2
  {
    exists more :: ProperRun(plan, selector, w, more) && OriginSale(plan) in Live(plan, selector, w, more).landed
  }

  /** Once the destination sale is durable the other one is out of reach. */
  ghost predicate Shut(plan: Plan, j: Journal, landed: set<Stage>)
    requires ReturnExitStages(plan).Some? && |ReturnExitStages(plan).value| == 2
  {
    |j.settlements| >= 3 && j.decision != Some(ReturnToOrigin) && OriginSale(plan) !in landed
  }

  lemma ShutAct(plan: Plan, selector: bool, w: World, step: Step)
    requires TransportedShape(plan) && Followed(plan, w) && Proper(plan, w, step)
    requires Shut(plan, Durable(w.process), w.landed)
    ensures var n := Act(plan, selector, w, step); Shut(plan, Durable(n.process), n.landed)
  {
    var n := Act(plan, selector, w, step);
    var report := ReportOf(plan, w.process, step.event);
    WayJournal(plan, w.process);
    EventNoted(plan, selector, w.process, step.event);
    ExitsDiffer(plan);
    if Durable(n.process).settlements != Durable(w.process).settlements { SettledAdds(Durable(w.process), Durable(n.process), report.value); }
  }

  lemma {:induction false} ShutLive(plan: Plan, selector: bool, w: World, steps: seq<Step>)
    requires TransportedShape(plan) && Followed(plan, w) && ProperRun(plan, selector, w, steps)
    requires Shut(plan, Durable(w.process), w.landed)
    ensures var n := Live(plan, selector, w, steps); Shut(plan, Durable(n.process), n.landed)
  {
    if |steps| > 0 {
      var before := steps[..|steps| - 1];
      ShutLive(plan, selector, w, before);
      FollowedLive(plan, selector, w, before);
      ShutAct(plan, selector, Live(plan, selector, w, before), steps[|steps| - 1]);
    }
  }

  /** A stage settles; a decision would not be kept. */
  function Quietly(stage: Stage): Answer {
    Answer(None, false, 0, Settled(Amount(stage.inputToken, 1), Amount(stage.outputToken, 1), true), false,
           false, None, Written, None, Lost, true, true, Written)
  }

  /** The exits are compared, and the way back is chosen and made durable. */
  const GoesBack := Answer(None, false, 0, Failed(Possible, NoCosts, Temporary, true), false, false, None, Written,
                           Some(Decision(ReturnToOrigin, true)), Written, true, true, Written)

  /** A proper step from one world to the next. */
  predicate Goes(plan: Plan, selector: bool, w: World, step: Step, next: World) {
    Proper(plan, w, step) && Act(plan, selector, w, step) == next
  }

  predicate Leads(plan: Plan, selector: bool, w: World, steps: seq<Step>, end: World) {
    ProperRun(plan, selector, w, steps) && Live(plan, selector, w, steps) == end
  }

  lemma LeadsOn(plan: Plan, selector: bool, w: World, steps: seq<Step>, m: World, step: Step, next: World)
    requires Leads(plan, selector, w, steps, m) && Goes(plan, selector, m, step, next)
    ensures Leads(plan, selector, w, steps + [step], next)
  {
    assert (steps + [step])[..|steps|] == steps;
  }

  ghost function Recovering(s: Recovery, landed: set<Stage>): World { World(Resumed(s), landed) }

  /** On the way, with all that is needed to take the next stage. */
  ghost predicate OnWay(plan: Plan, s: Recovery, n: nat) {
    RecoveryWay(plan, s) && s.phase == Looping && |s.journal.settlements| == n && s.current.units != 0
  }

  /** The next stage is taken and takes effect. */
  lemma StageTaken(plan: Plan, selector: bool, s: Recovery, landed: set<Stage>, stage: Stage, n: nat)
    requires TransportedShape(plan) && OnWay(plan, s, n) && 2 <= n < 4 && stage == RouteStages(plan, s.journal.decision)[n]
    requires !ComparesExits(plan, s)
    ensures Goes(plan, selector, Recovering(s, landed), Step(RecoveryTurn(Quietly(stage)), false),
                 Recovering(Turn(plan, s, Quietly(stage)), landed + {stage}))
  {
    RecoveryUpcoming(plan, s, Quietly(stage));
  }

  /** Taking the way back from the destination leads to the origin sale. */
  lemma BackTaken(plan: Plan, s: Recovery)
    requires TransportedShape(plan) && BothExits(plan) && OnWay(plan, s, 2) && s.journal.decision == Some(ReturnToOrigin) && s.exitRefreshed
    ensures var n := Turn(plan, s, Quietly(ReturnExitStages(plan).value[0]));
            OnWay(plan, n, 3) && n.journal.decision == Some(ReturnToOrigin) && !ComparesExits(plan, n)
  {
    ExitsDiffer(plan);
    var back := ReturnExitStages(plan).value[0];
    var a := Quietly(back);
    RecoveryUpcoming(plan, s, a);
    TurnWay(plan, s, a);
    assert StageOk(back);
    BackTokens(plan, s);
    var x := Settlement(back, s.current, a.driven.actualIn, a.driven.actualOut);
    SettleOutcomes(plan, s.(calls := s.calls + [Call(back, s.current, a.driven)]), x, true, a);
  }

  lemma BackTokens(plan: Plan, s: Recovery)
    requires TransportedShape(plan) && BothExits(plan) && OnWay(plan, s, 2) && s.journal.decision == Some(ReturnToOrigin)
    ensures RouteStages(plan, s.journal.decision)[2] == ReturnExitStages(plan).value[0]
    ensures s.current.token == ReturnExitStages(plan).value[0].inputToken
  {
    HasBothExits(plan);
    var route := RouteStages(plan, s.journal.decision);
    assert LinkedAt(s.journal.settlements, route, plan.initialInput, 1);
    assert route[1].outputToken == route[2].inputToken;
  }

  /** Comparing the exits, it can choose the way back. */
  lemma TurnsBack(plan: Plan, s: Recovery)
    requires TransportedShape(plan) && OnWay(plan, s, 2) && !s.exitRefreshed
    ensures var t := Turn(plan, s, GoesBack);
            && RecoveryReport(plan, s, GoesBack) == None && Careful(s, GoesBack)
            && OnWay(plan, t, 2) && t.journal.decision == Some(ReturnToOrigin) && t.exitRefreshed
  {
    HasBothExits(plan);
    RecoveryUpcoming(plan, s, GoesBack);
    TurnWay(plan, s, GoesBack);
  }

  /** A resumption with two stages settled compares the exits first, whatever
      took effect. */
  lemma ResumesToChoose(plan: Plan, j: Journal, landed: set<Stage>)
    requires TransportedShape(plan) && BothExits(plan) && JournalWay(plan, j) && Tally(plan, j, landed) && Resumable(j) && |j.settlements| == 2
    ensures var s := Resume(plan, j, GoesBack); OnWay(plan, s, 2) && !s.exitRefreshed
  {
    ResumeNotes(plan, j, GoesBack);
    ResumeWay(plan, j, GoesBack);
    SettledAlongWay(plan, j);
    assert j.settlements[1].actualOut.units != 0;
  }

  lemma QuietSteps(plan: Plan, selector: bool, s: Recovery, t: Recovery, landed: set<Stage>)
    requires RecoveryReport(plan, s, GoesBack) == None && Careful(s, GoesBack) && t == Turn(plan, s, GoesBack)
    ensures Goes(plan, selector, Recovering(s, landed), Step(RecoveryTurn(GoesBack), false), Recovering(t, landed))
  {
  }

  lemma ResumptionGoes(plan: Plan, selector: bool, j: Journal, landed: set<Stage>)
    requires Resumable(j)
    ensures Goes(plan, selector, World(Down(j), landed), Step(Resumption(GoesBack), false), Recovering(Resume(plan, j, GoesBack), landed))
  {
  }

  function StepsBack(plan: Plan): seq<Step>
    requires ReturnExitStages(plan).Some? && |ReturnExitStages(plan).value| == 2
  {
    [Step(Resumption(GoesBack), false), Step(RecoveryTurn(GoesBack), false),
     Step(RecoveryTurn(Quietly(ReturnExitStages(plan).value[0])), false), Step(RecoveryTurn(Quietly(OriginSale(plan))), false)]
  }

  /** The two stages of the way back. */
  lemma BackAndSold(plan: Plan, selector: bool, t: Recovery, landed: set<Stage>) returns (u: Recovery, v: Recovery)
    requires TransportedShape(plan) && BothExits(plan)
    requires OnWay(plan, t, 2) && t.journal.decision == Some(ReturnToOrigin) && t.exitRefreshed
    ensures var back, sale := ReturnExitStages(plan).value[0], OriginSale(plan);
            && Goes(plan, selector, Recovering(t, landed), StepsBack(plan)[2], Recovering(u, landed + {back}))
            && Goes(plan, selector, Recovering(u, landed + {back}), StepsBack(plan)[3], Recovering(v, landed + {back} + {sale}))
  {
    var back, sale := ReturnExitStages(plan).value[0], OriginSale(plan);
    BackTokens(plan, t);
    BackTaken(plan, t);
    u := Turn(plan, t, Quietly(back));
    StageTaken(plan, selector, t, landed, back, 2);
    SaleIsFourth(plan);
    StageTaken(plan, selector, u, landed + {back}, sale, 3);
    v := Turn(plan, u, Quietly(sale));
  }

  /** From there the origin sale is two stages away. */
  lemma BackMeansCan(plan: Plan, selector: bool, j: Journal, landed: set<Stage>)
    requires TransportedShape(plan) && BothExits(plan) && JournalWay(plan, j) && Tally(plan, j, landed) && Resumable(j)
    requires |j.settlements| == 2
    ensures CanSellAtOrigin(plan, selector, World(Down(j), landed))
  {
    ResumesToChoose(plan, j, landed);
    ResumptionGoes(plan, selector, j, landed);
    var s := Resume(plan, j, GoesBack);
    TurnsBack(plan, s);
    var t := Turn(plan, s, GoesBack);
    QuietSteps(plan, selector, s, t, landed);
    var u, v := BackAndSold(plan, selector, t, landed);
    var back, sale := ReturnExitStages(plan).value[0], OriginSale(plan);
    var more := FourSteps(plan, selector, World(Down(j), landed), StepsBack(plan), Recovering(s, landed), Recovering(t, landed),
                          Recovering(u, landed + {back}), Recovering(v, landed + {back} + {sale}));
  }

  lemma SaleIsFourth(plan: Plan)
    requires TransportedShape(plan) && ReturnExitStages(plan).Some? && |ReturnExitStages(plan).value| == 2
    ensures RouteStages(plan, Some(ReturnToOrigin))[3] == OriginSale(plan)
  {
  }

  lemma FourSteps(plan: Plan, selector: bool, w: World, e: seq<Step>, w1: World, w2: World, w3: World, w4: World) returns (all: seq<Step>)
    requires |e| == 4 && Goes(plan, selector, w, e[0], w1) && Goes(plan, selector, w1, e[1], w2)
    requires Goes(plan, selector, w2, e[2], w3) && Goes(plan, selector, w3, e[3], w4)
    ensures Leads(plan, selector, w, all, w4) && all == e
  {
    assert e[..0] + [e[0]] == e[..1] && e[..1] + [e[1]] == e[..2] && e[..2] + [e[2]] == e[..3] && e[..3] + [e[3]] == e[..4] && e[..4] == e;
    LeadsOn(plan, selector, w, e[..0], w, e[0], w1);
    LeadsOn(plan, selector, w, e[..1], w1, e[1], w2);
    LeadsOn(plan, selector, w, e[..2], w2, e[2], w3);
    LeadsOn(plan, selector, w, e[..3], w3, e[3], w4);
    all := e;
  }

  /** With the base token back at the origin the sale is all that is left. */
  lemma ThirdMeansCan(plan: Plan, selector: bool, j: Journal, landed: set<Stage>)
    requires TransportedShape(plan) && BothExits(plan) && JournalWay(plan, j) && Tally(plan, j, landed) && Resumable(j)
    requires |j.settlements| == 3 && j.decision == Some(ReturnToOrigin)
    ensures CanSellAtOrigin(plan, selector, World(Down(j), landed))
  {
    var sale, s := OriginSale(plan), Resume(plan, j, GoesBack);
    ResumesToSale(plan, j, landed);
    ResumptionGoes(plan, selector, j, landed);
    SaleIsFourth(plan);
    StageTaken(plan, selector, s, landed, sale, 3);
    var w, first, second := World(Down(j), landed), Step(Resumption(GoesBack), false), Step(RecoveryTurn(Quietly(sale)), false);
    LeadsOn(plan, selector, w, [], w, first, Recovering(s, landed));
    LeadsOn(plan, selector, w, [] + [first], Recovering(s, landed), second, Recovering(Turn(plan, s, Quietly(sale)), landed + {sale}));
    assert OriginSale(plan) in Live(plan, selector, w, [] + [first] + [second]).landed;
  }

  lemma ResumesToSale(plan: Plan, j: Journal, landed: set<Stage>)
    requires TransportedShape(plan) && BothExits(plan) && JournalWay(plan, j) && Tally(plan, j, landed) && Resumable(j)
    requires |j.settlements| == 3 && j.decision == Some(ReturnToOrigin)
    ensures var s := Resume(plan, j, GoesBack); OnWay(plan, s, 3) && !ComparesExits(plan, s) && s.journal.decision == Some(ReturnToOrigin)
  {
    ResumeNotes(plan, j, GoesBack);
    ResumeWay(plan, j, GoesBack);
    SettledAlongWay(plan, j);
    assert j.settlements[2].actualOut.units != 0;
  }

  lemma SettledAlongWay(plan: Plan, j: Journal)
    requires TransportedShape(plan) && JournalWay(plan, j)
    ensures |RouteStages(plan, j.decision)| == 4
    ensures forall i :: 0 <= i < |j.settlements| ==> j.settlements[i].stage == RouteStages(plan, j.decision)[i] && j.settlements[i].stage.ordinal == i + 1
  {
    HasBothExits(plan);
    SettledAlong(plan, j);
  }

  /** Where the destination sale took effect unrecorded, two stages are settled,
      or a third one on the way back. */
  lemma UnrecordedSaleAt(plan: Plan, j: Journal, landed: set<Stage>)
    requires TransportedShape(plan) && BothExits(plan) && JournalWay(plan, j) && Tally(plan, j, landed)
    requires plan.stages[2] in landed && OriginSale(plan) !in landed
    ensures if plan.stages[2] in SettledStages(j) then |j.settlements| >= 3 && j.decision != Some(ReturnToOrigin)
            else |j.settlements| == 2 || (|j.settlements| == 3 && j.decision == Some(ReturnToOrigin))
  {
    ExitsDiffer(plan);
    SettledAlongWay(plan, j);
    SaleIsFourth(plan);
    var route := RouteStages(plan, j.decision);
    assert forall i :: 0 <= i < 4 ==> route[i].ordinal == i + 1 by { HasBothExits(plan); }
    if |j.settlements| == 4 { assert j.settlements[3].stage in SettledStages(j); }
    if |j.settlements| >= 3 { assert j.settlements[2].stage in SettledStages(j); }
  }

  /** Between two processes, after the destination sale took effect: the origin
      sale can still follow exactly if the destination sale is not durable. */
  lemma SaleAfterSaleIff(plan: Plan, selector: bool, steps: seq<Step>)
    requires TransportedShape(plan) && ProperRun(plan, selector, Begin(plan), steps)
    requires BothExits(plan)
    requires var w := Live(plan, selector, Begin(plan), steps);
             w.process.Down? && Resumable(w.process.journal) && plan.stages[2] in w.landed && OriginSale(plan) !in w.landed
    ensures var w := Live(plan, selector, Begin(plan), steps);
            CanSellAtOrigin(plan, selector, w) <==> plan.stages[2] !in SettledStages(w.process.journal)
  {
    FollowedStart(plan);
    FollowedLive(plan, selector, Begin(plan), steps);
    SaleAfterSaleFrom(plan, selector, Live(plan, selector, Begin(plan), steps));
  }

  lemma SaleAfterSaleFrom(plan: Plan, selector: bool, w: World)
    requires TransportedShape(plan) && Followed(plan, w) && w.process.Down? && Resumable(w.process.journal)
    requires plan.stages[2] in w.landed && OriginSale(plan) !in w.landed
    ensures CanSellAtOrigin(plan, selector, w) <==> plan.stages[2] !in SettledStages(w.process.journal)
  {
    var j := w.process.journal;
    UnrecordedSaleAt(plan, j, w.landed);
    if plan.stages[2] in SettledStages(j) {
      forall more | ProperRun(plan, selector, w, more) ensures OriginSale(plan) !in Live(plan, selector, w, more).landed {
        ShutLive(plan, selector, w, more);
      }
    } else if |j.settlements| == 2 {
      BackMeansCan(plan, selector, j, w.landed);
    } else {
      ThirdMeansCan(plan, selector, j, w.landed);
    }
  }

  // ---------- an input ----------

  /** The driver does not know how the sale went. */
  const SaleUncertain := SequentialExecutor.Answer(None, Failed(Possible, NoCosts, Uncertain, false), Written, None, Written, false, Written)

  /** Buy and bridge settle, the sale takes effect although its driver cannot tell,
      and the process ends. */
  predicate UncertainSale(plan: Plan, steps: seq<Step>)
    requires |plan.stages| == 4
  {
    && |steps| == 4 && steps[3] == Dies
    && steps[0] == Step(ExecutorTurn(Settles(plan.stages[0], None)), false)
    && steps[1] == Step(ExecutorTurn(Settles(plan.stages[1], Some(Decision(SellAtDestination, true)))), false)
    && steps[2] == Step(ExecutorTurn(SaleUncertain), true)
  }

  /** Two stages in, before the destination sale. */
  predicate AtSale(plan: Plan, s: SequentialExecutor.Execution)
    requires |plan.stages| == 4
  {
    && s.state == Running && s.stages == plan.stages && s.index == 2 && s.current == Amount(plan.stages[1].outputToken, 1)
    && s.journal.state == Running && Ordinals(s.journal.settlements) == [1, 2] && s.attempts == map[]
  }

  lemma BridgeSettled(plan: Plan, s: SequentialExecutor.Execution)
    requires TransportedShape(plan) && s.state == Running && s.stages == plan.stages && s.index == 1 && s.attempts == map[]
    requires s.current == Amount(plan.stages[0].outputToken, 1) && s.journal.state == Running && Ordinals(s.journal.settlements) == [1]
    ensures var a := Settles(plan.stages[1], Some(Decision(SellAtDestination, true)));
            AtSale(plan, SequentialExecutor.Iterate(plan, true, s, a)) && ExecutorReport(plan, s, a) == Some(Report(plan.stages[1], a.driven))
  {
    assert AllStages(plan)[1] == plan.stages[1] && StageOk(AllStages(plan)[1]);
    assert plan.stages[0].outputToken == plan.stages[1].inputToken;
  }

  lemma BuyReported(plan: Plan)
    requires TransportedShape(plan)
    ensures var s, a := SequentialExecutor.Start(plan), Settles(plan.stages[0], None);
            ExecutorReport(plan, s, a) == Some(Report(plan.stages[0], a.driven)) && SequentialExecutor.Iterate(plan, true, s, a).attempts == map[]
  {
    HasBothExits(plan);
    assert AllStages(plan)[0] == plan.stages[0] && StageOk(AllStages(plan)[0]);
  }

  lemma SaleStops(plan: Plan, s: SequentialExecutor.Execution)
    requires TransportedShape(plan) && AtSale(plan, s)
    ensures ExecutorReport(plan, s, SaleUncertain) == Some(Report(plan.stages[2], SaleUncertain.driven))
    ensures SequentialExecutor.Iterate(plan, true, s, SaleUncertain).journal == s.journal.(state := Manual)
  {
    assert AllStages(plan)[2] == plan.stages[2] && StageOk(AllStages(plan)[2]);
    assert plan.stages[1].outputToken == plan.stages[2].inputToken;
  }

  lemma ExecutorGoes(plan: Plan, s: SequentialExecutor.Execution, landed: set<Stage>, a: SequentialExecutor.Answer, stage: Stage, lands: bool)
    requires ExecutorReport(plan, s, a) == Some(Report(stage, a.driven)) && TookEffect(Report(stage, a.driven), lands) && Sensible(a.decision)
    ensures Goes(plan, true, World(Executing(s), landed), Step(ExecutorTurn(a), lands),
                 World(Executing(SequentialExecutor.Iterate(plan, true, s, a)), landed + {stage}))
  {
  }

  lemma CrashGoes(plan: Plan, s: SequentialExecutor.Execution, landed: set<Stage>)
    ensures Goes(plan, true, World(Executing(s), landed), Dies, World(Down(s.journal), landed))
  {
  }

  /** So for every plan there is an input on which, with truthful drivers and a
      journal and selector as they should be, both sales can take effect. */
  lemma SellsTwiceAt(plan: Plan, steps: seq<Step>) returns (w: World)
    requires TransportedShape(plan) && BothExits(plan) && UncertainSale(plan, steps)
    ensures Leads(plan, true, Begin(plan), steps, w) && plan.stages[2] in w.landed && CanSellAtOrigin(plan, true, w)
  {
    w := AfterUncertainSale(plan, steps);
    FollowedStart(plan);
    FollowedLive(plan, true, Begin(plan), steps);
    BackMeansCan(plan, true, w.process.journal, w.landed);
  }

  lemma AfterUncertainSale(plan: Plan, steps: seq<Step>) returns (w: World)
    requires TransportedShape(plan) && BothExits(plan) && UncertainSale(plan, steps)
    ensures Leads(plan, true, Begin(plan), steps, w) && plan.stages[2] in w.landed
    ensures w.process.Down? && Resumable(w.process.journal) && |w.process.journal.settlements| == 2
  {
    var s0 := SequentialExecutor.Start(plan);
    var buy, bridge := Settles(plan.stages[0], None), Settles(plan.stages[1], Some(Decision(SellAtDestination, true)));
    var s1 := SequentialExecutor.Iterate(plan, true, s0, buy);
    BuySettled(plan);
    BuyReported(plan);
    ExecutorGoes(plan, s0, {}, buy, plan.stages[0], false);
    var s2 := SequentialExecutor.Iterate(plan, true, s1, bridge);
    BridgeSettled(plan, s1);
    var l1, l2 := {} + {plan.stages[0]}, {} + {plan.stages[0]} + {plan.stages[1]};
    ExecutorGoes(plan, s1, l1, bridge, plan.stages[1], false);
    var s3 := SequentialExecutor.Iterate(plan, true, s2, SaleUncertain);
    SaleStops(plan, s2);
    ExecutorGoes(plan, s2, l2, SaleUncertain, plan.stages[2], true);
    var l3 := l2 + {plan.stages[2]};
    CrashGoes(plan, s3, l3);
    w := World(Down(s3.journal), l3);
    var all := FourSteps(plan, true, World(Executing(s0), {}), steps, World(Executing(s1), l1), World(Executing(s2), l2), World(Executing(s3), l3), w);
    assert |Ordinals(s2.journal.settlements)| == 2;
  }
}
