/** What took effect in a prefunded sequential operation, durable or not. How far
    can it be ahead of the journal, and when can both sales take effect? */
module PrefundedEffectLaws {
  import opened Common
  import opened SequentialPlan
  import opened SagaJournal
  import opened SequentialRecovery
  import opened RecoveryLaws
  import opened ExecutorLaws
  import opened PrefundedInputLaws
  import opened Effects
  import DualInventoryLaws
  import DualEffectLaws
  import SequentialExecutor

  /** An operation, and the ordinals of the stages that took effect so far. */
  datatype World = World(process: Process, landed: set<int>)

  function Landing(report: Option<Report>, lands: bool): set<int> {
    var stage := Landed(report, lands);
    if stage.None? then {} else {stage.value.ordinal}
  }

  function Act(plan: Plan, selector: bool, w: World, step: Step): World {
    World(Happen(plan, selector, w.process, step.event), w.landed + Landing(ReportOf(plan, w.process, step.event), step.lands))
  }

  function Live(plan: Plan, selector: bool, w: World, steps: seq<Step>): World {
    if |steps| == 0 then w else Act(plan, selector, Live(plan, selector, w, steps[..|steps| - 1]), steps[|steps| - 1])
  }

  function Begin(plan: Plan): World { World(Executing(SequentialExecutor.Start(plan)), {}) }

  /** Drivers tell the truth about a stage that took effect: it did not fail
      definitely, and its transactions are not all rejected or reverted. */
  predicate Truthful(plan: Plan, w: World, step: Step) {
    var report := ReportOf(plan, w.process, step.event);
    && (report.Some? && report.value.stage.ordinal in w.landed ==> !DefinitelyFailed(report.value.driven))
    && (GivesUpBuy(w.process, step.event) ==> 1 !in w.landed)
  }

  predicate TruthfulRun(plan: Plan, selector: bool, w: World, steps: seq<Step>) {
    |steps| > 0 ==>
      var before := steps[..|steps| - 1];
      TruthfulRun(plan, selector, w, before) && Truthful(plan, Live(plan, selector, w, before), steps[|steps| - 1])
  }

  // ---------- what every world keeps ----------

  /** The stage that the journal says is next. */
  function Frontier(j: Journal): set<int> {
    if |j.settlements| < |RouteOf(j.decision)| then {RouteOf(j.decision)[|j.settlements|]} else {}
  }

  /** A destination sale may be left behind by the decision for the origin. */
  function LeftBehind(j: Journal): set<int> { if j.decision == Some(SellAtOrigin) && j.settlements != [] then {2} else {} }

  /** What is durable took effect; beyond that at most the next stage did, and a
      sale left behind; nothing did if the operation was aborted. */
  predicate Tally(j: Journal, landed: set<int>) {
    && SettledOrdinals(j.settlements) <= landed <= SettledOrdinals(j.settlements) + Frontier(j) + LeftBehind(j)
    && (j.state == Aborted ==> landed == {})
    && (1 in SettledOrdinals(j.settlements) ==> 1 in Outputs(j.settlements) && Outputs(j.settlements)[1].units != 0)
  }

  ghost predicate Followed(plan: Plan, w: World) { ProcessOk(plan, w.process) && Tally(Durable(w.process), w.landed) }

  predicate OnRouteJournal(j: Journal) { OnRoute(Ordinals(j.settlements), j.decision) }

  /** What the journal can make of a report: nothing; the settlement, and with the
      buy's a decision; or after a failed destination sale a decision. */
  ghost predicate Records(r: Report, before: Journal, after: Journal) {
    && (after.state == Aborted ==> before.state == Aborted || (r.stage.ordinal == 1 && DefinitelyFailed(r.driven)))
    && (|| (after.settlements == before.settlements && after.decision == before.decision)
        || (after.settlements == before.settlements && r.stage.ordinal == 2 && DefinitelyFailed(r.driven))
        || (r.driven.Settled? && (r.stage.ordinal == 1 || after.decision == before.decision) &&
            exists x: Settlement :: after.settlements == before.settlements + [x] && x.stage.ordinal == r.stage.ordinal && x.actualOut.units != 0))
  }

  /** The journal is left as it is, unless the buy is given up. */
  predicate Untouched(before: Journal, after: Journal, givesUp: bool) {
    && after.settlements == before.settlements && after.decision == before.decision
    && (after.state == Aborted ==> before.state == Aborted || givesUp)
  }

  /** A step of either process, as the journal sees it. */
  ghost predicate Noted(report: Option<Report>, givesUp: bool, before: Journal, after: Journal) {
    if report.None? then Untouched(before, after, givesUp)
    else before.state != Aborted && Frontier(before) == {report.value.stage.ordinal} && Records(report.value, before, after)
  }

  /** The next stage tells how much is settled. */
  lemma FrontierSays(j: Journal, o: int)
    requires OnRouteJournal(j) && Frontier(j) == {o}
    ensures o == 1 <==> j.settlements == []
    ensures o == 2 <==> |j.settlements| == 1 && j.decision != Some(SellAtOrigin)
    ensures o == 5 <==> |j.settlements| == 1 && j.decision == Some(SellAtOrigin)
    ensures j.settlements == [] ==> SettledOrdinals(j.settlements) == {} && LeftBehind(j) == {}
  {
    assert o in Frontier(j);
    JournalRoute(Ordinals(j.settlements), j.decision);
  }

  lemma TallySettled(before: Journal, after: Journal, r: Report, landed: set<int>)
    requires OnRouteJournal(before) && OnRouteJournal(after) && Tally(before, landed) && Frontier(before) == {r.stage.ordinal}
    requires r.driven.Settled? && (r.stage.ordinal == 1 || after.decision == before.decision)
    requires exists x: Settlement :: after.settlements == before.settlements + [x] && x.stage.ordinal == r.stage.ordinal && x.actualOut.units != 0
    requires after.state != Aborted
    ensures Tally(after, landed + {r.stage.ordinal})
  {
    var x: Settlement :| after.settlements == before.settlements + [x] && x.stage.ordinal == r.stage.ordinal && x.actualOut.units != 0;
    FrontierSays(before, r.stage.ordinal);
    SettledAppend(before.settlements, x);
    OutputsAppend(before.settlements, x);
  }

  /** Every step keeps the tally. */
  lemma TallyKeeps(report: Option<Report>, givesUp: bool, before: Journal, after: Journal, landed: set<int>, lands: bool)
    requires OnRouteJournal(before) && OnRouteJournal(after) && Tally(before, landed) && Noted(report, givesUp, before, after)
    requires report.Some? && report.value.stage.ordinal in landed ==> !DefinitelyFailed(report.value.driven)
    requires after.state == Aborted ==> after.settlements == []
    requires givesUp ==> 1 !in landed
    ensures Tally(after, landed + Landing(report, lands))
  {
    if report.None? {
      if after.state == Aborted && givesUp { NothingYet(before, landed); }
      return;
    }
    var r := report.value;
    FrontierSays(before, r.stage.ordinal);
    if after.settlements != before.settlements {
      TallySettled(before, after, r, landed);
    } else if after.state == Aborted {
      NothingYet(before, landed);
    }
  }

  /** Without a settlement only the buy can have taken effect. */
  lemma NothingYet(j: Journal, landed: set<int>)
    requires OnRouteJournal(j) && Tally(j, landed) && j.settlements == []
    ensures landed <= {1}
  {
  }

  // ---------- the executor's steps ----------

  lemma ExecutorFrontier(s: SequentialExecutor.Execution)
    requires PrefundedOk(s) && s.state == Running && s.index < |s.stages|
    ensures Frontier(s.journal) == {s.stages[s.index].ordinal}
  {
    LeftNext(s);
    NextOnRoute(Ordinals(s.journal.settlements), Left(s), s.journal.decision);
    assert Ordinals(s.journal.settlements) + Left(s) == RouteOf(s.journal.decision);
  }

  /** Choosing an exit settles nothing. */
  lemma ChoiceNotes(plan: Plan, selector: bool, s: SequentialExecutor.Execution, stage: Stage, a: SequentialExecutor.Answer)
    requires plan.policy == PrefundedSequential && s.journal.state == Running
    ensures var n := SequentialExecutor.ChooseExit(plan, selector, s, stage, a);
            && n.journal.settlements == s.journal.settlements && n.journal.state != Aborted
            && (stage.ordinal == 1 || n.journal.decision == s.journal.decision)
  {
  }

  lemma SettleNotes(plan: Plan, selector: bool, s: SequentialExecutor.Execution, x: Settlement, proven: bool, a: SequentialExecutor.Answer)
    requires plan.policy == PrefundedSequential && s.journal.state == Running
    ensures var n := SequentialExecutor.Settle(plan, selector, s, x, proven, a);
            && n.journal.state != Aborted
            && (|| (n.journal.settlements == s.journal.settlements && n.journal.decision == s.journal.decision)
                || (n.journal.settlements == s.journal.settlements + [x] && x.actualOut.units != 0
                    && (x.stage.ordinal == 1 || n.journal.decision == s.journal.decision)))
  {
    if SettlementOk(x.stage, x.input, x.actualIn, x.actualOut, proven) && a.settlementWrite == Written {
      var t := s.(journal := s.journal.(settlements := s.journal.settlements + [x]), current := x.actualOut,
                  outputs := s.outputs[x.stage.ordinal := x.actualOut]);
      ChoiceNotes(plan, selector, t, x.stage, a);
    }
  }

  lemma FailNotes(plan: Plan, s: SequentialExecutor.Execution, stage: Stage, d: Disposition, costs: Costs, a: SequentialExecutor.Answer)
    requires plan.policy == PrefundedSequential && s.state == Running && s.journal.state == Running
    ensures var n := SequentialExecutor.Fail(plan, s, stage, d, costs, a);
            && n.journal.settlements == s.journal.settlements
            && (n.journal.decision == s.journal.decision || (stage.ordinal == 2 && Definitive(d)))
            && (n.journal.state == Aborted ==> stage.ordinal == 1 && Definitive(d))
  {
    if costs != CostsNotRecorded && SequentialExecutor.CanRecoverSwap(plan, stage, d, SequentialExecutor.Attempts(s.attempts, stage.ordinal)) {
      AfterFailedSale(plan, s.(attempts := s.attempts[stage.ordinal := SequentialExecutor.Attempts(s.attempts, stage.ordinal) + 1]), stage, a);
    }
  }

  lemma ExecutorNotes(plan: Plan, selector: bool, s: SequentialExecutor.Execution, a: SequentialExecutor.Answer)
    requires PrefundedShape(plan) && PrefundedOk(s)
    ensures Noted(ExecutorReport(plan, s, a), false, s.journal, SequentialExecutor.Iterate(plan, selector, s, a).journal)
  {
    if s.state != Running || s.index >= |s.stages| { return; }
    ExecutorFrontier(s);
    var stage := s.stages[s.index];
    var input := ResolveInput(plan, stage, s.current, s.outputs, a.converted);
    if input.None? || !RequestOk(stage, input.value) { return; }
    var t := s.(calls := s.calls + [Call(stage, input.value, a.driven)]);
    match a.driven
    case Failed(d, costs, _, _) => FailNotes(plan, t, stage, d, costs, a);
    case Settled(actualIn, actualOut, proven) => SettleNotes(plan, selector, t, Settlement(stage, input.value, actualIn, actualOut), proven, a);
  }

  // ---------- the recovery's steps ----------

  lemma RecoveryFrontier(plan: Plan, s: Recovery)
    requires PrefundedShape(plan) && RecoveryOk(plan, s) && s.phase == Looping && NextUnsettled(s.stages, s.settled).Some?
    ensures Frontier(s.journal) == {NextUnsettled(s.stages, s.settled).value.ordinal}
  {
    NextOnOneRoute(plan, s, |s.journal.settlements|);
  }

  lemma DriveNotes(plan: Plan, s: Recovery, stage: Stage, input: Amount, a: Answer)
    requires plan.policy == PrefundedSequential && s.journal.state == Running
    ensures Records(Report(stage, a.driven), s.journal, Drive(plan, s, stage, input, a).journal)
  {
    var t := s.(calls := s.calls + [Call(stage, input, a.driven)]);
    match a.driven
    case Failed(_, _, _, _) => RecoveryFailNotes(plan, t, stage, a.driven, a);
    case Settled(actualIn, actualOut, proven) =>
      SettleOutcomes(plan, t, Settlement(stage, input, actualIn, actualOut), proven, a);
  }

  lemma RecoveryFailNotes(plan: Plan, s: Recovery, stage: Stage, d: Driven, a: Answer)
    requires plan.policy == PrefundedSequential && d.Failed? && s.journal.state == Running
    ensures var n := SequentialRecovery.Fail(plan, s, stage, d, a);
            && n.journal.settlements == s.journal.settlements && n.journal.state != Aborted
            && (n.journal.decision == s.journal.decision || (stage.ordinal == 2 && DefinitelyFailed(d)))
  {
  }

  lemma TurnNotes(plan: Plan, s: Recovery, a: Answer)
    requires PrefundedShape(plan) && RecoveryOk(plan, s)
    ensures Noted(RecoveryReport(plan, s, a), GivesUpBuy(Resumed(s), RecoveryTurn(a)), s.journal, Turn(plan, s, a).journal)
  {
    if s.phase != Looping { return; }
    var next := NextUnsettled(s.stages, s.settled);
    if next.None? { return; }
    RecoveryFrontier(plan, s);
    var input := ResolveRecoveryInput(plan, next.value, s.current, s.outputs, a.converted);
    if input.Some? && !(next.value.ordinal == 1 && a.conclusive) { DriveNotes(plan, s, next.value, input.value, a); }
  }

  /** The resumption chooses the exit that is missing, and it becomes durable. */
  predicate MakesUp(plan: Plan, j: Journal, a: Answer) {
    && ShouldSelectInitialExit(plan, SettledOrdinals(j.settlements), j.decision)
    && a.decision.Some? && a.decision.value.complete && a.decisionWrite != Lost
  }

  lemma ResumeNotes(plan: Plan, j: Journal, a: Answer)
    requires PrefundedShape(plan) && Resumable(j)
    ensures var n := Resume(plan, j, a).journal;
            && n.settlements == j.settlements && n.state != Aborted
            && n.decision == if MakesUp(plan, j, a) then Some(a.decision.value.route) else j.decision
  {
    ResumeOutcomes(plan, j, a);
  }

  /** With the buy durable, the sale not and nothing decided, the sale is next. */
  lemma ChoiceIsOpen(plan: Plan, j: Journal)
    requires JournalOk(j) && ShouldSelectInitialExit(plan, SettledOrdinals(j.settlements), j.decision)
    ensures |j.settlements| == 1 && Frontier(j) == {2} && LeftBehind(j) == {} && SettledOrdinals(j.settlements) == {1}
  {
    JournalRoute(Ordinals(j.settlements), j.decision);
    SettledAre(j.settlements, 1);
    SettledAre(j.settlements, 2);
    OnlyBuySettled(Ordinals(j.settlements));
    assert forall o :: o in SettledOrdinals(j.settlements) ==> o == Ordinals(j.settlements)[0];
  }

  lemma TallyResumes(plan: Plan, j: Journal, a: Answer, landed: set<int>)
    requires PrefundedShape(plan) && JournalOk(j) && Resumable(j) && Tally(j, landed)
    ensures Tally(Resume(plan, j, a).journal, landed)
  {
    ResumeNotes(plan, j, a);
    if MakesUp(plan, j, a) { ChoiceIsOpen(plan, j); }
  }

  // ---------- runs ----------

  lemma ProcessJournal(plan: Plan, p: Process)
    requires ProcessOk(plan, p)
    ensures JournalOk(Durable(p))
  {
  }

  /** A turn of either loop, as the journal sees it. */
  lemma TurnNoted(plan: Plan, selector: bool, p: Process, e: Event)
    requires PrefundedShape(plan) && ProcessOk(plan, p) && !e.Resumption?
    ensures Noted(ReportOf(plan, p, e), GivesUpBuy(p, e), Durable(p), Durable(Happen(plan, selector, p, e)))
  {
    match e
    case ExecutorTurn(a) => if p.Executing? { ExecutorNotes(plan, selector, p.execution, a); }
    case Crash =>
    case RecoveryTurn(a) => if p.Resumed? { TurnNotes(plan, p.recovery, a); }
  }

  lemma FollowedAct(plan: Plan, selector: bool, w: World, step: Step)
    requires PrefundedShape(plan) && Followed(plan, w) && Truthful(plan, w, step)
    ensures Followed(plan, Act(plan, selector, w, step))
  {
    var n := Happen(plan, selector, w.process, step.event);
    HappenKeeps(plan, selector, w.process, step.event);
    ProcessJournal(plan, w.process);
    ProcessJournal(plan, n);
    if step.event.Resumption? {
      if w.process.Down? && Resumable(w.process.journal) { TallyResumes(plan, w.process.journal, step.event.first, w.landed); }
    } else {
      TurnNoted(plan, selector, w.process, step.event);
      TallyKeeps(ReportOf(plan, w.process, step.event), GivesUpBuy(w.process, step.event), Durable(w.process), Durable(n), w.landed, step.lands);
    }
  }

  lemma {:induction false} FollowedLive(plan: Plan, selector: bool, w: World, steps: seq<Step>)
    requires PrefundedShape(plan) && Followed(plan, w) && TruthfulRun(plan, selector, w, steps)
    ensures Followed(plan, Live(plan, selector, w, steps))
  {
    if |steps| > 0 {
      var before := steps[..|steps| - 1];
      FollowedLive(plan, selector, w, before);
      FollowedAct(plan, selector, Live(plan, selector, w, before), steps[|steps| - 1]);
    }
  }

  lemma FollowedStart(plan: Plan)
    requires PrefundedShape(plan)
    ensures Followed(plan, Begin(plan))
  {
    PrefundedRun(plan, true, []);
  }

  /** With truthful drivers: what is durable took effect; beyond that at most the
      next stage did, and after a decision for the origin the destination sale;
      and an operation is aborted only if nothing took effect. */
  lemma LandedFollows(plan: Plan, selector: bool, steps: seq<Step>)
    requires PrefundedShape(plan) && TruthfulRun(plan, selector, Begin(plan), steps)
    ensures var w := Live(plan, selector, Begin(plan), steps);
            var j := Durable(w.process);
            && SettledOrdinals(j.settlements) <= w.landed <= SettledOrdinals(j.settlements) + Frontier(j) + LeftBehind(j)
            && (j.state == Aborted ==> w.landed == {})
  {
    FollowedStart(plan);
    FollowedLive(plan, selector, Begin(plan), steps);
  }

  // ---------- one stage ahead ----------

  /** A resumption that decides the origin sale although the destination sale
      took effect: the buy is durable, the sale is not, nothing is decided, and
      the selector's answer for the origin becomes durable. */
  predicate Blind(plan: Plan, w: World, step: Step) {
    && step.event.Resumption? && w.process.Down? && Resumable(w.process.journal) && 2 in w.landed
    && MakesUp(plan, w.process.journal, step.event.first) && step.event.first.decision.value.route == SellAtOrigin
  }

  predicate NeverBlind(plan: Plan, selector: bool, w: World, steps: seq<Step>) {
    |steps| > 0 ==>
      var before := steps[..|steps| - 1];
      NeverBlind(plan, selector, w, before) && !Blind(plan, Live(plan, selector, w, before), steps[|steps| - 1])
  }

  /** The origin sale is decided only where the other did not take effect. */
  predicate Sighted(w: World) { Durable(w.process).decision == Some(SellAtOrigin) ==> 2 !in w.landed }

  lemma SightedTurn(report: Report, before: Journal, after: Journal, landed: set<int>, lands: bool)
    requires OnRouteJournal(before) && Tally(before, landed) && Frontier(before) == {report.stage.ordinal} && Records(report, before, after)
    requires report.stage.ordinal in landed ==> !DefinitelyFailed(report.driven)
    requires before.decision == Some(SellAtOrigin) ==> 2 !in landed
    ensures after.decision == Some(SellAtOrigin) ==> 2 !in landed + Landing(Some(report), lands)
  {
    FrontierSays(before, report.stage.ordinal);
  }

  lemma SightedAct(plan: Plan, selector: bool, w: World, step: Step)
    requires PrefundedShape(plan) && Followed(plan, w) && Sighted(w) && Truthful(plan, w, step) && !Blind(plan, w, step)
    ensures Sighted(Act(plan, selector, w, step))
  {
    ProcessJournal(plan, w.process);
    if step.event.Resumption? {
      if w.process.Down? && Resumable(w.process.journal) { ResumeNotes(plan, w.process.journal, step.event.first); }
    } else {
      TurnNoted(plan, selector, w.process, step.event);
      var report := ReportOf(plan, w.process, step.event);
      if report.Some? {
        SightedTurn(report.value, Durable(w.process), Durable(Happen(plan, selector, w.process, step.event)), w.landed, step.lands);
      }
    }
  }

  lemma {:induction false} SightedLive(plan: Plan, selector: bool, w: World, steps: seq<Step>)
    requires PrefundedShape(plan) && Followed(plan, w) && Sighted(w)
    requires TruthfulRun(plan, selector, w, steps) && NeverBlind(plan, selector, w, steps)
    ensures Sighted(Live(plan, selector, w, steps))
  {
    if |steps| > 0 {
      var before := steps[..|steps| - 1];
      SightedLive(plan, selector, w, before);
      FollowedLive(plan, selector, w, before);
      SightedAct(plan, selector, Live(plan, selector, w, before), steps[|steps| - 1]);
    }
  }

  /** What a followed, sighted world says. */
  lemma SightedSays(plan: Plan, w: World)
    requires Followed(plan, w) && Sighted(w)
    ensures var j := Durable(w.process);
            && SettledOrdinals(j.settlements) <= w.landed <= SettledOrdinals(j.settlements) + Frontier(j)
            && !(2 in w.landed && 5 in w.landed)
            && (j.state == Completed ==> w.landed == {1, 2, 3, 4} || w.landed == {1, 5})
  {
    var j := Durable(w.process);
    ProcessJournal(plan, w.process);
    JournalRoute(Ordinals(j.settlements), j.decision);
    var n := |j.settlements|;
    forall o ensures o in SettledOrdinals(j.settlements) <==> exists i :: 0 <= i < n && RouteOf(j.decision)[i] == o {
      SettledAre(j.settlements, o);
      if o in Ordinals(j.settlements) { var i :| 0 <= i < n && Ordinals(j.settlements)[i] == o; assert RouteOf(j.decision)[i] == o; }
      if i :| 0 <= i < n && RouteOf(j.decision)[i] == o { assert Ordinals(j.settlements)[i] == o; }
    }
    if j.state == Completed { WholeSettled(j); }
  }

  lemma WholeSettled(j: Journal)
    requires WholeRoute(Ordinals(j.settlements)) && OnRouteJournal(j)
    ensures |j.settlements| == |RouteOf(j.decision)|
    ensures SettledOrdinals(j.settlements) == {1, 2, 3, 4} || SettledOrdinals(j.settlements) == {1, 5}
  {
    var r := Ordinals(j.settlements);
    JournalRoute(r, j.decision);
    assert r == Origin ==> r[1] == 5 && Destination[1] == 2;
    assert r == Destination ==> r[1] == 2 && Origin[1] == 5;
    forall o ensures o in SettledOrdinals(j.settlements) <==> o in r { SettledAre(j.settlements, o); }
    assert r == Destination ==> forall o :: o in r <==> o in {1, 2, 3, 4};
    assert r == Origin ==> forall o :: o in r <==> o in {1, 5};
  }

  /** From the executor's start through any crashes and resumes, with truthful
      drivers and no blind resumption: what took effect is what is durable and at
      most the stage after it, never both sales; a completed operation made the
      effects of one route, no less and no more. */
  lemma OneStageAhead(plan: Plan, selector: bool, steps: seq<Step>)
    requires PrefundedShape(plan)
    requires TruthfulRun(plan, selector, Begin(plan), steps) && NeverBlind(plan, selector, Begin(plan), steps)
    ensures var w := Live(plan, selector, Begin(plan), steps);
            var j := Durable(w.process);
            && SettledOrdinals(j.settlements) <= w.landed <= SettledOrdinals(j.settlements) + Frontier(j)
            && !(2 in w.landed && 5 in w.landed)
            && (j.state == Completed ==> w.landed == {1, 2, 3, 4} || w.landed == {1, 5})
  {
    FollowedStart(plan);
    FollowedLive(plan, selector, Begin(plan), steps);
    SightedLive(plan, selector, Begin(plan), steps);
    SightedSays(plan, Live(plan, selector, Begin(plan), steps));
  }

  // ---------- two sales ----------

  /** A plan as the constructor makes it, its references included. */
  ghost predicate Fits(plan: Plan) {
    && PrefundedShape(plan) && plan.initialInput.token == plan.stages[0].inputToken
    && plan.stages[1].dependsOn == [1] && plan.circuitBreaker[0].dependsOn == [1]
  }

  lemma PrefundedPlansFit(id: string, o: Opportunity, initialInput: Amount, buyChain: string, sellChain: string, dated: bool)
    ensures var plan := NewPrefundedSequentialPlan(id, o, initialInput, buyChain, sellChain, dated);
            plan.Some? ==> Fits(plan.value)
  {
  }

  /** A truthful step from one world to the next. */
  predicate Goes(plan: Plan, selector: bool, w: World, step: Step, next: World) {
    Truthful(plan, w, step) && Act(plan, selector, w, step) == next
  }

  /** A truthful run from one world to another. */
  predicate Leads(plan: Plan, selector: bool, w: World, steps: seq<Step>, end: World) {
    TruthfulRun(plan, selector, w, steps) && Live(plan, selector, w, steps) == end
  }

  lemma LeadsOn(plan: Plan, selector: bool, w: World, steps: seq<Step>, m: World, step: Step, next: World)
    requires Leads(plan, selector, w, steps, m) && Goes(plan, selector, m, step, next)
    ensures Leads(plan, selector, w, steps + [step], next)
  {
    assert (steps + [step])[..|steps|] == steps;
  }

  /** A truthful future in which the origin sale takes effect. */
  ghost predicate CanSellAtOrigin(plan: Plan, selector: bool, w: World) {
    exists more :: TruthfulRun(plan, selector, w, more) && 5 in Live(plan, selector, w, more).landed
  }

  /** The destination sale is not durable, and the origin exit is decided or still
      open to a resumption's choice. */
  predicate OriginExitOpen(j: Journal) {
    2 !in SettledOrdinals(j.settlements) && (j.decision == Some(SellAtOrigin) || j.decision == None)
  }

  /** The steps that make the origin sale from an open exit. */
  const ChooseOrigin := Step(Resumption(DualEffectLaws.ChoosesOrigin), false)

  function SellAtOriginStep(plan: Plan): Step
    requires |plan.circuitBreaker| == 1
  {
    Step(RecoveryTurn(DualEffectLaws.OriginSettles(plan)), false)
  }

  lemma ResumesToOriginSale(plan: Plan, w: World)
    requires Fits(plan) && Followed(plan, w) && w.process.Down? && Resumable(w.process.journal)
    requires 2 in w.landed && 5 !in w.landed && OriginExitOpen(w.process.journal)
    ensures var s := Resume(plan, w.process.journal, DualEffectLaws.ChoosesOrigin);
            && s.phase == Looping && NextUnsettled(s.stages, s.settled) == Some(plan.circuitBreaker[0])
            && 1 in s.outputs && s.outputs[1].units != 0
  {
    var j, a := w.process.journal, DualEffectLaws.ChoosesOrigin;
    JournalRoute(Ordinals(j.settlements), j.decision);
    if j.settlements == [] { NothingYet(j, w.landed); }
    SettledAre(j.settlements, 1);
    SettledAre(j.settlements, 2);
    assert Ordinals(j.settlements)[0] == 1;
    ResumeOutcomes(plan, j, a);
    var s := Resume(plan, j, a);
    assert s.stages == [plan.stages[0], plan.circuitBreaker[0]];
    NextAfterPrefix(s.stages, s.settled, 1);
  }

  lemma OpenMeansTwoSteps(plan: Plan, selector: bool, w: World)
    requires Fits(plan) && Followed(plan, w) && w.process.Down? && Resumable(w.process.journal)
    requires 2 in w.landed && 5 !in w.landed && OriginExitOpen(w.process.journal)
    ensures var w1 := Act(plan, selector, w, ChooseOrigin);
            var w2 := Act(plan, selector, w1, SellAtOriginStep(plan));
            && Goes(plan, selector, w, ChooseOrigin, w1) && Goes(plan, selector, w1, SellAtOriginStep(plan), w2)
            && w2.landed == w.landed + {5}
  {
    ResumesToOriginSale(plan, w);
    OriginSaleReported(plan, Resume(plan, w.process.journal, DualEffectLaws.ChoosesOrigin));
  }

  lemma OriginSaleReported(plan: Plan, s: Recovery)
    requires Fits(plan) && s.phase == Looping && NextUnsettled(s.stages, s.settled) == Some(plan.circuitBreaker[0])
    requires 1 in s.outputs && s.outputs[1].units != 0
    ensures var a := DualEffectLaws.OriginSettles(plan); RecoveryReport(plan, s, a) == Some(Report(plan.circuitBreaker[0], a.driven))
  {
    var a := DualEffectLaws.OriginSettles(plan);
    assert ResolveRecoveryInput(plan, plan.circuitBreaker[0], s.current, s.outputs, a.converted).Some?;
  }

  lemma OpenMeansCan(plan: Plan, selector: bool, w: World)
    requires Fits(plan) && Followed(plan, w) && w.process.Down? && Resumable(w.process.journal)
    requires 2 in w.landed && 5 !in w.landed && OriginExitOpen(w.process.journal)
    ensures CanSellAtOrigin(plan, selector, w)
  {
    var more, sold := OpenIsSold(plan, selector, w, [], w);
  }

  lemma TwoSteps(plan: Plan, selector: bool, w: World, m: World, steps: seq<Step>, first: Step, second: Step) returns (all: seq<Step>)
    requires Leads(plan, selector, w, steps, m)
    requires Truthful(plan, m, first) && Truthful(plan, Act(plan, selector, m, first), second)
    ensures all == steps + [first] + [second]
    ensures Leads(plan, selector, w, all, Act(plan, selector, Act(plan, selector, m, first), second))
  {
    var m1 := Act(plan, selector, m, first);
    LeadsOn(plan, selector, w, steps, m, first, m1);
    LeadsOn(plan, selector, w, steps + [first], m1, second, Act(plan, selector, m1, second));
    all := steps + [first] + [second];
  }

  /** Where the exit is not open, truthful drivers never come to that sale. */
  predicate Shut(w: World) { !w.process.Executing? && ShutJournal(Durable(w.process), w.landed) }

  predicate ShutJournal(j: Journal, landed: set<int>) {
    2 in landed && 5 !in landed && !OriginExitOpen(j) && j.decision != Some(SellAtOrigin)
  }

  lemma ShutTurn(report: Report, before: Journal, after: Journal, landed: set<int>, lands: bool)
    requires OnRouteJournal(before) && Tally(before, landed) && Frontier(before) == {report.stage.ordinal} && Records(report, before, after)
    requires report.stage.ordinal in landed ==> !DefinitelyFailed(report.driven)
    requires ShutJournal(before, landed)
    ensures ShutJournal(after, landed + Landing(Some(report), lands))
  {
    FrontierSays(before, report.stage.ordinal);
    SettledGrow(before, after, report);
  }

  lemma ShutAct(plan: Plan, selector: bool, w: World, step: Step)
    requires PrefundedShape(plan) && Followed(plan, w) && Shut(w) && Truthful(plan, w, step)
    ensures Shut(Act(plan, selector, w, step))
  {
    ProcessJournal(plan, w.process);
    if step.event.Resumption? {
      if w.process.Down? && Resumable(w.process.journal) { ResumeNotes(plan, w.process.journal, step.event.first); }
    } else {
      TurnNoted(plan, selector, w.process, step.event);
      var report := ReportOf(plan, w.process, step.event);
      if report.Some? {
        ShutTurn(report.value, Durable(w.process), Durable(Happen(plan, selector, w.process, step.event)), w.landed, step.lands);
      }
    }
  }

  lemma SettledGrow(before: Journal, after: Journal, r: Report)
    requires Records(r, before, after)
    ensures SettledOrdinals(before.settlements) <= SettledOrdinals(after.settlements)
  {
    if after.settlements != before.settlements {
      var x: Settlement :| after.settlements == before.settlements + [x];
      SettledAppend(before.settlements, x);
    }
  }

  lemma {:induction false} ShutLive(plan: Plan, selector: bool, w: World, steps: seq<Step>)
    requires PrefundedShape(plan) && Followed(plan, w) && Shut(w) && TruthfulRun(plan, selector, w, steps)
    ensures Shut(Live(plan, selector, w, steps))
  {
    if |steps| > 0 {
      var before := steps[..|steps| - 1];
      ShutLive(plan, selector, w, before);
      FollowedLive(plan, selector, w, before);
      ShutAct(plan, selector, Live(plan, selector, w, before), steps[|steps| - 1]);
    }
  }

  /** Between two processes, after the destination sale took effect: the origin
      sale can still follow exactly if the sale is not durable and the origin
      exit is decided or no exit is. */
  lemma SaleAfterSaleIff(plan: Plan, selector: bool, steps: seq<Step>)
    requires Fits(plan) && TruthfulRun(plan, selector, Begin(plan), steps)
    requires var w := Live(plan, selector, Begin(plan), steps);
             w.process.Down? && Resumable(w.process.journal) && 2 in w.landed && 5 !in w.landed
    ensures var w := Live(plan, selector, Begin(plan), steps);
            CanSellAtOrigin(plan, selector, w) <==> OriginExitOpen(w.process.journal)
  {
    FollowedStart(plan);
    FollowedLive(plan, selector, Begin(plan), steps);
    var w := Live(plan, selector, Begin(plan), steps);
    if OriginExitOpen(w.process.journal) { OpenMeansCan(plan, selector, w); } else { ShutMeansCannot(plan, selector, w); }
  }

  lemma ShutMeansCannot(plan: Plan, selector: bool, w: World)
    requires PrefundedShape(plan) && Followed(plan, w) && w.process.Down?
    requires 2 in w.landed && 5 !in w.landed && !OriginExitOpen(w.process.journal)
    ensures !CanSellAtOrigin(plan, selector, w)
  {
    if w.process.journal.decision == Some(SellAtOrigin) { DecidedOriginIsOpen(plan, w); }
    forall more | TruthfulRun(plan, selector, w, more) ensures 5 !in Live(plan, selector, w, more).landed {
      ShutLive(plan, selector, w, more);
    }
  }

  /** With the origin decided the destination sale is not durable. */
  lemma DecidedOriginIsOpen(plan: Plan, w: World)
    requires Followed(plan, w) && Durable(w.process).decision == Some(SellAtOrigin) && 2 in w.landed
    ensures OriginExitOpen(Durable(w.process))
  {
    var j := Durable(w.process);
    ProcessJournal(plan, w.process);
    JournalRoute(Ordinals(j.settlements), j.decision);
    SettledAre(j.settlements, 2);
  }

  // ---------- an input ----------

  /** The sale settles, and the process dies before anything is written. */
  function SaleThenCrash(plan: Plan): Answer
    requires |plan.stages| == 4
  {
    var sale := plan.stages[1];
    Answer(Some(Amount(sale.inputToken, 1)), false, 0, Settled(Amount(sale.inputToken, 1), Amount(sale.outputToken, 1), true), false,
           false, None, Lost, None, Lost, false, false, Lost)
  }

  /** A recovery from the start: the buy, then the sale, then a crash. */
  predicate UnrecordedSale(plan: Plan, steps: seq<Step>)
    requires |plan.stages| == 4
  {
    && |steps| == 5 && steps[0] == Dies && steps[1] == ChooseOrigin && steps[4] == Dies
    && steps[2] == Step(RecoveryTurn(DualInventoryLaws.BuySettles(plan)), false)
    && steps[3] == Step(RecoveryTurn(SaleThenCrash(plan)), false)
  }

  lemma ResumesToBuy(plan: Plan)
    requires Fits(plan)
    ensures var s := Resume(plan, Empty, DualEffectLaws.ChoosesOrigin);
            && s == Load(plan, Empty).(stages := plan.stages) && NextUnsettled(s.stages, s.settled) == Some(plan.stages[0])
  {
    ResumeOutcomes(plan, Empty, DualEffectLaws.ChoosesOrigin);
    NextAfterPrefix(plan.stages, {}, 0);
  }

  lemma BuyThenSale(plan: Plan)
    requires Fits(plan)
    ensures var s := Resume(plan, Empty, DualEffectLaws.ChoosesOrigin);
            var buy := DualInventoryLaws.BuySettles(plan);
            var x := Settlement(plan.stages[0], plan.initialInput, buy.driven.actualIn, buy.driven.actualOut);
            var t := Turn(plan, s, buy);
            && RecoveryReport(plan, s, buy) == Some(Report(plan.stages[0], buy.driven))
            && t.journal == Journal([x], None, Running) && t.phase == Looping
            && NextUnsettled(t.stages, t.settled) == Some(plan.stages[1]) && t.outputs == map[1 := x.actualOut]
  {
    ResumesToBuy(plan);
    assert AllStages(plan)[0] == plan.stages[0] && StageOk(AllStages(plan)[0]);
    var s, buy := Resume(plan, Empty, DualEffectLaws.ChoosesOrigin), DualInventoryLaws.BuySettles(plan);
    var x := Settlement(plan.stages[0], plan.initialInput, buy.driven.actualIn, buy.driven.actualOut);
    SettleOutcomes(plan, s.(calls := [Call(plan.stages[0], plan.initialInput, buy.driven)]), x, true, buy);
    NextAfterPrefix(plan.stages, {1}, 1);
  }

  lemma SaleUnrecorded(plan: Plan)
    requires Fits(plan)
    ensures var t := Turn(plan, Resume(plan, Empty, DualEffectLaws.ChoosesOrigin), DualInventoryLaws.BuySettles(plan));
            && RecoveryReport(plan, t, SaleThenCrash(plan)) == Some(Report(plan.stages[1], SaleThenCrash(plan).driven))
            && Turn(plan, t, SaleThenCrash(plan)).journal == t.journal
  {
    BuyThenSale(plan);
    var t, a := Turn(plan, Resume(plan, Empty, DualEffectLaws.ChoosesOrigin), DualInventoryLaws.BuySettles(plan)), SaleThenCrash(plan);
    assert ResolveRecoveryInput(plan, plan.stages[1], t.current, t.outputs, a.converted).Some?;
  }

  lemma FiveSteps(plan: Plan, selector: bool, w: World, e: seq<Step>, w1: World, w2: World, w3: World, w4: World, w5: World)
    requires |e| == 5 && Goes(plan, selector, w, e[0], w1) && Goes(plan, selector, w1, e[1], w2) && Goes(plan, selector, w2, e[2], w3)
    requires Goes(plan, selector, w3, e[3], w4) && Goes(plan, selector, w4, e[4], w5)
    ensures Leads(plan, selector, w, e, w5)
  {
    LeadsOn(plan, selector, w, e[..0], w, e[0], w1);
    assert e[..0] + [e[0]] == e[..1] && e[..1] + [e[1]] == e[..2] && e[..2] + [e[2]] == e[..3] && e[..3] + [e[3]] == e[..4] && e[..4] + [e[4]] == e;
    LeadsOn(plan, selector, w, e[..1], w1, e[1], w2);
    LeadsOn(plan, selector, w, e[..2], w2, e[2], w3);
    LeadsOn(plan, selector, w, e[..3], w3, e[3], w4);
    LeadsOn(plan, selector, w, e[..4], w4, e[4], w5);
  }

  /** The worlds on the way. */
  ghost function Recovering(s: Recovery, landed: set<int>): World { World(Resumed(s), landed) }

  lemma StartsRecovery(plan: Plan, selector: bool)
    requires Fits(plan)
    ensures Goes(plan, selector, Begin(plan), Dies, World(Down(Empty), {}))
    ensures Goes(plan, selector, World(Down(Empty), {}), ChooseOrigin, Recovering(Resume(plan, Empty, DualEffectLaws.ChoosesOrigin), {}))
  {
  }

  lemma TurnGoes(plan: Plan, selector: bool, s: Recovery, landed: set<int>, a: Answer, stage: Stage)
    requires RecoveryReport(plan, s, a) == Some(Report(stage, a.driven)) && a.driven.Settled? && !a.conclusive
    ensures Goes(plan, selector, Recovering(s, landed), Step(RecoveryTurn(a), false), Recovering(Turn(plan, s, a), landed + {stage.ordinal}))
  {
  }

  /** Running, with the buy durable and nothing decided. */
  predicate OnlyBought(j: Journal) { j.state == Running && j.decision == None && SettledOrdinals(j.settlements) == {1} }

  lemma RecoveryGoes(plan: Plan, selector: bool) returns (s: Recovery, t: Recovery, u: Recovery)
    requires Fits(plan)
    ensures s == Resume(plan, Empty, DualEffectLaws.ChoosesOrigin) && OnlyBought(u.journal)
    ensures Goes(plan, selector, Recovering(s, {}), Step(RecoveryTurn(DualInventoryLaws.BuySettles(plan)), false), Recovering(t, {1}))
    ensures Goes(plan, selector, Recovering(t, {1}), Step(RecoveryTurn(SaleThenCrash(plan)), false), Recovering(u, {1, 2}))
  {
    var buy, sale := DualInventoryLaws.BuySettles(plan), SaleThenCrash(plan);
    s := Resume(plan, Empty, DualEffectLaws.ChoosesOrigin);
    t := Turn(plan, s, buy);
    u := Turn(plan, t, sale);
    BuyThenSale(plan);
    SaleUnrecorded(plan);
    TurnGoes(plan, selector, s, {}, buy, plan.stages[0]);
    TurnGoes(plan, selector, t, {1}, sale, plan.stages[1]);
    assert {} + {1} == {1} && {1} + {2} == {1, 2};
    assert u.journal.settlements[0].stage.ordinal == 1;
  }

  /** It leaves the sale unrecorded and the exit undecided. */
  lemma UnrecordedSaleLeaves(plan: Plan, selector: bool, steps: seq<Step>) returns (w: World)
    requires Fits(plan) && UnrecordedSale(plan, steps)
    ensures Leads(plan, selector, Begin(plan), steps, w)
    ensures w.process.Down? && OnlyBought(w.process.journal) && w.landed == {1, 2}
  {
    StartsRecovery(plan, selector);
    var s, t, u := RecoveryGoes(plan, selector);
    w := World(Down(u.journal), {1, 2});
    CrashGoes(plan, selector, u, {1, 2});
    FiveSteps(plan, selector, Begin(plan), steps, World(Down(Empty), {}), Recovering(s, {}), Recovering(t, {1}), Recovering(u, {1, 2}), w);
  }

  lemma CrashGoes(plan: Plan, selector: bool, s: Recovery, landed: set<int>)
    ensures Goes(plan, selector, Recovering(s, landed), Dies, World(Down(s.journal), landed))
  {
  }

  /** So for every plan both sales take effect on this input: the resumption after
      the crash is blind, and its choice is carried out. */
  lemma SellsTwiceAt(plan: Plan, selector: bool, steps: seq<Step>) returns (all: seq<Step>, w: World)
    requires Fits(plan) && UnrecordedSale(plan, steps)
    ensures all == steps + [ChooseOrigin] + [SellAtOriginStep(plan)]
    ensures Leads(plan, selector, Begin(plan), all, w) && w.landed == {1, 2, 5}
    ensures Blind(plan, Live(plan, selector, Begin(plan), steps), ChooseOrigin)
  {
    var m := UnrecordedSaleLeaves(plan, selector, steps);
    FollowedFromStart(plan, selector, steps, m);
    all, w := BoughtSellsTwice(plan, selector, Begin(plan), steps, m);
  }

  lemma BoughtSellsTwice(plan: Plan, selector: bool, begin: World, steps: seq<Step>, m: World) returns (all: seq<Step>, w: World)
    requires Fits(plan) && Leads(plan, selector, begin, steps, m) && Followed(plan, m)
    requires m.process.Down? && OnlyBought(m.process.journal) && m.landed == {1, 2}
    ensures all == steps + [ChooseOrigin] + [SellAtOriginStep(plan)]
    ensures Leads(plan, selector, begin, all, w) && w.landed == {1, 2, 5}
    ensures Blind(plan, Live(plan, selector, begin, steps), ChooseOrigin)
  {
    BoughtIsOpen(m);
    all, w := OpenIsSold(plan, selector, begin, steps, m);
    assert {1, 2} + {5} == {1, 2, 5};
    ChoosesBlindly(plan, m);
  }

  lemma BoughtIsOpen(w: World)
    requires w.process.Down? && OnlyBought(w.process.journal) && w.landed == {1, 2}
    ensures Resumable(w.process.journal) && OriginExitOpen(w.process.journal) && 2 in w.landed && 5 !in w.landed
  {
  }

  lemma FollowedFromStart(plan: Plan, selector: bool, steps: seq<Step>, m: World)
    requires PrefundedShape(plan) && Leads(plan, selector, Begin(plan), steps, m)
    ensures Followed(plan, m)
  {
    FollowedStart(plan);
    FollowedLive(plan, selector, Begin(plan), steps);
  }

  lemma ChoosesBlindly(plan: Plan, w: World)
    requires plan.policy == PrefundedSequential && w.process.Down? && OnlyBought(w.process.journal) && 2 in w.landed
    ensures Blind(plan, w, ChooseOrigin)
  {
  }

  lemma OpenIsSold(plan: Plan, selector: bool, w: World, steps: seq<Step>, m: World) returns (all: seq<Step>, sold: World)
    requires Fits(plan) && Leads(plan, selector, w, steps, m) && Followed(plan, m) && m.process.Down? && Resumable(m.process.journal)
    requires 2 in m.landed && 5 !in m.landed && OriginExitOpen(m.process.journal)
    ensures all == steps + [ChooseOrigin] + [SellAtOriginStep(plan)]
    ensures Leads(plan, selector, w, all, sold) && sold.landed == m.landed + {5}
  {
    OpenMeansTwoSteps(plan, selector, m);
    all := TwoSteps(plan, selector, w, m, steps, ChooseOrigin, SellAtOriginStep(plan));
    sold := Act(plan, selector, Act(plan, selector, m, ChooseOrigin), SellAtOriginStep(plan));
  }
}
