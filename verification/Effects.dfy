/** What a turn of the executor or of the recovery does to the world: the stage
    it drives, what the driver says, and whether the stage took effect. */
module Effects {
  import opened Common
  import opened SequentialPlan
  import opened SagaJournal
  import opened SequentialRecovery
  import opened RecoveryLaws
  import SequentialExecutor

  /** An event; lands tells whether a stage took effect although its driver only
      came back with an uncertain failure. */
  datatype Step = Step(event: Event, lands: bool)

  /** The stage that a turn drives, and what its driver says. */
  datatype Report = Report(stage: Stage, driven: Driven)

  const Dies := Step(Crash, false)

  function ExecutorReport(plan: Plan, s: SequentialExecutor.Execution, a: SequentialExecutor.Answer): Option<Report> {
    if s.state != Running || s.index >= |s.stages| then None
    else
      var stage := s.stages[s.index];
      var input := ResolveInput(plan, stage, s.current, s.outputs, a.converted);
      if input.None? || !RequestOk(stage, input.value) then None else Some(Report(stage, a.driven))
  }

  /** The turn compares the exits instead of driving a stage. */
  predicate ComparesExits(plan: Plan, s: Recovery) { plan.policy == Transported && s.currentStage == 2 && !s.exitRefreshed }

  function RecoveryReport(plan: Plan, s: Recovery, a: Answer): Option<Report> {
    var next := if s.phase == Looping then NextUnsettled(s.stages, s.settled) else None;
    if next.None? || ComparesExits(plan, s) then None
    else if ResolveRecoveryInput(plan, next.value, s.current, s.outputs, a.converted).None? then None
    else if next.value.ordinal == 1 && a.conclusive then None
    else Some(Report(next.value, a.driven))
  }

  function ReportOf(plan: Plan, p: Process, e: Event): Option<Report> {
    match e
    case ExecutorTurn(a) => if p.Executing? then ExecutorReport(plan, p.execution, a) else None
    case RecoveryTurn(a) => if p.Resumed? then RecoveryReport(plan, p.recovery, a) else None
    case _ => None
  }

  predicate DefinitelyFailed(d: Driven) { d.Failed? && Definitive(d.disposition) }

  /** The reported stage took effect. */
  predicate TookEffect(report: Report, lands: bool) {
    report.driven.Settled? || (lands && !Definitive(report.driven.disposition))
  }

  function Landed(report: Option<Report>, lands: bool): Option<Stage> {
    if report.Some? && TookEffect(report.value, lands) then Some(report.value.stage) else None
  }

  /** The recovery takes the transactions of the buy for rejected or reverted. */
  predicate GivesUpBuy(p: Process, e: Event) {
    && e.RecoveryTurn? && p.Resumed? && p.recovery.phase == Looping && e.next.conclusive
    && var next := NextUnsettled(p.recovery.stages, p.recovery.settled); next.Some? && next.value.ordinal == 1
  }
}
