/** The sequential executor's stage loop: one iteration as a function of
    everything the drivers, selectors and the journal answer in it, and the loop
    as an object that takes these iterations. */
module SequentialExecutor {
  import opened Common
  import opened SequentialPlan
  import opened SagaJournal

  /** Everything the environment answers during one iteration. */
  datatype Answer = Answer(
    converted: Option<Amount>, driven: Driven, settlementWrite: Write,
    decision: Option<Decision>, decisionWrite: Write, accounted: bool, finishWrite: Write)

  /** The loop's variables, the journal and the driver calls made so far. */
  datatype Execution = Execution(
    state: OperationState, stages: seq<Stage>, index: nat, current: Amount,
    outputs: map<int, Amount>, attempts: map<int, nat>, journal: Journal, calls: seq<Call>)

  function Start(plan: Plan): Execution {
    Execution(Running, plan.stages, 0, plan.initialInput, map[], map[], Empty, [])
  }

  function Attempts(attempts: map<int, nat>, ordinal: int): nat { if ordinal in attempts then attempts[ordinal] else 0 }

  /** Only a sale that definitely failed is tried again, and once; a prefunded
      plan tries only the destination sale again. */
  predicate CanRecoverSwap(plan: Plan, stage: Stage, d: Disposition, attempts: nat) {
    && attempts < 1 && stage.kind == Sell
    && (plan.policy == PrefundedSequential ==> stage.ordinal == 2)
    && Definitive(d)
  }

  function Finish(s: Execution, state: OperationState, a: Answer): Execution {
    s.(state := state, journal := RecordState(s.journal, state, a.finishWrite))
  }

  /** The first exit choice, after the settlement that calls for one. */
  function ChooseExit(plan: Plan, selector: bool, s: Execution, stage: Stage, a: Answer): Execution {
    if plan.policy == PrefundedSequential && stage.ordinal == 1 then
      var (journal, ok) := RecordDecision(s.journal, a.decision, a.decisionWrite);
      var decided := s.(journal := journal);
      if !ok then Finish(decided, Manual, a)
      else if a.decision.value.route == SellAtOrigin then
        decided.(stages := Take(s.stages, s.index + 1) + plan.circuitBreaker, index := s.index + 1)
      else decided.(index := s.index + 1)
    else if plan.policy == Transported && stage.ordinal == 2 && selector then
      var (journal, ok) := RecordDecision(s.journal, a.decision, a.decisionWrite);
      var decided := s.(journal := journal);
      if !ok then Finish(decided, Manual, a)
      else if a.decision.value.route == ReturnToOrigin then
        if ReturnExitStages(plan).None? then Finish(decided, Manual, a)
        else decided.(stages := Take(s.stages, 2) + ReturnExitStages(plan).value, index := s.index + 1)
      else decided.(index := s.index + 1)
    else s.(index := s.index + 1)
  }

  /** After a sale definitely failed: choose again where the plan still can, and
      take the same ordinal once more. */
  function ReselectExit(plan: Plan, s: Execution, stage: Stage, a: Answer): Execution {
    if plan.policy == PrefundedSequential && stage.ordinal == 2 then
      var (journal, ok) := RecordDecision(s.journal, a.decision, a.decisionWrite);
      var decided := s.(journal := journal);
      if !ok then Finish(decided, Manual, a)
      else match a.decision.value.route
        case SellAtDestination => decided.(stages := Drop(plan.stages, 1), index := 0)
        case SellAtOrigin => decided.(stages := plan.circuitBreaker, index := 0)
        case ReturnToOrigin => Finish(decided, Manual, a)
    else if stage.ordinal == 3 then
      var (journal, ok) := RecordDecision(s.journal, a.decision, a.decisionWrite);
      var decided := s.(journal := journal);
      if !ok then Finish(decided, Manual, a)
      else if a.decision.value.route == ReturnToOrigin then
        if ReturnExitStages(plan).None? then Finish(decided, Manual, a)
        else decided.(stages := Take(s.stages, 2) + ReturnExitStages(plan).value)
      else decided.(stages := Take(s.stages, 2) + Drop(plan.stages, 2))
    else s
  }

  /** What follows from a driver's failure. */
  function Fail(plan: Plan, s: Execution, stage: Stage, disposition: Disposition, costs: Costs, a: Answer): Execution {
    if costs == CostsNotRecorded then Finish(s, Manual, a)
    else if CanRecoverSwap(plan, stage, disposition, Attempts(s.attempts, stage.ordinal)) then
      ReselectExit(plan, s.(attempts := s.attempts[stage.ordinal := Attempts(s.attempts, stage.ordinal) + 1]), stage, a)
    else Finish(s, if stage.ordinal == 1 && Definitive(disposition) then Aborted else Manual, a)
  }

  /** What follows from a driver's settlement. */
  function Settle(plan: Plan, selector: bool, s: Execution, settlement: Settlement, proven: bool, a: Answer): Execution {
    if !SettlementOk(settlement.stage, settlement.input, settlement.actualIn, settlement.actualOut, proven) then Finish(s, Manual, a)
    else
      var (journal, ok) := RecordSettlement(s.journal, settlement, a.settlementWrite);
      if !ok then Finish(s.(journal := journal), Manual, a)
      else
        var out := settlement.actualOut;
        ChooseExit(plan, selector, s.(journal := journal, current := out, outputs := s.outputs[settlement.stage.ordinal := out]),
                   settlement.stage, a)
  }

  function Conclude(plan: Plan, selector: bool, s: Execution, stage: Stage, input: Amount, a: Answer): Execution {
    match a.driven
    case Failed(disposition, costs, _, _) => Fail(plan, s, stage, disposition, costs, a)
    case Settled(actualIn, actualOut, proven) => Settle(plan, selector, s, Settlement(stage, input, actualIn, actualOut), proven, a)
  }

  /** One iteration. */
  function Iterate(plan: Plan, selector: bool, s: Execution, a: Answer): Execution {
    if s.state != Running then s
    else if s.index >= |s.stages| then Finish(s, if a.accounted then Completed else Manual, a)
    else
      var stage := s.stages[s.index];
      var input := ResolveInput(plan, stage, s.current, s.outputs, a.converted);
      if input.None? || !RequestOk(stage, input.value) then Finish(s, Manual, a)
      else Conclude(plan, selector, s.(calls := s.calls + [Call(stage, input.value, a.driven)]), stage, input.value, a)
  }

  /** The state after the given answers; a crash is where they stop. */
  function RunExecution(plan: Plan, selector: bool, answers: seq<Answer>): Execution {
    if |answers| == 0 then Start(plan)
    else Iterate(plan, selector, RunExecution(plan, selector, answers[..|answers| - 1]), answers[|answers| - 1])
  }

  // ---------- the executor ----------

  class Executor {
    const plan: Plan
    const selector: bool
    var state: OperationState
    var stages: seq<Stage>
    var index: nat
    var current: Amount
    var outputs: map<int, Amount>
    var attempts: map<int, nat>
    var journal: Journal
    var calls: seq<Call>

    ghost function View(): Execution
      reads this
    {
      Execution(state, stages, index, current, outputs, attempts, journal, calls)
    }

    constructor (plan: Plan, selector: bool)
      ensures this.plan == plan && this.selector == selector && View() == Start(plan)
    {
      this.plan, this.selector := plan, selector;
      state, stages, index, current := Running, plan.stages, 0, plan.initialInput;
      outputs, attempts, journal, calls := map[], map[], Empty, [];
    }

    method Stop(outcome: OperationState, a: Answer)
      modifies this
      ensures View() == Finish(old(View()), outcome, a)
    {
      state := outcome;
      journal := RecordState(journal, outcome, a.finishWrite);
    }

    method PersistDecision(a: Answer) returns (ok: bool)
      modifies this`journal
      ensures (journal, ok) == RecordDecision(old(journal), a.decision, a.decisionWrite)
    {
      if a.decision.None? || !a.decision.value.complete { return false; }
      if a.decisionWrite != Lost { journal := journal.(decision := Some(a.decision.value.route)); }
      ok := a.decisionWrite == Written;
    }

    method Choose(stage: Stage, a: Answer)
      modifies this
      ensures View() == ChooseExit(plan, selector, old(View()), stage, a)
    {
      var prefunded := plan.policy == PrefundedSequential && stage.ordinal == 1;
      var transported := plan.policy == Transported && stage.ordinal == 2 && selector;
      if !prefunded && !transported { index := index + 1; return; }
      var ok := PersistDecision(a);
      if !ok { Stop(Manual, a); return; }
      var route := a.decision.value.route;
      if prefunded && route == SellAtOrigin { stages := Take(stages, index + 1) + plan.circuitBreaker; }
      if transported && route == ReturnToOrigin {
        var back := ReturnExitStages(plan);
        if back.None? { Stop(Manual, a); return; }
        stages := Take(stages, 2) + back.value;
      }
      index := index + 1;
    }

    method Reselect(stage: Stage, a: Answer)
      modifies this
      ensures View() == ReselectExit(plan, old(View()), stage, a)
    {
      if plan.policy == PrefundedSequential && stage.ordinal == 2 {
        var ok := PersistDecision(a);
        if !ok { Stop(Manual, a); return; }
        match a.decision.value.route {
          case SellAtDestination => stages, index := Drop(plan.stages, 1), 0;
          case SellAtOrigin => stages, index := plan.circuitBreaker, 0;
          case ReturnToOrigin => Stop(Manual, a);
        }
      } else if stage.ordinal == 3 {
        var ok := PersistDecision(a);
        if !ok { Stop(Manual, a); return; }
        var rest := Drop(plan.stages, 2);
        if a.decision.value.route == ReturnToOrigin {
          var back := ReturnExitStages(plan);
          if back.None? { Stop(Manual, a); return; }
          rest := back.value;
        }
        stages := Take(stages, 2) + rest;
      }
    }

    method HandleFailure(stage: Stage, disposition: Disposition, costs: Costs, a: Answer)
      modifies this
      ensures View() == Fail(plan, old(View()), stage, disposition, costs, a)
    {
      if costs == CostsNotRecorded { Stop(Manual, a); return; }
      var tried := Attempts(attempts, stage.ordinal);
      if CanRecoverSwap(plan, stage, disposition, tried) {
        attempts := attempts[stage.ordinal := tried + 1];
        Reselect(stage, a);
        return;
      }
      Stop(if stage.ordinal == 1 && Definitive(disposition) then Aborted else Manual, a);
    }

    method HandleSettlement(settlement: Settlement, proven: bool, a: Answer)
      modifies this
      ensures View() == Settle(plan, selector, old(View()), settlement, proven, a)
    {
      if !SettlementOk(settlement.stage, settlement.input, settlement.actualIn, settlement.actualOut, proven) {
        Stop(Manual, a);
        return;
      }
      var (written, ok) := RecordSettlement(journal, settlement, a.settlementWrite);
      journal := written;
      if !ok { Stop(Manual, a); return; }
      current := settlement.actualOut;
      outputs := outputs[settlement.stage.ordinal := settlement.actualOut];
      Choose(settlement.stage, a);
    }

    method Advance(a: Answer)
      requires state == Running
      modifies this
      ensures View() == Iterate(plan, selector, old(View()), a)
    {
      if index >= |stages| {
        Stop(if a.accounted then Completed else Manual, a);
        return;
      }
      var stage := stages[index];
      var input := ResolveInput(plan, stage, current, outputs, a.converted);
      if input.None? || !RequestOk(stage, input.value) { Stop(Manual, a); return; }
      calls := calls + [Call(stage, input.value, a.driven)];
      match a.driven
      case Failed(disposition, costs, _, _) => HandleFailure(stage, disposition, costs, a);
      case Settled(actualIn, actualOut, proven) => HandleSettlement(Settlement(stage, input.value, actualIn, actualOut), proven, a);
    }

    /** The loop, for as long as the environment answers. */
    method Execute(answers: seq<Answer>)
      requires View() == Start(plan)
      modifies this
      ensures View() == RunExecution(plan, selector, answers)
    {
      var k := 0;
      ghost var s := View();
      while k < |answers| && state == Running
        invariant 0 <= k <= |answers| && View() == s
        invariant s == RunExecution(plan, selector, answers[..k])
      {
        RunOneMore(plan, selector, answers, k);
        Advance(answers[k]);
        s := Iterate(plan, selector, s, answers[k]);
        k := k + 1;
      }
      RunStops(plan, selector, answers, k);
    }
  }

  lemma RunOneMore(plan: Plan, selector: bool, answers: seq<Answer>, k: nat)
    requires k < |answers|
    ensures RunExecution(plan, selector, answers[..k + 1]) == Iterate(plan, selector, RunExecution(plan, selector, answers[..k]), answers[k])
  {
    assert answers[..k + 1][..k] == answers[..k];
  }

  /** Once stopped, nothing changes any more. */
  lemma {:induction false} RunStops(plan: Plan, selector: bool, answers: seq<Answer>, k: nat)
    requires k <= |answers| && (k == |answers| || RunExecution(plan, selector, answers[..k]).state != Running)
    ensures RunExecution(plan, selector, answers) == RunExecution(plan, selector, answers[..k])
  {
    if k == |answers| {
      assert answers[..k] == answers;
    } else {
      var shorter := answers[..|answers| - 1];
      assert shorter[..k] == answers[..k];
      RunStops(plan, selector, shorter, k);
    }
  }
}
