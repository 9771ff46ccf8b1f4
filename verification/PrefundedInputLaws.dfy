/** What each stage of a prefunded sequential operation consumed, across any
    crashes and resumes. */
module PrefundedInputLaws {
  import opened Common
  import opened SequentialPlan
  import opened SagaJournal
  import opened SequentialRecovery
  import opened RecoveryLaws
  import opened ExecutorLaws
  import SequentialExecutor

  /** The input is the initial one, or the output of the settlement the stage
      refers to; a conversion only where the tokens differ. */
  predicate FedBy(plan: Plan, ss: seq<Settlement>, stage: Stage, input: Amount) {
    if stage.inputFrom == 0 then input == plan.initialInput
    else exists k :: 0 <= k < |ss| && Feeds(ss[k], stage, input)
  }

  predicate Feeds(from: Settlement, stage: Stage, input: Amount) {
    from.stage.ordinal == stage.inputFrom && (from.actualOut.token == stage.inputToken ==> input == from.actualOut)
  }

  predicate FedAt(plan: Plan, ss: seq<Settlement>, i: nat)
    requires i < |ss|
  {
    ss[i].input.token == ss[i].stage.inputToken && FedBy(plan, ss[..i], ss[i].stage, ss[i].input)
  }

  /** Every settlement is of a stage of the plan and was fed as the plan says. */
  ghost predicate Fed(plan: Plan, ss: seq<Settlement>) {
    && (forall i {:trigger FedAt(plan, ss, i)} :: 0 <= i < |ss| ==> FedAt(plan, ss, i))
    && (forall i {:trigger ss[i]} :: 0 <= i < |ss| ==> ss[i].stage in AllStages(plan))
  }

  lemma FedAppend(plan: Plan, ss: seq<Settlement>, x: Settlement)
    requires Fed(plan, ss) && x.stage in AllStages(plan) && x.input.token == x.stage.inputToken && FedBy(plan, ss, x.stage, x.input)
    ensures Fed(plan, ss + [x])
  {
    var all := ss + [x];
    forall i | 0 <= i < |all| ensures FedAt(plan, all, i) {
      assert all[..i] == ss[..i];
      if i < |ss| { assert FedAt(plan, ss, i); } else { assert ss[..i] == ss; }
    }
  }

  lemma {:induction false} OutputsFrom(ss: seq<Settlement>, o: int)
    requires o in Outputs(ss)
    ensures exists k :: 0 <= k < |ss| && ss[k].stage.ordinal == o && ss[k].actualOut == Outputs(ss)[o]
  {
    var last := |ss| - 1;
    if ss[last].stage.ordinal != o {
      OutputsFrom(ss[..last], o);
      var k :| 0 <= k < last && ss[..last][k].stage.ordinal == o && ss[..last][k].actualOut == Outputs(ss)[o];
      assert ss[k] == ss[..last][k];
    }
  }

  lemma OutputsAppend(ss: seq<Settlement>, x: Settlement)
    ensures Outputs(ss + [x]) == Outputs(ss)[x.stage.ordinal := x.actualOut]
  {
    assert (ss + [x])[..|ss|] == ss;
  }

  /** A stage of the plan resolves its input from what is settled. */
  lemma ResolvedIsFed(plan: Plan, ss: seq<Settlement>, stage: Stage, current: Amount, converted: Option<Amount>)
    requires PrefundedShape(plan) && stage in AllStages(plan)
    requires ResolveInput(plan, stage, current, Outputs(ss), converted).Some?
    ensures FedBy(plan, ss, stage, ResolveInput(plan, stage, current, Outputs(ss), converted).value)
            || ResolveInput(plan, stage, current, Outputs(ss), converted).value.token != stage.inputToken
            || stage.inputFrom == 0
    ensures stage.inputFrom == 0 ==> ResolveInput(plan, stage, current, Outputs(ss), converted).value == plan.initialInput
  {
    StagesRefer(plan, stage);
    if stage.inputFrom != 0 {
      OutputsFrom(ss, stage.inputFrom);
      var k :| 0 <= k < |ss| && ss[k].stage.ordinal == stage.inputFrom && ss[k].actualOut == Outputs(ss)[stage.inputFrom];
      assert Feeds(ss[k], stage, ResolveInput(plan, stage, current, Outputs(ss), converted).value);
    }
  }

  /** Only the buy refers to no settlement. */
  lemma StagesRefer(plan: Plan, stage: Stage)
    requires PrefundedShape(plan) && stage in AllStages(plan)
    ensures stage.inputFrom == 0 <==> stage.ordinal == 1
    ensures (stage.ordinal == 2 || stage.ordinal == 3 || stage.ordinal == 5 ==> stage.inputFrom == 1) && (stage.ordinal == 4 ==> stage.inputFrom == 2)
  {
    var all := AllStages(plan);
    assert all[0] == plan.stages[0] && all[1] == plan.stages[1] && all[2] == plan.stages[2] && all[3] == plan.stages[3] && all[4] == plan.circuitBreaker[0];
  }

  // ---------- the executor ----------

  ghost predicate OfPlan(plan: Plan, stages: seq<Stage>) { forall i {:trigger stages[i]} :: 0 <= i < |stages| ==> stages[i] in AllStages(plan) }

  ghost predicate ExecutionFed(plan: Plan, s: SequentialExecutor.Execution) {
    Fed(plan, s.journal.settlements) && (s.state == Running ==> s.outputs == Outputs(s.journal.settlements) && OfPlan(plan, s.stages))
  }

  lemma ChoiceOfPlan(plan: Plan, selector: bool, s: SequentialExecutor.Execution, stage: Stage, a: SequentialExecutor.Answer)
    requires PrefundedShape(plan) && s.state == Running && OfPlan(plan, s.stages)
    ensures var n := SequentialExecutor.ChooseExit(plan, selector, s, stage, a);
            && n.journal.settlements == s.journal.settlements && n.outputs == s.outputs
            && (n.state == Running ==> OfPlan(plan, n.stages))
  {
    BreakerOfPlan(plan);
  }

  lemma RetryOfPlan(plan: Plan, s: SequentialExecutor.Execution, stage: Stage, a: SequentialExecutor.Answer)
    requires PrefundedShape(plan) && s.state == Running && OfPlan(plan, s.stages) && stage.ordinal == 2
    ensures var n := SequentialExecutor.ReselectExit(plan, s, stage, a);
            && n.journal.settlements == s.journal.settlements && n.outputs == s.outputs
            && (n.state == Running ==> OfPlan(plan, n.stages))
  {
    AfterFailedSale(plan, s, stage, a);
    BreakerOfPlan(plan);
  }

  lemma BreakerOfPlan(plan: Plan)
    requires PrefundedShape(plan)
    ensures OfPlan(plan, plan.circuitBreaker) && OfPlan(plan, plan.stages)
    ensures OfPlan(plan, Take(plan.stages, 1) + plan.circuitBreaker)
  {
    var all := AllStages(plan);
    assert all[0] == plan.stages[0] && all[1] == plan.stages[1] && all[2] == plan.stages[2] && all[3] == plan.stages[3] && all[4] == plan.circuitBreaker[0];
  }

  lemma ExecutionFeeds(plan: Plan, selector: bool, s: SequentialExecutor.Execution, a: SequentialExecutor.Answer)
    requires PrefundedShape(plan) && ExecutionFed(plan, s)
    ensures ExecutionFed(plan, SequentialExecutor.Iterate(plan, selector, s, a))
  {
    if s.state != Running || s.index >= |s.stages| { return; }
    var stage := s.stages[s.index];
    var input := ResolveInput(plan, stage, s.current, s.outputs, a.converted);
    if input.None? || !RequestOk(stage, input.value) { return; }
    ResolvedIsFed(plan, s.journal.settlements, stage, s.current, a.converted);
    var t := s.(calls := s.calls + [Call(stage, input.value, a.driven)]);
    match a.driven
    case Settled(actualIn, actualOut, proven) =>
      SettlementFeeds(plan, selector, t, Settlement(stage, input.value, actualIn, actualOut), proven, a);
    case Failed(d, costs, _, _) => FailureFeeds(plan, t, stage, d, costs, a);
  }

  lemma SettlementFeeds(plan: Plan, selector: bool, s: SequentialExecutor.Execution, x: Settlement, proven: bool, a: SequentialExecutor.Answer)
    requires PrefundedShape(plan) && s.state == Running && ExecutionFed(plan, s)
    requires x.stage in AllStages(plan) && x.input.token == x.stage.inputToken && FedBy(plan, s.journal.settlements, x.stage, x.input)
    ensures ExecutionFed(plan, SequentialExecutor.Settle(plan, selector, s, x, proven, a))
  {
    FedAppend(plan, s.journal.settlements, x);
    OutputsAppend(s.journal.settlements, x);
    var t := s.(journal := s.journal.(settlements := s.journal.settlements + [x]), current := x.actualOut,
                outputs := s.outputs[x.stage.ordinal := x.actualOut]);
    ChoiceOfPlan(plan, selector, t, x.stage, a);
  }

  lemma FailureFeeds(plan: Plan, s: SequentialExecutor.Execution, stage: Stage, d: Disposition, costs: Costs, a: SequentialExecutor.Answer)
    requires PrefundedShape(plan) && s.state == Running && ExecutionFed(plan, s)
    ensures ExecutionFed(plan, SequentialExecutor.Fail(plan, s, stage, d, costs, a))
  {
    if SequentialExecutor.CanRecoverSwap(plan, stage, d, SequentialExecutor.Attempts(s.attempts, stage.ordinal)) {
      RetryOfPlan(plan, s.(attempts := s.attempts[stage.ordinal := SequentialExecutor.Attempts(s.attempts, stage.ordinal) + 1]), stage, a);
    }
  }

  // ---------- the recovery ----------

  ghost predicate RecoveryFed(plan: Plan, s: Recovery) {
    Fed(plan, s.journal.settlements) && (s.phase == Looping ==> s.outputs == Outputs(s.journal.settlements) && OfPlan(plan, s.stages))
  }

  lemma SelectionFeeds(plan: Plan, s: Recovery, a: Answer)
    requires PrefundedShape(plan) && RecoveryFed(plan, s) && s.outputs == Outputs(s.journal.settlements)
    ensures var (t, ok) := SelectPrefunded(plan, s, a); RecoveryFed(plan, if ok then t else Block(t, a))
  {
    BreakerOfPlan(plan);
  }

  lemma TurnFeeds(plan: Plan, s: Recovery, a: Answer)
    requires PrefundedShape(plan) && RecoveryFed(plan, s)
    ensures RecoveryFed(plan, Turn(plan, s, a))
  {
    if s.phase != Looping { return; }
    NextOfPlan(plan, s.stages, s.settled);
    var next := NextUnsettled(s.stages, s.settled);
    if next.None? { return; }
    var input := ResolveRecoveryInput(plan, next.value, s.current, s.outputs, a.converted);
    if input.None? { return; }
    ResolvedIsFed(plan, s.journal.settlements, next.value, s.current, a.converted);
    var t := s.(calls := s.calls + [Call(next.value, input.value, a.driven)]);
    match a.driven
    case Settled(actualIn, actualOut, proven) => RecoverySettles(plan, t, Settlement(next.value, input.value, actualIn, actualOut), proven, a);
    case Failed(_, _, _, _) => FailOutcomes(plan, t, next.value, a.driven, a); SelectionFeeds(plan, t, a);
  }

  lemma RecoverySettles(plan: Plan, s: Recovery, x: Settlement, proven: bool, a: Answer)
    requires PrefundedShape(plan) && RecoveryFed(plan, s) && s.phase == Looping && x.stage in AllStages(plan)
    requires x.input.token == x.stage.inputToken ==> FedBy(plan, s.journal.settlements, x.stage, x.input)
    ensures RecoveryFed(plan, Settle(plan, s, x, proven, a))
  {
    SettleOutcomes(plan, s, x, proven, a);
    if x.input.token == x.stage.inputToken { FedAppend(plan, s.journal.settlements, x); }
    OutputsAppend(s.journal.settlements, x);
  }

  lemma {:induction false} NextOfPlan(plan: Plan, stages: seq<Stage>, settled: set<int>)
    requires OfPlan(plan, stages)
    ensures NextUnsettled(stages, settled).Some? ==> NextUnsettled(stages, settled).value in AllStages(plan)
  {
    if |stages| > 0 && stages[0].ordinal in settled {
      forall i | 0 <= i < |stages[1..]| ensures stages[1..][i] in AllStages(plan) { assert stages[1..][i] == stages[i + 1]; }
      NextOfPlan(plan, stages[1..], settled);
    }
  }

  lemma ResumeFeeds(plan: Plan, j: Journal, a: Answer)
    requires PrefundedShape(plan) && Fed(plan, j.settlements)
    ensures RecoveryFed(plan, Resume(plan, j, a))
  {
    ResumeOutcomes(plan, j, a);
    BreakerOfPlan(plan);
    SelectionFeeds(plan, Load(plan, j).(stages := plan.stages), a);
  }

  // ---------- across crashes ----------

  ghost predicate ProcessFed(plan: Plan, p: Process) {
    match p
    case Executing(s) => ExecutionFed(plan, s)
    case Down(j) => Fed(plan, j.settlements)
    case Resumed(s) => RecoveryFed(plan, s)
  }

  lemma {:induction false} ProcessStaysFed(plan: Plan, selector: bool, events: seq<Event>)
    requires PrefundedShape(plan)
    ensures ProcessFed(plan, RunAll(plan, selector, events))
  {
    if |events| == 0 {
      BreakerOfPlan(plan);
    } else {
      var p := RunAll(plan, selector, events[..|events| - 1]);
      ProcessStaysFed(plan, selector, events[..|events| - 1]);
      match events[|events| - 1]
      case ExecutorTurn(a) => if p.Executing? { ExecutionFeeds(plan, selector, p.execution, a); }
      case Crash =>
      case Resumption(a) => if p.Down? && Resumable(p.journal) { ResumeFeeds(plan, p.journal, a); }
      case RecoveryTurn(a) => if p.Resumed? { TurnFeeds(plan, p.recovery, a); }
    }
  }

  /** Whatever crashes: the buy consumed the initial input; the sale, the base
      bridge and the origin sale each consumed what the buy yielded, and the
      quote bridge what the sale yielded, converted only to another token. */
  lemma InputsAcrossCrashes(plan: Plan, selector: bool, events: seq<Event>, i: nat)
    requires PrefundedShape(plan) && i < |Durable(RunAll(plan, selector, events)).settlements|
    ensures var ss := Durable(RunAll(plan, selector, events)).settlements;
            var x := ss[i];
            && x.input.token == x.stage.inputToken
            && (x.stage.ordinal == 1 ==> x.input == plan.initialInput)
            && (x.stage.ordinal != 1 ==>
                exists k :: 0 <= k < i && ss[k].stage.ordinal == (if x.stage.ordinal == 4 then 2 else 1) && Feeds(ss[k], x.stage, x.input))
  {
    ProcessStaysFed(plan, selector, events);
    ProcessKeeps(plan, selector, events);
    var ss := Durable(RunAll(plan, selector, events)).settlements;
    assert FedAt(plan, ss, i) && ss[i].stage in AllStages(plan);
    StagesRefer(plan, ss[i].stage);
    OrdinalsOfPlan(plan, ss[i].stage);
    if ss[i].stage.inputFrom != 0 {
      var k :| 0 <= k < |ss[..i]| && Feeds(ss[..i][k], ss[i].stage, ss[i].input);
      assert ss[k] == ss[..i][k];
    }
  }

  lemma OrdinalsOfPlan(plan: Plan, stage: Stage)
    requires PrefundedShape(plan) && stage in AllStages(plan)
    ensures 1 <= stage.ordinal <= 5
  {
  }
}
