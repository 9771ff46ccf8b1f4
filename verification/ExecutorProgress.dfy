/** When a sequential run goes on, is completed, is aborted, tries a sale again
    or is handed to an operator. */
module ExecutorProgress {
  import opened Common
  import opened SequentialPlan
  import opened SagaJournal
  import opened SequentialExecutor
  import opened ExecutorLaws

  // ---------- one turn ----------

  /** The stage that is driven next, if the run is not over. */
  function Ahead(s: Execution): Option<Stage> {
    if s.state == Running && s.index < |s.stages| then Some(s.stages[s.index]) else None
  }

  /** The driver settles the stage in order and the store takes it down. */
  predicate Settles(stage: Stage, a: Answer) {
    && a.driven.Settled? && a.driven.proven && a.settlementWrite == Written
    && a.driven.actualIn.units != 0 && a.driven.actualIn.token == stage.inputToken
    && a.driven.actualOut.units != 0 && a.driven.actualOut.token == stage.outputToken
  }

  /** An exit is decided, with evidence, and the store takes it down. */
  predicate Decides(a: Answer) { a.decision.Some? && a.decision.value.complete && a.decisionWrite == Written }

  /** The exit first decided can be taken. */
  predicate DecidesFirst(plan: Plan, a: Answer) {
    Decides(a) && (plan.policy == Transported && a.decision.value.route == ReturnToOrigin ==> ReturnExitStages(plan).Some?)
  }

  /** The exit decided after a failed sale can be taken. */
  predicate DecidesAgain(plan: Plan, a: Answer) {
    Decides(a) && (a.decision.value.route == ReturnToOrigin ==> plan.policy == Transported && ReturnExitStages(plan).Some?)
  }

  /** The stage has an input it can be driven with. */
  predicate Fed(plan: Plan, s: Execution, stage: Stage, a: Answer) {
    var input := ResolveInput(plan, stage, s.current, s.outputs, a.converted);
    input.Some? && RequestOk(stage, input.value)
  }

  /** The first exit is chosen after this stage. */
  predicate ChoosesAfter(plan: Plan, selector: bool, stage: Stage) {
    || (plan.policy == PrefundedSequential && stage.ordinal == 1)
    || (plan.policy == Transported && stage.ordinal == 2 && selector)
  }

  /** The exits are compared again after this sale definitely failed. */
  predicate ComparesAfter(plan: Plan, stage: Stage) {
    (plan.policy == PrefundedSequential && stage.ordinal == 2) || stage.ordinal == 3
  }

  /** This sale has not failed before. */
  predicate FirstFailure(calls: seq<Call>, o: int) {
    forall i :: 0 <= i < |calls| ==> !(calls[i].stage.ordinal == o && calls[i].outcome.Failed?)
  }

  /** What the loop remembers of attempts is what the calls show. */
  ghost predicate Remembers(s: Execution) {
    s.state == Running ==> forall o {:trigger Attempts(s.attempts, o)} :: Attempts(s.attempts, o) == 0 <==> FirstFailure(s.calls, o)
  }

  lemma FailureAppended(calls: seq<Call>, c: Call, o: int)
    ensures FirstFailure(calls + [c], o) <==> FirstFailure(calls, o) && !(c.stage.ordinal == o && c.outcome.Failed?)
  {
    if FirstFailure(calls + [c], o) {
      forall i | 0 <= i < |calls| ensures !(calls[i].stage.ordinal == o && calls[i].outcome.Failed?) { assert (calls + [c])[i] == calls[i]; }
      assert (calls + [c])[|calls|] == c;
    }
  }

  /** What an iteration does to calls and attempts. */
  lemma IterateCalls(plan: Plan, selector: bool, s: Execution, a: Answer)
    requires s.state == Running && Iterate(plan, selector, s, a).state == Running
    ensures var n := Iterate(plan, selector, s, a);
            && Ahead(s).Some?
            && (exists c: Call :: c.stage == Ahead(s).value && c.outcome == a.driven && n.calls == s.calls + [c])
            && n.attempts == (if a.driven.Settled? then s.attempts
                              else s.attempts[Ahead(s).value.ordinal := Attempts(s.attempts, Ahead(s).value.ordinal) + 1])
  {
    var stage := s.stages[s.index];
    var input := ResolveInput(plan, stage, s.current, s.outputs, a.converted);
    var c := Call(stage, input.value, a.driven);
    var t := s.(calls := s.calls + [c]);
    match a.driven
    case Settled(actualIn, actualOut, proven) => SettleCalls(plan, selector, t, Settlement(stage, input.value, actualIn, actualOut), proven, a);
    case Failed(d, costs, _, _) => FailCalls(plan, t, stage, d, costs, a);
  }

  lemma SettleCalls(plan: Plan, selector: bool, s: Execution, x: Settlement, proven: bool, a: Answer)
    ensures var n := SequentialExecutor.Settle(plan, selector, s, x, proven, a); n.calls == s.calls && n.attempts == s.attempts
  {
  }

  lemma FailCalls(plan: Plan, s: Execution, stage: Stage, d: Disposition, costs: Costs, a: Answer)
    requires s.state == Running
    ensures var n := SequentialExecutor.Fail(plan, s, stage, d, costs, a);
            && n.calls == s.calls
            && (n.state == Running ==> n.attempts == s.attempts[stage.ordinal := Attempts(s.attempts, stage.ordinal) + 1])
  {
    if CanRecoverSwap(plan, stage, d, Attempts(s.attempts, stage.ordinal)) {
      RetryCalls(plan, s.(attempts := s.attempts[stage.ordinal := Attempts(s.attempts, stage.ordinal) + 1]), stage, a);
    }
  }

  lemma RetryCalls(plan: Plan, s: Execution, stage: Stage, a: Answer)
    ensures var n := ReselectExit(plan, s, stage, a); n.calls == s.calls && n.attempts == s.attempts
  {
  }

  lemma IterateRemembers(plan: Plan, selector: bool, s: Execution, a: Answer)
    requires Remembers(s)
    ensures Remembers(Iterate(plan, selector, s, a))
  {
    var n := Iterate(plan, selector, s, a);
    if s.state == Running && n.state == Running {
      IterateCalls(plan, selector, s, a);
      var c: Call :| c.stage == Ahead(s).value && c.outcome == a.driven && n.calls == s.calls + [c];
      CallRemembers(s.attempts, s.calls, c, n.attempts);
    }
  }

  lemma CallRemembers(before: map<int, nat>, calls: seq<Call>, c: Call, after: map<int, nat>)
    requires forall o {:trigger Attempts(before, o)} :: Attempts(before, o) == 0 <==> FirstFailure(calls, o)
    requires after == if c.outcome.Settled? then before else before[c.stage.ordinal := Attempts(before, c.stage.ordinal) + 1]
    ensures forall o {:trigger Attempts(after, o)} :: Attempts(after, o) == 0 <==> FirstFailure(calls + [c], o)
  {
    forall o ensures Attempts(after, o) == 0 <==> FirstFailure(calls + [c], o) {
      FailureAppended(calls, c, o);
      assert Attempts(before, o) == 0 <==> FirstFailure(calls, o);
    }
  }

  lemma {:induction false} RunRemembers(plan: Plan, selector: bool, answers: seq<Answer>)
    ensures Remembers(RunExecution(plan, selector, answers))
  {
    if |answers| > 0 {
      RunRemembers(plan, selector, answers[..|answers| - 1]);
      IterateRemembers(plan, selector, RunExecution(plan, selector, answers[..|answers| - 1]), answers[|answers| - 1]);
    }
  }

  // ---------- how a turn ends ----------

  /** A sale that is tried again: it definitely failed, for the first time, its
      costs are taken down, and where the exits are compared again a usable one
      is decided. */
  predicate TriesAgain(plan: Plan, s: Execution, stage: Stage, a: Answer) {
    && a.driven.Failed? && Definitive(a.driven.disposition) && a.driven.costs != CostsNotRecorded
    && stage.kind == Sell && FirstFailure(s.calls, stage.ordinal)
    && (plan.policy == PrefundedSequential ==> stage.ordinal == 2)
    && (ComparesAfter(plan, stage) ==> DecidesAgain(plan, a))
  }

  /** A settled stage the run goes on from. */
  predicate GoesOn(plan: Plan, selector: bool, stage: Stage, a: Answer) {
    && Settles(stage, a)
    && (ChoosesAfter(plan, selector, stage) ==> DecidesFirst(plan, a))
  }

  /** A definite failure of the first stage, unless that is a sale to be tried
      again. */
  predicate GivesUp(plan: Plan, s: Execution, stage: Stage, a: Answer) {
    && a.driven.Failed? && Definitive(a.driven.disposition) && a.driven.costs != CostsNotRecorded
    && stage.ordinal == 1 && (stage.kind == Sell ==> plan.policy == PrefundedSequential || !FirstFailure(s.calls, 1))
  }

  /** How a turn of a running execution ends, in every case: with nothing ahead,
      completed if accounted for; otherwise it goes on with a settled stage, or
      tries a sale again, or aborts at the first stage; all else is for an
      operator. */
  lemma TurnEnds(plan: Plan, selector: bool, answers: seq<Answer>, a: Answer)
    requires RunExecution(plan, selector, answers).state == Running
    requires plan.policy == PrefundedSequential || plan.policy == Transported
    ensures var s := RunExecution(plan, selector, answers);
            var n := Iterate(plan, selector, s, a);
            && (n.state == Completed <==> Ahead(s).None? && a.accounted)
            && (n.state == Running <==>
                && Ahead(s).Some? && Fed(plan, s, Ahead(s).value, a)
                && (GoesOn(plan, selector, Ahead(s).value, a) || TriesAgain(plan, s, Ahead(s).value, a)))
            && (n.state == Aborted <==> Ahead(s).Some? && Fed(plan, s, Ahead(s).value, a) && GivesUp(plan, s, Ahead(s).value, a))
            && n.state != Blocked
            && (n.state != Running ==> n.journal.state == if a.finishWrite == Lost then s.journal.state else n.state)
  {
    RunRemembers(plan, selector, answers);
    var s := RunExecution(plan, selector, answers);
    if Ahead(s).Some? && Fed(plan, s, Ahead(s).value, a) {
      var stage := s.stages[s.index];
      var input := ResolveInput(plan, stage, s.current, s.outputs, a.converted).value;
      var t := s.(calls := s.calls + [Call(stage, input, a.driven)]);
      match a.driven
      case Settled(actualIn, actualOut, proven) =>
        SettleEnds(plan, selector, t, Settlement(stage, input, actualIn, actualOut), proven, a);
      case Failed(d, costs, _, _) =>
        assert Attempts(s.attempts, stage.ordinal) == 0 <==> FirstFailure(s.calls, stage.ordinal);
        FailEnds(plan, t, stage, d, costs, a);
    }
  }

  lemma ChooseEnds(plan: Plan, selector: bool, s: Execution, stage: Stage, a: Answer)
    requires s.state == Running && (plan.policy == PrefundedSequential || plan.policy == Transported)
    ensures var n := ChooseExit(plan, selector, s, stage, a);
            && (n.state == Running <==> (ChoosesAfter(plan, selector, stage) ==> DecidesFirst(plan, a)))
            && (n.state != Running ==> n.state == Manual && n.journal.state == if a.finishWrite == Lost then s.journal.state else Manual)
  {
  }

  lemma SettleEnds(plan: Plan, selector: bool, s: Execution, x: Settlement, proven: bool, a: Answer)
    requires s.state == Running && (plan.policy == PrefundedSequential || plan.policy == Transported)
    requires a.driven == Settled(x.actualIn, x.actualOut, proven) && RequestOk(x.stage, x.input)
    ensures var n := SequentialExecutor.Settle(plan, selector, s, x, proven, a);
            && (n.state == Running <==> GoesOn(plan, selector, x.stage, a))
            && (n.state != Running ==> n.state == Manual && n.journal.state == if a.finishWrite == Lost then s.journal.state else Manual)
  {
    var j := s.journal.(settlements := s.journal.settlements + [x]);
    ChooseEnds(plan, selector, s.(journal := j, current := x.actualOut, outputs := s.outputs[x.stage.ordinal := x.actualOut]), x.stage, a);
  }

  lemma RetryEnds(plan: Plan, s: Execution, stage: Stage, a: Answer)
    requires s.state == Running && (plan.policy == PrefundedSequential || plan.policy == Transported)
    requires plan.policy == PrefundedSequential ==> stage.ordinal == 2
    ensures var n := ReselectExit(plan, s, stage, a);
            && (n.state == Running <==> (ComparesAfter(plan, stage) ==> DecidesAgain(plan, a)))
            && (n.state != Running ==> n.state == Manual && n.journal.state == if a.finishWrite == Lost then s.journal.state else Manual)
  {
  }

  lemma FailEnds(plan: Plan, s: Execution, stage: Stage, d: Disposition, costs: Costs, a: Answer)
    requires s.state == Running && (plan.policy == PrefundedSequential || plan.policy == Transported)
    ensures var n := SequentialExecutor.Fail(plan, s, stage, d, costs, a);
            var sale := stage.kind == Sell && Attempts(s.attempts, stage.ordinal) == 0 && (plan.policy == PrefundedSequential ==> stage.ordinal == 2);
            && (n.state == Running <==>
                Definitive(d) && costs != CostsNotRecorded && sale && (ComparesAfter(plan, stage) ==> DecidesAgain(plan, a)))
            && (n.state == Aborted <==> Definitive(d) && costs != CostsNotRecorded && stage.ordinal == 1 && !sale)
            && (n.state == Running || n.state == Aborted || n.state == Manual)
            && (n.state != Running ==> n.journal.state == if a.finishWrite == Lost then s.journal.state else n.state)
  {
    RetryEndsIf(plan, s, stage, d, a);
  }

  lemma RetryEndsIf(plan: Plan, s: Execution, stage: Stage, d: Disposition, a: Answer)
    requires s.state == Running && (plan.policy == PrefundedSequential || plan.policy == Transported)
    ensures CanRecoverSwap(plan, stage, d, Attempts(s.attempts, stage.ordinal)) ==>
              var n := ReselectExit(plan, s.(attempts := s.attempts[stage.ordinal := Attempts(s.attempts, stage.ordinal) + 1]), stage, a);
              && (n.state == Running <==> (ComparesAfter(plan, stage) ==> DecidesAgain(plan, a)))
              && (n.state != Running ==> n.state == Manual && n.journal.state == if a.finishWrite == Lost then s.journal.state else Manual)
  {
    if CanRecoverSwap(plan, stage, d, Attempts(s.attempts, stage.ordinal)) {
      RetryEnds(plan, s.(attempts := s.attempts[stage.ordinal := Attempts(s.attempts, stage.ordinal) + 1]), stage, a);
    }
  }

  // ---------- where a turn leads ----------

  /** The stages still to be driven. */
  function Rest(s: Execution): seq<Stage> { Drop(s.stages, s.index) }

  /** A settled stage leads to the next one, or to the exit decided after it. */
  lemma SettledLeadsTo(plan: Plan, selector: bool, s: Execution, a: Answer)
    requires s.state == Running && Ahead(s).Some? && Iterate(plan, selector, s, a).state == Running && a.driven.Settled?
    requires plan.policy == Transported && Ahead(s).value.ordinal == 2 ==> s.index == 1
    ensures var stage, n := Ahead(s).value, Iterate(plan, selector, s, a);
            && (!ChoosesAfter(plan, selector, stage) ==> Rest(n) == Rest(s)[1..] && n.journal.decision == s.journal.decision)
            && (ChoosesAfter(plan, selector, stage) ==> a.decision.Some? && n.journal.decision == Some(a.decision.value.route))
            && (ChoosesAfter(plan, selector, stage) && plan.policy == PrefundedSequential ==>
                  Rest(n) == if a.decision.value.route == SellAtOrigin then plan.circuitBreaker else Rest(s)[1..])
            && (ChoosesAfter(plan, selector, stage) && plan.policy == Transported ==>
                  if a.decision.value.route == ReturnToOrigin then Some(Rest(n)) == ReturnExitStages(plan) else Rest(n) == Rest(s)[1..])
  {
    var stage := s.stages[s.index];
    var input := ResolveInput(plan, stage, s.current, s.outputs, a.converted).value;
    var t := s.(calls := s.calls + [Call(stage, input, a.driven)]);
    var x := Settlement(stage, input, a.driven.actualIn, a.driven.actualOut);
    var j := s.journal.(settlements := s.journal.settlements + [x]);
    ChoiceLeadsTo(plan, selector, t.(journal := j, current := x.actualOut, outputs := s.outputs[stage.ordinal := x.actualOut]), stage, a);
  }

  lemma ChoiceLeadsTo(plan: Plan, selector: bool, s: Execution, stage: Stage, a: Answer)
    requires s.state == Running && s.index < |s.stages| && ChooseExit(plan, selector, s, stage, a).state == Running
    requires plan.policy == Transported && stage.ordinal == 2 ==> s.index == 1
    ensures var n := ChooseExit(plan, selector, s, stage, a);
            && (!ChoosesAfter(plan, selector, stage) ==> Rest(n) == Rest(s)[1..] && n.journal.decision == s.journal.decision)
            && (ChoosesAfter(plan, selector, stage) ==> a.decision.Some? && n.journal.decision == Some(a.decision.value.route))
            && (ChoosesAfter(plan, selector, stage) && plan.policy == PrefundedSequential ==>
                  Rest(n) == if a.decision.value.route == SellAtOrigin then plan.circuitBreaker else Rest(s)[1..])
            && (ChoosesAfter(plan, selector, stage) && plan.policy == Transported ==>
                  if a.decision.value.route == ReturnToOrigin then Some(Rest(n)) == ReturnExitStages(plan) else Rest(n) == Rest(s)[1..])
  {
    ChoiceStages(plan, selector, s, stage, a);
    DropsAfter(s.stages, s.index, plan.circuitBreaker);
    if ReturnExitStages(plan).Some? { DropsAfter(s.stages, s.index, ReturnExitStages(plan).value); }
  }

  lemma ChoiceStages(plan: Plan, selector: bool, s: Execution, stage: Stage, a: Answer)
    requires s.state == Running && ChooseExit(plan, selector, s, stage, a).state == Running
    ensures var n := ChooseExit(plan, selector, s, stage, a);
            && n.index == s.index + 1
            && (!ChoosesAfter(plan, selector, stage) ==> n.stages == s.stages && n.journal.decision == s.journal.decision)
            && (ChoosesAfter(plan, selector, stage) ==> a.decision.Some? && n.journal.decision == Some(a.decision.value.route))
            && (ChoosesAfter(plan, selector, stage) && plan.policy == PrefundedSequential ==>
                  n.stages == if a.decision.value.route == SellAtOrigin then Take(s.stages, s.index + 1) + plan.circuitBreaker else s.stages)
            && (ChoosesAfter(plan, selector, stage) && plan.policy == Transported ==>
                  if a.decision.value.route == ReturnToOrigin
                  then ReturnExitStages(plan).Some? && n.stages == Take(s.stages, 2) + ReturnExitStages(plan).value
                  else n.stages == s.stages)
  {
  }

  lemma DropsAfter(stages: seq<Stage>, index: nat, other: seq<Stage>)
    requires index < |stages|
    ensures Drop(stages, index + 1) == Drop(stages, index)[1..]
    ensures Drop(Take(stages, index + 1) + other, index + 1) == other
  {
  }

  /** A sale tried again comes once more right away, at the exit decided: a
      prefunded plan's at the destination or at the origin, a transported plan's
      third stage of either exit; a sale at the origin just once more. */
  lemma FailedLeadsTo(plan: Plan, selector: bool, s: Execution, a: Answer)
    requires s.state == Running && Ahead(s).Some? && Iterate(plan, selector, s, a).state == Running && a.driven.Failed?
    requires plan.policy == Transported && Ahead(s).value.ordinal == 3 ==> s.index == 2
    requires |plan.stages| == 4 && (plan.policy == PrefundedSequential || plan.policy == Transported)
    ensures var stage, n := Ahead(s).value, Iterate(plan, selector, s, a);
            && n.journal.settlements == s.journal.settlements
            && (!ComparesAfter(plan, stage) ==> Rest(n) == Rest(s))
            && (plan.policy == PrefundedSequential ==>
                  a.decision.Some? && Rest(n) == if a.decision.value.route == SellAtOrigin then plan.circuitBreaker else plan.stages[1..])
            && (plan.policy == Transported && stage.ordinal == 3 ==>
                  a.decision.Some? && if a.decision.value.route == ReturnToOrigin then Some(Rest(n)) == ReturnExitStages(plan) else Rest(n) == plan.stages[2..])
  {
    var stage := s.stages[s.index];
    var input := ResolveInput(plan, stage, s.current, s.outputs, a.converted).value;
    var t := s.(calls := s.calls + [Call(stage, input, a.driven)]);
    assert CanRecoverSwap(plan, stage, a.driven.disposition, Attempts(t.attempts, stage.ordinal));
    RetryLeadsTo(plan, t.(attempts := t.attempts[stage.ordinal := Attempts(t.attempts, stage.ordinal) + 1]), stage, a);
  }

  lemma RetryLeadsTo(plan: Plan, s: Execution, stage: Stage, a: Answer)
    requires s.state == Running && ReselectExit(plan, s, stage, a).state == Running && |plan.stages| == 4
    requires plan.policy == PrefundedSequential ==> stage.ordinal == 2
    requires plan.policy == PrefundedSequential || plan.policy == Transported
    requires plan.policy == Transported && stage.ordinal == 3 ==> s.index == 2 < |s.stages|
    ensures var n := ReselectExit(plan, s, stage, a);
            && n.journal.settlements == s.journal.settlements
            && (!ComparesAfter(plan, stage) ==> Rest(n) == Rest(s))
            && (plan.policy == PrefundedSequential ==>
                  a.decision.Some? && Rest(n) == if a.decision.value.route == SellAtOrigin then plan.circuitBreaker else plan.stages[1..])
            && (plan.policy == Transported && stage.ordinal == 3 ==>
                  a.decision.Some? && if a.decision.value.route == ReturnToOrigin then Some(Rest(n)) == ReturnExitStages(plan) else Rest(n) == plan.stages[2..])
  {
    if ComparesAfter(plan, stage) && plan.policy == Transported {
      DropsAfter(s.stages, 1, plan.stages[2..]);
      if ReturnExitStages(plan).Some? { DropsAfter(s.stages, 1, ReturnExitStages(plan).value); }
      assert Drop(plan.stages, 2) == plan.stages[2..];
    }
  }

  // ---------- whole runs ----------

  /** What a settled turn leaves behind. */
  lemma SettledRecords(plan: Plan, selector: bool, s: Execution, a: Answer)
    requires s.state == Running && Ahead(s).Some? && Iterate(plan, selector, s, a).state == Running && a.driven.Settled?
    ensures var stage, n := Ahead(s).value, Iterate(plan, selector, s, a);
            && n.outputs == s.outputs[stage.ordinal := a.driven.actualOut]
            && exists input :: n.journal.settlements == s.journal.settlements + [Settlement(stage, input, a.driven.actualIn, a.driven.actualOut)]
  {
    var stage := s.stages[s.index];
    var input := ResolveInput(plan, stage, s.current, s.outputs, a.converted).value;
    var t := s.(calls := s.calls + [Call(stage, input, a.driven)]);
    var x := Settlement(stage, input, a.driven.actualIn, a.driven.actualOut);
    var j := s.journal.(settlements := s.journal.settlements + [x]);
    ChoiceRecords(plan, selector, t.(journal := j, current := x.actualOut, outputs := s.outputs[stage.ordinal := x.actualOut]), stage, a);
  }

  lemma ChoiceRecords(plan: Plan, selector: bool, s: Execution, stage: Stage, a: Answer)
    ensures var n := ChooseExit(plan, selector, s, stage, a);
            n.outputs == s.outputs && n.journal.settlements == s.journal.settlements
  {
  }

  /** The settlement is the one the driver reported for the stage. */
  predicate Reported(x: Settlement, stage: Stage, a: Answer) {
    x.stage == stage && a.driven.Settled? && x.actualIn == a.driven.actualIn && x.actualOut == a.driven.actualOut
  }

  /** As many stages of the route are settled as there were answers, each as it
      was reported. */
  ghost predicate SettledAlong(s: Execution, route: seq<Stage>, answers: seq<Answer>) {
    && s.state == Running && |answers| <= |route| && Rest(s) == route[|answers|..]
    && |s.journal.settlements| == |answers|
    && (forall i {:trigger Reported(s.journal.settlements[i], route[i], answers[i])} :: 0 <= i < |answers| ==>
          Reported(s.journal.settlements[i], route[i], answers[i]))
    && (forall i {:trigger route[i].ordinal in s.outputs} :: 0 <= i < |answers| ==>
          route[i].ordinal in s.outputs && answers[i].driven.Settled? && s.outputs[route[i].ordinal] == answers[i].driven.actualOut)
  }

  lemma AlongNext(plan: Plan, selector: bool, s: Execution, route: seq<Stage>, answers: seq<Answer>, a: Answer)
    requires SettledAlong(s, route, answers) && |answers| < |route| && DistinctOrdinals(route)
    requires a.driven.Settled? && Iterate(plan, selector, s, a).state == Running
    ensures var n := Iterate(plan, selector, s, a);
            && |n.journal.settlements| == |answers| + 1
            && (forall i :: 0 <= i <= |answers| ==> Reported(n.journal.settlements[i], route[i], (answers + [a])[i]))
            && (forall i {:trigger route[i].ordinal in n.outputs} :: 0 <= i <= |answers| ==>
                  route[i].ordinal in n.outputs && (answers + [a])[i].driven.Settled?
                  && n.outputs[route[i].ordinal] == (answers + [a])[i].driven.actualOut)
  {
    AheadOnRoute(s, route, |answers|);
    SettledRecords(plan, selector, s, a);
    var n := Iterate(plan, selector, s, a);
    forall i | 0 <= i <= |answers| ensures Reported(n.journal.settlements[i], route[i], (answers + [a])[i]) {
      assert i < |answers| ==> Reported(s.journal.settlements[i], route[i], answers[i]);
    }
  }

  lemma AheadOnRoute(s: Execution, route: seq<Stage>, k: nat)
    requires s.state == Running && k <= |route| && Rest(s) == route[k..]
    ensures Ahead(s) == if k < |route| then Some(route[k]) else None
  {
    if k < |route| { assert Rest(s)[0] == route[k]; }
  }

  // ---------- prefunded ----------

  /** The route the first answer decides. */
  function PrefundedRoute(plan: Plan, answers: seq<Answer>): seq<Stage> {
    if |answers| > 0 && answers[0].decision.Some? && answers[0].decision.value.route == SellAtOrigin
    then Take(plan.stages, 1) + plan.circuitBreaker else plan.stages
  }

  /** Where the tokens differ, the output a stage consumes can be converted. */
  predicate Converts(plan: Plan, stage: Stage, a: Answer) {
    1 <= stage.inputFrom <= |plan.stages| && plan.stages[stage.inputFrom - 1].outputToken != stage.inputToken ==>
      a.converted.Some? && a.converted.value.units != 0 && a.converted.value.token == stage.inputToken
  }

  /** Every answer settles its stage of the route, and the exit is decided. */
  ghost predicate AllSettle(plan: Plan, route: seq<Stage>, answers: seq<Answer>) {
    && |answers| <= |route|
    && (|answers| > 0 ==> Decides(answers[0]))
    && forall i {:trigger answers[i]} :: 0 <= i < |answers| ==> Settles(route[i], answers[i]) && Converts(plan, route[i], answers[i])
  }

  lemma RouteStages(plan: Plan, answers: seq<Answer>)
    requires PrefundedShape(plan) && PrefundedWaits(plan)
    ensures var route := PrefundedRoute(plan, answers);
            && DistinctOrdinals(route) && |route| >= 2 && route[0] == plan.stages[0] && route[0].ordinal == 1
            && (forall i :: 0 <= i < |route| ==> StageOk(route[i]) && (i > 0 ==> route[i].ordinal != 1))
            && (route == plan.stages || (|route| == 2 && route[1] == plan.circuitBreaker[0]))
  {
    var all := AllStages(plan);
    assert all[0] == plan.stages[0] && all[1] == plan.stages[1] && all[2] == plan.stages[2] && all[3] == plan.stages[3] && all[4] == plan.circuitBreaker[0];
    assert StageOk(all[0]) && StageOk(all[1]) && StageOk(all[2]) && StageOk(all[3]) && StageOk(all[4]);
  }

  /** A stage whose dependencies are settled, and that consumes an output or its
      conversion, can be driven. */
  lemma OutputFeeds(plan: Plan, s: Execution, stage: Stage, a: Answer)
    requires !DualInventory(plan) && StageOk(stage) && stage.inputFrom != 0 && stage.inputFrom in s.outputs
    requires forall i :: 0 <= i < |stage.dependsOn| ==> stage.dependsOn[i] in s.outputs
    requires s.outputs[stage.inputFrom].units != 0
    requires s.outputs[stage.inputFrom].token != stage.inputToken ==>
               a.converted.Some? && a.converted.value.units != 0 && a.converted.value.token == stage.inputToken
    ensures Fed(plan, s, stage, a)
  {
  }

  lemma BuyFed(plan: Plan, s: Execution, a: Answer)
    requires PrefundedShape(plan) && plan.initialInput.token == plan.stages[0].inputToken
    ensures Fed(plan, s, plan.stages[0], a)
  {
    assert AllStages(plan)[0] == plan.stages[0] && StageOk(AllStages(plan)[0]);
  }

  /** What is settled of the route is there to be consumed. */
  lemma SettledFeeds(plan: Plan, s: Execution, route: seq<Stage>, answers: seq<Answer>, i: nat)
    requires AllSettle(plan, route, answers) && SettledAlong(s, route, answers) && i < |answers|
    ensures route[i].ordinal in s.outputs && s.outputs[route[i].ordinal].units != 0 && s.outputs[route[i].ordinal].token == route[i].outputToken
  {
    assert Settles(route[i], answers[i]) && route[i].ordinal in s.outputs;
  }

  /** The next stage of the route can be driven. */
  lemma RouteFed(plan: Plan, s: Execution, route: seq<Stage>, answers: seq<Answer>, a: Answer)
    requires PrefundedShape(plan) && PrefundedWaits(plan)
    requires route == plan.stages || route == Take(plan.stages, 1) + plan.circuitBreaker
    requires 1 <= |answers| < |route| && AllSettle(plan, route, answers) && SettledAlong(s, route, answers) && Converts(plan, route[|answers|], a)
    ensures Fed(plan, s, route[|answers|], a)
  {
    var k := |answers|;
    var all := AllStages(plan);
    assert all[1] == plan.stages[1] && all[2] == plan.stages[2] && all[3] == plan.stages[3] && all[4] == plan.circuitBreaker[0];
    assert StageOk(all[1]) && StageOk(all[2]) && StageOk(all[3]) && StageOk(all[4]);
    SettledFeeds(plan, s, route, answers, 0);
    if k >= 2 { SettledFeeds(plan, s, route, answers, 1); }
    if k >= 3 { SettledFeeds(plan, s, route, answers, 2); }
    OutputFeeds(plan, s, route[k], a);
  }

  /** While every stage settles, a prefunded run goes along the decided route. */
  lemma {:induction false} PrefundedSettles(plan: Plan, selector: bool, answers: seq<Answer>)
    requires PrefundedShape(plan) && PrefundedWaits(plan) && plan.initialInput.token == plan.stages[0].inputToken
    requires AllSettle(plan, PrefundedRoute(plan, answers), answers)
    ensures SettledAlong(RunExecution(plan, selector, answers), PrefundedRoute(plan, answers), answers)
    ensures |answers| > 0 ==> RunExecution(plan, selector, answers).journal.decision == Some(answers[0].decision.value.route)
  {
    if |answers| > 0 {
      var front, a := answers[..|answers| - 1], answers[|answers| - 1];
      var route := PrefundedRoute(plan, answers);
      RouteStages(plan, answers);
      RouteStages(plan, front);
      assert answers == front + [a];
      assert forall i :: 0 <= i < |front| ==> front[i] == answers[i];
      PrefundedSettles(plan, selector, front);
      PrefundedNext(plan, selector, RunExecution(plan, selector, front), front, a);
    }
  }

  lemma PrefundedNext(plan: Plan, selector: bool, s: Execution, answers: seq<Answer>, a: Answer)
    requires PrefundedShape(plan) && PrefundedWaits(plan) && plan.initialInput.token == plan.stages[0].inputToken
    requires AllSettle(plan, PrefundedRoute(plan, answers + [a]), answers + [a])
    requires SettledAlong(s, PrefundedRoute(plan, answers), answers) && s.journal.decision == if |answers| > 0 then Some(answers[0].decision.value.route) else None
    ensures var n := Iterate(plan, selector, s, a);
            && SettledAlong(n, PrefundedRoute(plan, answers + [a]), answers + [a])
            && n.journal.decision == Some((answers + [a])[0].decision.value.route)
  {
    var k := |answers|;
    assert forall i :: 0 <= i < k ==> (answers + [a])[i] == answers[i];
    assert (answers + [a])[k] == a;
    if k == 0 { PrefundedFirst(plan, selector, s, a); } else { PrefundedLater(plan, selector, s, PrefundedRoute(plan, answers), answers, a); }
  }

  /** The buy, and the exit decided after it. */
  lemma PrefundedFirst(plan: Plan, selector: bool, s: Execution, a: Answer)
    requires PrefundedShape(plan) && PrefundedWaits(plan) && plan.initialInput.token == plan.stages[0].inputToken
    requires Settles(plan.stages[0], a) && Decides(a) && SettledAlong(s, plan.stages, [])
    ensures var n := Iterate(plan, selector, s, a);
            SettledAlong(n, PrefundedRoute(plan, [a]), [a]) && n.journal.decision == Some(a.decision.value.route)
  {
    var n := Iterate(plan, selector, s, a);
    AheadOnRoute(s, plan.stages, 0);
    BuyFed(plan, s, a);
    GoesOnRuns(plan, selector, s, a);
    SettledLeadsTo(plan, selector, s, a);
    SettledRecords(plan, selector, s, a);
    assert Rest(s) == plan.stages;
    assert Rest(n) == PrefundedRoute(plan, [a])[1..];
    assert Reported(n.journal.settlements[0], plan.stages[0], a);
  }

  lemma PrefundedLater(plan: Plan, selector: bool, s: Execution, route: seq<Stage>, answers: seq<Answer>, a: Answer)
    requires PrefundedShape(plan) && PrefundedWaits(plan) && route == PrefundedRoute(plan, answers)
    requires AllSettle(plan, route, answers + [a]) && SettledAlong(s, route, answers) && |answers| >= 1
    ensures var n := Iterate(plan, selector, s, a);
            SettledAlong(n, route, answers + [a]) && n.journal.decision == s.journal.decision
  {
    PrefundedStep(plan, selector, s, route, answers, a);
    AlongOn(plan, selector, s, route, answers, a);
  }

  lemma AlongOn(plan: Plan, selector: bool, s: Execution, route: seq<Stage>, answers: seq<Answer>, a: Answer)
    requires SettledAlong(s, route, answers) && |answers| < |route| && DistinctOrdinals(route) && a.driven.Settled?
    requires Iterate(plan, selector, s, a).state == Running && Rest(Iterate(plan, selector, s, a)) == route[|answers| + 1..]
    ensures SettledAlong(Iterate(plan, selector, s, a), route, answers + [a])
  {
    AlongNext(plan, selector, s, route, answers, a);
    AlongRoute(Iterate(plan, selector, s, a), route, route, answers, a);
  }

  lemma PrefundedStep(plan: Plan, selector: bool, s: Execution, route: seq<Stage>, answers: seq<Answer>, a: Answer)
    requires PrefundedShape(plan) && PrefundedWaits(plan) && route == PrefundedRoute(plan, answers)
    requires AllSettle(plan, route, answers + [a]) && SettledAlong(s, route, answers) && |answers| >= 1
    ensures var n := Iterate(plan, selector, s, a);
            && n.state == Running && Rest(n) == route[|answers| + 1..] && n.journal.decision == s.journal.decision
            && a.driven.Settled? && DistinctOrdinals(route)
  {
    RouteStages(plan, answers);
    SettlePrefix(plan, route, answers, a);
    RouteFed(plan, s, route, answers, a);
    AheadOnRoute(s, route, |answers|);
    GoesOnRuns(plan, selector, s, a);
    SettledLeadsTo(plan, selector, s, a);
  }

  lemma SettlePrefix(plan: Plan, route: seq<Stage>, answers: seq<Answer>, a: Answer)
    requires AllSettle(plan, route, answers + [a])
    ensures AllSettle(plan, route, answers) && Settles(route[|answers|], a) && Converts(plan, route[|answers|], a)
  {
    var all := answers + [a];
    assert all[|answers|] == a;
    forall i {:trigger answers[i]} | 0 <= i < |answers| ensures Settles(route[i], answers[i]) && Converts(plan, route[i], answers[i]) {
      assert all[i] == answers[i];
    }
    if |answers| > 0 { assert all[0] == answers[0]; }
  }

  /** A settled stage that can be driven keeps the run going. */
  lemma GoesOnRuns(plan: Plan, selector: bool, s: Execution, a: Answer)
    requires plan.policy == PrefundedSequential || plan.policy == Transported
    requires Ahead(s).Some? && Fed(plan, s, Ahead(s).value, a) && GoesOn(plan, selector, Ahead(s).value, a)
    ensures Iterate(plan, selector, s, a).state == Running
  {
    var stage := s.stages[s.index];
    var input := ResolveInput(plan, stage, s.current, s.outputs, a.converted).value;
    SettleEnds(plan, selector, s.(calls := s.calls + [Call(stage, input, a.driven)]),
               Settlement(stage, input, a.driven.actualIn, a.driven.actualOut), true, a);
  }

  /** A prefunded run all of whose stages settle is completed after its route,
      exactly if it is accounted for. */
  lemma PrefundedCompletes(plan: Plan, selector: bool, answers: seq<Answer>, last: Answer)
    requires PrefundedShape(plan) && PrefundedWaits(plan) && plan.initialInput.token == plan.stages[0].inputToken
    requires AllSettle(plan, PrefundedRoute(plan, answers), answers) && |answers| == |PrefundedRoute(plan, answers)|
    ensures var n := RunExecution(plan, selector, answers + [last]);
            && n.state == (if last.accounted then Completed else Manual)
            && Ordinals(n.journal.settlements) == (if answers[0].decision.value.route == SellAtOrigin then [1, 5] else [1, 2, 3, 4])
  {
    RouteOrdinals(plan, answers);
    PrefundedSettles(plan, selector, answers);
    RouteEnds(plan, selector, PrefundedRoute(plan, answers), answers, last);
  }

  lemma RouteOrdinals(plan: Plan, answers: seq<Answer>)
    requires PrefundedShape(plan)
    ensures StageOrdinals(PrefundedRoute(plan, answers)) ==
            if |answers| > 0 && answers[0].decision.Some? && answers[0].decision.value.route == SellAtOrigin then [1, 5] else [1, 2, 3, 4]
    ensures |PrefundedRoute(plan, answers)| > 0
  {
  }

  /** At the end of its route the run is completed, if it is accounted for. */
  lemma RouteEnds(plan: Plan, selector: bool, route: seq<Stage>, answers: seq<Answer>, last: Answer)
    requires |answers| == |route| && SettledAlong(RunExecution(plan, selector, answers), route, answers)
    ensures var n := RunExecution(plan, selector, answers + [last]);
            && n.state == (if last.accounted then Completed else Manual)
            && Ordinals(n.journal.settlements) == StageOrdinals(route)
  {
    var s := RunExecution(plan, selector, answers);
    AheadOnRoute(s, route, |answers|);
    assert (answers + [last])[..|answers|] == answers;
    assert RunExecution(plan, selector, answers + [last]) == Iterate(plan, selector, s, last);
    forall i | 0 <= i < |route| ensures s.journal.settlements[i].stage == route[i] {
      assert Reported(s.journal.settlements[i], route[i], answers[i]);
    }
  }

  // ---------- transported ----------

  /** The exit the second answer decides, if exits are compared. */
  function TransportedRoute(plan: Plan, selector: bool, answers: seq<Answer>): seq<Stage> {
    if selector && |answers| > 1 && answers[1].decision.Some? && answers[1].decision.value.route == ReturnToOrigin && ReturnExitStages(plan).Some?
    then Take(plan.stages, 2) + ReturnExitStages(plan).value else plan.stages
  }

  ghost predicate AllSettleInTurn(plan: Plan, selector: bool, route: seq<Stage>, answers: seq<Answer>) {
    && |answers| <= |route|
    && (selector && |answers| > 1 ==> Decides(answers[1]))
    && forall i {:trigger answers[i]} :: 0 <= i < |answers| ==> Settles(route[i], answers[i])
  }

  /** While every stage settles, a transported run goes along the decided exit. */
  lemma {:induction false} TransportedSettles(plan: Plan, selector: bool, answers: seq<Answer>)
    requires TransportedShape(plan) && AllSettleInTurn(plan, selector, TransportedRoute(plan, selector, answers), answers)
    ensures SettledAlong(RunExecution(plan, selector, answers), TransportedRoute(plan, selector, answers), answers)
  {
    if |answers| > 0 {
      var front, a := answers[..|answers| - 1], answers[|answers| - 1];
      ReturnExitCloses(plan);
      assert answers == front + [a];
      assert forall i :: 0 <= i < |front| ==> front[i] == answers[i];
      TransportedSettles(plan, selector, front);
      TransportedRun(plan, selector, front);
      TransportedNext(plan, selector, RunExecution(plan, selector, front), front, a);
    }
  }

  lemma TransportedRoutes(plan: Plan, selector: bool, answers: seq<Answer>)
    requires TransportedShape(plan)
    ensures var route := TransportedRoute(plan, selector, answers);
            && |route| == 4 && route[..2] == plan.stages[..2] && (forall i :: 0 <= i < 4 ==> route[i].ordinal == i + 1)
            && (|answers| <= 1 ==> route == plan.stages)
  {
    ReturnExitCloses(plan);
  }

  lemma TransportedNext(plan: Plan, selector: bool, s: Execution, answers: seq<Answer>, a: Answer)
    requires TransportedShape(plan) && Underway(plan, s)
    requires AllSettleInTurn(plan, selector, TransportedRoute(plan, selector, answers + [a]), answers + [a])
    requires SettledAlong(s, TransportedRoute(plan, selector, answers), answers)
    ensures SettledAlong(Iterate(plan, selector, s, a), TransportedRoute(plan, selector, answers + [a]), answers + [a])
  {
    var before, route, k := TransportedRoute(plan, selector, answers), TransportedRoute(plan, selector, answers + [a]), |answers|;
    TransportedRoutes(plan, selector, answers);
    TransportedRoutes(plan, selector, answers + [a]);
    assert (answers + [a])[k] == a && (k > 1 ==> (answers + [a])[1] == answers[1]);
    LastSettles(plan, selector, before, route, answers, a);
    TransportedStep(plan, selector, s, before, answers, a);
    TransportedAhead(plan, selector, s, answers, a);
    AlongNext(plan, selector, s, before, answers, a);
    AlongRoute(Iterate(plan, selector, s, a), before, route, answers, a);
  }

  lemma LastSettles(plan: Plan, selector: bool, before: seq<Stage>, route: seq<Stage>, answers: seq<Answer>, a: Answer)
    requires |answers| < |before| == |route| && |route| >= 2 && before[..2] == route[..2] && (|answers| > 1 ==> before == route)
    requires AllSettleInTurn(plan, selector, route, answers + [a])
    ensures Settles(before[|answers|], a) && (|answers| == 1 && selector ==> Decides(a))
    ensures |answers| > 0 ==> answers[|answers| - 1].driven.Settled? && answers[|answers| - 1].driven.actualOut.units != 0
  {
    var k := |answers|;
    assert (answers + [a])[k] == a;
    assert k < 2 ==> before[k] == before[..2][k] && route[k] == route[..2][k];
    if k > 0 { assert (answers + [a])[k - 1] == answers[k - 1] && Settles(route[k - 1], (answers + [a])[k - 1]); }
  }

  /** The next stage is driven with what the last one left. */
  lemma TransportedStep(plan: Plan, selector: bool, s: Execution, route: seq<Stage>, answers: seq<Answer>, a: Answer)
    requires TransportedShape(plan) && Underway(plan, s) && route == TransportedRoute(plan, selector, answers)
    requires |answers| < |route| && SettledAlong(s, route, answers) && Settles(route[|answers|], a)
    requires |answers| > 0 ==> answers[|answers| - 1].driven.Settled? && answers[|answers| - 1].driven.actualOut.units != 0
    requires |answers| == 1 && selector ==> Decides(a)
    ensures Ahead(s) == Some(route[|answers|]) && Iterate(plan, selector, s, a).state == Running && s.index == |answers|
  {
    AheadOnRoute(s, route, |answers|);
    RouteStagesOk(plan, selector, answers);
    ReturnExitCloses(plan);
    TakesCarried(plan, s, a.converted);
    if |answers| > 0 {
      var i := |answers| - 1;
      assert Reported(s.journal.settlements[i], route[i], answers[i]);
      assert LinkedAt(s.journal.settlements, s.stages, plan.initialInput, i);
    }
    GoesOnRuns(plan, selector, s, a);
  }

  lemma RouteStagesOk(plan: Plan, selector: bool, answers: seq<Answer>)
    requires TransportedShape(plan)
    ensures forall i :: 0 <= i < |TransportedRoute(plan, selector, answers)| ==> StageOk(TransportedRoute(plan, selector, answers)[i])
  {
    forall i | 0 <= i < 4 ensures StageOk(plan.stages[i]) { assert AllStages(plan)[i] == plan.stages[i]; }
  }

  /** And leads to the next stage of the exit decided by then. */
  lemma TransportedAhead(plan: Plan, selector: bool, s: Execution, answers: seq<Answer>, a: Answer)
    requires TransportedShape(plan) && SettledAlong(s, TransportedRoute(plan, selector, answers), answers) && s.index == |answers| < 4
    requires Ahead(s) == Some(TransportedRoute(plan, selector, answers)[|answers|])
    requires a.driven.Settled? && Iterate(plan, selector, s, a).state == Running
    ensures Rest(Iterate(plan, selector, s, a)) == TransportedRoute(plan, selector, answers + [a])[|answers| + 1..]
  {
    TransportedRoutes(plan, selector, answers);
    TransportedRoutes(plan, selector, answers + [a]);
    ReturnExitCloses(plan);
    SettledLeadsTo(plan, selector, s, a);
    assert (answers + [a])[|answers|] == a && (|answers| > 1 ==> (answers + [a])[1] == answers[1]);
  }

  /** The settled part of both routes is the same. */
  lemma AlongRoute(n: Execution, before: seq<Stage>, route: seq<Stage>, answers: seq<Answer>, a: Answer)
    requires |answers| < |before| == |route| && before[..|answers| + 1] == route[..|answers| + 1]
    requires n.state == Running && Rest(n) == route[|answers| + 1..] && |n.journal.settlements| == |answers| + 1
    requires forall i :: 0 <= i <= |answers| ==> Reported(n.journal.settlements[i], before[i], (answers + [a])[i])
    requires forall i {:trigger before[i].ordinal in n.outputs} :: 0 <= i <= |answers| ==>
               before[i].ordinal in n.outputs && (answers + [a])[i].driven.Settled?
               && n.outputs[before[i].ordinal] == (answers + [a])[i].driven.actualOut
    ensures SettledAlong(n, route, answers + [a])
  {
    forall i | 0 <= i <= |answers| ensures before[i] == route[i] {
      assert before[..|answers| + 1][i] == route[..|answers| + 1][i];
    }
  }

  /** A transported run all of whose stages settle is completed after its
      fourth, exactly if it is accounted for. */
  lemma TransportedCompletes(plan: Plan, selector: bool, answers: seq<Answer>, last: Answer)
    requires TransportedShape(plan) && |answers| == 4
    requires AllSettleInTurn(plan, selector, TransportedRoute(plan, selector, answers), answers)
    ensures var n := RunExecution(plan, selector, answers + [last]);
            && n.state == (if last.accounted then Completed else Manual)
            && Ordinals(n.journal.settlements) == [1, 2, 3, 4]
            && n.journal.settlements[2].stage.kind ==
               (if selector && answers[1].decision.value.route == ReturnToOrigin then BridgeBase else Sell)
  {
    var route := TransportedRoute(plan, selector, answers);
    TransportedRoutes(plan, selector, answers);
    ReturnExitCloses(plan);
    TransportedSettles(plan, selector, answers);
    RouteEnds(plan, selector, route, answers, last);
    LastKeepsSettlements(plan, selector, answers, last);
    assert StageOrdinals(route) == [1, 2, 3, 4];
    assert Reported(RunExecution(plan, selector, answers).journal.settlements[2], route[2], answers[2]);
  }

  lemma LastKeepsSettlements(plan: Plan, selector: bool, answers: seq<Answer>, last: Answer)
    requires Ahead(RunExecution(plan, selector, answers)).None?
    ensures RunExecution(plan, selector, answers + [last]).journal.settlements == RunExecution(plan, selector, answers).journal.settlements
  {
    assert (answers + [last])[..|answers|] == answers;
    assert RunExecution(plan, selector, answers + [last]) == Iterate(plan, selector, RunExecution(plan, selector, answers), last);
  }
}
