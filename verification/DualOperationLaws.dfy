/** What is durable of a dual-inventory operation from its start, across any
    crashes and resumes: never both sales, and one buy and one sale once it is
    complete. */
module DualOperationLaws {
  import opened Common
  import opened SequentialPlan
  import opened SagaJournal
  import opened SequentialRecovery
  import opened RecoveryLaws
  import opened DualInventoryLaws
  import ParallelExecutor

  /** An exit is only ever decided with the buy in, the origin sale with the sale
      not in, and only decided is it made. */
  predicate OneSale(plan: Plan, j: Journal) {
    var settled := SettledOrdinals(j.settlements);
    && (j.decision.Some? ==> 1 in settled)
    && (j.decision == Some(SellAtOrigin) ==> 1 in settled && 2 !in settled)
    && (BreakerOrdinal(plan) in settled ==> j.decision == Some(SellAtOrigin))
    && (j.state == Completed ==> BoughtAndSold(plan, settled))
    && (j.state == Aborted ==> NothingTraded(plan, settled))
  }

  predicate BoughtAndSold(plan: Plan, settled: set<int>) {
    1 in settled && (2 in settled <==> BreakerOrdinal(plan) !in settled)
  }

  predicate NothingTraded(plan: Plan, settled: set<int>) {
    1 !in settled && 2 !in settled && BreakerOrdinal(plan) !in settled
  }

  // ---------- the executor ----------

  predicate Undecided(plan: Plan, s: ParallelExecutor.Operation) {
    s.journal.decision == None && BreakerOrdinal(plan) !in SettledOrdinals(s.journal.settlements)
  }

  /** What the executor may leave: no exit decided, both legs in if it completed,
      neither if it aborted. */
  predicate ExecutionLeft(plan: Plan, j: Journal) {
    var settled := SettledOrdinals(j.settlements);
    && j.decision == None && BreakerOrdinal(plan) !in settled
    && (j.state == Completed ==> 1 in settled && 2 in settled)
    && (j.state == Aborted ==> 1 !in settled && 2 !in settled)
  }

  /** Recording one of the plan's own settlements. */
  lemma RecordUndecided(plan: Plan, s: ParallelExecutor.Operation, settlement: Settlement, proven: bool, write: Write)
    requires Undecided(plan, s) && settlement.stage.ordinal != BreakerOrdinal(plan)
    ensures var (t, ok) := ParallelExecutor.Record(s, settlement, proven, write);
            && Undecided(plan, t) && t.journal.state == s.journal.state && t.state == s.state
            && SettledOrdinals(s.journal.settlements) <= SettledOrdinals(t.journal.settlements)
            && (ok ==> settlement.stage.ordinal in SettledOrdinals(t.journal.settlements))
  {
    SettledAppend(s.journal.settlements, settlement);
  }

  lemma BreakerIsFifth(plan: Plan)
    requires Dual(plan)
    ensures BreakerOrdinal(plan) !in {1, 2, 3, 4} && forall i :: 0 <= i < 4 ==> plan.stages[i].ordinal == i + 1
  {
    var all := AllStages(plan);
    assert all[0].ordinal == 1 && all[1].ordinal == 2 && all[2].ordinal == 3 && all[3].ordinal == 4;
    assert all[4] == plan.circuitBreaker[0];
  }

  /** What is settled once the swaps are recorded: exactly theirs. */
  lemma {:induction false} SwapsRecorded(plan: Plan, sellInput: Amount, s: ParallelExecutor.Operation, swaps: seq<ParallelExecutor.Swap>)
    requires Dual(plan) && Undecided(plan, s)
    ensures var (t, ok) := ParallelExecutor.RecordSwaps(plan, sellInput, s, swaps);
            && Undecided(plan, t) && t.journal.state == s.journal.state && t.state == s.state
            && (ok ==> forall i :: 0 <= i < |swaps| ==> (if swaps[i].sale then 2 else 1) in SettledOrdinals(t.journal.settlements))
            && (|swaps| == 0 ==> t == s)
  {
    if |swaps| > 0 {
      BreakerIsFifth(plan);
      var shorter, last := swaps[..|swaps| - 1], swaps[|swaps| - 1];
      SwapsRecorded(plan, sellInput, s, shorter);
      var before := ParallelExecutor.RecordSwaps(plan, sellInput, s, shorter).0;
      RecordUndecided(plan, before, ParallelExecutor.SwapSettlement(plan, sellInput, last), last.proven, last.write);
      assert forall i :: 0 <= i < |shorter| ==> swaps[i] == shorter[i];
    }
  }

  lemma BridgeRecorded(plan: Plan, s: ParallelExecutor.Operation, stage: Stage, input: Amount, b: ParallelExecutor.Bridge)
    requires Undecided(plan, s) && stage.ordinal != BreakerOrdinal(plan)
    ensures var t := ParallelExecutor.RecordBridge(s, stage, input, b).0;
            && Undecided(plan, t) && t.journal.state == s.journal.state
            && SettledOrdinals(s.journal.settlements) <= SettledOrdinals(t.journal.settlements)
  {
    match b.driven
    case Failed(_, _, _, _) =>
    case Settled(actualIn, actualOut, proven) => RecordUndecided(plan, s, Settlement(stage, input, actualIn, actualOut), proven, b.write);
  }

  /** Outputs are those of the swaps. */
  lemma {:induction false} OutputsOf(swaps: seq<ParallelExecutor.Swap>, o: int)
    requires o in ParallelExecutor.SwapOutputs(swaps)
    ensures exists i :: 0 <= i < |swaps| && (if swaps[i].sale then 2 else 1) == o
  {
    var last := swaps[|swaps| - 1];
    if (if last.sale then 2 else 1) != o {
      OutputsOf(swaps[..|swaps| - 1], o);
      var i :| 0 <= i < |swaps[..|swaps| - 1]| && (if swaps[..|swaps| - 1][i].sale then 2 else 1) == o;
      assert swaps[i] == swaps[..|swaps| - 1][i];
    }
  }

  /** Completing, stopping or leaving an operation with both legs settled. */
  lemma EndKeeps(plan: Plan, s: ParallelExecutor.Operation, a: ParallelExecutor.Answers)
    requires Undecided(plan, s) && s.journal.state == Running
    requires 1 in SettledOrdinals(s.journal.settlements) && 2 in SettledOrdinals(s.journal.settlements)
    ensures ExecutionLeft(plan, s.journal) && ExecutionLeft(plan, ParallelExecutor.Complete(s, a).journal)
    ensures ExecutionLeft(plan, ParallelExecutor.Finish(s, Manual, a).journal)
  {
  }

  /** The bridges' inputs exist only if both legs settled. */
  lemma BridgesNeedBoth(plan: Plan, outputs: map<int, Amount>, base: Option<Amount>, quote: Option<Amount>)
    requires Dual(plan)
    requires ResolveInput(plan, plan.stages[2], plan.initialInput, outputs, base).Some?
    requires ResolveInput(plan, plan.stages[3], plan.initialInput, outputs, quote).Some?
    ensures 1 in outputs && 2 in outputs
  {
    assert plan.stages[2].dependsOn[0] == 1 && plan.stages[3].dependsOn[0] == 2;
  }

  lemma RebalanceKeeps(plan: Plan, s: ParallelExecutor.Operation, outputs: map<int, Amount>, a: ParallelExecutor.Answers)
    requires Dual(plan) && Undecided(plan, s) && s.journal.state == Running
    requires outputs.Keys <= SettledOrdinals(s.journal.settlements)
    ensures ExecutionLeft(plan, ParallelExecutor.Rebalance(plan, s, outputs, a).journal)
  {
    BreakerIsFifth(plan);
    var base := ResolveInput(plan, plan.stages[2], plan.initialInput, outputs, a.base.converted);
    var quote := ResolveInput(plan, plan.stages[3], plan.initialInput, outputs, a.quote.converted);
    if base.Some? && quote.Some? {
      BridgesNeedBoth(plan, outputs, a.base.converted, a.quote.converted);
      BridgeRecorded(plan, s, plan.stages[2], base.value, a.base);
      var t := ParallelExecutor.RecordBridge(s, plan.stages[2], base.value, a.base).0;
      BridgeRecorded(plan, t, plan.stages[3], quote.value, a.quote);
      EndKeeps(plan, s, a);
      EndKeeps(plan, t, a);
      EndKeeps(plan, ParallelExecutor.RecordBridge(t, plan.stages[3], quote.value, a.quote).0, a);
    }
  }

  lemma OutputsSettled(plan: Plan, sellInput: Amount, s: ParallelExecutor.Operation, swaps: seq<ParallelExecutor.Swap>)
    requires Dual(plan) && Undecided(plan, s) && ParallelExecutor.RecordSwaps(plan, sellInput, s, swaps).1
    ensures ParallelExecutor.SwapOutputs(swaps).Keys
            <= SettledOrdinals(ParallelExecutor.RecordSwaps(plan, sellInput, s, swaps).0.journal.settlements)
  {
    SwapsRecorded(plan, sellInput, s, swaps);
    forall o | o in ParallelExecutor.SwapOutputs(swaps)
      ensures o in SettledOrdinals(ParallelExecutor.RecordSwaps(plan, sellInput, s, swaps).0.journal.settlements)
    {
      OutputsOf(swaps, o);
    }
  }

  /** Whatever the workers answer, the executor leaves such a journal. */
  lemma ExecutionKeeps(plan: Plan, a: ParallelExecutor.Answers)
    requires Dual(plan)
    ensures ExecutionLeft(plan, ParallelExecutor.Run(plan, a).journal) && OneSale(plan, ParallelExecutor.Run(plan, a).journal)
  {
    var s := ParallelExecutor.Start(plan);
    var sellInput := ParallelSellInput(plan);
    if sellInput.Some? {
      SwapsRecorded(plan, sellInput.value, s, a.swaps);
      var (t, ok) := ParallelExecutor.RecordSwaps(plan, sellInput.value, s, a.swaps);
      if ok {
        OutputsSettled(plan, sellInput.value, s, a.swaps);
        RebalanceKeeps(plan, t, ParallelExecutor.SwapOutputs(a.swaps), a);
      }
    }
  }

  // ---------- the recovery ----------

  /** Struck-out bridges apart, the loop knows exactly what is durable. */
  predicate KnowsSettled(s: Recovery) {
    && SettledOrdinals(s.journal.settlements) <= s.settled
    && s.settled <= SettledOrdinals(s.journal.settlements) + {3, 4}
  }

  ghost predicate DualRecovery(plan: Plan, s: Recovery) {
    && OneSale(plan, s.journal)
    && (s.phase == Looping ==>
        && KnowsSettled(s) && s.journal.state == Running
        && s.stages == (if s.journal.decision == Some(SellAtOrigin) then Take(plan.stages, 1) + plan.circuitBreaker else plan.stages))
    && (s.phase == Finished(Completed) ==> BoughtAndSold(plan, SettledOrdinals(s.journal.settlements)))
  }

  /** What is next: the buy first, then the sale of the decided route. */
  lemma NextOfDual(plan: Plan, s: Recovery)
    requires Dual(plan) && DualRecovery(plan, s) && s.phase == Looping
    ensures var next := NextUnsettled(s.stages, s.settled);
            var settled := SettledOrdinals(s.journal.settlements);
            && (next.Some? ==> next.value.ordinal !in settled)
            && (next.Some? && next.value.ordinal != 1 ==> 1 in settled)
            && (next.Some? && next.value.ordinal == 2 ==> s.journal.decision != Some(SellAtOrigin))
            && (next.Some? && next.value.ordinal == BreakerOrdinal(plan) ==> s.journal.decision == Some(SellAtOrigin))
            && (next.Some? && next.value.ordinal == 1 ==> s.journal.decision != Some(SellAtOrigin))
            && (next.None? ==> BoughtAndSold(plan, settled))
  {
    BreakerIsFifth(plan);
    var next := NextUnsettled(s.stages, s.settled);
    NextIsAhead(s.stages, s.settled);
    FirstComesFirst(s.stages, s.settled);
    if next.None? {
      NoneLeft(s.stages, s.settled, 0);
      NoneLeft(s.stages, s.settled, 1);
    }
  }

  lemma FirstComesFirst(stages: seq<Stage>, settled: set<int>)
    requires |stages| > 0
    ensures NextUnsettled(stages, settled) != Some(stages[0]) ==> stages[0].ordinal in settled
  {
  }

  lemma {:induction false} NoneLeft(stages: seq<Stage>, settled: set<int>, i: nat)
    requires NextUnsettled(stages, settled).None? && i < |stages|
    ensures stages[i].ordinal in settled
  {
    if i > 0 { NoneLeft(stages[1..], settled, i - 1); }
  }

  /** The state of a loop that chooses an exit: bought, not yet sold. */
  ghost predicate Choosing(plan: Plan, s: Recovery) {
    var settled := SettledOrdinals(s.journal.settlements);
    && s.phase == Looping && s.journal.state == Running && KnowsSettled(s)
    && 1 in settled && 2 !in settled && BreakerOrdinal(plan) !in settled
  }

  lemma SelectKeepsDual(plan: Plan, s: Recovery, a: Answer)
    requires Dual(plan) && Choosing(plan, s)
    ensures var (t, ok) := SelectPrefunded(plan, s, a); DualRecovery(plan, if ok then t else Block(t, a))
  {
  }

  lemma FailOfDual(plan: Plan, s: Recovery, stage: Stage, d: Driven, a: Answer)
    requires DualInventory(plan) && d.Failed?
    ensures var n := Fail(plan, s, stage, d, a);
            var (t, ok) := SelectPrefunded(plan, s, a);
            n == s || n == s.(phase := Stopped) || n == Block(s, a) || (stage.ordinal == 2 && n == if ok then t else Block(t, a))
  {
  }

  lemma RecordedDual(plan: Plan, s: Recovery, settlement: Settlement)
    requires Dual(plan) && DualRecovery(plan, s) && s.phase == Looping
    requires Allowed(plan, s.journal, settlement.stage.ordinal)
    ensures DualRecovery(plan, Recorded(s, settlement))
  {
    SettledAppend(s.journal.settlements, settlement);
  }

  /** What may be settled next. */
  predicate Allowed(plan: Plan, j: Journal, o: int) {
    var settled := SettledOrdinals(j.settlements);
    && (o != 1 ==> 1 in settled)
    && (o == 1 || o == 2 ==> j.decision != Some(SellAtOrigin))
    && (o == BreakerOrdinal(plan) ==> j.decision == Some(SellAtOrigin))
  }

  lemma SettleKeepsDual(plan: Plan, s: Recovery, settlement: Settlement, proven: bool, a: Answer)
    requires Dual(plan) && DualRecovery(plan, s) && s.phase == Looping && Allowed(plan, s.journal, settlement.stage.ordinal)
    ensures DualRecovery(plan, Settle(plan, s, settlement, proven, a))
  {
    SettleOutcomes(plan, s, settlement, proven, a);
    RecordedDual(plan, s, settlement);
  }

  lemma DriveKeepsDual(plan: Plan, s: Recovery, stage: Stage, input: Amount, a: Answer)
    requires Dual(plan) && DualRecovery(plan, s) && s.phase == Looping && Allowed(plan, s.journal, stage.ordinal)
    requires stage.ordinal == 2 ==> Choosing(plan, s)
    ensures DualRecovery(plan, Drive(plan, s, stage, input, a))
  {
    var t := s.(calls := s.calls + [Call(stage, input, a.driven)]);
    match a.driven
    case Failed(_, _, _, _) =>
      FailOfDual(plan, t, stage, a.driven, a);
      if stage.ordinal == 2 { SelectKeepsDual(plan, t, a); }
    case Settled(actualIn, actualOut, proven) => SettleKeepsDual(plan, t, Settlement(stage, input, actualIn, actualOut), proven, a);
  }

  lemma BuyKeepsDual(plan: Plan, s: Recovery, stage: Stage, a: Answer)
    requires Dual(plan) && DualRecovery(plan, s) && s.phase == Looping && stage.ordinal == 1 && Allowed(plan, s.journal, 1)
    ensures DualRecovery(plan, BuyAgain(plan, s, stage, a))
  {
    BuyOutcomes(plan, s, stage, a);
    if a.rebuy.Some? { SettledAppend(s.journal.settlements, Bought(stage, a.rebuy.value)); }
  }

  lemma AttemptKeepsDual(plan: Plan, s: Recovery, stage: Stage, a: Answer)
    requires Dual(plan) && DualRecovery(plan, s) && s.phase == Looping
    requires NextUnsettled(s.stages, s.settled) == Some(stage)
    ensures DualRecovery(plan, Attempt(plan, s, stage, a))
  {
    NextOfDual(plan, s);
    BreakerIsFifth(plan);
    var input := ResolveRecoveryInput(plan, stage, s.current, s.outputs, a.converted);
    if input.Some? {
      if stage.ordinal == 1 { BuyKeepsDual(plan, s, stage, a); }
      DriveKeepsDual(plan, s, stage, input.value, a);
    }
  }

  lemma TurnKeepsDual(plan: Plan, s: Recovery, a: Answer)
    requires Dual(plan) && DualRecovery(plan, s)
    ensures DualRecovery(plan, Turn(plan, s, a))
  {
    if s.phase != Looping { return; }
    NextOfDual(plan, s);
    var next := NextUnsettled(s.stages, s.settled);
    if next.Some? { AttemptKeepsDual(plan, s, next.value, a); }
  }

  /** What resuming a dual-inventory operation amounts to. */
  lemma ResumeOfDual(plan: Plan, j: Journal, a: Answer)
    requires Dual(plan) && OneSale(plan, j)
    ensures var s := Load(plan, j);
            var n := Resume(plan, j, a);
            if j.decision == Some(ReturnToOrigin) then n == Block(s, a)
            else
              var both := EconomicLegsSettled(plan, s.settled);
              var t := s.(stages := if j.decision == Some(SellAtOrigin) then Take(plan.stages, 1) + plan.circuitBreaker else plan.stages,
                          settled := if BuyRestoredOnSellChain(plan, j.settlements) then s.settled + {3, 4} else s.settled,
                          exit := if both then None else s.exit);
              if ShouldSelectInitialExit(plan, t.settled, j.decision) then
                n == if SelectPrefunded(plan, t, a).1 then SelectPrefunded(plan, t, a).0 else Block(SelectPrefunded(plan, t, a).0, a)
              else n == t
  {
  }

  lemma ResumeKeepsDual(plan: Plan, j: Journal, a: Answer)
    requires Dual(plan) && OneSale(plan, j) && Resumable(j)
    ensures DualRecovery(plan, Resume(plan, j, a))
  {
    ResumeOfDual(plan, j, a);
    var s := Load(plan, j);
    var t := s.(stages := plan.stages, settled := if BuyRestoredOnSellChain(plan, j.settlements) then s.settled + {3, 4} else s.settled,
                exit := if EconomicLegsSettled(plan, s.settled) then None else s.exit);
    if ShouldSelectInitialExit(plan, t.settled, j.decision) { SelectKeepsDual(plan, t, a); }
  }

  // ---------- the whole operation ----------

  /** One operation: the executor's run with these answers, crashed wherever they
      make it stop, and then any crashes and resumes. */
  function Operate(plan: Plan, a: ParallelExecutor.Answers, events: seq<Event>): Process
    requires |plan.stages| == 4
  {
    RunFrom(plan, ParallelExecutor.Run(plan, a).journal, events)
  }

  ghost predicate ProcessDual(plan: Plan, p: Process) {
    match p
    case Executing(_) => false
    case Down(j) => OneSale(plan, j)
    case Resumed(s) => DualRecovery(plan, s)
  }

  lemma {:induction false} RunKeepsDual(plan: Plan, j: Journal, events: seq<Event>)
    requires Dual(plan) && OneSale(plan, j)
    ensures ProcessDual(plan, RunFrom(plan, j, events))
  {
    if |events| > 0 {
      var p := RunFrom(plan, j, events[..|events| - 1]);
      RunKeepsDual(plan, j, events[..|events| - 1]);
      match events[|events| - 1]
      case ExecutorTurn(_) =>
      case Crash =>
      case Resumption(a) => if p.Down? && Resumable(p.journal) { ResumeKeepsDual(plan, p.journal, a); }
      case RecoveryTurn(a) => if p.Resumed? { TurnKeepsDual(plan, p.recovery, a); }
    }
  }

  /** Started afresh, a dual-inventory operation never makes both sales durable;
      complete it has durably bought and sold once, aborted neither. What took
      effect without becoming durable is the subject of DualEffectLaws. */
  lemma OneSaleDurable(plan: Plan, a: ParallelExecutor.Answers, events: seq<Event>)
    requires Dual(plan)
    ensures var j := Durable(Operate(plan, a, events));
            var settled := SettledOrdinals(j.settlements);
            && !(2 in settled && BreakerOrdinal(plan) in settled)
            && (j.state == Completed ==> BoughtAndSold(plan, settled))
            && (j.state == Aborted ==> NothingTraded(plan, settled))
            && (2 in settled ==> !OriginSaleOpen(plan, j))
  {
    ExecutionKeeps(plan, a);
    RunKeepsDual(plan, ParallelExecutor.Run(plan, a).journal, events);
  }
}
