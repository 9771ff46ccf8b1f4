/** A completed dual-inventory operation has restored its inventories: both
    bridges are durable, or none was needed. */
module DualBridgeLaws {
  import opened Common
  import opened SequentialPlan
  import opened SagaJournal
  import opened SequentialRecovery
  import opened RecoveryLaws
  import opened DualInventoryLaws
  import opened DualOperationLaws
  import opened ParallelLaws
  import ParallelExecutor

  /** Sold at the origin, or bought again where the sale was, or bridged both
      ways; the quote bridge may only be missing where it was detached. */
  predicate Restored(plan: Plan, j: Journal, detached: bool) {
    var settled := SettledOrdinals(j.settlements);
    || BreakerOrdinal(plan) in settled
    || BuyRestoredOnSellChain(plan, j.settlements)
    || (1 in settled && 2 in settled && 3 in settled && (4 in settled || detached))
  }

  /** Bridges are struck out only where the buy was made again on the sale's
      chain. */
  predicate StruckOut(plan: Plan, s: Recovery) {
    s.settled <= SettledOrdinals(s.journal.settlements) || BuyRestoredOnSellChain(plan, s.journal.settlements)
  }

  ghost predicate RecoveryRestores(plan: Plan, s: Recovery, detached: bool) {
    && (s.journal.state == Completed ==> Restored(plan, s.journal, detached))
    && (s.phase == Looping ==> StruckOut(plan, s))
  }

  /** The buy stays where it was made again. */
  lemma StaysRestored(plan: Plan, ss: seq<Settlement>, x: Settlement)
    requires BuyRestoredOnSellChain(plan, ss) && x.stage.ordinal != 1
    ensures BuyRestoredOnSellChain(plan, ss + [x])
  {
    var all := ss + [x];
    SettledAppend(ss, x);
    var i :| 0 <= i < |ss| && ss[i].stage.ordinal == 1 && ss[i].stage.sourceChain == plan.stages[1].sourceChain && LastBuy(ss, i);
    assert all[i] == ss[i] && LastBuy(all, i);
  }

  /** A buy made again on the sale's chain restores. */
  lemma RebuyRestores(plan: Plan, ss: seq<Settlement>, x: Settlement)
    requires |plan.stages| >= 2 && x.stage.ordinal == 1 && x.stage.sourceChain == plan.stages[1].sourceChain && 2 in SettledOrdinals(ss)
    ensures BuyRestoredOnSellChain(plan, ss + [x])
  {
    SettledAppend(ss, x);
    assert (ss + [x])[|ss|] == x && LastBuy(ss + [x], |ss|);
  }

  lemma BuyStrikesOut(plan: Plan, s: Recovery, stage: Stage, a: Answer, detached: bool)
    requires Dual(plan) && DualRecovery(plan, s) && RecoveryRestores(plan, s, detached) && s.phase == Looping
    requires stage.ordinal == 1 && 1 !in SettledOrdinals(s.journal.settlements) && 2 in SettledOrdinals(s.journal.settlements)
    ensures RecoveryRestores(plan, BuyAgain(plan, s, stage, a), detached)
  {
    BuyOutcomes(plan, s, stage, a);
    NotBoughtYet(plan, s.journal.settlements);
    if a.rebuy.Some? {
      var x := Bought(stage, a.rebuy.value);
      SettledAppend(s.journal.settlements, x);
      if x.stage.sourceChain == plan.stages[1].sourceChain { RebuyRestores(plan, s.journal.settlements, x); }
    }
  }

  lemma NotBoughtYet(plan: Plan, ss: seq<Settlement>)
    requires 1 !in SettledOrdinals(ss)
    ensures !BuyRestoredOnSellChain(plan, ss)
  {
  }

  lemma SettleStrikesOut(plan: Plan, s: Recovery, x: Settlement, proven: bool, a: Answer, detached: bool)
    requires Dual(plan) && DualRecovery(plan, s) && RecoveryRestores(plan, s, detached) && s.phase == Looping
    requires x.stage.ordinal == 1 ==> 1 !in SettledOrdinals(s.journal.settlements)
    ensures RecoveryRestores(plan, Settle(plan, s, x, proven, a), detached)
  {
    SettleOutcomes(plan, s, x, proven, a);
    SettledAppend(s.journal.settlements, x);
    if x.stage.ordinal == 1 {
      NotBoughtYet(plan, s.journal.settlements);
    } else if BuyRestoredOnSellChain(plan, s.journal.settlements) {
      StaysRestored(plan, s.journal.settlements, x);
    }
  }

  lemma SelectionStrikesOut(plan: Plan, s: Recovery, a: Answer, detached: bool)
    requires RecoveryRestores(plan, s, detached) && s.journal.state == Running && StruckOut(plan, s)
    ensures var (t, ok) := SelectPrefunded(plan, s, a); RecoveryRestores(plan, if ok then t else Block(t, a), detached)
  {
  }

  lemma DriveStrikesOut(plan: Plan, s: Recovery, stage: Stage, input: Amount, a: Answer, detached: bool)
    requires Dual(plan) && DualRecovery(plan, s) && RecoveryRestores(plan, s, detached) && s.phase == Looping
    requires stage.ordinal == 1 ==> 1 !in SettledOrdinals(s.journal.settlements)
    ensures RecoveryRestores(plan, Drive(plan, s, stage, input, a), detached)
  {
    var t := s.(calls := s.calls + [Call(stage, input, a.driven)]);
    match a.driven
    case Failed(_, _, _, _) => FailOfDual(plan, t, stage, a.driven, a); SelectionStrikesOut(plan, t, a, detached);
    case Settled(actualIn, actualOut, proven) => SettleStrikesOut(plan, t, Settlement(stage, input, actualIn, actualOut), proven, a, detached);
  }

  /** With nothing left, everything the decided route asks for is in. */
  lemma NothingLeftRestored(plan: Plan, s: Recovery)
    requires Dual(plan) && DualRecovery(plan, s) && s.phase == Looping && StruckOut(plan, s) && NextUnsettled(s.stages, s.settled).None?
    ensures Restored(plan, s.journal, false)
  {
    BreakerIsFifth(plan);
    forall i | 0 <= i < |s.stages| ensures s.stages[i].ordinal in s.settled { NoneLeft(s.stages, s.settled, i); }
    if s.journal.decision == Some(SellAtOrigin) {
      assert s.stages[1] == plan.circuitBreaker[0];
    } else {
      assert s.stages[0].ordinal == 1 && s.stages[1].ordinal == 2 && s.stages[2].ordinal == 3 && s.stages[3].ordinal == 4;
    }
  }

  lemma TurnRestores(plan: Plan, s: Recovery, a: Answer, detached: bool)
    requires Dual(plan) && DualRecovery(plan, s) && RecoveryRestores(plan, s, detached)
    ensures RecoveryRestores(plan, Turn(plan, s, a), detached)
  {
    if s.phase != Looping { return; }
    var next := NextUnsettled(s.stages, s.settled);
    if next.None? {
      NothingLeftRestored(plan, s);
    } else {
      NextOfDual(plan, s);
      var input := ResolveRecoveryInput(plan, next.value, s.current, s.outputs, a.converted);
      if input.Some? {
        if next.value.ordinal == 1 && 2 in s.settled { BuyStrikesOut(plan, s, next.value, a, detached); }
        DriveStrikesOut(plan, s, next.value, input.value, a, detached);
      }
    }
  }

  lemma ResumeRestores(plan: Plan, j: Journal, a: Answer, detached: bool)
    requires Dual(plan) && OneSale(plan, j) && Resumable(j)
    ensures RecoveryRestores(plan, Resume(plan, j, a), detached)
  {
    ResumeOfDual(plan, j, a);
    var s := Load(plan, j);
    var t := s.(stages := if j.decision == Some(SellAtOrigin) then Take(plan.stages, 1) + plan.circuitBreaker else plan.stages,
                settled := if BuyRestoredOnSellChain(plan, j.settlements) then s.settled + {3, 4} else s.settled,
                exit := if EconomicLegsSettled(plan, s.settled) then None else s.exit);
    SelectionStrikesOut(plan, t, a, detached);
  }

  ghost predicate ProcessRestores(plan: Plan, p: Process, detached: bool) {
    match p
    case Executing(_) => false
    case Down(j) => j.state == Completed ==> Restored(plan, j, detached)
    case Resumed(s) => RecoveryRestores(plan, s, detached)
  }

  lemma {:induction false} RunRestores(plan: Plan, j: Journal, events: seq<Event>, detached: bool)
    requires Dual(plan) && OneSale(plan, j) && (j.state == Completed ==> Restored(plan, j, detached))
    ensures ProcessRestores(plan, RunFrom(plan, j, events), detached)
  {
    if |events| > 0 {
      var p := RunFrom(plan, j, events[..|events| - 1]);
      RunRestores(plan, j, events[..|events| - 1], detached);
      RunKeepsDual(plan, j, events[..|events| - 1]);
      match events[|events| - 1]
      case ExecutorTurn(_) =>
      case Crash =>
      case Resumption(a) => if p.Down? && Resumable(p.journal) { ResumeRestores(plan, p.journal, a, detached); }
      case RecoveryTurn(a) => if p.Resumed? { TurnRestores(plan, p.recovery, a, detached); }
    }
  }

  /** The executor completes with both legs and the base bridge durable, and the
      quote bridge unless it was detached. */
  lemma ExecutionRestores(plan: Plan, a: ParallelExecutor.Answers)
    requires Dual(plan)
    ensures var j := ParallelExecutor.Run(plan, a).journal;
            var settled := SettledOrdinals(j.settlements);
            j.state == Completed ==> 1 in settled && 2 in settled && 3 in settled && (a.detached || 4 in settled)
  {
    var j := ParallelExecutor.Run(plan, a).journal;
    RunEnds(plan, a);
    if j.state == Completed {
      CompletedLeaves(plan, a);
      BreakerIsFifth(plan);
      var ss := j.settlements;
      ExecutionKeeps(plan, a);
      assert ss[2].stage.ordinal == 3;
      assert !a.detached ==> ss[3].stage.ordinal == 4;
    }
  }

  /** Whatever crashes, a completed operation has sold at the origin, or bought
      again on the sale's chain, or bridged both ways; only the executor itself
      completes without the quote bridge, where that was detached. */
  lemma CompletedIsRestored(plan: Plan, a: ParallelExecutor.Answers, events: seq<Event>)
    requires Dual(plan)
    ensures var j := Durable(Operate(plan, a, events));
            var settled := SettledOrdinals(j.settlements);
            j.state == Completed ==>
              || BreakerOrdinal(plan) in settled
              || BuyRestoredOnSellChain(plan, j.settlements)
              || (1 in settled && 2 in settled && 3 in settled && 4 in settled)
              || (1 in settled && 2 in settled && 3 in settled && a.detached && ParallelExecutor.Run(plan, a).journal.state == Completed)
  {
    var j := ParallelExecutor.Run(plan, a).journal;
    ExecutionKeeps(plan, a);
    ExecutionRestores(plan, a);
    RunRestores(plan, j, events, a.detached && j.state == Completed);
  }
}
