/** What each stage of a dual-inventory operation is driven with and consumed,
    from the parallel executor's start across any crashes and resumes. */
module DualInputLaws {
  import opened Common
  import opened SequentialPlan
  import opened SagaJournal
  import opened SequentialRecovery
  import opened RecoveryLaws
  import opened DualInventoryLaws
  import opened DualOperationLaws
  import opened PrefundedInputLaws
  import ParallelExecutor

  // ---------- the input a stage is due ----------

  /** units is the discovery sale scaled to the execution size, rounded down. */
  predicate Scaled(units: nat, q: Quotes, initial: nat) {
    units > 0 && units * q.buyIn.units <= q.sellIn.units * initial < (units + 1) * q.buyIn.units
  }

  /** The sale's input does not depend on what anything yielded; it is converted
      only to another token. */
  predicate SaleFixed(plan: Plan, stage: Stage, input: Amount) {
    && Selectable(plan.opportunity)
    && var q := plan.opportunity.candidates[plan.opportunity.selected];
       q.sellIn.token == stage.inputToken ==> input.token == q.sellIn.token && Scaled(input.units, q, plan.initialInput.units)
  }

  /** The buy is due the initial input, the sale its fixed one, and every other
      stage the output of the settlement it refers to. */
  predicate DualFedBy(plan: Plan, ss: seq<Settlement>, stage: Stage, input: Amount) {
    if stage.ordinal == 1 then input == plan.initialInput
    else if stage.ordinal == 2 then SaleFixed(plan, stage, input)
    else exists k :: 0 <= k < |ss| && Feeds(ss[k], stage, input)
  }

  /** A buy made again elsewhere: the sale is durable and the buy is not. */
  predicate BoughtAgain(ss: seq<Settlement>, o: int) { o == 1 && 2 in SettledOrdinals(ss) && 1 !in SettledOrdinals(ss) }

  predicate DualFedAt(plan: Plan, ss: seq<Settlement>, i: nat)
    requires i < |ss|
  {
    || BoughtAgain(ss[..i], ss[i].stage.ordinal)
    || (ss[i].stage in AllStages(plan) && ss[i].input.token == ss[i].stage.inputToken && DualFedBy(plan, ss[..i], ss[i].stage, ss[i].input))
  }

  ghost predicate DualFed(plan: Plan, ss: seq<Settlement>) {
    forall i {:trigger DualFedAt(plan, ss, i)} :: 0 <= i < |ss| ==> DualFedAt(plan, ss, i)
  }

  lemma DualFedAppend(plan: Plan, ss: seq<Settlement>, x: Settlement)
    requires DualFed(plan, ss)
    requires BoughtAgain(ss, x.stage.ordinal)
             || (x.stage in AllStages(plan) && x.input.token == x.stage.inputToken && DualFedBy(plan, ss, x.stage, x.input))
    ensures DualFed(plan, ss + [x])
  {
    var all := ss + [x];
    forall i | 0 <= i < |all| ensures DualFedAt(plan, all, i) {
      if i < |ss| {
        assert all[..i] == ss[..i];
        assert DualFedAt(plan, ss, i);
      } else {
        assert all[..i] == ss;
      }
    }
  }

  /** The fixed input, or its conversion. */
  lemma FixedInput(plan: Plan, stage: Stage, input: Amount)
    requires ParallelSellInput(plan).Some?
    requires ParallelSellInput(plan).value.token == stage.inputToken ==> input == ParallelSellInput(plan).value
    ensures SaleFixed(plan, stage, input)
  {
    SellInputScales(plan);
  }

  /** The plan's stages and what they refer to. */
  lemma DualStages(plan: Plan, stage: Stage)
    requires Dual(plan) && OriginExitFits(plan) && stage in AllStages(plan)
    ensures stage.ordinal == 1 || stage.ordinal == 2 || stage.ordinal == 3 || stage.ordinal == 4 || stage.ordinal == BreakerOrdinal(plan)
    ensures stage.ordinal == 1 ==> stage == plan.stages[0] && stage.inputFrom == 0
    ensures stage.ordinal == 2 ==> stage == plan.stages[1] && stage.inputFrom == 0 && stage.kind == Sell
    ensures stage.ordinal == 3 ==> stage == plan.stages[2]
    ensures stage.ordinal == 4 ==> stage == plan.stages[3]
    ensures stage.ordinal == BreakerOrdinal(plan) ==> stage == plan.circuitBreaker[0]
    ensures stage.ordinal == 3 || stage.ordinal == BreakerOrdinal(plan) ==> stage.inputFrom == 1
    ensures stage.ordinal == 4 ==> stage.inputFrom == 2
  {
    BreakerIsFifth(plan);
    var all := AllStages(plan);
    assert all[0] == plan.stages[0] && all[1] == plan.stages[1] && all[2] == plan.stages[2] && all[3] == plan.stages[3] && all[4] == plan.circuitBreaker[0];
  }

  /** Whoever resolves a stage's input from what is durable gets what is due. */
  lemma ResolvedIsDue(plan: Plan, ss: seq<Settlement>, stage: Stage, current: Amount, converted: Option<Amount>)
    requires Dual(plan) && OriginExitFits(plan) && stage in AllStages(plan)
    requires ResolveRecoveryInput(plan, stage, current, Outputs(ss), converted).Some?
    ensures DualFedBy(plan, ss, stage, ResolveRecoveryInput(plan, stage, current, Outputs(ss), converted).value)
  {
    DualStages(plan, stage);
    var input := ResolveRecoveryInput(plan, stage, current, Outputs(ss), converted).value;
    if stage.ordinal == 2 {
      FixedInput(plan, stage, input);
    } else if stage.ordinal != 1 {
      OutputsFrom(ss, stage.inputFrom);
      var k :| 0 <= k < |ss| && ss[k].stage.ordinal == stage.inputFrom && ss[k].actualOut == Outputs(ss)[stage.inputFrom];
      assert Feeds(ss[k], stage, input);
    }
  }

  // ---------- the executor ----------

  lemma RecordFeeds(plan: Plan, s: ParallelExecutor.Operation, x: Settlement, proven: bool, write: Write)
    requires DualFed(plan, s.journal.settlements) && x.stage in AllStages(plan) && DualFedBy(plan, s.journal.settlements, x.stage, x.input)
    ensures var (t, ok) := ParallelExecutor.Record(s, x, proven, write);
            && DualFed(plan, t.journal.settlements)
            && (ok ==> Outputs(t.journal.settlements) == Outputs(s.journal.settlements)[x.stage.ordinal := x.actualOut])
            && s.journal.settlements <= t.journal.settlements
  {
    OutputsAppend(s.journal.settlements, x);
    if x.input.token == x.stage.inputToken { DualFedAppend(plan, s.journal.settlements, x); }
  }

  lemma {:induction false} SwapsFeed(plan: Plan, sellInput: Amount, s: ParallelExecutor.Operation, swaps: seq<ParallelExecutor.Swap>)
    requires Dual(plan) && OriginExitFits(plan) && s.journal.settlements == [] && ParallelSellInput(plan) == Some(sellInput)
    ensures var (t, ok) := ParallelExecutor.RecordSwaps(plan, sellInput, s, swaps);
            DualFed(plan, t.journal.settlements) && (ok ==> Outputs(t.journal.settlements) == ParallelExecutor.SwapOutputs(swaps))
  {
    if |swaps| > 0 {
      var shorter, last := swaps[..|swaps| - 1], swaps[|swaps| - 1];
      SwapsFeed(plan, sellInput, s, shorter);
      var before := ParallelExecutor.RecordSwaps(plan, sellInput, s, shorter).0;
      var x := ParallelExecutor.SwapSettlement(plan, sellInput, last);
      SwapIsDue(plan, sellInput, before.journal.settlements, last);
      RecordFeeds(plan, before, x, last.proven, last.write);
    }
  }

  lemma SwapIsDue(plan: Plan, sellInput: Amount, ss: seq<Settlement>, swap: ParallelExecutor.Swap)
    requires Dual(plan) && ParallelSellInput(plan) == Some(sellInput)
    ensures var x := ParallelExecutor.SwapSettlement(plan, sellInput, swap);
            x.stage in AllStages(plan) && x.stage.ordinal == (if swap.sale then 2 else 1) && DualFedBy(plan, ss, x.stage, x.input)
  {
    var all := AllStages(plan);
    assert all[0] == plan.stages[0] && all[1] == plan.stages[1];
    if swap.sale { FixedInput(plan, plan.stages[1], sellInput); }
  }

  /** A bridge resolves its input from the swaps' outputs. */
  lemma BridgeFeeds(plan: Plan, s: ParallelExecutor.Operation, outputs: map<int, Amount>, stage: Stage, converted: Option<Amount>, b: ParallelExecutor.Bridge)
    requires Dual(plan) && OriginExitFits(plan) && DualFed(plan, s.journal.settlements)
    requires stage in AllStages(plan) && (stage.ordinal == 3 || stage.ordinal == 4)
    requires exists n :: 0 <= n <= |s.journal.settlements| && outputs == Outputs(s.journal.settlements[..n])
    requires ResolveInput(plan, stage, plan.initialInput, outputs, converted).Some?
    ensures var input := ResolveInput(plan, stage, plan.initialInput, outputs, converted).value;
            var t := ParallelExecutor.RecordBridge(s, stage, input, b).0;
            DualFed(plan, t.journal.settlements) && s.journal.settlements <= t.journal.settlements
  {
    var ss := s.journal.settlements;
    var n :| 0 <= n <= |ss| && outputs == Outputs(ss[..n]);
    var input := ResolveInput(plan, stage, plan.initialInput, outputs, converted).value;
    ResolvedIsDue(plan, ss[..n], stage, plan.initialInput, converted);
    var k :| 0 <= k < |ss[..n]| && Feeds(ss[..n][k], stage, input);
    assert Feeds(ss[k], stage, input);
    match b.driven
    case Failed(_, _, _, _) =>
    case Settled(actualIn, actualOut, proven) => RecordFeeds(plan, s, Settlement(stage, input, actualIn, actualOut), proven, b.write);
  }

  lemma EndFeeds(s: ParallelExecutor.Operation, a: ParallelExecutor.Answers)
    ensures ParallelExecutor.Complete(s, a).journal.settlements == s.journal.settlements
    ensures ParallelExecutor.Finish(s, Manual, a).journal.settlements == s.journal.settlements
  {
  }

  lemma RebalanceFeeds(plan: Plan, s: ParallelExecutor.Operation, outputs: map<int, Amount>, a: ParallelExecutor.Answers)
    requires Dual(plan) && OriginExitFits(plan) && DualFed(plan, s.journal.settlements) && outputs == Outputs(s.journal.settlements)
    ensures DualFed(plan, ParallelExecutor.Rebalance(plan, s, outputs, a).journal.settlements)
  {
    var all := AllStages(plan);
    assert all[2] == plan.stages[2] && all[3] == plan.stages[3];
    var ss := s.journal.settlements;
    var base := ResolveInput(plan, plan.stages[2], plan.initialInput, outputs, a.base.converted);
    var quote := ResolveInput(plan, plan.stages[3], plan.initialInput, outputs, a.quote.converted);
    if base.Some? && quote.Some? {
      assert ss[..|ss|] == ss;
      BridgeFeeds(plan, s, outputs, plan.stages[2], a.base.converted, a.base);
      var t := ParallelExecutor.RecordBridge(s, plan.stages[2], base.value, a.base).0;
      assert t.journal.settlements[..|ss|] == ss;
      BridgeFeeds(plan, t, outputs, plan.stages[3], a.quote.converted, a.quote);
      EndFeeds(t, a);
      EndFeeds(ParallelExecutor.RecordBridge(t, plan.stages[3], quote.value, a.quote).0, a);
    }
  }

  lemma ExecutionFeeds(plan: Plan, a: ParallelExecutor.Answers)
    requires Dual(plan) && OriginExitFits(plan)
    ensures DualFed(plan, ParallelExecutor.Run(plan, a).journal.settlements)
  {
    var sellInput := ParallelSellInput(plan);
    if sellInput.Some? {
      var s := ParallelExecutor.Start(plan);
      SwapsFeed(plan, sellInput.value, s, a.swaps);
      var (t, ok) := ParallelExecutor.RecordSwaps(plan, sellInput.value, s, a.swaps);
      if ok { RebalanceFeeds(plan, t, ParallelExecutor.SwapOutputs(a.swaps), a); }
    }
  }

  predicate RequestDue(plan: Plan, ss: seq<Settlement>, stage: Stage, r: ParallelExecutor.Request) {
    r.stage == stage && DualFedBy(plan, ss, r.stage, r.input)
  }

  /** Nothing, or both legs, or both legs and both bridges, each with what it is
      due. */
  predicate RequestsDue(plan: Plan, ss: seq<Settlement>, rs: seq<ParallelExecutor.Request>)
    requires |plan.stages| == 4
  {
    && (|rs| == 0 || |rs| == 2 || |rs| == 4)
    && forall i :: 0 <= i < |rs| ==> RequestDue(plan, ss, plan.stages[i], rs[i])
  }

  lemma LegsAreDue(plan: Plan, ss: seq<Settlement>, more: seq<ParallelExecutor.Request>)
    requires Dual(plan) && ParallelSellInput(plan).Some?
    requires more == [] || (|more| == 2 && RequestDue(plan, ss, plan.stages[2], more[0]) && RequestDue(plan, ss, plan.stages[3], more[1]))
    ensures RequestsDue(plan, ss, [ParallelExecutor.Request(plan.stages[0], plan.initialInput),
                                   ParallelExecutor.Request(plan.stages[1], ParallelSellInput(plan).value)] + more)
  {
    FixedInput(plan, plan.stages[1], ParallelSellInput(plan).value);
  }

  /** What the executor asks its drivers: the buy with the initial input, the
      sale with its fixed one, and the bridges with what the legs yielded. */
  lemma RequestsAreDue(plan: Plan, a: ParallelExecutor.Answers)
    requires Dual(plan) && OriginExitFits(plan)
    ensures RequestsDue(plan, ParallelExecutor.Run(plan, a).journal.settlements, ParallelExecutor.Requests(plan, a))
  {
    if ParallelExecutor.Starts(plan) {
      var sellInput, s := ParallelSellInput(plan).value, ParallelExecutor.Start(plan);
      var ss := ParallelExecutor.Run(plan, a).journal.settlements;
      SwapsFeed(plan, sellInput, s, a.swaps);
      var (t, ok) := ParallelExecutor.RecordSwaps(plan, sellInput, s, a.swaps);
      LegsAreDue(plan, ss, []);
      if ok && a.failure.None? && |a.swaps| == 2 {
        BridgesAreDue(plan, t, a);
        LegsAreDue(plan, ss, ParallelExecutor.BridgeRequests(plan, ParallelExecutor.SwapOutputs(a.swaps), a));
      }
    }
  }

  lemma BridgesAreDue(plan: Plan, s: ParallelExecutor.Operation, a: ParallelExecutor.Answers)
    requires Dual(plan) && OriginExitFits(plan) && Outputs(s.journal.settlements) == ParallelExecutor.SwapOutputs(a.swaps)
    ensures var rs := ParallelExecutor.BridgeRequests(plan, ParallelExecutor.SwapOutputs(a.swaps), a);
            var ss := ParallelExecutor.Rebalance(plan, s, ParallelExecutor.SwapOutputs(a.swaps), a).journal.settlements;
            rs == [] || (|rs| == 2 && RequestDue(plan, ss, plan.stages[2], rs[0]) && RequestDue(plan, ss, plan.stages[3], rs[1]))
  {
    var rs := ParallelExecutor.BridgeRequests(plan, ParallelExecutor.SwapOutputs(a.swaps), a);
    if rs != [] {
      var all := AllStages(plan);
      assert all[2] == plan.stages[2] && all[3] == plan.stages[3];
      RebalanceExtends(plan, s, ParallelExecutor.SwapOutputs(a.swaps), a);
      var later := ParallelExecutor.Rebalance(plan, s, ParallelExecutor.SwapOutputs(a.swaps), a).journal.settlements;
      ResolvedIsDue(plan, s.journal.settlements, plan.stages[2], plan.initialInput, a.base.converted);
      ResolvedIsDue(plan, s.journal.settlements, plan.stages[3], plan.initialInput, a.quote.converted);
      DueLater(plan, s.journal.settlements, later, rs[0].stage, rs[0].input);
      DueLater(plan, s.journal.settlements, later, rs[1].stage, rs[1].input);
    }
  }

  lemma DueLater(plan: Plan, ss: seq<Settlement>, later: seq<Settlement>, stage: Stage, input: Amount)
    requires ss <= later && DualFedBy(plan, ss, stage, input)
    ensures DualFedBy(plan, later, stage, input)
  {
    if stage.ordinal != 1 && stage.ordinal != 2 {
      var k :| 0 <= k < |ss| && Feeds(ss[k], stage, input);
      assert Feeds(later[k], stage, input);
    }
  }

  lemma RebalanceExtends(plan: Plan, s: ParallelExecutor.Operation, outputs: map<int, Amount>, a: ParallelExecutor.Answers)
    requires |plan.stages| == 4
    ensures s.journal.settlements <= ParallelExecutor.Rebalance(plan, s, outputs, a).journal.settlements
  {
    var base := ResolveInput(plan, plan.stages[2], plan.initialInput, outputs, a.base.converted);
    var quote := ResolveInput(plan, plan.stages[3], plan.initialInput, outputs, a.quote.converted);
    if base.Some? && quote.Some? {
      var t := ParallelExecutor.RecordBridge(s, plan.stages[2], base.value, a.base).0;
      EndFeeds(t, a);
      EndFeeds(ParallelExecutor.RecordBridge(t, plan.stages[3], quote.value, a.quote).0, a);
    }
  }

  // ---------- the recovery ----------

  ghost predicate DualRecoveryFed(plan: Plan, s: Recovery) {
    && DualFed(plan, s.journal.settlements)
    && (s.phase == Looping ==> s.outputs == Outputs(s.journal.settlements) && OfPlan(plan, s.stages))
  }

  lemma BreakerOfDual(plan: Plan)
    requires Dual(plan)
    ensures OfPlan(plan, plan.stages) && OfPlan(plan, Take(plan.stages, 1) + plan.circuitBreaker)
  {
    var all := AllStages(plan);
    assert all[0] == plan.stages[0] && all[1] == plan.stages[1] && all[2] == plan.stages[2] && all[3] == plan.stages[3] && all[4] == plan.circuitBreaker[0];
  }

  lemma SelectionFeedsDual(plan: Plan, s: Recovery, a: Answer)
    requires Dual(plan) && DualRecoveryFed(plan, s) && s.outputs == Outputs(s.journal.settlements)
    ensures var (t, ok) := SelectPrefunded(plan, s, a); DualRecoveryFed(plan, if ok then t else Block(t, a))
  {
    BreakerOfDual(plan);
  }

  lemma ResumeFeedsDual(plan: Plan, j: Journal, a: Answer)
    requires Dual(plan) && OneSale(plan, j) && DualFed(plan, j.settlements)
    ensures DualRecoveryFed(plan, Resume(plan, j, a))
  {
    ResumeOfDual(plan, j, a);
    BreakerOfDual(plan);
    var s := Load(plan, j);
    var t := s.(stages := if j.decision == Some(SellAtOrigin) then Take(plan.stages, 1) + plan.circuitBreaker else plan.stages,
                settled := if BuyRestoredOnSellChain(plan, j.settlements) then s.settled + {3, 4} else s.settled,
                exit := if EconomicLegsSettled(plan, s.settled) then None else s.exit);
    SelectionFeedsDual(plan, t, a);
  }

  lemma SettleFeedsDual(plan: Plan, s: Recovery, x: Settlement, proven: bool, a: Answer)
    requires Dual(plan) && DualRecoveryFed(plan, s) && s.phase == Looping
    requires x.stage in AllStages(plan) && DualFedBy(plan, s.journal.settlements, x.stage, x.input)
    ensures DualRecoveryFed(plan, Settle(plan, s, x, proven, a))
  {
    SettleOutcomes(plan, s, x, proven, a);
    if x.input.token == x.stage.inputToken { DualFedAppend(plan, s.journal.settlements, x); }
    OutputsAppend(s.journal.settlements, x);
  }

  lemma DriveFeedsDual(plan: Plan, s: Recovery, stage: Stage, input: Amount, a: Answer)
    requires Dual(plan) && DualRecoveryFed(plan, s) && s.phase == Looping
    requires stage in AllStages(plan) && DualFedBy(plan, s.journal.settlements, stage, input)
    ensures DualRecoveryFed(plan, Drive(plan, s, stage, input, a))
  {
    var t := s.(calls := s.calls + [Call(stage, input, a.driven)]);
    match a.driven
    case Settled(actualIn, actualOut, proven) => SettleFeedsDual(plan, t, Settlement(stage, input, actualIn, actualOut), proven, a);
    case Failed(_, _, _, _) => FailOfDual(plan, t, stage, a.driven, a); SelectionFeedsDual(plan, t, a);
  }

  lemma BuyFeedsDual(plan: Plan, s: Recovery, stage: Stage, a: Answer)
    requires Dual(plan) && DualRecoveryFed(plan, s) && s.phase == Looping && BoughtAgain(s.journal.settlements, stage.ordinal)
    ensures DualRecoveryFed(plan, BuyAgain(plan, s, stage, a))
  {
    BuyOutcomes(plan, s, stage, a);
    if a.rebuy.Some? {
      var x := Bought(stage, a.rebuy.value);
      DualFedAppend(plan, s.journal.settlements, x);
      OutputsAppend(s.journal.settlements, x);
    }
  }

  /** What is next, and that a sale known to be settled is durable. */
  lemma NextIsDue(plan: Plan, s: Recovery, stage: Stage)
    requires Dual(plan) && DualRecovery(plan, s) && DualRecoveryFed(plan, s) && s.phase == Looping
    requires NextUnsettled(s.stages, s.settled) == Some(stage)
    ensures stage in AllStages(plan)
    ensures stage.ordinal == 1 && 2 in s.settled ==> BoughtAgain(s.journal.settlements, stage.ordinal)
  {
    NextOfPlan(plan, s.stages, s.settled);
    NextOfDual(plan, s);
  }

  lemma AttemptFeedsDual(plan: Plan, s: Recovery, stage: Stage, a: Answer)
    requires Dual(plan) && OriginExitFits(plan) && DualRecovery(plan, s) && DualRecoveryFed(plan, s) && s.phase == Looping
    requires NextUnsettled(s.stages, s.settled) == Some(stage)
    ensures DualRecoveryFed(plan, Attempt(plan, s, stage, a))
  {
    NextIsDue(plan, s, stage);
    var input := ResolveRecoveryInput(plan, stage, s.current, s.outputs, a.converted);
    if input.None? { return; }
    ResolvedIsDue(plan, s.journal.settlements, stage, s.current, a.converted);
    if stage.ordinal == 1 && 2 in s.settled { BuyFeedsDual(plan, s, stage, a); }
    DriveFeedsDual(plan, s, stage, input.value, a);
  }

  lemma TurnFeedsDual(plan: Plan, s: Recovery, a: Answer)
    requires Dual(plan) && OriginExitFits(plan) && DualRecovery(plan, s) && DualRecoveryFed(plan, s)
    ensures DualRecoveryFed(plan, Turn(plan, s, a))
  {
    if s.phase != Looping || NextUnsettled(s.stages, s.settled).None? { return; }
    AttemptFeedsDual(plan, s, NextUnsettled(s.stages, s.settled).value, a);
  }

  // ---------- across crashes ----------

  ghost predicate ProcessDualFed(plan: Plan, p: Process) {
    match p
    case Executing(_) => false
    case Down(j) => DualFed(plan, j.settlements)
    case Resumed(s) => DualRecoveryFed(plan, s)
  }

  lemma {:induction false} RunFeedsDual(plan: Plan, j: Journal, events: seq<Event>)
    requires Dual(plan) && OriginExitFits(plan) && OneSale(plan, j) && DualFed(plan, j.settlements)
    ensures ProcessDualFed(plan, RunFrom(plan, j, events))
  {
    if |events| > 0 {
      var p := RunFrom(plan, j, events[..|events| - 1]);
      RunFeedsDual(plan, j, events[..|events| - 1]);
      RunKeepsDual(plan, j, events[..|events| - 1]);
      match events[|events| - 1]
      case ExecutorTurn(_) =>
      case Crash =>
      case Resumption(a) => if p.Down? && Resumable(p.journal) { ResumeFeedsDual(plan, p.journal, a); }
      case RecoveryTurn(a) => if p.Resumed? { TurnFeedsDual(plan, p.recovery, a); }
    }
  }

  lemma OperationFed(plan: Plan, a: ParallelExecutor.Answers, events: seq<Event>)
    requires Dual(plan) && OriginExitFits(plan)
    ensures ProcessDualFed(plan, Operate(plan, a, events)) && ProcessDual(plan, Operate(plan, a, events))
  {
    ExecutionKeeps(plan, a);
    ExecutionFeeds(plan, a);
    RunFeedsDual(plan, ParallelExecutor.Run(plan, a).journal, events);
    RunKeepsDual(plan, ParallelExecutor.Run(plan, a).journal, events);
  }

  /** Which settlement a stage after the two legs refers to. */
  function Source(o: int): int { if o == 4 then 2 else 1 }

  /** Whatever crashes: the buy consumed the initial input, unless it was made
      again with the sale durable; the sale consumed the discovery sale scaled to
      the execution size, whatever the buy yielded; the base bridge and the
      origin sale each consumed what the buy yielded, and the quote bridge what
      the sale yielded, converted only to another token. */
  lemma DualInputsAcrossCrashes(plan: Plan, a: ParallelExecutor.Answers, events: seq<Event>, i: nat)
    requires Dual(plan) && OriginExitFits(plan) && i < |Durable(Operate(plan, a, events)).settlements|
    ensures var ss := Durable(Operate(plan, a, events)).settlements;
            var x := ss[i];
            && (x.stage.ordinal == 1 ==>
                  (x.stage == plan.stages[0] && x.input == plan.initialInput)
                  || (2 in SettledOrdinals(ss[..i]) && 1 !in SettledOrdinals(ss[..i])))
            && (x.stage.ordinal == 2 ==> x.stage == plan.stages[1] && x.input.token == x.stage.inputToken && SaleFixed(plan, x.stage, x.input))
            && (x.stage.ordinal != 1 && x.stage.ordinal != 2 ==>
                  && (x.stage == plan.stages[2] || x.stage == plan.stages[3] || x.stage == plan.circuitBreaker[0])
                  && x.input.token == x.stage.inputToken
                  && exists k :: 0 <= k < i && ss[k].stage.ordinal == Source(x.stage.ordinal)
                       && (ss[k].actualOut.token == x.stage.inputToken ==> x.input == ss[k].actualOut))
  {
    OperationFed(plan, a, events);
    var ss := Durable(Operate(plan, a, events)).settlements;
    assert DualFedAt(plan, ss, i);
    var x := ss[i];
    if !BoughtAgain(ss[..i], x.stage.ordinal) {
      DualStages(plan, x.stage);
      BreakerIsFifth(plan);
      if x.stage.ordinal != 1 && x.stage.ordinal != 2 {
        var k :| 0 <= k < |ss[..i]| && Feeds(ss[..i][k], x.stage, x.input);
        assert ss[k] == ss[..i][k];
      }
    }
  }

  /** The turn calls no driver, or the next stage's with the given input, or
      makes the buy again. */
  lemma TurnCalls(plan: Plan, s: Recovery, a: Answer)
    requires DualInventory(plan)
    ensures var n := Turn(plan, s, a);
            var next := NextUnsettled(s.stages, s.settled);
            n.calls == s.calls
            || (s.phase == Looping && next.Some? &&
                  var input := ResolveRecoveryInput(plan, next.value, s.current, s.outputs, a.converted);
                  input.Some? && (n.calls == s.calls + [Call(next.value, input.value, a.driven)]
                    || (a.conclusive && next.value.ordinal == 1 && 2 in s.settled && n.calls == s.calls + [Call(next.value, s.current, a.driven)])))
  {
    var next := NextUnsettled(s.stages, s.settled);
    if s.phase == Looping && next.Some? {
      BuyOutcomes(plan, s, next.value, a);
      var input := ResolveRecoveryInput(plan, next.value, s.current, s.outputs, a.converted);
      if input.Some? {
        var t := s.(calls := s.calls + [Call(next.value, input.value, a.driven)]);
        match a.driven
        case Settled(actualIn, actualOut, proven) => SettleOutcomes(plan, t, Settlement(next.value, input.value, actualIn, actualOut), proven, a);
        case Failed(_, _, _, _) => FailOfDual(plan, t, next.value, a.driven, a);
      }
    }
  }

  /** And every driver the recovery calls, whether it settles or fails, is given
      what its stage is due by what is durable before; buying again apart, which
      it does only with the sale durable and the buy not. */
  lemma DrivenAcrossCrashes(plan: Plan, a: ParallelExecutor.Answers, events: seq<Event>, next: Answer)
    requires Dual(plan) && OriginExitFits(plan) && Operate(plan, a, events).Resumed?
    ensures var s := Operate(plan, a, events).recovery;
            var n := Turn(plan, s, next);
            var ss := s.journal.settlements;
            n.calls == s.calls
            || (exists c :: n.calls == s.calls + [c] && c.stage in AllStages(plan)
                  && (DualFedBy(plan, ss, c.stage, c.input) || (next.conclusive && BoughtAgain(ss, c.stage.ordinal))))
  {
    OperationFed(plan, a, events);
    var s := Operate(plan, a, events).recovery;
    TurnCalls(plan, s, next);
    if Turn(plan, s, next).calls != s.calls {
      var stage := NextUnsettled(s.stages, s.settled).value;
      NextIsDue(plan, s, stage);
      ResolvedIsDue(plan, s.journal.settlements, stage, s.current, next.converted);
    }
  }
}
