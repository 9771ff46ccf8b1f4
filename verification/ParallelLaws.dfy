/** How a run of the parallel executor ends, in terms of what its workers, the
    converters and the store answered. */
module ParallelLaws {
  import opened Common
  import opened SequentialPlan
  import opened SagaJournal
  import opened ParallelExecutor

  // ---------- the two legs ----------

  /** The settlement is in order and was written down. */
  predicate Taken(stage: Stage, input: Amount, actualIn: Amount, actualOut: Amount, proven: bool, write: Write) {
    && SettlementOk(stage, input, actualIn, actualOut, proven)
    && write == Written
  }

  predicate SwapTaken(plan: Plan, swap: Swap)
    requires |plan.stages| == 4 && ParallelSellInput(plan).Some?
  {
    if swap.sale then Taken(plan.stages[1], ParallelSellInput(plan).value, swap.actualIn, swap.actualOut, swap.proven, swap.write)
    else Taken(plan.stages[0], plan.initialInput, swap.actualIn, swap.actualOut, swap.proven, swap.write)
  }

  predicate SwapsTaken(plan: Plan, swaps: seq<Swap>)
    requires |plan.stages| == 4 && ParallelSellInput(plan).Some?
  {
    forall i :: 0 <= i < |swaps| ==> SwapTaken(plan, swaps[i])
  }

  lemma {:induction false} SwapsTakenIff(plan: Plan, s: Operation, swaps: seq<Swap>)
    requires |plan.stages| == 4 && ParallelSellInput(plan).Some?
    ensures RecordSwaps(plan, ParallelSellInput(plan).value, s, swaps).1 <==> SwapsTaken(plan, swaps)
  {
    if |swaps| > 0 {
      var shorter := swaps[..|swaps| - 1];
      SwapsTakenIff(plan, s, shorter);
      assert SwapsTaken(plan, swaps) <==> SwapsTaken(plan, shorter) && SwapTaken(plan, swaps[|swaps| - 1]) by {
        assert forall i :: 0 <= i < |shorter| ==> shorter[i] == swaps[i];
      }
    }
  }

  /** What the one buy and the one sale yielded. */
  predicate OneOfEach(swaps: seq<Swap>) { |swaps| == 2 && swaps[0].sale != swaps[1].sale }

  function BuyOf(swaps: seq<Swap>): Swap
    requires OneOfEach(swaps)
  {
    if swaps[0].sale then swaps[1] else swaps[0]
  }

  function SaleOf(swaps: seq<Swap>): Swap
    requires OneOfEach(swaps)
  {
    if swaps[0].sale then swaps[0] else swaps[1]
  }

  lemma OutputsOfTwo(swaps: seq<Swap>)
    requires |swaps| == 2
    ensures OneOfEach(swaps) <==> 1 in SwapOutputs(swaps) && 2 in SwapOutputs(swaps)
    ensures OneOfEach(swaps) ==> SwapOutputs(swaps) == map[1 := BuyOf(swaps).actualOut, 2 := SaleOf(swaps).actualOut]
  {
    var first := swaps[..1];
    assert first[..0] == [] && first[0] == swaps[0];
    assert SwapOutputs(first) == map[if swaps[0].sale then 2 else 1 := swaps[0].actualOut];
  }

  // ---------- the two bridges ----------

  /** An output as a bridge takes it: converted only to another token. */
  function BridgeInput(stage: Stage, from: Amount, converted: Option<Amount>): Option<Amount> {
    if from.token == stage.inputToken then Some(from) else converted
  }

  predicate BridgeTaken(stage: Stage, input: Amount, b: Bridge) {
    match b.driven
    case Failed(_, _, _, _) => false
    case Settled(actualIn, actualOut, proven) => Taken(stage, input, actualIn, actualOut, proven, b.write)
  }

  lemma BridgeTakenIff(s: Operation, stage: Stage, input: Amount, b: Bridge)
    ensures RecordBridge(s, stage, input, b).1 <==> BridgeTaken(stage, input, b)
    ensures RecordBridge(s, stage, input, b).0.state == s.state
    ensures RecordBridge(s, stage, input, b).0.journal.state == s.journal.state
  {
  }

  /** Both bridges can be started: each leg is in, each output there to bridge,
      and a detached quote bridge was admitted. */
  predicate BridgesStart(plan: Plan, a: Answers)
    requires |plan.stages| == 4
  {
    && OneOfEach(a.swaps)
    && BridgeInput(plan.stages[2], BuyOf(a.swaps).actualOut, a.base.converted).Some?
    && BridgeInput(plan.stages[3], SaleOf(a.swaps).actualOut, a.quote.converted).Some?
    && (a.detached ==> a.admitted)
  }

  /** Every bridge that is waited for settled and was written down. */
  predicate BridgesTaken(plan: Plan, a: Answers)
    requires |plan.stages| == 4 && BridgesStart(plan, a)
  {
    && BridgeTaken(plan.stages[2], BridgeInput(plan.stages[2], BuyOf(a.swaps).actualOut, a.base.converted).value, a.base)
    && (!a.detached ==>
          BridgeTaken(plan.stages[3], BridgeInput(plan.stages[3], SaleOf(a.swaps).actualOut, a.quote.converted).value, a.quote))
  }

  /** A bridge's input depends on nothing but the leg it follows. */
  lemma BridgeResolves(plan: Plan, stage: Stage, outputs: map<int, Amount>, converted: Option<Amount>)
    requires stage.inputFrom != 0 && stage.dependsOn == [stage.inputFrom] && stage.ordinal > 2
    requires stage.inputFrom in outputs ==> outputs[stage.inputFrom].units != 0
    ensures ResolveInput(plan, stage, plan.initialInput, outputs, converted) ==
            if stage.inputFrom in outputs then BridgeInput(stage, outputs[stage.inputFrom], converted) else None
  {
    assert stage.dependsOn[0] == stage.inputFrom;
  }

  // ---------- the end ----------

  predicate LegsTaken(plan: Plan, a: Answers)
    requires |plan.stages| == 4
  {
    Starts(plan) && SwapsTaken(plan, a.swaps) && a.failure.None?
  }

  predicate Completes(plan: Plan, a: Answers)
    requires |plan.stages| == 4
  {
    LegsTaken(plan, a) && BridgesStart(plan, a) && BridgesTaken(plan, a) && a.accounted && a.resultKept
  }

  predicate Aborts(plan: Plan, a: Answers)
    requires |plan.stages| == 4
  {
    Starts(plan) && a.swaps == [] && a.failure.Some? && Definitive(a.failure.value)
  }

  /** The run ends without an outcome of its own, and is resumed later. */
  predicate Leaves(plan: Plan, a: Answers)
    requires |plan.stages| == 4
  {
    || !Starts(plan)
    || (LegsTaken(plan, a) && !BridgesStart(plan, a))
    || (LegsTaken(plan, a) && BridgesStart(plan, a) && BridgesTaken(plan, a) && a.accounted && !a.resultKept)
  }

  lemma SwapsKeepState(plan: Plan, sellInput: Amount, s: Operation, swaps: seq<Swap>)
    requires |plan.stages| == 4
    ensures RecordSwaps(plan, sellInput, s, swaps).0.state == s.state
    ensures RecordSwaps(plan, sellInput, s, swaps).0.journal.state == s.journal.state
  {
    if |swaps| > 0 { SwapsKeepState(plan, sellInput, s, swaps[..|swaps| - 1]); }
  }

  /** The rest of a run whose legs are in. */
  lemma RebalanceEnds(plan: Plan, s: Operation, a: Answers)
    requires PlanOk(plan) && DualInventory(plan) && LegsTaken(plan, a) && |a.swaps| == 2
    requires s.state == Running && s.journal.state == Running
    ensures var n := Rebalance(plan, s, SwapOutputs(a.swaps), a);
            && n.state == (if !BridgesStart(plan, a) then Running
                           else if !BridgesTaken(plan, a) || !a.accounted then Manual
                           else if !a.resultKept then Running else Completed)
            && n.journal.state == (if a.finishWrite == Lost then Running else n.state)
  {
    var outputs := SwapOutputs(a.swaps);
    OutputsOfTwo(a.swaps);
    assert SwapTaken(plan, a.swaps[0]) && SwapTaken(plan, a.swaps[1]);
    BridgeResolves(plan, plan.stages[2], outputs, a.base.converted);
    BridgeResolves(plan, plan.stages[3], outputs, a.quote.converted);
    if BridgesStart(plan, a) {
      var base := BridgeInput(plan.stages[2], BuyOf(a.swaps).actualOut, a.base.converted).value;
      var quote := BridgeInput(plan.stages[3], SaleOf(a.swaps).actualOut, a.quote.converted).value;
      BridgeTakenIff(s, plan.stages[2], base, a.base);
      BridgeTakenIff(RecordBridge(s, plan.stages[2], base, a.base).0, plan.stages[3], quote, a.quote);
    }
  }

  /** The run is completed exactly if both legs and every bridge that is waited
      for were recorded, the accounting succeeded and the result was kept. It is
      aborted exactly if nothing traded and that is certain; left as it is where
      it could not start its legs or its bridges or keep its result; and in
      every other case handed to an operator. */
  lemma RunEnds(plan: Plan, a: Answers)
    requires PlanOk(plan) && DualInventory(plan)
    ensures var n := Run(plan, a);
            && (n.state == Completed <==> Completes(plan, a))
            && (n.state == Aborted <==> Aborts(plan, a))
            && (n.state == Running <==> Leaves(plan, a))
            && n.state != Blocked
            && n.journal.state == (if a.finishWrite == Lost then Running else n.state)
  {
    if Starts(plan) {
      var sellInput, s := ParallelSellInput(plan).value, Start(plan);
      SwapsTakenIff(plan, s, a.swaps);
      SwapsKeepState(plan, sellInput, s, a.swaps);
      if LegsTaken(plan, a) && |a.swaps| == 2 {
        RebalanceEnds(plan, RecordSwaps(plan, sellInput, s, a.swaps).0, a);
      }
    }
  }

  // ---------- what a completed run leaves ----------

  function BridgeSettlement(stage: Stage, input: Amount, b: Bridge): Settlement
    requires b.driven.Settled?
  {
    Settlement(stage, input, b.driven.actualIn, b.driven.actualOut)
  }

  lemma BridgeRecords(s: Operation, stage: Stage, input: Amount, b: Bridge)
    requires BridgeTaken(stage, input, b)
    ensures RecordBridge(s, stage, input, b).0.journal.settlements == s.journal.settlements + [BridgeSettlement(stage, input, b)]
  {
  }

  lemma TwoSwapsRecord(plan: Plan, s: Operation, swaps: seq<Swap>)
    requires |plan.stages| == 4 && ParallelSellInput(plan).Some? && |swaps| == 2 && SwapsTaken(plan, swaps)
    ensures var sellInput := ParallelSellInput(plan).value;
            RecordSwaps(plan, sellInput, s, swaps).0.journal.settlements
            == s.journal.settlements + [SwapSettlement(plan, sellInput, swaps[0]), SwapSettlement(plan, sellInput, swaps[1])]
  {
    var sellInput := ParallelSellInput(plan).value;
    assert SwapTaken(plan, swaps[0]) && SwapTaken(plan, swaps[1]);
    var first := swaps[..1];
    assert first[..0] == [] && first[0] == swaps[0];
    assert RecordSwaps(plan, sellInput, s, first[..0]) == (s, true);
    var t := RecordSwaps(plan, sellInput, s, first).0;
    assert t == Record(s, SwapSettlement(plan, sellInput, swaps[0]), swaps[0].proven, swaps[0].write).0;
    assert t.journal.settlements == s.journal.settlements + [SwapSettlement(plan, sellInput, swaps[0])];
  }

  /** A completed run leaves the buy, the sale and the base bridge, and the quote
      bridge unless it was detached, each as it was driven and reported. */
  lemma CompletedLeaves(plan: Plan, a: Answers)
    requires PlanOk(plan) && DualInventory(plan) && Completes(plan, a)
    ensures var sellInput := ParallelSellInput(plan).value;
            var base := BridgeInput(plan.stages[2], BuyOf(a.swaps).actualOut, a.base.converted).value;
            var quote := BridgeInput(plan.stages[3], SaleOf(a.swaps).actualOut, a.quote.converted).value;
            Run(plan, a).journal.settlements
            == [SwapSettlement(plan, sellInput, a.swaps[0]), SwapSettlement(plan, sellInput, a.swaps[1]),
                BridgeSettlement(plan.stages[2], base, a.base)]
               + (if a.detached then [] else [BridgeSettlement(plan.stages[3], quote, a.quote)])
  {
    var sellInput, s, outputs := ParallelSellInput(plan).value, Start(plan), SwapOutputs(a.swaps);
    SwapsTakenIff(plan, s, a.swaps);
    TwoSwapsRecord(plan, s, a.swaps);
    OutputsOfTwo(a.swaps);
    assert SwapTaken(plan, a.swaps[0]) && SwapTaken(plan, a.swaps[1]);
    BridgeResolves(plan, plan.stages[2], outputs, a.base.converted);
    BridgeResolves(plan, plan.stages[3], outputs, a.quote.converted);
    var base := BridgeInput(plan.stages[2], BuyOf(a.swaps).actualOut, a.base.converted).value;
    var quote := BridgeInput(plan.stages[3], SaleOf(a.swaps).actualOut, a.quote.converted).value;
    var t := RecordSwaps(plan, sellInput, s, a.swaps).0;
    RebalanceLeaves(plan, t, base, quote, a);
  }

  lemma RebalanceLeaves(plan: Plan, s: Operation, base: Amount, quote: Amount, a: Answers)
    requires |plan.stages| == 4 && (a.detached ==> a.admitted) && a.accounted && a.resultKept
    requires ResolveInput(plan, plan.stages[2], plan.initialInput, SwapOutputs(a.swaps), a.base.converted) == Some(base)
    requires ResolveInput(plan, plan.stages[3], plan.initialInput, SwapOutputs(a.swaps), a.quote.converted) == Some(quote)
    requires BridgeTaken(plan.stages[2], base, a.base) && (!a.detached ==> BridgeTaken(plan.stages[3], quote, a.quote))
    ensures Rebalance(plan, s, SwapOutputs(a.swaps), a).journal.settlements
            == s.journal.settlements + [BridgeSettlement(plan.stages[2], base, a.base)]
               + (if a.detached then [] else [BridgeSettlement(plan.stages[3], quote, a.quote)])
  {
    BridgeTakenIff(s, plan.stages[2], base, a.base);
    BridgeRecords(s, plan.stages[2], base, a.base);
    var t := RecordBridge(s, plan.stages[2], base, a.base).0;
    if !a.detached {
      BridgeTakenIff(t, plan.stages[3], quote, a.quote);
      BridgeRecords(t, plan.stages[3], quote, a.quote);
    }
  }

  // ---------- where a completed run stands ----------

  lemma {:induction false} SwapsStand(plan: Plan, sellInput: Amount, s: Operation, swaps: seq<Swap>)
    requires PlanOk(plan) && DualInventory(plan) && s.currentStage <= 2
    ensures RecordSwaps(plan, sellInput, s, swaps).0.currentStage <= 2
  {
    if |swaps| > 0 { SwapsStand(plan, sellInput, s, swaps[..|swaps| - 1]); }
  }

  lemma BridgeStands(s: Operation, stage: Stage, input: Amount, b: Bridge)
    requires BridgeTaken(stage, input, b) && s.currentStage <= stage.ordinal
    ensures var t := RecordBridge(s, stage, input, b).0;
            t.currentStage == stage.ordinal && t.currentAmount == b.driven.actualOut
  {
  }

  lemma RebalanceStands(plan: Plan, s: Operation, base: Amount, quote: Amount, a: Answers)
    requires PlanOk(plan) && DualInventory(plan) && s.currentStage <= 2
    requires (a.detached ==> a.admitted) && a.accounted && a.resultKept
    requires ResolveInput(plan, plan.stages[2], plan.initialInput, SwapOutputs(a.swaps), a.base.converted) == Some(base)
    requires ResolveInput(plan, plan.stages[3], plan.initialInput, SwapOutputs(a.swaps), a.quote.converted) == Some(quote)
    requires BridgeTaken(plan.stages[2], base, a.base) && (!a.detached ==> BridgeTaken(plan.stages[3], quote, a.quote))
    ensures var n := Rebalance(plan, s, SwapOutputs(a.swaps), a);
            && n.currentStage == (if a.detached then 3 else 4)
            && n.currentAmount == (if a.detached then a.base.driven.actualOut else a.quote.driven.actualOut)
  {
    BridgeTakenIff(s, plan.stages[2], base, a.base);
    BridgeStands(s, plan.stages[2], base, a.base);
    var t := RecordBridge(s, plan.stages[2], base, a.base).0;
    if !a.detached {
      BridgeTakenIff(t, plan.stages[3], quote, a.quote);
      BridgeStands(t, plan.stages[3], quote, a.quote);
    }
  }

  /** A completed run stands at its last bridge, with what that yielded, in
      whichever order the legs came in. */
  lemma CompletedStands(plan: Plan, a: Answers)
    requires PlanOk(plan) && DualInventory(plan) && Completes(plan, a)
    ensures var n := Run(plan, a);
            && n.currentStage == (if a.detached then 3 else 4)
            && n.currentAmount == (if a.detached then a.base.driven.actualOut else a.quote.driven.actualOut)
  {
    var sellInput, s, outputs := ParallelSellInput(plan).value, Start(plan), SwapOutputs(a.swaps);
    SwapsTakenIff(plan, s, a.swaps);
    SwapsStand(plan, sellInput, s, a.swaps);
    OutputsOfTwo(a.swaps);
    assert SwapTaken(plan, a.swaps[0]) && SwapTaken(plan, a.swaps[1]);
    BridgeResolves(plan, plan.stages[2], outputs, a.base.converted);
    BridgeResolves(plan, plan.stages[3], outputs, a.quote.converted);
    var base := BridgeInput(plan.stages[2], BuyOf(a.swaps).actualOut, a.base.converted).value;
    var quote := BridgeInput(plan.stages[3], SaleOf(a.swaps).actualOut, a.quote.converted).value;
    RebalanceStands(plan, RecordSwaps(plan, sellInput, s, a.swaps).0, base, quote, a);
  }
}
