/** Recovering a dual-inventory plan whose sale is durable: when a sale can be
    driven again, and when not even a bridge. */
module DualInventoryLaws {
  import opened Common
  import opened SequentialPlan
  import opened SagaJournal
  import opened SequentialRecovery
  import opened RecoveryLaws

  ghost predicate Dual(plan: Plan) { PlanOk(plan) && DualInventory(plan) }

  /** The operation from a durable journal on, with any crashes and resumes. */
  function RunFrom(plan: Plan, j: Journal, events: seq<Event>): Process {
    if |events| == 0 then Down(j)
    else Happen(plan, true, RunFrom(plan, j, events[..|events| - 1]), events[|events| - 1])
  }

  function BreakerOrdinal(plan: Plan): int { if |plan.circuitBreaker| == 1 then plan.circuitBreaker[0].ordinal else 0 }

  /** The buy is missing, the origin sale is decided, and it is not durable. */
  predicate OriginSaleOpen(plan: Plan, j: Journal) {
    var settled := SettledOrdinals(j.settlements);
    1 !in settled && j.decision == Some(SellAtOrigin) && BreakerOrdinal(plan) !in settled
  }

  /** What the recovery may be promised: nothing more than no sale, only
      bridges, or no call at all. */
  datatype Promise = NoSale | OnlyBridges | NoCall

  predicate Kept(promise: Promise, c: Call) {
    match promise
    case NoSale => c.stage.kind != Sell
    case OnlyBridges => c.stage.kind == BridgeBase || c.stage.kind == BridgeQuoteReturn
    case NoCall => false
  }

  predicate DurableFor(plan: Plan, j: Journal, promise: Promise) {
    var settled := SettledOrdinals(j.settlements);
    && 2 in settled && !OriginSaleOpen(plan, j)
    && (promise != NoSale ==> 1 in settled)
    && (promise == NoCall ==> BuyRestoredOnSellChain(plan, j.settlements))
  }

  ghost predicate StagesFor(plan: Plan, s: Recovery) {
    s.stages == plan.stages || (s.stages == Take(plan.stages, 1) + plan.circuitBreaker && BreakerOrdinal(plan) in s.settled)
  }

  ghost predicate RecoveryFor(plan: Plan, s: Recovery, promise: Promise) {
    && DurableFor(plan, s.journal, promise)
    && (forall i :: 0 <= i < |s.calls| ==> Kept(promise, s.calls[i]))
    && (s.phase == Looping ==>
        StagesFor(plan, s) && 2 in s.settled && (promise != NoSale ==> 1 in s.settled && s.stages == plan.stages) && (promise == NoCall ==> 3 in s.settled && 4 in s.settled))
  }

  ghost predicate ProcessFor(plan: Plan, p: Process, promise: Promise) {
    match p
    case Executing(_) => false
    case Down(j) => DurableFor(plan, j, promise)
    case Resumed(s) => RecoveryFor(plan, s, promise)
  }

  lemma ResumeFor(plan: Plan, j: Journal, a: Answer, promise: Promise)
    requires Dual(plan) && DurableFor(plan, j, promise)
    ensures RecoveryFor(plan, Resume(plan, j, a), promise)
  {
  }

  lemma {:induction false} NextIsAhead(stages: seq<Stage>, settled: set<int>)
    ensures var next := NextUnsettled(stages, settled);
            next.Some? ==> next.value.ordinal !in settled && exists i :: 0 <= i < |stages| && stages[i] == next.value
  {
    if |stages| > 0 && stages[0].ordinal in settled {
      NextIsAhead(stages[1..], settled);
      if NextUnsettled(stages[1..], settled).Some? {
        var i :| 0 <= i < |stages[1..]| && stages[1..][i] == NextUnsettled(stages[1..], settled).value;
        assert stages[i + 1] == NextUnsettled(stages, settled).value;
      }
    }
  }

  /** Whatever is next keeps the promise. */
  lemma NextKept(plan: Plan, s: Recovery, promise: Promise, input: Amount, outcome: Driven)
    requires Dual(plan) && RecoveryFor(plan, s, promise) && s.phase == Looping
    ensures var next := NextUnsettled(s.stages, s.settled);
            next.Some? ==> Kept(promise, Call(next.value, input, outcome)) && next.value.ordinal != 2 && (promise != NoSale ==> next.value.ordinal != 1)
  {
    NextIsAhead(s.stages, s.settled);
    var next := NextUnsettled(s.stages, s.settled);
    if next.Some? {
      var i :| 0 <= i < |s.stages| && s.stages[i] == next.value;
      assert s.stages == plan.stages ==> next.value == plan.stages[i];
    }
  }

  lemma RecordedFor(plan: Plan, j: Journal, promise: Promise, settlement: Settlement)
    requires DurableFor(plan, j, promise) && (promise != NoSale ==> settlement.stage.ordinal != 1)
    ensures DurableFor(plan, j.(settlements := j.settlements + [settlement]), promise)
  {
    SettledAppend(j.settlements, settlement);
    if promise == NoCall {
      var ss, all := j.settlements, j.settlements + [settlement];
      var i :| 0 <= i < |ss| && ss[i].stage.ordinal == 1 && ss[i].stage.sourceChain == plan.stages[1].sourceChain && LastBuy(ss, i);
      assert all[i] == ss[i] && LastBuy(all, i);
    }
  }

  /** A failure of any stage but the sale changes no more than the phase. */
  lemma FailOfOther(plan: Plan, s: Recovery, stage: Stage, d: Driven, a: Answer)
    requires DualInventory(plan) && d.Failed? && stage.ordinal != 2
    ensures var n := Fail(plan, s, stage, d, a); n == s || n == s.(phase := Stopped) || n == Block(s, a)
  {
  }

  lemma SettleFor(plan: Plan, s: Recovery, settlement: Settlement, proven: bool, a: Answer, promise: Promise)
    requires Dual(plan) && RecoveryFor(plan, s, promise) && s.phase == Looping
    requires settlement.stage.ordinal != 2 && (promise != NoSale ==> settlement.stage.ordinal != 1)
    ensures RecoveryFor(plan, Settle(plan, s, settlement, proven, a), promise)
  {
    SettleOutcomes(plan, s, settlement, proven, a);
    RecordedFor(plan, s.journal, promise, settlement);
  }

  lemma DriveFor(plan: Plan, s: Recovery, stage: Stage, input: Amount, a: Answer, promise: Promise)
    requires Dual(plan) && RecoveryFor(plan, s, promise) && s.phase == Looping && stage.ordinal != 2
    requires Kept(promise, Call(stage, input, a.driven)) && (promise != NoSale ==> stage.ordinal != 1)
    ensures RecoveryFor(plan, Drive(plan, s, stage, input, a), promise)
  {
    var t := s.(calls := s.calls + [Call(stage, input, a.driven)]);
    assert RecoveryFor(plan, t, promise);
    match a.driven
    case Failed(_, _, _, _) => FailOfOther(plan, t, stage, a.driven, a);
    case Settled(actualIn, actualOut, proven) => SettleFor(plan, t, Settlement(stage, input, actualIn, actualOut), proven, a, promise);
  }

  lemma BuyAgainFor(plan: Plan, s: Recovery, stage: Stage, a: Answer)
    requires Dual(plan) && RecoveryFor(plan, s, NoSale) && s.phase == Looping && stage.ordinal == 1 && stage.kind == Buy
    ensures RecoveryFor(plan, BuyAgain(plan, s, stage, a), NoSale)
  {
    BuyOutcomes(plan, s, stage, a);
    if a.rebuy.Some? { RecordedFor(plan, s.journal, NoSale, Bought(stage, a.rebuy.value)); }
  }

  lemma TurnFor(plan: Plan, s: Recovery, a: Answer, promise: Promise)
    requires Dual(plan) && RecoveryFor(plan, s, promise)
    ensures RecoveryFor(plan, Turn(plan, s, a), promise)
  {
    if s.phase != Looping { return; }
    var next := NextUnsettled(s.stages, s.settled);
    if next.None? { return; }
    var input := ResolveRecoveryInput(plan, next.value, s.current, s.outputs, a.converted);
    if input.None? { return; }
    NextKept(plan, s, promise, input.value, a.driven);
    if next.value.ordinal == 1 {
      FirstIsBuy(plan, s);
      BuyAgainFor(plan, s, next.value, a);
    }
    DriveFor(plan, s, next.value, input.value, a, promise);
  }

  lemma FirstIsBuy(plan: Plan, s: Recovery)
    requires Dual(plan) && StagesFor(plan, s)
    ensures var next := NextUnsettled(s.stages, s.settled);
            next.Some? && next.value.ordinal == 1 ==> next.value.kind == Buy
  {
    NextIsAhead(s.stages, s.settled);
    assert AllStages(plan)[4] == plan.circuitBreaker[0] && AllStages(plan)[0] == plan.stages[0];
    assert plan.circuitBreaker[0].ordinal != plan.stages[0].ordinal;
  }

  lemma {:induction false} RunFor(plan: Plan, j: Journal, events: seq<Event>, promise: Promise)
    requires Dual(plan) && DurableFor(plan, j, promise)
    ensures ProcessFor(plan, RunFrom(plan, j, events), promise)
  {
    if |events| > 0 {
      var p := RunFrom(plan, j, events[..|events| - 1]);
      RunFor(plan, j, events[..|events| - 1], promise);
      match events[|events| - 1]
      case ExecutorTurn(_) =>
      case Crash =>
      case Resumption(a) => if p.Down? { ResumeFor(plan, p.journal, a, promise); }
      case RecoveryTurn(a) => if p.Resumed? { TurnFor(plan, p.recovery, a, promise); }
    }
  }

  /** The calls the recovery has made since it was last resumed. */
  function CallsOf(p: Process): seq<Call> { if p.Resumed? then p.recovery.calls else [] }

  /** Once both legs are durable only the two bridges can run. */
  lemma OnlyBridgesLeft(plan: Plan, j: Journal, events: seq<Event>)
    requires Dual(plan) && 1 in SettledOrdinals(j.settlements) && 2 in SettledOrdinals(j.settlements)
    ensures var calls := CallsOf(RunFrom(plan, j, events));
            forall i :: 0 <= i < |calls| ==> calls[i].stage.kind == BridgeBase || calls[i].stage.kind == BridgeQuoteReturn
  {
    RunFor(plan, j, events, OnlyBridges);
    var calls := CallsOf(RunFrom(plan, j, events));
    assert forall i :: 0 <= i < |calls| ==> Kept(OnlyBridges, calls[i]);
  }

  /** And not even these where the buy was restored on the sale's chain. */
  lemma NothingLeft(plan: Plan, j: Journal, events: seq<Event>)
    requires Dual(plan) && 1 in SettledOrdinals(j.settlements) && BuyRestoredOnSellChain(plan, j.settlements)
    ensures CallsOf(RunFrom(plan, j, events)) == []
  {
    RunFor(plan, j, events, NoCall);
    var calls := CallsOf(RunFrom(plan, j, events));
    assert calls == [] || Kept(NoCall, calls[0]);
  }

  ghost predicate SaleDriven(plan: Plan, j: Journal, events: seq<Event>) {
    exists i :: 0 <= i < |CallsOf(RunFrom(plan, j, events))| && CallsOf(RunFrom(plan, j, events))[i].stage.kind == Sell
  }

  lemma NoSecondSale(plan: Plan, j: Journal, events: seq<Event>)
    requires Dual(plan) && 2 in SettledOrdinals(j.settlements) && !OriginSaleOpen(plan, j)
    ensures !SaleDriven(plan, j, events)
  {
    RunFor(plan, j, events, NoSale);
    var calls := CallsOf(RunFrom(plan, j, events));
    assert forall i :: 0 <= i < |calls| ==> Kept(NoSale, calls[i]);
  }

  // ---------- the condition is exact ----------

  /** The tokens fit along the origin exit, as the constructors make them. */
  ghost predicate OriginExitFits(plan: Plan)
    requires Dual(plan)
  {
    var breaker := plan.circuitBreaker[0];
    && plan.initialInput.token == plan.stages[0].inputToken
    && breaker.kind == Sell && breaker.inputFrom == 1 && breaker.dependsOn == [1] && breaker.inputToken == plan.stages[0].outputToken
  }

  lemma ParallelPlansFit(id: string, o: Opportunity, initialInput: Amount, buyChain: string, sellChain: string, dated: bool,
                         baseAsset: string, quoteAsset: string, decimals: map<string, nat>)
    requires baseAsset != "" && quoteAsset != "" && decimals != map[]
    requires NewPrefundedParallelPlan(id, o, initialInput, buyChain, sellChain, dated).Some?
    ensures var plan := NewPrefundedParallelPlan(id, o, initialInput, buyChain, sellChain, dated).value
                          .(baseAsset := baseAsset, quoteAsset := quoteAsset, decimals := decimals);
            Dual(plan) && OriginExitFits(plan)
  {
    ParallelPlans(id, o, initialInput, buyChain, sellChain, dated, baseAsset, quoteAsset, decimals);
  }

  /** The buy's driver settles; everything is written down. */
  function BuySettles(plan: Plan): Answer
    requires |plan.stages| > 0
  {
    var buy := plan.stages[0];
    Answer(None, false, 0, Settled(Amount(buy.inputToken, 1), Amount(buy.outputToken, 1), true), false,
           false, None, Written, None, Written, true, true, Written)
  }

  /** Such a journal resumes with the buy and the origin sale ahead. */
  lemma ResumeOpen(plan: Plan, j: Journal, a: Answer)
    requires Dual(plan) && Resumable(j) && 2 in SettledOrdinals(j.settlements) && OriginSaleOpen(plan, j)
    ensures var s := Resume(plan, j, a);
            && s.phase == Looping && s.calls == [] && s.stages == [plan.stages[0], plan.circuitBreaker[0]]
            && 1 !in s.settled && plan.circuitBreaker[0].ordinal !in s.settled
    ensures NextUnsettled(Resume(plan, j, a).stages, Resume(plan, j, a).settled) == Some(plan.stages[0])
    ensures plan.circuitBreaker[0].ordinal != 1 && plan.circuitBreaker[0].ordinal != 2
  {
    var all := AllStages(plan);
    assert all[4] == plan.circuitBreaker[0] && all[0].ordinal == 1 && all[1].ordinal == 2;
    assert Take(plan.stages, 1) + plan.circuitBreaker == [plan.stages[0], plan.circuitBreaker[0]];
    NextAfterPrefix([plan.stages[0], plan.circuitBreaker[0]], SettledOrdinals(j.settlements), 0);
  }

  /** The turn after the buy drives the origin sale. */
  lemma SaleTurn(plan: Plan, s: Recovery, a: Answer)
    requires Dual(plan) && OriginExitFits(plan) && s.phase == Looping && |s.calls| == 1
    requires s.stages == [plan.stages[0], plan.circuitBreaker[0]] && 1 in s.settled
    requires plan.circuitBreaker[0].ordinal !in s.settled && plan.circuitBreaker[0].ordinal != 1 && plan.circuitBreaker[0].ordinal != 2
    requires 1 in s.outputs && s.outputs[1] == Amount(plan.stages[0].outputToken, 1)
    ensures var n := Turn(plan, s, a); |n.calls| == 2 && n.calls[1].stage == plan.circuitBreaker[0]
  {
    NextAfterPrefix(s.stages, s.settled, 1);
  }

  lemma BuyThenSale(plan: Plan, j: Journal, a: Answer)
    requires Dual(plan) && OriginExitFits(plan) && Resumable(j) && 2 in SettledOrdinals(j.settlements) && OriginSaleOpen(plan, j)
    ensures var s := Turn(plan, Turn(plan, Resume(plan, j, a), BuySettles(plan)), a);
            |s.calls| == 2 && s.calls[1].stage == plan.circuitBreaker[0]
  {
    ResumeOpen(plan, j, a);
    BuyTurn(plan, Resume(plan, j, a));
    SaleTurn(plan, Turn(plan, Resume(plan, j, a), BuySettles(plan)), a);
  }

  lemma BuyTurn(plan: Plan, s: Recovery)
    requires Dual(plan) && OriginExitFits(plan) && s.phase == Looping && s.calls == [] && 1 !in s.settled
    requires NextUnsettled(s.stages, s.settled) == Some(plan.stages[0])
    ensures var n := Turn(plan, s, BuySettles(plan));
            && n.phase == Looping && n.stages == s.stages && n.settled == s.settled + {1} && |n.calls| == 1
            && 1 in n.outputs && n.outputs[1] == Amount(plan.stages[0].outputToken, 1)
  {
    assert AllStages(plan)[0] == plan.stages[0] && StageOk(AllStages(plan)[0]);
  }

  /** With the sale durable, a sale can be driven again exactly when the buy is
      missing, the origin sale is decided, and it is not durable itself. */
  lemma SecondSaleIff(plan: Plan, j: Journal)
    requires Dual(plan) && OriginExitFits(plan) && Resumable(j) && 2 in SettledOrdinals(j.settlements)
    ensures OriginSaleOpen(plan, j) <==> exists events :: SaleDriven(plan, j, events)
  {
    if OriginSaleOpen(plan, j) {
      SaleAgain(plan, j);
    } else {
      forall events ensures !SaleDriven(plan, j, events) { NoSecondSale(plan, j, events); }
    }
  }

  lemma SaleAgain(plan: Plan, j: Journal)
    requires Dual(plan) && OriginExitFits(plan) && Resumable(j) && 2 in SettledOrdinals(j.settlements) && OriginSaleOpen(plan, j)
    ensures exists events :: SaleDriven(plan, j, events)
  {
    var a := BuySettles(plan);
    var events := [Resumption(a), RecoveryTurn(a), RecoveryTurn(a)];
    BuyThenSale(plan, j, a);
    ThreeEvents(plan, j, a);
    assert CallsOf(RunFrom(plan, j, events))[1].stage.kind == Sell;
    assert SaleDriven(plan, j, events);
  }

  lemma ThreeEvents(plan: Plan, j: Journal, a: Answer)
    requires Resumable(j)
    ensures RunFrom(plan, j, [Resumption(a), RecoveryTurn(a), RecoveryTurn(a)])
            == Resumed(Turn(plan, Turn(plan, Resume(plan, j, a), a), a))
  {
    var events := [Resumption(a), RecoveryTurn(a), RecoveryTurn(a)];
    assert events[..2] == [Resumption(a), RecoveryTurn(a)] && events[..2][..1] == [Resumption(a)] && events[..2][..1][..0] == [];
    assert RunFrom(plan, j, events[..2][..1]) == Happen(plan, true, Down(j), Resumption(a));
  }
}
