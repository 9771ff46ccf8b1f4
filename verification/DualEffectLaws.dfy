/** What took effect in a dual-inventory operation, durable or not: the trades
    whose drivers reported a settlement. When can the origin sale be made after
    the sale took effect, and when is an operation aborted after it? */
module DualEffectLaws {
  import opened Common
  import opened SequentialPlan
  import opened SagaJournal
  import opened SequentialRecovery
  import opened RecoveryLaws
  import opened DualInventoryLaws
  import opened DualOperationLaws
  import ParallelExecutor

  /** An operation, and the ordinals of the trades that took effect so far. */
  datatype World = World(process: Process, traded: set<int>)

  predicate IsTrade(stage: Stage) { stage.kind == Buy || stage.kind == Sell }

  // ---------- what a step makes take effect ----------

  /** What the drivers report took effect, whether or not it could be recorded. */
  function SwapTrades(swaps: seq<ParallelExecutor.Swap>): set<int> {
    set i | 0 <= i < |swaps| :: if swaps[i].sale then 2 else 1
  }

  function StartWorld(plan: Plan, a: ParallelExecutor.Answers): World
    requires |plan.stages| == 4
  {
    World(Down(ParallelExecutor.Run(plan, a).journal), if ParallelExecutor.Starts(plan) then SwapTrades(a.swaps) else {})
  }

  /** The stage a turn is about, if it comes to one. */
  function StageOf(p: Process): Option<Stage> {
    if p.Resumed? && p.recovery.phase == Looping then NextUnsettled(p.recovery.stages, p.recovery.settled) else None
  }

  predicate RecoversBuy(plan: Plan, s: Recovery, stage: Stage, a: Answer) {
    stage.ordinal == 1 && DualInventory(plan) && 2 in s.settled && a.conclusive
  }

  function TradedBy(plan: Plan, p: Process, e: Event): set<int> {
    if !e.RecoveryTurn? || StageOf(p).None? then {}
    else
      var s, stage, a := p.recovery, StageOf(p).value, e.next;
      if ResolveRecoveryInput(plan, stage, s.current, s.outputs, a.converted).None? then {}
      else if RecoversBuy(plan, s, stage, a) then
        if (plan.policy == PrefundedTriggerFirst && a.reverts >= 2) || !a.rebuySupported || a.rebuy.None? then {} else {1}
      else if stage.ordinal == 1 && a.conclusive then {}
      else if a.driven.Settled? && IsTrade(stage) then {stage.ordinal} else {}
  }

  function Act(plan: Plan, w: World, e: Event): World {
    World(Happen(plan, true, w.process, e), w.traded + TradedBy(plan, w.process, e))
  }

  function Live(plan: Plan, w: World, events: seq<Event>): World {
    if |events| == 0 then w else Act(plan, Live(plan, w, events[..|events| - 1]), events[|events| - 1])
  }

  /** Drivers tell the truth about a trade that took effect: its transactions are
      not all rejected or reverted, and recovering it never fails definitely. */
  predicate Truthful(w: World, e: Event) {
    e.RecoveryTurn? && StageOf(w.process).Some? && StageOf(w.process).value.ordinal in w.traded ==>
      !e.next.conclusive && (e.next.driven.Failed? ==> !Definitive(e.next.driven.disposition))
  }

  predicate TruthfulRun(plan: Plan, w: World, events: seq<Event>) {
    |events| > 0 ==>
      var before := events[..|events| - 1];
      TruthfulRun(plan, w, before) && Truthful(Live(plan, w, before), events[|events| - 1])
  }

  // ---------- what every world keeps ----------

  /** A durable trade took effect; the origin sale only where it is decided; and
      until the sale is durable the buy's output is something to sell. */
  ghost predicate Honest(plan: Plan, w: World) {
    var j := Durable(w.process);
    && ProcessDual(plan, w.process) && Tracked(plan, j, w.traded)
    && (BreakerOrdinal(plan) in w.traded ==> j.decision == Some(SellAtOrigin))
  }

  predicate Tracked(plan: Plan, j: Journal, traded: set<int>) {
    && PaidOut(j)
    && forall o {:trigger o in traded} :: TradeOrdinal(plan, o) && o in SettledOrdinals(j.settlements) ==> o in traded
  }

  predicate TradeOrdinal(plan: Plan, o: int) { o == 1 || o == 2 || o == BreakerOrdinal(plan) }

  /** A plan as the constructors make it. */
  ghost predicate Fits(plan: Plan) { Dual(plan) && OriginExitFits(plan) }

  predicate PaidOut(j: Journal) {
    1 in SettledOrdinals(j.settlements) && 2 !in SettledOrdinals(j.settlements) ==>
      1 in Outputs(j.settlements) && Outputs(j.settlements)[1].units != 0
  }

  /** The durable facts of a process that the proofs follow. */
  ghost predicate SameSettlements(before: Journal, after: Journal) { after.settlements == before.settlements }

  lemma PaidAppend(j: Journal, settlement: Settlement)
    requires PaidOut(j) && (settlement.stage.ordinal == 1 ==> settlement.actualOut.units != 0 || 2 in SettledOrdinals(j.settlements))
    ensures PaidOut(j.(settlements := j.settlements + [settlement]))
  {
    SettledAppend(j.settlements, settlement);
    var all := j.settlements + [settlement];
    assert all[..|all| - 1] == j.settlements;
  }

  /** A turn settles at most the stage it is about, and that took effect. */
  ghost predicate Recording(plan: Plan, p: Process, e: Event, before: Journal, after: Journal) {
    || SameSettlements(before, after)
    || exists x: Settlement :: after.settlements == before.settlements + [x] && StageOf(p).Some? && x.stage.ordinal == StageOf(p).value.ordinal
         && (x.stage.ordinal == 1 ==> x.actualOut.units != 0 || 2 in SettledOrdinals(before.settlements))
         && (TradeOrdinal(plan, x.stage.ordinal) ==> x.stage.ordinal in TradedBy(plan, p, e))
  }

  /** The decision changes only when the sale definitely failed. */
  predicate DecisionOfTurn(p: Process, e: Event, before: Journal, after: Journal) {
    after.decision == before.decision
    || (e.RecoveryTurn? && StageOf(p).Some? && StageOf(p).value.ordinal == 2
        && e.next.driven.Failed? && Definitive(e.next.driven.disposition))
  }

  lemma DriveRecords(plan: Plan, s: Recovery, stage: Stage, input: Amount, a: Answer)
    requires DualInventory(plan) && s.phase == Looping && StageOf(Resumed(s)) == Some(stage)
    requires ResolveRecoveryInput(plan, stage, s.current, s.outputs, a.converted) == Some(input)
    requires !RecoversBuy(plan, s, stage, a) && !(stage.ordinal == 1 && a.conclusive)
    requires TradeOrdinal(plan, stage.ordinal) ==> IsTrade(stage)
    ensures var n := Drive(plan, s, stage, input, a);
            && Recording(plan, Resumed(s), RecoveryTurn(a), s.journal, n.journal)
            && DecisionOfTurn(Resumed(s), RecoveryTurn(a), s.journal, n.journal)
  {
    var t := s.(calls := s.calls + [Call(stage, input, a.driven)]);
    match a.driven
    case Failed(_, _, _, _) => FailOfDual(plan, t, stage, a.driven, a);
    case Settled(actualIn, actualOut, proven) =>
      var x := Settlement(stage, input, actualIn, actualOut);
      SettleOutcomes(plan, t, x, proven, a);
  }

  lemma BuyAgainRecords(plan: Plan, s: Recovery, stage: Stage, a: Answer)
    requires Fits(plan) && DualRecovery(plan, s) && s.phase == Looping && StageOf(Resumed(s)) == Some(stage)
    requires ResolveRecoveryInput(plan, stage, s.current, s.outputs, a.converted).Some? && RecoversBuy(plan, s, stage, a)
    ensures var n := BuyAgain(plan, s, stage, a);
            && Recording(plan, Resumed(s), RecoveryTurn(a), s.journal, n.journal)
            && n.journal.decision == s.journal.decision
  {
    BuyOutcomes(plan, s, stage, a);
  }

  /** The trades are the stages with the trades' ordinals. */
  lemma TradesTrade(plan: Plan, s: Recovery)
    requires Fits(plan) && DualRecovery(plan, s) && s.phase == Looping
    ensures var next := NextUnsettled(s.stages, s.settled);
            next.Some? && TradeOrdinal(plan, next.value.ordinal) ==> IsTrade(next.value)
  {
    BreakerIsFifth(plan);
    NextIsAhead(s.stages, s.settled);
  }

  lemma TurnRecords(plan: Plan, s: Recovery, a: Answer)
    requires Fits(plan) && DualRecovery(plan, s)
    ensures var n := Turn(plan, s, a);
            && Recording(plan, Resumed(s), RecoveryTurn(a), s.journal, n.journal)
            && DecisionOfTurn(Resumed(s), RecoveryTurn(a), s.journal, n.journal)
  {
    var next := StageOf(Resumed(s));
    if next.None? { return; }
    var input := ResolveRecoveryInput(plan, next.value, s.current, s.outputs, a.converted);
    TradesTrade(plan, s);
    if input.Some? {
      if RecoversBuy(plan, s, next.value, a) {
        BuyAgainRecords(plan, s, next.value, a);
      } else if next.value.ordinal != 1 || !a.conclusive {
        DriveRecords(plan, s, next.value, input.value, a);
      }
    }
  }

  /** Resuming settles nothing, and decides only the exit it makes up for. */
  lemma ResumeRecords(plan: Plan, j: Journal, a: Answer)
    requires Dual(plan) && OneSale(plan, j)
    ensures var n := Resume(plan, j, a);
            && SameSettlements(j, n.journal)
            && (n.journal.decision == j.decision || (MakesUp(plan, j, a) && n.journal.decision == Some(a.decision.value.route)))
  {
    ResumeOfDual(plan, j, a);
  }

  /** The resumption chooses the exit that is missing, and it becomes durable. */
  predicate MakesUp(plan: Plan, j: Journal, a: Answer) {
    var settled := SettledOrdinals(j.settlements);
    && plan.policy == PrefundedTriggerFirst && 1 in settled && 2 !in settled && j.decision == None
    && a.decision.Some? && a.decision.value.complete && a.decisionWrite != Lost
  }

  lemma RecordingTracks(plan: Plan, p: Process, e: Event, before: Journal, after: Journal, traded: set<int>)
    requires Tracked(plan, before, traded) && Recording(plan, p, e, before, after)
    ensures Tracked(plan, after, traded + TradedBy(plan, p, e))
  {
    var all := traded + TradedBy(plan, p, e);
    if !SameSettlements(before, after) {
      var x: Settlement :| after.settlements == before.settlements + [x] && StageOf(p).Some? && x.stage.ordinal == StageOf(p).value.ordinal
        && (x.stage.ordinal == 1 ==> x.actualOut.units != 0 || 2 in SettledOrdinals(before.settlements))
        && (TradeOrdinal(plan, x.stage.ordinal) ==> x.stage.ordinal in TradedBy(plan, p, e));
      PaidAppend(before, x);
      SettledAppend(before.settlements, x);
      forall o | TradeOrdinal(plan, o) && o in SettledOrdinals(after.settlements) ensures o in all {
        if o != x.stage.ordinal { assert o in traded; }
      }
    } else {
      forall o | TradeOrdinal(plan, o) && o in SettledOrdinals(after.settlements) ensures o in all { assert o in traded; }
    }
  }

  /** Every step keeps it. */
  lemma HonestTurn(plan: Plan, w: World, a: Answer)
    requires Fits(plan) && Honest(plan, w) && w.process.Resumed?
    ensures Honest(plan, Act(plan, w, RecoveryTurn(a)))
  {
    var s, e := w.process.recovery, RecoveryTurn(a);
    TurnRecords(plan, s, a);
    TurnKeepsDual(plan, s, a);
    var n := Turn(plan, s, a);
    RecordingTracks(plan, w.process, e, s.journal, n.journal, w.traded);
    if StageOf(w.process).Some? { NextOfDual(plan, s); }
    BreakerIsFifth(plan);
  }

  lemma HonestResume(plan: Plan, w: World, a: Answer)
    requires Fits(plan) && Honest(plan, w) && w.process.Down? && Resumable(w.process.journal)
    ensures Honest(plan, Act(plan, w, Resumption(a)))
  {
    var j := w.process.journal;
    ResumeRecords(plan, j, a);
    ResumeKeepsDual(plan, j, a);
    assert TradedBy(plan, w.process, Resumption(a)) == {};
  }

  lemma HonestAct(plan: Plan, w: World, e: Event)
    requires Fits(plan) && Honest(plan, w)
    ensures Honest(plan, Act(plan, w, e))
  {
    match e
    case ExecutorTurn(_) =>
    case Crash =>
    case Resumption(a) => if w.process.Down? && Resumable(w.process.journal) { HonestResume(plan, w, a); }
    case RecoveryTurn(a) => if w.process.Resumed? { HonestTurn(plan, w, a); }
  }

  // ---------- the executor's part ----------

  lemma RecordTracks(plan: Plan, s: ParallelExecutor.Operation, x: Settlement, proven: bool, write: Write, traded: set<int>)
    requires Tracked(plan, s.journal, traded) && (TradeOrdinal(plan, x.stage.ordinal) ==> x.stage.ordinal in traded)
    ensures Tracked(plan, ParallelExecutor.Record(s, x, proven, write).0.journal, traded)
  {
    if SettlementOk(x.stage, x.input, x.actualIn, x.actualOut, proven) {
      PaidAppend(s.journal, x);
      SettledAppend(s.journal.settlements, x);
    }
  }

  lemma {:induction false} SwapsTrack(plan: Plan, sellInput: Amount, s: ParallelExecutor.Operation, swaps: seq<ParallelExecutor.Swap>, traded: set<int>)
    requires Fits(plan) && Tracked(plan, s.journal, traded) && SwapTrades(swaps) <= traded
    ensures Tracked(plan, ParallelExecutor.RecordSwaps(plan, sellInput, s, swaps).0.journal, traded)
  {
    if |swaps| > 0 {
      BreakerIsFifth(plan);
      var shorter, last := swaps[..|swaps| - 1], swaps[|swaps| - 1];
      assert (if last.sale then 2 else 1) in SwapTrades(swaps);
      forall o | o in SwapTrades(shorter) ensures o in traded {
        var i :| 0 <= i < |shorter| && o == if shorter[i].sale then 2 else 1;
        assert swaps[i] == shorter[i] && o in SwapTrades(swaps);
      }
      SwapsTrack(plan, sellInput, s, shorter, traded);
      var before := ParallelExecutor.RecordSwaps(plan, sellInput, s, shorter).0;
      RecordTracks(plan, before, ParallelExecutor.SwapSettlement(plan, sellInput, last), last.proven, last.write, traded);
    }
  }

  lemma BridgeTracks(plan: Plan, s: ParallelExecutor.Operation, stage: Stage, input: Amount, b: ParallelExecutor.Bridge, traded: set<int>)
    requires Tracked(plan, s.journal, traded) && !TradeOrdinal(plan, stage.ordinal)
    ensures Tracked(plan, ParallelExecutor.RecordBridge(s, stage, input, b).0.journal, traded)
  {
    match b.driven
    case Failed(_, _, _, _) =>
    case Settled(actualIn, actualOut, proven) => RecordTracks(plan, s, Settlement(stage, input, actualIn, actualOut), proven, b.write, traded);
  }

  lemma RebalanceTracks(plan: Plan, s: ParallelExecutor.Operation, outputs: map<int, Amount>, a: ParallelExecutor.Answers, traded: set<int>)
    requires Fits(plan) && Tracked(plan, s.journal, traded)
    ensures Tracked(plan, ParallelExecutor.Rebalance(plan, s, outputs, a).journal, traded)
  {
    BreakerIsFifth(plan);
    var base := ResolveInput(plan, plan.stages[2], plan.initialInput, outputs, a.base.converted);
    var quote := ResolveInput(plan, plan.stages[3], plan.initialInput, outputs, a.quote.converted);
    if base.Some? && quote.Some? {
      BridgeTracks(plan, s, plan.stages[2], base.value, a.base, traded);
      var t := ParallelExecutor.RecordBridge(s, plan.stages[2], base.value, a.base).0;
      BridgeTracks(plan, t, plan.stages[3], quote.value, a.quote, traded);
    }
  }

  lemma HonestStart(plan: Plan, a: ParallelExecutor.Answers)
    requires Fits(plan)
    ensures Honest(plan, StartWorld(plan, a))
  {
    ExecutionKeeps(plan, a);
    BreakerIsFifth(plan);
    if ParallelExecutor.Starts(plan) {
      var s, traded := ParallelExecutor.Start(plan), SwapTrades(a.swaps);
      var sellInput := ParallelSellInput(plan).value;
      SwapsTrack(plan, sellInput, s, a.swaps, traded);
      var t := ParallelExecutor.RecordSwaps(plan, sellInput, s, a.swaps).0;
      RebalanceTracks(plan, t, ParallelExecutor.SwapOutputs(a.swaps), a, traded);
    }
  }

  lemma {:induction false} HonestLive(plan: Plan, w: World, events: seq<Event>)
    requires Fits(plan) && Honest(plan, w)
    ensures Honest(plan, Live(plan, w, events))
  {
    if |events| > 0 {
      HonestLive(plan, w, events[..|events| - 1]);
      HonestAct(plan, Live(plan, w, events[..|events| - 1]), events[|events| - 1]);
    }
  }

  // ---------- two sales ----------

  predicate BothSold(plan: Plan, w: World) { 2 in w.traded && BreakerOrdinal(plan) in w.traded }

  /** A resumption that decides the origin sale although the sale took effect: the
      policy is trigger-first, the buy is durable, the sale is not, nothing is
      decided, and the selector's answer for the origin becomes durable. */
  predicate Blind(plan: Plan, w: World, e: Event) {
    && e.Resumption? && w.process.Down? && Resumable(w.process.journal) && 2 in w.traded
    && MakesUp(plan, w.process.journal, e.first) && e.first.decision.value.route == SellAtOrigin
  }

  predicate NeverBlind(plan: Plan, w: World, events: seq<Event>) {
    |events| > 0 ==>
      var before := events[..|events| - 1];
      NeverBlind(plan, w, before) && !Blind(plan, Live(plan, w, before), events[|events| - 1])
  }

  /** The origin sale is decided only where the sale did not take effect. */
  predicate Sighted(w: World) { Durable(w.process).decision == Some(SellAtOrigin) ==> 2 !in w.traded }

  lemma SightedAct(plan: Plan, w: World, e: Event)
    requires Fits(plan) && Honest(plan, w) && Sighted(w) && Truthful(w, e) && !Blind(plan, w, e)
    ensures Sighted(Act(plan, w, e))
  {
    match e
    case ExecutorTurn(_) =>
    case Crash =>
    case Resumption(a) =>
      if w.process.Down? && Resumable(w.process.journal) { ResumeRecords(plan, w.process.journal, a); }
    case RecoveryTurn(a) =>
      if w.process.Resumed? {
        TurnRecords(plan, w.process.recovery, a);
        BreakerIsFifth(plan);
        if StageOf(w.process).Some? { NextOfDual(plan, w.process.recovery); }
      }
  }

  lemma {:induction false} SightedLive(plan: Plan, w: World, events: seq<Event>)
    requires Fits(plan) && Honest(plan, w) && Sighted(w) && TruthfulRun(plan, w, events) && NeverBlind(plan, w, events)
    ensures Sighted(Live(plan, w, events))
  {
    if |events| > 0 {
      var before := events[..|events| - 1];
      SightedLive(plan, w, before);
      HonestLive(plan, w, before);
      SightedAct(plan, Live(plan, w, before), events[|events| - 1]);
    }
  }

  /** Without a blind resumption no two sales take effect, from the executor's
      start through any crashes and resumes with truthful drivers. */
  lemma OnlyBlindnessSellsTwice(plan: Plan, a: ParallelExecutor.Answers, events: seq<Event>)
    requires Fits(plan) && TruthfulRun(plan, StartWorld(plan, a), events) && NeverBlind(plan, StartWorld(plan, a), events)
    ensures !BothSold(plan, Live(plan, StartWorld(plan, a), events))
  {
    HonestStart(plan, a);
    ExecutionKeeps(plan, a);
    SightedLive(plan, StartWorld(plan, a), events);
    HonestLive(plan, StartWorld(plan, a), events);
  }

  /** A parallel plan never resumes blindly, so it never sells twice. */
  lemma ParallelNeverSellsTwice(plan: Plan, a: ParallelExecutor.Answers, events: seq<Event>)
    requires Fits(plan) && plan.policy == PrefundedParallel && TruthfulRun(plan, StartWorld(plan, a), events)
    ensures !BothSold(plan, Live(plan, StartWorld(plan, a), events))
  {
    NeverBlindInParallel(plan, StartWorld(plan, a), events);
    OnlyBlindnessSellsTwice(plan, a, events);
  }

  lemma {:induction false} NeverBlindInParallel(plan: Plan, w: World, events: seq<Event>)
    requires plan.policy == PrefundedParallel
    ensures NeverBlind(plan, w, events)
  {
    if |events| > 0 { NeverBlindInParallel(plan, w, events[..|events| - 1]); }
  }

  // ---------- and a blind resumption does ----------

  /** The origin sale settles. */
  function OriginSettles(plan: Plan): Answer
    requires |plan.circuitBreaker| == 1
  {
    var sale := plan.circuitBreaker[0];
    Answer(Some(Amount(sale.inputToken, 1)), false, 0, Settled(Amount(sale.inputToken, 1), Amount(sale.outputToken, 1), true), false,
           false, None, Written, None, Written, true, true, Written)
  }

  /** The selector answers for the origin, and the answer becomes durable. */
  const ChoosesOrigin := Answer(None, false, 0, Failed(Possible, NoCosts, Temporary, true), false, false, None, Written,
                                Some(Decision(SellAtOrigin, true)), Written, true, true, Written)

  /** The loop stands before the origin sale with the buy's output in hand. */
  ghost predicate BeforeOriginSale(plan: Plan, p: Process)
    requires |plan.circuitBreaker| == 1
  {
    && p.Resumed? && p.recovery.phase == Looping && StageOf(p) == Some(plan.circuitBreaker[0])
    && 1 in p.recovery.outputs && p.recovery.outputs[1].units != 0
  }

  /** From a decided origin exit, or one decided now, the loop gets there. */
  lemma ResumesToOriginSale(plan: Plan, w: World, a: Answer)
    requires Fits(plan) && Honest(plan, w) && w.process.Down? && Resumable(w.process.journal)
    requires BreakerOrdinal(plan) !in w.traded
    requires Decides(plan, w.process.journal, a)
    ensures BeforeOriginSale(plan, Act(plan, w, Resumption(a)).process) && Act(plan, w, Resumption(a)).traded == w.traded
  {
    var j := w.process.journal;
    var settled := SettledOrdinals(j.settlements);
    BreakerIsFifth(plan);
    ResumeOfDual(plan, j, a);
    assert 1 in settled && 2 !in settled && BreakerOrdinal(plan) !in settled;
    var s := Resume(plan, j, a);
    assert s.stages == [plan.stages[0], plan.circuitBreaker[0]];
    NextAfterPrefix(s.stages, s.settled, 1);
  }

  lemma OriginSaleTakesEffect(plan: Plan, w: World)
    requires Fits(plan) && BeforeOriginSale(plan, w.process)
    ensures BreakerOrdinal(plan) in Act(plan, w, RecoveryTurn(OriginSettles(plan))).traded
    ensures BreakerOrdinal(plan) !in w.traded ==> Truthful(w, RecoveryTurn(OriginSettles(plan)))
  {
    BreakerIsFifth(plan);
    var s, sale := w.process.recovery, plan.circuitBreaker[0];
    assert ResolveRecoveryInput(plan, sale, s.current, s.outputs, OriginSettles(plan).converted).Some?;
  }

  lemma LiveNext(plan: Plan, w: World, events: seq<Event>, e: Event)
    ensures Live(plan, w, events + [e]) == Act(plan, Live(plan, w, events), e)
    ensures TruthfulRun(plan, w, events + [e]) <==> TruthfulRun(plan, w, events) && Truthful(Live(plan, w, events), e)
  {
    assert (events + [e])[..|events|] == events;
  }

  /** A truthful future in which it happens. */
  ghost predicate CanSellAtOrigin(plan: Plan, w: World) {
    exists more :: TruthfulRun(plan, w, more) && BreakerOrdinal(plan) in Live(plan, w, more).traded
  }

  ghost predicate CanAbort(plan: Plan, w: World) {
    exists more :: TruthfulRun(plan, w, more) && Durable(Live(plan, w, more).process).state == Aborted
  }

  /** What lets a resumption come to the origin sale. */
  predicate Decides(plan: Plan, j: Journal, a: Answer) {
    j.decision == Some(SellAtOrigin)
    || (MakesUp(plan, j, a) && a.decision.value.route == SellAtOrigin && a.decisionWrite == Written)
  }

  /** One resumption and one turn, after a beginning. */
  lemma TwoMore(plan: Plan, w: World, events: seq<Event>, a: Answer)
    requires Fits(plan) && TruthfulRun(plan, w, events) && Honest(plan, Live(plan, w, events))
    requires var now := Live(plan, w, events);
             now.process.Down? && Resumable(now.process.journal) && BreakerOrdinal(plan) !in now.traded
             && Decides(plan, now.process.journal, a)
    ensures CanSellAtOrigin(plan, w)
  {
    var first, second := Resumption(a), RecoveryTurn(OriginSettles(plan));
    var now := Live(plan, w, events);
    ResumesToOriginSale(plan, now, a);
    OriginSaleTakesEffect(plan, Act(plan, now, first));
    LiveNext(plan, w, events, first);
    LiveNext(plan, w, events + [first], second);
  }

  /** A blind resumption whose decision is written down sells a second time in
      the very next turn. */
  lemma BlindnessSellsTwice(plan: Plan, w: World, e: Event)
    requires Fits(plan) && Honest(plan, w) && Blind(plan, w, e) && e.first.decisionWrite == Written
    requires BreakerOrdinal(plan) !in w.traded
    ensures BothSold(plan, Act(plan, Act(plan, w, e), RecoveryTurn(OriginSettles(plan))))
    ensures Truthful(w, e) && Truthful(Act(plan, w, e), RecoveryTurn(OriginSettles(plan)))
  {
    ResumesToOriginSale(plan, w, e.first);
    OriginSaleTakesEffect(plan, Act(plan, w, e));
  }

  // ---------- from which journals ----------

  /** The sale is not durable, and the origin exit is decided or still open to a
      resumption's choice. */
  predicate OriginExitOpen(plan: Plan, j: Journal) {
    2 !in SettledOrdinals(j.settlements)
    && (j.decision == Some(SellAtOrigin) || (plan.policy == PrefundedTriggerFirst && j.decision == None))
  }

  /** Where it is not, truthful drivers never come to the origin sale. */
  ghost predicate Shut(plan: Plan, w: World) {
    var j := Durable(w.process);
    && 2 in w.traded && BreakerOrdinal(plan) !in w.traded && j.decision != Some(SellAtOrigin)
    && (2 in SettledOrdinals(j.settlements) || plan.policy != PrefundedTriggerFirst || j.decision != None)
  }

  lemma ShutAct(plan: Plan, w: World, e: Event)
    requires Fits(plan) && Honest(plan, w) && Shut(plan, w) && Truthful(w, e)
    ensures Shut(plan, Act(plan, w, e))
  {
    match e
    case ExecutorTurn(_) =>
    case Crash =>
    case Resumption(a) => if w.process.Down? && Resumable(w.process.journal) { ResumeRecords(plan, w.process.journal, a); }
    case RecoveryTurn(a) =>
      if w.process.Resumed? {
        var s := w.process.recovery;
        TurnRecords(plan, s, a);
        RecordingKeeps(plan, w.process, e, s.journal, Turn(plan, s, a).journal);
        BreakerIsFifth(plan);
        if StageOf(w.process).Some? { NextOfDual(plan, s); }
      }
  }

  lemma RecordingKeeps(plan: Plan, p: Process, e: Event, before: Journal, after: Journal)
    requires Recording(plan, p, e, before, after)
    ensures SettledOrdinals(before.settlements) <= SettledOrdinals(after.settlements)
  {
    if !SameSettlements(before, after) {
      var x: Settlement :| after.settlements == before.settlements + [x];
      SettledAppend(before.settlements, x);
    }
  }

  lemma {:induction false} ShutLive(plan: Plan, w: World, events: seq<Event>)
    requires Fits(plan) && Honest(plan, w) && Shut(plan, w) && TruthfulRun(plan, w, events)
    ensures Shut(plan, Live(plan, w, events))
  {
    if |events| > 0 {
      var before := events[..|events| - 1];
      ShutLive(plan, w, before);
      HonestLive(plan, w, before);
      ShutAct(plan, Live(plan, w, before), events[|events| - 1]);
    }
  }

  /** With neither leg durable a resumption stands before the buy. */
  lemma ResumesToBuy(plan: Plan, j: Journal, a: Answer)
    requires Fits(plan) && OneSale(plan, j) && 1 !in SettledOrdinals(j.settlements) && 2 !in SettledOrdinals(j.settlements)
    ensures var s := Resume(plan, j, a);
            && s.phase == Looping && NextUnsettled(s.stages, s.settled) == Some(plan.stages[0])
            && s.journal == j.(state := Running) && s.settled == SettledOrdinals(j.settlements)
    ensures ResolveRecoveryInput(plan, plan.stages[0], Resume(plan, j, a).current, Resume(plan, j, a).outputs, None) == Some(plan.initialInput)
  {
    BreakerIsFifth(plan);
    ResumeOfDual(plan, j, a);
    NextAfterPrefix(plan.stages, SettledOrdinals(j.settlements), 0);
  }

  lemma BuyRecorded(plan: Plan, s: Recovery)
    requires Fits(plan) && s.phase == Looping && NextUnsettled(s.stages, s.settled) == Some(plan.stages[0])
    requires ResolveRecoveryInput(plan, plan.stages[0], s.current, s.outputs, None) == Some(plan.initialInput)
    ensures var x := Settlement(plan.stages[0], plan.initialInput, BuySettles(plan).driven.actualIn, BuySettles(plan).driven.actualOut);
            Turn(plan, s, BuySettles(plan)).journal == s.journal.(settlements := s.journal.settlements + [x])
  {
    assert AllStages(plan)[0] == plan.stages[0] && StageOk(AllStages(plan)[0]);
  }

  /** The buy is made durable first, and the process crashes. */
  lemma BuyThenCrash(plan: Plan, w: World)
    requires Fits(plan) && Honest(plan, w) && w.process.Down? && Resumable(w.process.journal)
    requires var j := w.process.journal;
             1 !in SettledOrdinals(j.settlements) && 2 !in SettledOrdinals(j.settlements) && j.decision == None
    ensures var a := BuySettles(plan);
            var n := Act(plan, Act(plan, Act(plan, w, Resumption(a)), RecoveryTurn(a)), Crash);
            && n.process.Down? && n.process.journal.state == Running && n.process.journal.decision == None
            && 1 in SettledOrdinals(n.process.journal.settlements) && 2 !in SettledOrdinals(n.process.journal.settlements)
            && n.traded == w.traded + {1}
    ensures Truthful(Act(plan, w, Resumption(BuySettles(plan))), RecoveryTurn(BuySettles(plan)))
  {
    var a, j := BuySettles(plan), w.process.journal;
    ResumesToBuy(plan, j, a);
    var s := Resume(plan, j, a);
    BuyRecorded(plan, s);
    SettledAppend(j.settlements, Settlement(plan.stages[0], plan.initialInput, a.driven.actualIn, a.driven.actualOut));
  }

  /** After the sale took effect, the origin sale can still follow exactly from
      the journals in which its exit is open: the sale is not durable, and the
      origin exit is decided already or, in a trigger-first plan, no exit is. */
  lemma SaleAfterSaleIff(plan: Plan, a: ParallelExecutor.Answers, events: seq<Event>)
    requires Fits(plan) && TruthfulRun(plan, StartWorld(plan, a), events)
    requires var w := Live(plan, StartWorld(plan, a), events);
             w.process.Down? && Resumable(w.process.journal) && 2 in w.traded && BreakerOrdinal(plan) !in w.traded
    ensures var w := Live(plan, StartWorld(plan, a), events);
            CanSellAtOrigin(plan, w) <==> OriginExitOpen(plan, w.process.journal)
  {
    HonestStart(plan, a);
    HonestLive(plan, StartWorld(plan, a), events);
    var w := Live(plan, StartWorld(plan, a), events);
    if OriginExitOpen(plan, w.process.journal) {
      OpenMeansCan(plan, w);
    } else {
      forall more | TruthfulRun(plan, w, more) ensures BreakerOrdinal(plan) !in Live(plan, w, more).traded { ShutLive(plan, w, more); }
    }
  }

  lemma OpenMeansCan(plan: Plan, w: World)
    requires Fits(plan) && Honest(plan, w) && w.process.Down? && Resumable(w.process.journal)
    requires BreakerOrdinal(plan) !in w.traded && OriginExitOpen(plan, w.process.journal)
    ensures CanSellAtOrigin(plan, w)
  {
    var j := w.process.journal;
    if j.decision == Some(SellAtOrigin) || 1 in SettledOrdinals(j.settlements) {
      TwoMore(plan, w, [], ChoosesOrigin);
    } else {
      var b := BuySettles(plan);
      var w1 := Act(plan, w, Resumption(b));
      var w2 := Act(plan, w1, RecoveryTurn(b));
      BuyThenCrash(plan, w);
      LiveNext(plan, w, [], Resumption(b));
      LiveNext(plan, w, [Resumption(b)], RecoveryTurn(b));
      LiveNext(plan, w, [Resumption(b)] + [RecoveryTurn(b)], Crash);
      var events := [Resumption(b)] + [RecoveryTurn(b)] + [Crash];
      HonestLive(plan, w, events);
      BreakerIsFifth(plan);
      TwoMore(plan, w, events, ChoosesOrigin);
    }
  }

  // ---------- abort ----------

  /** Not aborted, and the buy took effect or the sale is durable. */
  ghost predicate Standing(w: World) {
    Durable(w.process).state != Aborted && (1 in w.traded || 2 in SettledOrdinals(Durable(w.process).settlements))
  }

  /** A turn aborts only before the buy, when that has conclusively failed and no
      sale is durable. */
  lemma AbortsOnlyUnbought(plan: Plan, s: Recovery, a: Answer)
    requires DualInventory(plan) && s.journal.state != Aborted && Turn(plan, s, a).journal.state == Aborted
    ensures var next := StageOf(Resumed(s)); next.Some? && next.value.ordinal == 1 && a.conclusive && 2 !in s.settled
  {
    var next := StageOf(Resumed(s));
    if next.Some? {
      var input := ResolveRecoveryInput(plan, next.value, s.current, s.outputs, a.converted);
      if input.Some? { DriveNeverAborts(plan, s, next.value, input.value, a); }
    }
  }

  lemma DriveNeverAborts(plan: Plan, s: Recovery, stage: Stage, input: Amount, a: Answer)
    requires DualInventory(plan) && s.journal.state != Aborted
    ensures Drive(plan, s, stage, input, a).journal.state != Aborted
  {
    var t := s.(calls := s.calls + [Call(stage, input, a.driven)]);
    match a.driven
    case Failed(_, _, _, _) => FailOfDual(plan, t, stage, a.driven, a);
    case Settled(actualIn, actualOut, proven) => SettleOutcomes(plan, t, Settlement(stage, input, actualIn, actualOut), proven, a);
  }

  lemma StandingAct(plan: Plan, w: World, e: Event)
    requires Fits(plan) && Honest(plan, w) && Standing(w) && Truthful(w, e)
    ensures Standing(Act(plan, w, e))
  {
    match e
    case ExecutorTurn(_) =>
    case Crash =>
    case Resumption(a) =>
      if w.process.Down? && Resumable(w.process.journal) {
        ResumeRecords(plan, w.process.journal, a);
        ResumeOfDual(plan, w.process.journal, a);
      }
    case RecoveryTurn(a) =>
      if w.process.Resumed? {
        var s := w.process.recovery;
        TurnRecords(plan, s, a);
        RecordingKeeps(plan, w.process, e, s.journal, Turn(plan, s, a).journal);
        if Turn(plan, s, a).journal.state == Aborted { AbortsOnlyUnbought(plan, s, a); }
      }
  }

  lemma {:induction false} StandingLive(plan: Plan, w: World, events: seq<Event>)
    requires Fits(plan) && Honest(plan, w) && Standing(w) && TruthfulRun(plan, w, events)
    ensures Standing(Live(plan, w, events))
  {
    if |events| > 0 {
      var before := events[..|events| - 1];
      StandingLive(plan, w, before);
      HonestLive(plan, w, before);
      StandingAct(plan, Live(plan, w, before), events[|events| - 1]);
    }
  }

  /** The buy is known not to have taken effect. */
  const BuyConclusive := Answer(None, true, 0, Failed(Possible, NoCosts, Temporary, true), false, false, None, Written,
                                None, Written, true, true, Written)

  /** One resumption and one turn abort an operation without the buy. */
  lemma AbortsUnbought(plan: Plan, w: World)
    requires Fits(plan) && Honest(plan, w) && w.process.Down? && Resumable(w.process.journal)
    requires 1 !in w.traded && 2 !in SettledOrdinals(w.process.journal.settlements)
    ensures CanAbort(plan, w)
  {
    var a, j := BuyConclusive, w.process.journal;
    ResumesToBuy(plan, j, a);
    BreakerIsFifth(plan);
    LiveNext(plan, w, [], Resumption(a));
    LiveNext(plan, w, [Resumption(a)], RecoveryTurn(a));
    assert Durable(Live(plan, w, [Resumption(a)] + [RecoveryTurn(a)]).process).state == Aborted;
  }

  /** An operation whose sale took effect can still be aborted exactly if the buy
      did not take effect and the sale is not durable. */
  lemma AbortAfterSaleIff(plan: Plan, a: ParallelExecutor.Answers, events: seq<Event>)
    requires Fits(plan) && TruthfulRun(plan, StartWorld(plan, a), events)
    requires var w := Live(plan, StartWorld(plan, a), events);
             w.process.Down? && Resumable(w.process.journal) && 2 in w.traded
    ensures var w := Live(plan, StartWorld(plan, a), events);
            CanAbort(plan, w) <==> 1 !in w.traded && 2 !in SettledOrdinals(w.process.journal.settlements)
  {
    HonestStart(plan, a);
    HonestLive(plan, StartWorld(plan, a), events);
    var w := Live(plan, StartWorld(plan, a), events);
    if 1 !in w.traded && 2 !in SettledOrdinals(w.process.journal.settlements) {
      AbortsUnbought(plan, w);
    } else {
      forall more | TruthfulRun(plan, w, more) ensures Durable(Live(plan, w, more).process).state != Aborted { StandingLive(plan, w, more); }
    }
  }

  // ---------- two inputs ----------

  /** A swap that settles. */
  function SwapOf(stage: Stage, sale: bool, write: Write): ParallelExecutor.Swap {
    ParallelExecutor.Swap(sale, Amount(stage.inputToken, 1), Amount(stage.outputToken, 1), true, write)
  }

  /** The drivers report these swaps; the executor's last write is lost too. */
  function Reported(swaps: seq<ParallelExecutor.Swap>): ParallelExecutor.Answers {
    var bridge := ParallelExecutor.Bridge(None, Failed(Possible, NoCosts, Temporary, true), Lost);
    ParallelExecutor.Answers(swaps, None, bridge, bridge, false, false, false, false, Lost)
  }

  lemma OneSwap(plan: Plan, swap: ParallelExecutor.Swap, s: ParallelExecutor.Operation, before: seq<ParallelExecutor.Swap>)
    requires |plan.stages| == 4 && ParallelSellInput(plan).Some?
    requires ParallelExecutor.RecordSwaps(plan, ParallelSellInput(plan).value, s, before).1
    ensures var sellInput := ParallelSellInput(plan).value;
            ParallelExecutor.RecordSwaps(plan, sellInput, s, before + [swap])
            == ParallelExecutor.Record(ParallelExecutor.RecordSwaps(plan, sellInput, s, before).0,
                                       ParallelExecutor.SwapSettlement(plan, sellInput, swap), swap.proven, swap.write)
  {
    assert (before + [swap])[..|before|] == before;
  }

  /** The sale settles, its record is lost: nothing is durable. */
  lemma HiddenSale(plan: Plan)
    requires Fits(plan) && ParallelExecutor.Starts(plan)
    ensures var w := StartWorld(plan, Reported([SwapOf(plan.stages[1], true, Lost)]));
            w.process == Down(Empty) && w.traded == {2}
  {
    var swap := SwapOf(plan.stages[1], true, Lost);
    OneSwap(plan, swap, ParallelExecutor.Start(plan), []);
    assert [] + [swap] == [swap];
    assert SwapTrades([swap]) == {2} by { assert [swap][0].sale; }
  }

  /** The buy is durable, the sale settles but its record is lost. */
  lemma HiddenSaleAfterBuy(plan: Plan)
    requires Fits(plan) && ParallelExecutor.Starts(plan)
    ensures var w := StartWorld(plan, Reported([SwapOf(plan.stages[0], false, Written), SwapOf(plan.stages[1], true, Lost)]));
            && w.process.Down? && w.process.journal.state == Running && w.process.journal.decision == None
            && SettledOrdinals(w.process.journal.settlements) == {1} && w.traded == {1, 2}
  {
    var buy, sale := SwapOf(plan.stages[0], false, Written), SwapOf(plan.stages[1], true, Lost);
    var s, sellInput := ParallelExecutor.Start(plan), ParallelSellInput(plan).value;
    assert [] + [buy] == [buy] && [buy] + [sale] == [buy, sale];
    OneSwap(plan, buy, s, []);
    OneSwap(plan, sale, s, [buy]);
    SettledAppend([], ParallelExecutor.SwapSettlement(plan, sellInput, buy));
    BreakerIsFifth(plan);
    var both := [buy, sale];
    assert SwapTrades(both) == {1, 2} by { assert !both[0].sale && both[1].sale; }
  }

  /** An input on which two sales take effect. */
  lemma SellsTwiceAt(plan: Plan)
    requires Fits(plan) && ParallelExecutor.Starts(plan) && plan.policy == PrefundedTriggerFirst
    ensures var w := StartWorld(plan, Reported([SwapOf(plan.stages[0], false, Written), SwapOf(plan.stages[1], true, Lost)]));
            BothSold(plan, Act(plan, Act(plan, w, Resumption(ChoosesOrigin)), RecoveryTurn(OriginSettles(plan))))
  {
    var answers := Reported([SwapOf(plan.stages[0], false, Written), SwapOf(plan.stages[1], true, Lost)]);
    HonestStart(plan, answers);
    HiddenSaleAfterBuy(plan);
    BreakerIsFifth(plan);
    BlindnessSellsTwice(plan, StartWorld(plan, answers), Resumption(ChoosesOrigin));
  }

  /** An input on which an operation is aborted although its sale took effect. */
  lemma AbortsAfterSaleAt(plan: Plan)
    requires Fits(plan) && ParallelExecutor.Starts(plan)
    ensures var w := StartWorld(plan, Reported([SwapOf(plan.stages[1], true, Lost)]));
            var n := Act(plan, Act(plan, w, Resumption(BuyConclusive)), RecoveryTurn(BuyConclusive));
            Durable(n.process).state == Aborted && 2 in n.traded
  {
    HiddenSale(plan);
    ResumesToBuy(plan, Empty, BuyConclusive);
  }
}
