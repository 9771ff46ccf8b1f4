/** Crash recovery of a dependent plan: one turn of the recovery loop as a
    function of everything the environment answers in it, and the loop as an
    object that takes these turns. A wait, a failed log of an attempt or a
    shutdown while waiting is a crash after the turn: nothing durable changes. */
module SequentialRecovery {
  import opened Common
  import opened SequentialPlan
  import opened SagaJournal

  /** A buy recovered on whichever chain was best. */
  datatype Rebuy = Rebuy(
    chain: string, inputToken: string, outputToken: string, market: string, input: Amount, actualIn: Amount, actualOut: Amount)

  /** Everything the environment answers during one turn. conclusive: every
      transaction of the stage was rejected or reverted, or there is none;
      reverts counts them; timedOut: an uncertain stage waited for too long. */
  datatype Answer = Answer(
    converted: Option<Amount>, conclusive: bool, reverts: nat, driven: Driven, timedOut: bool,
    rebuySupported: bool, rebuy: Option<Rebuy>, settlementWrite: Write,
    decision: Option<Decision>, decisionWrite: Write, accounted: bool, resultKept: bool, finishWrite: Write)

  datatype Phase = Looping | Stopped | Finished(state: OperationState)

  datatype Recovery = Recovery(
    phase: Phase, stages: seq<Stage>, settled: set<int>, outputs: map<int, Amount>, current: Amount,
    currentStage: int, exitRefreshed: bool, exit: Option<Route>, journal: Journal, calls: seq<Call>)

  // ---------- what a resumed operation still has to do ----------

  function RecoveryStages(plan: Plan, decision: Option<Route>): Option<seq<Stage>> {
    if decision == Some(SellAtOrigin) then Some(Take(plan.stages, 1) + plan.circuitBreaker)
    else if decision == Some(ReturnToOrigin) then
      if ReturnExitStages(plan).None? then None else Some(Take(plan.stages, 2) + ReturnExitStages(plan).value)
    else Some(plan.stages)
  }

  function NextUnsettled(stages: seq<Stage>, settled: set<int>): Option<Stage> {
    if |stages| == 0 then None
    else if stages[0].ordinal !in settled then Some(stages[0])
    else NextUnsettled(stages[1..], settled)
  }

  function Outputs(ss: seq<Settlement>): map<int, Amount> {
    if |ss| == 0 then map[] else Outputs(ss[..|ss| - 1])[ss[|ss| - 1].stage.ordinal := ss[|ss| - 1].actualOut]
  }

  function SettledOrdinals(ss: seq<Settlement>): set<int> { set i | 0 <= i < |ss| :: ss[i].stage.ordinal }

  predicate EconomicLegsSettled(plan: Plan, settled: set<int>) { DualInventory(plan) && 1 in settled && 2 in settled }

  predicate ShouldSelectInitialExit(plan: Plan, settled: set<int>, decision: Option<Route>) {
    (plan.policy == PrefundedSequential || plan.policy == PrefundedTriggerFirst) && 1 in settled && 2 !in settled && decision.None?
  }

  predicate BoughtOn(ss: seq<Settlement>, chain: string) {
    exists i :: 0 <= i < |ss| && ss[i].stage.ordinal == 1 && ss[i].stage.sourceChain == chain && LastBuy(ss, i)
  }

  /** No later settlement of ordinal 1. */
  predicate LastBuy(ss: seq<Settlement>, i: nat) { forall j :: i < j < |ss| ==> ss[j].stage.ordinal != 1 }

  predicate BuyRestoredOnSellChain(plan: Plan, ss: seq<Settlement>) {
    |plan.stages| >= 2 && BoughtOn(ss, plan.stages[1].sourceChain) && 2 in SettledOrdinals(ss)
  }

  /** As in the executor, except that the sale of a dual-inventory plan keeps its
      own fixed input. */
  function ResolveRecoveryInput(plan: Plan, stage: Stage, current: Amount, outputs: map<int, Amount>, converted: Option<Amount>): Option<Amount> {
    if DualInventory(plan) && stage.ordinal == 2 && stage.kind == Sell then
      if exists i :: 0 <= i < |stage.dependsOn| && stage.dependsOn[i] !in outputs then None
      else
        var input := InputFor(plan, stage, outputs);
        if input.None? || input.value.token == stage.inputToken then input else converted
    else ResolveInput(plan, stage, current, outputs, converted)
  }

  // ---------- exit choices ----------

  /** The exit of a prefunded plan, chosen and made durable. */
  function SelectPrefunded(plan: Plan, s: Recovery, a: Answer): (Recovery, bool) {
    var (journal, ok) := RecordDecision(s.journal, a.decision, a.decisionWrite);
    if !ok then (s.(journal := journal), false)
    else
      var route := a.decision.value.route;
      (s.(journal := journal, exit := Some(route),
          stages := if route == SellAtOrigin then Take(plan.stages, 1) + plan.circuitBreaker else plan.stages), true)
  }

  /** The exit of a transported plan, compared anew and made durable. */
  function Reselect(plan: Plan, s: Recovery, a: Answer): (Recovery, bool) {
    var (journal, ok) := RecordDecision(s.journal, a.decision, a.decisionWrite);
    if !ok then (s.(journal := journal), false)
    else
      var route := a.decision.value.route;
      if route == ReturnToOrigin then
        if ReturnExitStages(plan).None? then (s.(journal := journal), false)
        else (s.(journal := journal, exit := Some(route), stages := Take(plan.stages, 2) + ReturnExitStages(plan).value), true)
      else (s.(journal := journal, exit := Some(route), stages := plan.stages), true)
  }

  function Block(s: Recovery, a: Answer): Recovery {
    s.(phase := Finished(Blocked), journal := RecordState(s.journal, Blocked, a.finishWrite))
  }

  // ---------- resuming ----------

  function Load(plan: Plan, j: Journal): Recovery {
    var ss := j.settlements;
    var last := |ss| - 1;
    Recovery(Looping, [], SettledOrdinals(ss), Outputs(ss), if |ss| == 0 then plan.initialInput else ss[last].actualOut,
             if |ss| == 0 then 0 else ss[last].stage.ordinal, (if |ss| == 0 then 0 else ss[last].stage.ordinal) < 2,
             j.decision, j.(state := Running), [])
  }

  /** From a durable journal to the loop: the stages left, with the bridges
      struck out where they would undo a restored buy, and the exit choice made
      up for if it is missing. */
  function Resume(plan: Plan, j: Journal, a: Answer): Recovery {
    var s := Load(plan, j);
    if RecoveryStages(plan, j.decision).None? then Block(s, a)
    else
      var both := EconomicLegsSettled(plan, s.settled);
      var t := if both then s.(stages := plan.stages, exit := None) else s.(stages := RecoveryStages(plan, j.decision).value);
      var u := if DualInventory(plan) && BuyRestoredOnSellChain(plan, j.settlements) then t.(settled := t.settled + {3, 4}) else t;
      if !ShouldSelectInitialExit(plan, u.settled, j.decision) then u
      else
        var (selected, ok) := SelectPrefunded(plan, u, a);
        if ok then selected else Block(selected, a)
  }

  // ---------- one turn ----------

  predicate BlocksRecovery(kind: FailureKind) { kind == Allowance || kind == Signer || kind == Configuration }

  /** The operation is complete once it is accounted for and written down. */
  function Complete(s: Recovery, a: Answer): Recovery {
    if !a.accounted then Block(s, a)
    else if !a.resultKept then s.(phase := Stopped)
    else s.(phase := if a.finishWrite == Written then Finished(Completed) else Stopped, journal := RecordState(s.journal, Completed, a.finishWrite))
  }

  /** A sale is durable and the buy is not: buy again on the best chain. */
  function BuyAgain(plan: Plan, s: Recovery, stage: Stage, a: Answer): Recovery {
    if plan.policy == PrefundedTriggerFirst && a.reverts >= 2 then Block(s, a)
    else if !a.rebuySupported then Block(s, a)
    else
      var t := s.(calls := s.calls + [Call(stage, s.current, a.driven)]);
      if a.rebuy.None? then t
      else
        var b := a.rebuy.value;
        var bought := stage.(sourceChain := b.chain, inputToken := b.inputToken, outputToken := b.outputToken, market := b.market);
        var settlement := Settlement(bought, b.input, b.actualIn, b.actualOut);
        var (journal, ok) := RecordSettlement(s.journal, settlement, a.settlementWrite);
        if !ok then t.(phase := Stopped, journal := journal)
        else
          t.(journal := journal, outputs := s.outputs[1 := settlement.actualOut],
             settled := s.settled + {1} + if |plan.stages| >= 2 && bought.sourceChain == plan.stages[1].sourceChain then {3, 4} else {})
  }

  function Abort(s: Recovery, a: Answer): Recovery {
    s.(phase := if a.finishWrite == Written then Finished(Aborted) else Stopped, journal := RecordState(s.journal, Aborted, a.finishWrite))
  }

  /** A failed stage: stop for an operator, choose another exit, or try again. */
  function Fail(plan: Plan, s: Recovery, stage: Stage, d: Driven, a: Answer): Recovery
    requires d.Failed?
  {
    if d.cancelled then s.(phase := Stopped)
    else if d.costs == CostsNotRecorded then Block(s, a)
    else if plan.policy == PrefundedTriggerFirst && s.exit.Some? && Definitive(d.disposition) then Block(s, a)
    else if d.kind == Uncertain && a.timedOut then Block(s, a)
    else if BlocksRecovery(d.kind) then Block(s, a)
    else if (plan.policy == PrefundedSequential || DualInventory(plan)) && stage.ordinal == 2 && Definitive(d.disposition) then
      if DualInventory(plan) && 2 in s.settled then Block(s, a)
      else
        var (selected, ok) := SelectPrefunded(plan, s, a);
        if ok then selected else Block(selected, a)
    else if plan.policy == Transported && stage.kind == Sell then
      var (selected, ok) := Reselect(plan, s, a);
      if ok then selected.(exitRefreshed := true) else selected
    else s
  }

  /** A settled stage is made durable; a transported plan compares its exits
      once the base token has arrived. */
  function Settle(plan: Plan, s: Recovery, settlement: Settlement, proven: bool, a: Answer): Recovery {
    if !SettlementOk(settlement.stage, settlement.input, settlement.actualIn, settlement.actualOut, proven) then Block(s, a)
    else
      var (journal, ok) := RecordSettlement(s.journal, settlement, a.settlementWrite);
      if !ok then Block(s.(journal := journal), a)
      else
        var o := settlement.stage.ordinal;
        var t := s.(journal := journal, current := settlement.actualOut, outputs := s.outputs[o := settlement.actualOut],
                    settled := s.settled + {o}, currentStage := o);
        if plan.policy == Transported && o == 2 then
          var (selected, chosen) := Reselect(plan, t, a);
          selected.(exitRefreshed := chosen)
        else t
  }

  function Drive(plan: Plan, s: Recovery, stage: Stage, input: Amount, a: Answer): Recovery {
    var t := s.(calls := s.calls + [Call(stage, input, a.driven)]);
    match a.driven
    case Failed(_, _, _, _) => Fail(plan, t, stage, a.driven, a)
    case Settled(actualIn, actualOut, proven) => Settle(plan, t, Settlement(stage, input, actualIn, actualOut), proven, a)
  }

  /** One stage: its input, then the special cases of the buy, then its driver. */
  function Attempt(plan: Plan, s: Recovery, stage: Stage, a: Answer): Recovery {
    var input := ResolveRecoveryInput(plan, stage, s.current, s.outputs, a.converted);
    if input.None? then Block(s, a)
    else if stage.ordinal == 1 && DualInventory(plan) && 2 in s.settled && a.conclusive then BuyAgain(plan, s, stage, a)
    else if stage.ordinal == 1 && a.conclusive then Abort(s, a)
    else Drive(plan, s, stage, input.value, a)
  }

  /** One turn of the loop. */
  function Turn(plan: Plan, s: Recovery, a: Answer): Recovery {
    if s.phase != Looping then s
    else
      var next := NextUnsettled(s.stages, s.settled);
      if next.None? then Complete(s, a)
      else if plan.policy == Transported && s.currentStage == 2 && !s.exitRefreshed then
        var (selected, ok) := Reselect(plan, s, a);
        if ok then selected.(exitRefreshed := true) else selected
      else Attempt(plan, s, next.value, a)
  }

  /** The recovery after the given turns. */
  function RunRecovery(plan: Plan, j: Journal, first: Answer, answers: seq<Answer>): Recovery {
    if |answers| == 0 then Resume(plan, j, first)
    else Turn(plan, RunRecovery(plan, j, first, answers[..|answers| - 1]), answers[|answers| - 1])
  }

  // ---------- the coordinator ----------

  class RecoveryCoordinator {
    const plan: Plan
    var phase: Phase
    var stages: seq<Stage>
    var settled: set<int>
    var outputs: map<int, Amount>
    var current: Amount
    var currentStage: int
    var exitRefreshed: bool
    var exit: Option<Route>
    var journal: Journal
    var calls: seq<Call>

    ghost function View(): Recovery
      reads this
    {
      Recovery(phase, stages, settled, outputs, current, currentStage, exitRefreshed, exit, journal, calls)
    }

    /** Load the durable operation. */
    constructor (plan: Plan, j: Journal)
      ensures this.plan == plan && View() == Load(plan, j)
    {
      this.plan := plan;
      phase, stages, exit, journal, calls := Looping, [], j.decision, j.(state := Running), [];
      var ss := j.settlements;
      current := if |ss| == 0 then plan.initialInput else ss[|ss| - 1].actualOut;
      currentStage := if |ss| == 0 then 0 else ss[|ss| - 1].stage.ordinal;
      exitRefreshed := (if |ss| == 0 then 0 else ss[|ss| - 1].stage.ordinal) < 2;
      settled, outputs := {}, map[];
      new;
      settled, outputs := Replay(ss);
    }

    static method Replay(ss: seq<Settlement>) returns (settled: set<int>, outputs: map<int, Amount>)
      ensures settled == SettledOrdinals(ss) && outputs == Outputs(ss)
    {
      settled, outputs := {}, map[];
      for i := 0 to |ss|
        invariant settled == SettledOrdinals(ss[..i]) && outputs == Outputs(ss[..i])
      {
        assert ss[..i + 1][..i] == ss[..i] && ss[..i + 1][i] == ss[i];
        SettledOneMore(ss, i);
        settled := settled + {ss[i].stage.ordinal};
        outputs := outputs[ss[i].stage.ordinal := ss[i].actualOut];
      }
      assert ss[..|ss|] == ss;
    }

    /** The first stage that is not settled. */
    method NextStage() returns (next: Option<Stage>)
      ensures next == NextUnsettled(stages, settled)
    {
      for i := 0 to |stages|
        invariant NextUnsettled(stages, settled) == NextUnsettled(stages[i..], settled)
      {
        assert stages[i..][0] == stages[i] && stages[i..][1..] == stages[i + 1..];
        if stages[i].ordinal !in settled { return Some(stages[i]); }
      }
      next := None;
    }

    /** Whether the last buy happened on the sale's chain, and the sale is in. */
    method RestoredOnSellChain(ss: seq<Settlement>) returns (restored: bool)
      ensures restored == BuyRestoredOnSellChain(plan, ss)
    {
      if |plan.stages| < 2 { return false; }
      var bought, sold := false, false;
      for i := 0 to |ss|
        invariant bought == BoughtOn(ss[..i], plan.stages[1].sourceChain)
        invariant sold == (2 in SettledOrdinals(ss[..i]))
      {
        BoughtOneMore(ss, i, plan.stages[1].sourceChain);
        SettledOneMore(ss, i);
        if ss[i].stage.ordinal == 1 {
          bought := ss[i].stage.sourceChain == plan.stages[1].sourceChain;
        } else if ss[i].stage.ordinal == 2 {
          sold := true;
        }
      }
      assert ss[..|ss|] == ss;
      restored := bought && sold;
    }

    method PersistDecision(a: Answer) returns (ok: bool)
      modifies this`journal
      ensures (journal, ok) == RecordDecision(old(journal), a.decision, a.decisionWrite)
    {
      if a.decision.None? || !a.decision.value.complete { return false; }
      if a.decisionWrite != Lost { journal := journal.(decision := Some(a.decision.value.route)); }
      ok := a.decisionWrite == Written;
    }

    method SelectPrefundedExit(a: Answer) returns (ok: bool)
      modifies this
      ensures (View(), ok) == SelectPrefunded(plan, old(View()), a)
    {
      ok := PersistDecision(a);
      if !ok { return; }
      var route := a.decision.value.route;
      stages := plan.stages;
      if route == SellAtOrigin { stages := Take(plan.stages, 1) + plan.circuitBreaker; }
      exit := Some(route);
    }

    method ReselectExit(a: Answer) returns (ok: bool)
      modifies this
      ensures (View(), ok) == Reselect(plan, old(View()), a)
    {
      ok := PersistDecision(a);
      if !ok { return; }
      var route := a.decision.value.route;
      var chosen := plan.stages;
      if route == ReturnToOrigin {
        var back := ReturnExitStages(plan);
        if back.None? { return false; }
        chosen := Take(plan.stages, 2) + back.value;
      }
      stages, exit := chosen, Some(route);
    }

    method BlockRecovery(a: Answer)
      modifies this
      ensures View() == Block(old(View()), a)
    {
      phase := Finished(Blocked);
      journal := RecordState(journal, Blocked, a.finishWrite);
    }

    method Prepare(j: Journal, a: Answer)
      requires View() == Load(plan, j)
      modifies this
      ensures View() == Resume(plan, j, a)
    {
      var planned := RecoveryStages(plan, j.decision);
      if planned.None? { BlockRecovery(a); return; }
      stages := planned.value;
      if EconomicLegsSettled(plan, settled) { stages, exit := plan.stages, None; }
      var restored := RestoredOnSellChain(j.settlements);
      if DualInventory(plan) && restored { settled := settled + {3, 4}; }
      if ShouldSelectInitialExit(plan, settled, j.decision) {
        var ok := SelectPrefundedExit(a);
        if !ok { BlockRecovery(a); }
      }
    }

    method FinishCompleted(a: Answer)
      modifies this
      ensures View() == Complete(old(View()), a)
    {
      if !a.accounted { BlockRecovery(a); return; }
      if !a.resultKept { phase := Stopped; return; }
      phase := if a.finishWrite == Written then Finished(Completed) else Stopped;
      journal := RecordState(journal, Completed, a.finishWrite);
    }

    method FinishAborted(a: Answer)
      modifies this
      ensures View() == Abort(old(View()), a)
    {
      phase := if a.finishWrite == Written then Finished(Aborted) else Stopped;
      journal := RecordState(journal, Aborted, a.finishWrite);
    }

    method RecoverBuy(stage: Stage, a: Answer)
      modifies this
      ensures View() == BuyAgain(plan, old(View()), stage, a)
    {
      if (plan.policy == PrefundedTriggerFirst && a.reverts >= 2) || !a.rebuySupported { BlockRecovery(a); return; }
      calls := calls + [Call(stage, current, a.driven)];
      if a.rebuy.None? { return; }
      var b := a.rebuy.value;
      var bought := stage.(sourceChain := b.chain, inputToken := b.inputToken, outputToken := b.outputToken, market := b.market);
      var (written, ok) := RecordSettlement(journal, Settlement(bought, b.input, b.actualIn, b.actualOut), a.settlementWrite);
      journal := written;
      if !ok { phase := Stopped; return; }
      outputs := outputs[1 := b.actualOut];
      settled := settled + {1};
      if |plan.stages| >= 2 && bought.sourceChain == plan.stages[1].sourceChain { settled := settled + {3, 4}; }
    }

    method HandleFailure(stage: Stage, d: Driven, a: Answer)
      requires d.Failed?
      modifies this
      ensures View() == Fail(plan, old(View()), stage, d, a)
    {
      if d.cancelled { phase := Stopped; return; }
      if d.costs == CostsNotRecorded { BlockRecovery(a); return; }
      if plan.policy == PrefundedTriggerFirst && exit.Some? && Definitive(d.disposition) { BlockRecovery(a); return; }
      if (d.kind == Uncertain && a.timedOut) || BlocksRecovery(d.kind) { BlockRecovery(a); return; }
      if (plan.policy == PrefundedSequential || DualInventory(plan)) && stage.ordinal == 2 && Definitive(d.disposition) {
        if DualInventory(plan) && 2 in settled { BlockRecovery(a); return; }
        var ok := SelectPrefundedExit(a);
        if !ok { BlockRecovery(a); }
        return;
      }
      if plan.policy == Transported && stage.kind == Sell {
        var ok := ReselectExit(a);
        if ok { exitRefreshed := true; }
      }
    }

    method HandleSettlement(settlement: Settlement, proven: bool, a: Answer)
      modifies this
      ensures View() == Settle(plan, old(View()), settlement, proven, a)
    {
      if !SettlementOk(settlement.stage, settlement.input, settlement.actualIn, settlement.actualOut, proven) { BlockRecovery(a); return; }
      var (written, ok) := RecordSettlement(journal, settlement, a.settlementWrite);
      journal := written;
      if !ok { BlockRecovery(a); return; }
      current := settlement.actualOut;
      currentStage := settlement.stage.ordinal;
      outputs := outputs[currentStage := current];
      settled := settled + {currentStage};
      if plan.policy == Transported && currentStage == 2 { exitRefreshed := ReselectExit(a); }
    }

    method TakeTurn(a: Answer)
      requires phase == Looping
      modifies this
      ensures View() == Turn(plan, old(View()), a)
    {
      var next := NextStage();
      if next.None? { FinishCompleted(a); return; }
      if plan.policy == Transported && currentStage == 2 && !exitRefreshed {
        var ok := ReselectExit(a);
        if ok { exitRefreshed := true; }
        return;
      }
      TryStage(next.value, a);
    }

    method TryStage(stage: Stage, a: Answer)
      modifies this
      ensures View() == Attempt(plan, old(View()), stage, a)
    {
      var input := ResolveRecoveryInput(plan, stage, current, outputs, a.converted);
      if input.None? { BlockRecovery(a); return; }
      if stage.ordinal == 1 && DualInventory(plan) && 2 in settled && a.conclusive { RecoverBuy(stage, a); return; }
      if stage.ordinal == 1 && a.conclusive { FinishAborted(a); return; }
      calls := calls + [Call(stage, input.value, a.driven)];
      match a.driven
      case Failed(_, _, _, _) => HandleFailure(stage, a.driven, a);
      case Settled(actualIn, actualOut, proven) => HandleSettlement(Settlement(stage, input.value, actualIn, actualOut), proven, a);
    }

    /** The whole recovery, for as long as the environment answers. */
    method Recover(j: Journal, first: Answer, answers: seq<Answer>)
      requires View() == Load(plan, j)
      modifies this
      ensures View() == RunRecovery(plan, j, first, answers)
    {
      Prepare(j, first);
      ghost var s := View();
      var k := 0;
      while k < |answers| && phase == Looping
        invariant 0 <= k <= |answers| && View() == s
        invariant s == RunRecovery(plan, j, first, answers[..k])
      {
        TurnOneMore(plan, j, first, answers, k);
        TakeTurn(answers[k]);
        s := Turn(plan, s, answers[k]);
        k := k + 1;
      }
      RecoveryStops(plan, j, first, answers, k);
    }
  }

  lemma SettledOneMore(ss: seq<Settlement>, i: nat)
    requires i < |ss|
    ensures SettledOrdinals(ss[..i + 1]) == SettledOrdinals(ss[..i]) + {ss[i].stage.ordinal}
  {
    forall o | o in SettledOrdinals(ss[..i]) + {ss[i].stage.ordinal} ensures o in SettledOrdinals(ss[..i + 1]) {
      if o == ss[i].stage.ordinal {
        assert ss[..i + 1][i].stage.ordinal == o;
      } else {
        var k :| 0 <= k < i && ss[..i][k].stage.ordinal == o;
        assert ss[..i + 1][k].stage.ordinal == o;
      }
    }
  }

  lemma BoughtOneMore(ss: seq<Settlement>, i: nat, chain: string)
    requires i < |ss|
    ensures BoughtOn(ss[..i + 1], chain) == if ss[i].stage.ordinal == 1 then ss[i].stage.sourceChain == chain else BoughtOn(ss[..i], chain)
  {
    var all, some := ss[..i + 1], ss[..i];
    assert all[i] == ss[i] && LastBuy(all, i);
    if ss[i].stage.ordinal != 1 && BoughtOn(some, chain) {
      var k :| 0 <= k < |some| && some[k].stage.ordinal == 1 && some[k].stage.sourceChain == chain && LastBuy(some, k);
      assert all[k] == some[k] && LastBuy(all, k);
    }
    if ss[i].stage.ordinal != 1 && BoughtOn(all, chain) {
      var k :| 0 <= k < |all| && all[k].stage.ordinal == 1 && all[k].stage.sourceChain == chain && LastBuy(all, k);
      assert some[k] == all[k] && LastBuy(some, k);
    }
  }

  lemma TurnOneMore(plan: Plan, j: Journal, first: Answer, answers: seq<Answer>, k: nat)
    requires k < |answers|
    ensures RunRecovery(plan, j, first, answers[..k + 1]) == Turn(plan, RunRecovery(plan, j, first, answers[..k]), answers[k])
  {
    assert answers[..k + 1][..k] == answers[..k];
  }

  /** Once the loop is left, nothing changes any more. */
  lemma {:induction false} RecoveryStops(plan: Plan, j: Journal, first: Answer, answers: seq<Answer>, k: nat)
    requires k <= |answers| && (k == |answers| || RunRecovery(plan, j, first, answers[..k]).phase != Looping)
    ensures RunRecovery(plan, j, first, answers) == RunRecovery(plan, j, first, answers[..k])
  {
    if k == |answers| {
      assert answers[..k] == answers;
    } else {
      var shorter := answers[..|answers| - 1];
      assert shorter[..k] == answers[..k];
      RecoveryStops(plan, j, first, shorter, k);
    }
  }
}
