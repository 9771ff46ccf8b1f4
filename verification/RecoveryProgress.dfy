/** When a recovery goes on, and that it completes an operation whose remaining
    stages settle. */
module RecoveryProgress {
  import opened Common
  import opened SequentialPlan
  import opened SagaJournal
  import opened SequentialRecovery
  import opened RecoveryLaws
  import opened DualInventoryLaws

  // ---------- one turn ----------

  function Ahead(s: Recovery): Option<Stage> { if s.phase == Looping then NextUnsettled(s.stages, s.settled) else None }

  /** The stage has an input. */
  predicate HasInput(plan: Plan, s: Recovery, stage: Stage, a: Answer) {
    ResolveRecoveryInput(plan, stage, s.current, s.outputs, a.converted).Some?
  }

  function InputOf(plan: Plan, s: Recovery, stage: Stage, a: Answer): Amount
    requires HasInput(plan, s, stage, a)
  {
    ResolveRecoveryInput(plan, stage, s.current, s.outputs, a.converted).value
  }

  /** Every transaction of the buy was rejected or reverted. */
  predicate BuyGone(stage: Stage, a: Answer) { stage.ordinal == 1 && a.conclusive }

  /** Then it is made again if the sale of a dual inventory is already in. */
  predicate MadeAgain(plan: Plan, s: Recovery, stage: Stage, a: Answer) { BuyGone(stage, a) && DualInventory(plan) && 2 in s.settled }

  predicate InOrder(stage: Stage, input: Amount, a: Answer) {
    && RequestOk(stage, input) && a.driven.Settled? && a.driven.proven
    && a.driven.actualIn.units != 0 && a.driven.actualIn.token == stage.inputToken
    && a.driven.actualOut.units != 0 && a.driven.actualOut.token == stage.outputToken
  }

  /** A failure an operator has to look at. */
  predicate NeedsOperator(plan: Plan, s: Recovery, d: Driven, a: Answer)
    requires d.Failed?
  {
    || d.costs == CostsNotRecorded
    || (plan.policy == PrefundedTriggerFirst && s.exit.Some? && (d.disposition == Rejected || d.disposition == ConfirmedFailure))
    || (d.kind == Uncertain && a.timedOut)
    || d.kind == Allowance || d.kind == Signer || d.kind == Configuration
  }

  /** A destination sale definitely failed while another exit may be taken. */
  predicate ExitOpens(plan: Plan, stage: Stage, d: Driven)
    requires d.Failed?
  {
    plan.policy != Transported && plan.policy != UnsupportedPolicy && stage.ordinal == 2 && (d.disposition == Rejected || d.disposition == ConfirmedFailure)
  }

  predicate Decided(a: Answer) { a.decision.Some? && a.decision.value.complete && a.decisionWrite == Written }

  /** The turn leaves the loop going. */
  predicate KeepsLooping(plan: Plan, s: Recovery, stage: Stage, a: Answer) {
    HasInput(plan, s, stage, a) &&
    if MadeAgain(plan, s, stage, a) then
      !(plan.policy == PrefundedTriggerFirst && a.reverts >= 2) && a.rebuySupported && (a.rebuy.None? || a.settlementWrite == Written)
    else if BuyGone(stage, a) then false
    else match a.driven
      case Settled(_, _, _) => InOrder(stage, InputOf(plan, s, stage, a), a) && a.settlementWrite == Written
      case Failed(_, _, _, cancelled) =>
        && !cancelled && !NeedsOperator(plan, s, a.driven, a)
        && (ExitOpens(plan, stage, a.driven) ==> Decided(a))
  }

  /** How a turn of a looping recovery ends: with nothing left it is completed if
      it is accounted for, kept and written down; a lost buy without a sale is
      aborted; and it loops on exactly as said above. All else stops or blocks
      it. */
  lemma TurnEnds(plan: Plan, s: Recovery, a: Answer)
    requires s.phase == Looping && plan.policy != Transported && plan.policy != UnsupportedPolicy
    ensures var n := Turn(plan, s, a);
            && (n.phase == Finished(Completed) <==> Ahead(s).None? && a.accounted && a.resultKept && a.finishWrite == Written)
            && (n.phase == Finished(Aborted) <==>
                && Ahead(s).Some? && HasInput(plan, s, Ahead(s).value, a)
                && BuyGone(Ahead(s).value, a) && !MadeAgain(plan, s, Ahead(s).value, a) && a.finishWrite == Written)
            && (n.phase == Looping <==> Ahead(s).Some? && KeepsLooping(plan, s, Ahead(s).value, a))
            && n.phase != Finished(Manual) && n.phase != Finished(Running)
  {
    NextIsAhead(s.stages, s.settled);
    if Ahead(s).Some? && HasInput(plan, s, Ahead(s).value, a) {
      BuyEnds(plan, s, Ahead(s).value, a);
      DriveEnds(plan, s, Ahead(s).value, a);
    }
  }

  lemma BuyEnds(plan: Plan, s: Recovery, stage: Stage, a: Answer)
    requires s.phase == Looping
    ensures var n := BuyAgain(plan, s, stage, a);
            && (n.phase == Looping <==>
                !(plan.policy == PrefundedTriggerFirst && a.reverts >= 2) && a.rebuySupported && (a.rebuy.None? || a.settlementWrite == Written))
            && (n.phase == Looping || n.phase == Stopped || n.phase == Finished(Blocked))
  {
    BuyOutcomes(plan, s, stage, a);
  }

  lemma DriveEnds(plan: Plan, s: Recovery, stage: Stage, a: Answer)
    requires s.phase == Looping && plan.policy != Transported && plan.policy != UnsupportedPolicy
    requires HasInput(plan, s, stage, a) && (stage.ordinal == 2 ==> 2 !in s.settled)
    ensures var n := Drive(plan, s, stage, InputOf(plan, s, stage, a), a);
            && (n.phase == Looping <==> match a.driven
                case Settled(_, _, _) => InOrder(stage, InputOf(plan, s, stage, a), a) && a.settlementWrite == Written
                case Failed(_, _, _, cancelled) => !cancelled && !NeedsOperator(plan, s, a.driven, a) && (ExitOpens(plan, stage, a.driven) ==> Decided(a)))
            && (n.phase == Looping || n.phase == Stopped || n.phase == Finished(Blocked))
  {
    var input := InputOf(plan, s, stage, a);
    var t := s.(calls := s.calls + [Call(stage, input, a.driven)]);
    match a.driven
    case Settled(actualIn, actualOut, proven) => SettleOutcomes(plan, t, Settlement(stage, input, actualIn, actualOut), proven, a);
    case Failed(_, _, _, _) => FailEnds(plan, t, stage, a.driven, a);
  }

  lemma FailEnds(plan: Plan, s: Recovery, stage: Stage, d: Driven, a: Answer)
    requires s.phase == Looping && plan.policy != Transported && plan.policy != UnsupportedPolicy && d.Failed?
    requires stage.ordinal == 2 ==> 2 !in s.settled
    ensures var n := SequentialRecovery.Fail(plan, s, stage, d, a);
            && (n.phase == Looping <==> !d.cancelled && !NeedsOperator(plan, s, d, a) && (ExitOpens(plan, stage, d) ==> Decided(a)))
            && (n.phase == Looping || n.phase == Stopped || n.phase == Finished(Blocked))
  {
  }

  // ---------- whole recoveries ----------

  /** The stages that are still to be settled, in order. */
  function Unsettled(stages: seq<Stage>, settled: set<int>): seq<Stage> {
    if |stages| == 0 then []
    else (if stages[0].ordinal in settled then [] else [stages[0]]) + Unsettled(stages[1..], settled)
  }

  lemma {:induction false} FirstUnsettled(stages: seq<Stage>, settled: set<int>)
    ensures NextUnsettled(stages, settled) == if Unsettled(stages, settled) == [] then None else Some(Unsettled(stages, settled)[0])
  {
    if |stages| > 0 { FirstUnsettled(stages[1..], settled); }
  }

  lemma {:induction false} UnsettledSame(stages: seq<Stage>, settled: set<int>, o: int)
    requires forall i :: 0 <= i < |stages| ==> stages[i].ordinal != o
    ensures Unsettled(stages, settled + {o}) == Unsettled(stages, settled)
  {
    if |stages| > 0 { UnsettledSame(stages[1..], settled, o); }
  }

  lemma {:induction false} UnsettledNext(stages: seq<Stage>, settled: set<int>)
    requires DistinctOrdinals(stages) && Unsettled(stages, settled) != []
    ensures Unsettled(stages, settled + {Unsettled(stages, settled)[0].ordinal}) == Unsettled(stages, settled)[1..]
  {
    assert DistinctOrdinals(stages[1..]);
    if stages[0].ordinal in settled {
      UnsettledNext(stages[1..], settled);
    } else {
      UnsettledSame(stages[1..], settled, stages[0].ordinal);
    }
  }

  /** Every answer in turn settles what is next. */
  ghost predicate AllSettle(plan: Plan, s: Recovery, answers: seq<Answer>)
    decreases |answers|
  {
    |answers| == 0 ||
      (&& Ahead(s).Some? && SettlesNext(plan, s, Ahead(s).value, answers[0])
       && AllSettle(plan, Turn(plan, s, answers[0]), answers[1..]))
  }

  predicate SettlesNext(plan: Plan, s: Recovery, stage: Stage, a: Answer) {
    && HasInput(plan, s, stage, a) && !BuyGone(stage, a)
    && InOrder(stage, InputOf(plan, s, stage, a), a) && a.settlementWrite == Written
  }

  function TurnAll(plan: Plan, s: Recovery, answers: seq<Answer>): Recovery
    decreases |answers|
  {
    if |answers| == 0 then s else TurnAll(plan, Turn(plan, s, answers[0]), answers[1..])
  }

  lemma SettledTurn(plan: Plan, s: Recovery, a: Answer)
    requires plan.policy != Transported && Ahead(s).Some? && SettlesNext(plan, s, Ahead(s).value, a)
    ensures var stage, n := Ahead(s).value, Turn(plan, s, a);
            && n.phase == Looping && n.stages == s.stages && n.settled == s.settled + {stage.ordinal}
            && n.journal == s.journal.(settlements := s.journal.settlements +
                 [Settlement(stage, InputOf(plan, s, stage, a), a.driven.actualIn, a.driven.actualOut)])
  {
    var stage := Ahead(s).value;
    var input := InputOf(plan, s, stage, a);
    var t := s.(calls := s.calls + [Call(stage, input, a.driven)]);
    SettleOutcomes(plan, t, Settlement(stage, input, a.driven.actualIn, a.driven.actualOut), a.driven.proven, a);
  }

  /** Settled one after the other, the stages left become durable in order. */
  lemma {:induction false} RecoverySettles(plan: Plan, s: Recovery, answers: seq<Answer>)
    requires plan.policy != Transported && s.phase == Looping && DistinctOrdinals(s.stages)
    requires AllSettle(plan, s, answers)
    ensures var left, n := Unsettled(s.stages, s.settled), TurnAll(plan, s, answers);
            && |answers| <= |left|
            && n.phase == Looping && Unsettled(n.stages, n.settled) == left[|answers|..]
            && Ordinals(n.journal.settlements) == Ordinals(s.journal.settlements) + StageOrdinals(left[..|answers|])
    decreases |answers|
  {
    if |answers| > 0 {
      FirstUnsettled(s.stages, s.settled);
      SettledTurn(plan, s, answers[0]);
      UnsettledNext(s.stages, s.settled);
      var n := Turn(plan, s, answers[0]);
      RecoverySettles(plan, n, answers[1..]);
      SettledOrder(s, n, Unsettled(s.stages, s.settled), |answers| - 1, Ordinals(TurnAll(plan, s, answers).journal.settlements));
    }
  }

  lemma SettledOrder(s: Recovery, n: Recovery, left: seq<Stage>, k: nat, ordinals: seq<int>)
    requires k + 1 <= |left| && |n.journal.settlements| == |s.journal.settlements| + 1
    requires n.journal.settlements[..|s.journal.settlements|] == s.journal.settlements
    requires n.journal.settlements[|s.journal.settlements|].stage == left[0]
    requires ordinals == Ordinals(n.journal.settlements) + StageOrdinals(left[1..][..k])
    ensures ordinals == Ordinals(s.journal.settlements) + StageOrdinals(left[..k + 1])
  {
    assert Ordinals(n.journal.settlements) == Ordinals(s.journal.settlements) + [left[0].ordinal] by {
      assert n.journal.settlements == s.journal.settlements + [n.journal.settlements[|s.journal.settlements|]];
    }
    assert StageOrdinals(left[..k + 1]) == [left[0].ordinal] + StageOrdinals(left[1..][..k]);
  }

  /** A resumed prefunded operation whose remaining stages settle is completed,
      if it is accounted for, kept and written down. */
  lemma RecoveryCompletes(plan: Plan, s: Recovery, answers: seq<Answer>, last: Answer)
    requires plan.policy != Transported && s.phase == Looping && DistinctOrdinals(s.stages)
    requires AllSettle(plan, s, answers) && |answers| == |Unsettled(s.stages, s.settled)|
    ensures var n := Turn(plan, TurnAll(plan, s, answers), last);
            && (n.phase == Finished(Completed) <==> last.accounted && last.resultKept && last.finishWrite == Written)
            && Ordinals(n.journal.settlements) == Ordinals(s.journal.settlements) + StageOrdinals(Unsettled(s.stages, s.settled))
  {
    RecoverySettles(plan, s, answers);
    var left, n := Unsettled(s.stages, s.settled), TurnAll(plan, s, answers);
    assert left[|answers|..] == [] && left[..|answers|] == left;
    FirstUnsettled(n.stages, n.settled);
  }
}
