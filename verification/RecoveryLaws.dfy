/** What every run with crashes and resumes promises. */
module RecoveryLaws {
  import opened Common
  import opened SequentialPlan
  import opened SagaJournal
  import opened SequentialRecovery
  import SequentialExecutor
  import opened ExecutorLaws

  // ---------- one operation across crashes ----------

  /** The operation's processes: executing, between two processes, recovering. */
  datatype Process = Executing(execution: SequentialExecutor.Execution) | Down(journal: Journal) | Resumed(recovery: Recovery)

  datatype Event =
    | ExecutorTurn(answer: SequentialExecutor.Answer)
    | Crash
    | Resumption(first: Answer)
    | RecoveryTurn(next: Answer)

  function Durable(p: Process): Journal {
    match p
    case Executing(s) => s.journal
    case Down(j) => j
    case Resumed(s) => s.journal
  }

  /** A completed, aborted or blocked operation is left alone. */
  predicate Resumable(j: Journal) { j.state != Completed && j.state != Aborted && j.state != Blocked }

  function Happen(plan: Plan, selector: bool, p: Process, e: Event): Process {
    match e
    case ExecutorTurn(a) => if p.Executing? then Executing(SequentialExecutor.Iterate(plan, selector, p.execution, a)) else p
    case Crash => Down(Durable(p))
    case Resumption(a) => if p.Down? && Resumable(p.journal) then Resumed(Resume(plan, p.journal, a)) else p
    case RecoveryTurn(a) => if p.Resumed? then Resumed(Turn(plan, p.recovery, a)) else p
  }

  function RunAll(plan: Plan, selector: bool, events: seq<Event>): Process {
    if |events| == 0 then Executing(SequentialExecutor.Start(plan))
    else Happen(plan, selector, RunAll(plan, selector, events[..|events| - 1]), events[|events| - 1])
  }

  // ---------- prefunded sequential plans ----------

  function RouteOf(decision: Option<Route>): seq<int> { if decision == Some(SellAtOrigin) then Origin else Destination }

  /** The recovery works through one route, the origin's exactly if that is
      decided, and n of its stages are settled. */
  ghost predicate OnOneRoute(plan: Plan, s: Recovery, n: nat) {
    var route := RouteOf(s.journal.decision);
    && n <= |route| && Ordinals(s.journal.settlements) == route[..n]
    && s.settled == SettledOrdinals(s.journal.settlements)
    && s.stages == (if s.journal.decision == Some(SellAtOrigin) then Take(plan.stages, 1) + plan.circuitBreaker else plan.stages)
  }

  ghost predicate RecoveryOk(plan: Plan, s: Recovery) {
    && JournalOk(s.journal)
    && (s.phase == Looping ==> s.journal.state == Running && OnOneRoute(plan, s, |s.journal.settlements|))
    && (s.phase == Finished(Completed) ==> WholeRoute(Ordinals(s.journal.settlements)))
  }

  lemma StagesOfRoute(plan: Plan, decision: Option<Route>)
    requires PrefundedShape(plan)
    ensures StageOrdinals(if decision == Some(SellAtOrigin) then Take(plan.stages, 1) + plan.circuitBreaker else plan.stages) == RouteOf(decision)
  {
  }

  lemma {:induction false} NextAfterPrefix(stages: seq<Stage>, settled: set<int>, n: nat)
    requires n <= |stages| && forall i :: 0 <= i < n ==> stages[i].ordinal in settled
    requires n < |stages| ==> stages[n].ordinal !in settled
    ensures NextUnsettled(stages, settled) == if n < |stages| then Some(stages[n]) else None
  {
    if n > 0 { NextAfterPrefix(stages[1..], settled, n - 1); }
  }

  lemma SettledAre(ss: seq<Settlement>, o: int)
    ensures o in SettledOrdinals(ss) <==> o in Ordinals(ss)
  {
    if o in SettledOrdinals(ss) {
      var i :| 0 <= i < |ss| && ss[i].stage.ordinal == o;
      assert Ordinals(ss)[i] == o;
    }
  }

  /** What is driven next is the route's next stage. */
  lemma NextOnOneRoute(plan: Plan, s: Recovery, n: nat)
    requires PrefundedShape(plan) && OnOneRoute(plan, s, n)
    ensures var route := RouteOf(s.journal.decision);
            var next := NextUnsettled(s.stages, s.settled);
            if n == |route| then next.None? else next.Some? && next.value.ordinal == route[n]
  {
    var route := RouteOf(s.journal.decision);
    StagesOfRoute(plan, s.journal.decision);
    var ss := s.journal.settlements;
    assert forall i :: 0 <= i < |s.stages| ==> s.stages[i].ordinal == StageOrdinals(s.stages)[i];
    forall i | 0 <= i < n ensures s.stages[i].ordinal in s.settled {
      SettledAre(ss, route[i]);
      assert route[..n][i] == route[i];
    }
    if n < |route| { SettledAre(ss, route[n]); }
    NextAfterPrefix(s.stages, s.settled, n);
  }

  /** Any beginning of the decided route may be durable, and up to the buy
      whatever is decided. */
  lemma RouteJournal(j: Journal, n: nat)
    requires n <= |RouteOf(j.decision)| && Ordinals(j.settlements) == RouteOf(j.decision)[..n]
    ensures OnRoute(Ordinals(j.settlements), j.decision)
    ensures n <= 1 ==> forall d :: OnRoute(Ordinals(j.settlements), d)
    ensures n == |RouteOf(j.decision)| ==> WholeRoute(Ordinals(j.settlements))
  {
  }

  lemma JournalRoute(settled: seq<int>, decision: Option<Route>)
    requires OnRoute(settled, decision)
    ensures |settled| <= |RouteOf(decision)| && settled == RouteOf(decision)[..|settled|]
  {
  }

  /** Choosing an exit with only the buy settled. */
  lemma SelectKeeps(plan: Plan, s: Recovery, a: Answer)
    requires PrefundedShape(plan) && s.journal.state == Running && s.phase == Looping
    requires Ordinals(s.journal.settlements) == [1] && s.settled == SettledOrdinals(s.journal.settlements)
    ensures var (t, ok) := SelectPrefunded(plan, s, a); RecoveryOk(plan, if ok then t else Block(t, a))
  {
  }

  /** Without the dual inventory or a transport, a failure changes nothing but,
      at the destination sale, the exit. */
  lemma FailOutcomes(plan: Plan, s: Recovery, stage: Stage, d: Driven, a: Answer)
    requires plan.policy == PrefundedSequential && d.Failed?
    ensures var n := Fail(plan, s, stage, d, a);
            var (t, ok) := SelectPrefunded(plan, s, a);
            n == s || n == s.(phase := Stopped) || n == Block(s, a) || (stage.ordinal == 2 && n == if ok then t else Block(t, a))
  {
  }

  lemma FailKeeps(plan: Plan, s: Recovery, stage: Stage, d: Driven, a: Answer)
    requires PrefundedShape(plan) && s.phase == Looping && RecoveryOk(plan, s) && d.Failed?
    requires stage.ordinal == 2 ==> Ordinals(s.journal.settlements) == [1]
    ensures RecoveryOk(plan, Fail(plan, s, stage, d, a))
  {
    FailOutcomes(plan, s, stage, d, a);
    if stage.ordinal == 2 { SelectKeeps(plan, s, a); }
  }

  /** The next stage of the route is settled. */
  lemma SettledRoute(plan: Plan, s: Recovery, settlement: Settlement, n: nat)
    requires OnOneRoute(plan, s, n) && n < |RouteOf(s.journal.decision)| && settlement.stage.ordinal == RouteOf(s.journal.decision)[n]
    ensures var t := s.(journal := s.journal.(settlements := s.journal.settlements + [settlement]),
                        settled := s.settled + {settlement.stage.ordinal});
            OnOneRoute(plan, t, n + 1) && OnRoute(Ordinals(t.journal.settlements), t.journal.decision)
  {
    var route := RouteOf(s.journal.decision);
    OrdinalsAppend(s.journal.settlements, settlement);
    SettledAppend(s.journal.settlements, settlement);
    assert route[..n + 1] == route[..n] + [route[n]];
    RouteJournal(s.journal.(settlements := s.journal.settlements + [settlement]), n + 1);
  }

  function Recorded(s: Recovery, settlement: Settlement): Recovery {
    var o := settlement.stage.ordinal;
    s.(journal := s.journal.(settlements := s.journal.settlements + [settlement]), current := settlement.actualOut,
       outputs := s.outputs[o := settlement.actualOut], settled := s.settled + {o}, currentStage := o)
  }

  /** Settle records, or stops; a transported plan then compares its exits where
      it has to. */
  lemma SettleOutcomes(plan: Plan, s: Recovery, settlement: Settlement, proven: bool, a: Answer)
    ensures var n := Settle(plan, s, settlement, proven, a);
            var t := Recorded(s, settlement);
            if !SettlementOk(settlement.stage, settlement.input, settlement.actualIn, settlement.actualOut, proven) || a.settlementWrite == Lost then n == Block(s, a)
            else if a.settlementWrite == Reported then n == Block(s.(journal := t.journal), a)
            else if plan.policy == Transported && settlement.stage.ordinal == 2 then n == Reselect(plan, t, a).0.(exitRefreshed := Reselect(plan, t, a).1)
            else n == t
  {
  }

  /** The settlement of a buy on another chain. */
  function Bought(stage: Stage, b: Rebuy): Settlement {
    Settlement(stage.(sourceChain := b.chain, inputToken := b.inputToken, outputToken := b.outputToken, market := b.market),
               b.input, b.actualIn, b.actualOut)
  }

  /** Buying again stops, leaves the loop as it was, or settles ordinal 1. */
  lemma BuyOutcomes(plan: Plan, s: Recovery, stage: Stage, a: Answer)
    ensures var n := BuyAgain(plan, s, stage, a);
            var t := s.(calls := s.calls + [Call(stage, s.current, a.driven)]);
            if (plan.policy == PrefundedTriggerFirst && a.reverts >= 2) || !a.rebuySupported then n == Block(s, a)
            else if a.rebuy.None? then n == t
            else
              var x := Bought(stage, a.rebuy.value);
              var j := s.journal.(settlements := s.journal.settlements + [x]);
              if a.settlementWrite == Lost then n == t.(phase := Stopped)
              else if a.settlementWrite == Reported then n == t.(phase := Stopped, journal := j)
              else
                n == t.(journal := j, outputs := s.outputs[1 := x.actualOut],
                        settled := s.settled + {1} + if |plan.stages| >= 2 && x.stage.sourceChain == plan.stages[1].sourceChain then {3, 4} else {})
  {
  }

  lemma SettleKeeps(plan: Plan, s: Recovery, settlement: Settlement, proven: bool, a: Answer, n: nat)
    requires plan.policy == PrefundedSequential && s.phase == Looping && RecoveryOk(plan, s)
    requires OnOneRoute(plan, s, n) && n < |RouteOf(s.journal.decision)| && settlement.stage.ordinal == RouteOf(s.journal.decision)[n]
    ensures RecoveryOk(plan, Settle(plan, s, settlement, proven, a))
  {
    SettleOutcomes(plan, s, settlement, proven, a);
    SettledRoute(plan, s, settlement, n);
    var t := Recorded(s, settlement);
    assert JournalOk(t.journal) && |t.journal.settlements| == n + 1;
  }

  lemma DriveKeeps(plan: Plan, s: Recovery, stage: Stage, input: Amount, a: Answer, n: nat)
    requires PrefundedShape(plan) && s.phase == Looping && RecoveryOk(plan, s)
    requires OnOneRoute(plan, s, n) && n < |RouteOf(s.journal.decision)| && stage.ordinal == RouteOf(s.journal.decision)[n]
    ensures RecoveryOk(plan, Drive(plan, s, stage, input, a))
  {
    var t := s.(calls := s.calls + [Call(stage, input, a.driven)]);
    match a.driven
    case Failed(_, _, _, _) => FailKeeps(plan, t, stage, a.driven, a);
    case Settled(actualIn, actualOut, proven) => SettleKeeps(plan, t, Settlement(stage, input, actualIn, actualOut), proven, a, n);
  }

  lemma SettledAppend(ss: seq<Settlement>, settlement: Settlement)
    ensures SettledOrdinals(ss + [settlement]) == SettledOrdinals(ss) + {settlement.stage.ordinal}
  {
    var all := ss + [settlement];
    forall o | o in SettledOrdinals(ss) + {settlement.stage.ordinal} ensures o in SettledOrdinals(all) {
      if o == settlement.stage.ordinal {
        assert all[|ss|].stage.ordinal == o;
      } else {
        var i :| 0 <= i < |ss| && ss[i].stage.ordinal == o;
        assert all[i].stage.ordinal == o;
      }
    }
  }

  /** A stage of the route, from its input on. */
  lemma AttemptKeeps(plan: Plan, s: Recovery, stage: Stage, a: Answer, n: nat)
    requires PrefundedShape(plan) && s.phase == Looping && RecoveryOk(plan, s)
    requires OnOneRoute(plan, s, n) && n < |RouteOf(s.journal.decision)| && stage.ordinal == RouteOf(s.journal.decision)[n]
    ensures RecoveryOk(plan, Attempt(plan, s, stage, a))
  {
    var input := ResolveRecoveryInput(plan, stage, s.current, s.outputs, a.converted);
    if input.Some? { DriveKeeps(plan, s, stage, input.value, a, n); }
    assert stage.ordinal == 1 ==> n == 0;
  }

  lemma TurnKeeps(plan: Plan, s: Recovery, a: Answer)
    requires PrefundedShape(plan) && RecoveryOk(plan, s)
    ensures RecoveryOk(plan, Turn(plan, s, a))
  {
    if s.phase != Looping { return; }
    var n := |s.journal.settlements|;
    NextOnOneRoute(plan, s, n);
    if n < |RouteOf(s.journal.decision)| {
      AttemptKeeps(plan, s, NextUnsettled(s.stages, s.settled).value, a, n);
    } else {
      RouteJournal(s.journal, n);
    }
  }

  lemma OnlyBuySettled(settled: seq<int>)
    requires settled <= Destination && 1 in settled && 2 !in settled
    ensures settled == [1]
  {
    var n := |settled|;
    assert settled == Destination[..n];
    assert n != 0 && !(1 < n) by {
      assert forall i :: 0 <= i < n ==> Destination[i] in settled;
      assert Destination[1] == 2;
    }
  }

  /** What resuming a prefunded sequential operation amounts to. */
  lemma ResumeOutcomes(plan: Plan, j: Journal, a: Answer)
    requires PrefundedShape(plan)
    ensures var s := Load(plan, j);
            var n := Resume(plan, j, a);
            if j.decision == Some(ReturnToOrigin) then n == Block(s, a)
            else
              var t := s.(stages := if j.decision == Some(SellAtOrigin) then Take(plan.stages, 1) + plan.circuitBreaker else plan.stages);
              if ShouldSelectInitialExit(plan, s.settled, j.decision) then
                n == if SelectPrefunded(plan, t, a).1 then SelectPrefunded(plan, t, a).0 else Block(SelectPrefunded(plan, t, a).0, a)
              else n == t
  {
  }

  lemma ResumeKeeps(plan: Plan, j: Journal, a: Answer)
    requires PrefundedShape(plan) && JournalOk(j) && Resumable(j)
    ensures RecoveryOk(plan, Resume(plan, j, a))
  {
    JournalRoute(Ordinals(j.settlements), j.decision);
    ResumeOutcomes(plan, j, a);
    var s := Load(plan, j);
    if ShouldSelectInitialExit(plan, s.settled, j.decision) {
      SettledAre(j.settlements, 1);
      SettledAre(j.settlements, 2);
      OnlyBuySettled(Ordinals(j.settlements));
      SelectKeeps(plan, s.(stages := plan.stages), a);
    }
  }

  ghost predicate ProcessOk(plan: Plan, p: Process) {
    match p
    case Executing(s) => PrefundedOk(s)
    case Down(j) => JournalOk(j)
    case Resumed(s) => RecoveryOk(plan, s)
  }

  lemma HappenKeeps(plan: Plan, selector: bool, p: Process, e: Event)
    requires PrefundedShape(plan) && ProcessOk(plan, p)
    ensures ProcessOk(plan, Happen(plan, selector, p, e))
  {
    match e
    case ExecutorTurn(a) => if p.Executing? { PrefundedIterateKeeps(plan, selector, p.execution, a); }
    case Crash =>
    case Resumption(a) => if p.Down? && Resumable(p.journal) { ResumeKeeps(plan, p.journal, a); }
    case RecoveryTurn(a) => if p.Resumed? { TurnKeeps(plan, p.recovery, a); }
  }

  lemma {:induction false} ProcessKeeps(plan: Plan, selector: bool, events: seq<Event>)
    requires PrefundedShape(plan)
    ensures ProcessOk(plan, RunAll(plan, selector, events))
  {
    if |events| == 0 {
      PrefundedRun(plan, selector, []);
    } else {
      var p := RunAll(plan, selector, events[..|events| - 1]);
      ProcessKeeps(plan, selector, events[..|events| - 1]);
      HappenKeeps(plan, selector, p, events[|events| - 1]);
    }
  }

  /** Wherever it crashes and however often it is resumed, a prefunded sequential
      operation has settled a beginning of buy, sale, bridge, bridge or of buy
      and origin sale, never both sales; a completed one the whole of either. */
  lemma OneRouteAcrossCrashes(plan: Plan, selector: bool, events: seq<Event>)
    requires PrefundedShape(plan)
    ensures var j := Durable(RunAll(plan, selector, events));
            var ordinals := Ordinals(j.settlements);
            && (ordinals <= [1, 2, 3, 4] || ordinals <= [1, 5])
            && !(2 in ordinals && 5 in ordinals)
            && (j.state == Completed ==> ordinals == [1, 2, 3, 4] || ordinals == [1, 5])
            && (j.state == Aborted ==> ordinals == [])
  {
    ProcessKeeps(plan, selector, events);
    NeverBothSales(Ordinals(Durable(RunAll(plan, selector, events)).settlements));
  }

  lemma NeverBothSales(settled: seq<int>)
    requires settled <= Destination || settled <= Origin
    ensures !(2 in settled && 5 in settled)
  {
    assert forall i :: 0 <= i < |settled| ==> settled[i] == (if settled <= Destination then Destination[i] else Origin[i]);
  }
}
