/** Execute and Observe sharing one gate and one inventory, step by atomic step
    and in any interleaving. */
module LiveProtocol {
  import opened Common
  import opened Fingerprint
  import opened Ledger
  import opened LedgerLaws

  /** Where a call of Execute is. */
  datatype Phase =
    | Reserving     // holds the gate, nothing reserved
    | Preparing     // reserved; preparing, checking, about to commit
    | Undoing       // failed before commit: the reservation is to be released
    | Leaving       // failed before commit: the gate is to be completed
    | Broadcasting  // committed
    | Rejecting     // every leg was rejected: the reservation is to be released
    | Rejected      // and then the gate is to be completed
    | Returned

  datatype Thread = Thread(operation: string, phase: Phase)

  datatype Disposition = AcceptedLeg | RejectedLeg | UncertainLeg

  datatype Leg = Leg(id: string, chain: string, account: string, input: Amount, expectedOutput: Amount)

  /** One leg as observed on its chain. */
  datatype Observation = Observation(confirmed: bool, effectVerified: bool, actualIn: Amount, actualOut: Amount)

  /** active is empty when the gate is free. settling is the operation whose
      inventory is settled but whose gate is not yet completed. */
  datatype System = System(
    active: string, ledger: State, threads: map<nat, Thread>,
    committed: set<string>, rejected: set<string>, verified: set<string>,
    operations: map<string, seq<Leg>>, observed: map<string, map<string, Observation>>, settling: Option<string>)

  // ---------- the gate ----------

  function GateBegin(active: string, operation: string): (string, bool) {
    if operation == "" || active != "" then (active, false) else (operation, true)
  }

  function GateComplete(active: string, operation: string): string {
    if operation != "" && active == operation then "" else active
  }

  // ---------- steps ----------

  datatype Action =
    | Begin(thread: nat, operation: string)
    | RefuseEarly(thread: nat)
    | TryReserve(thread: nat, requirements: seq<Requirement>)
    | FailBeforeCommit(thread: nat)
    | Commit(thread: nat)
    | ReleaseUndone(thread: nat)
    | CompleteUndone(thread: nat)
    | Broadcast(thread: nat, dispositions: seq<Disposition>, recorded: bool)
    | ReleaseRejected(thread: nat)
    | CompleteRejected(thread: nat)
    | Register(operation: string, legs: seq<Leg>)
    | Observe(operation: string, leg: string, observation: Observation)
    | FinishSettling(marked: bool)

  predicate At(s: System, t: nat, phase: Phase) { t in s.threads && s.threads[t].phase == phase }

  function Move(s: System, t: nat, phase: Phase): System
    requires t in s.threads
  {
    s.(threads := s.threads[t := s.threads[t].(phase := phase)])
  }

  predicate AllRejected(dispositions: seq<Disposition>) {
    |dispositions| > 0 && forall i :: 0 <= i < |dispositions| ==> dispositions[i] == RejectedLeg
  }

  predicate VerifiedLeg(leg: Leg, o: Observation) {
    o.confirmed && o.effectVerified && o.actualIn.token == leg.input.token && o.actualOut.token == leg.expectedOutput.token
  }

  /** Every leg of the operation has been observed as verified. */
  predicate AllVerified(legs: seq<Leg>, seen: map<string, Observation>) {
    forall i :: 0 <= i < |legs| ==> legs[i].id in seen && VerifiedLeg(legs[i], seen[legs[i].id])
  }

  function LegEffects(legs: seq<Leg>, seen: map<string, Observation>): seq<Effect>
    requires AllVerified(legs, seen)
  {
    if |legs| == 0 then []
    else
      var leg := legs[|legs| - 1];
      var o := seen[leg.id];
      var spent: int, received: int := 0 - o.actualIn.units, o.actualOut.units;
      LegEffects(legs[..|legs| - 1], seen) + [
        Effect(Key(leg.chain, leg.account, o.actualIn.token), Some(spent)),
        Effect(Key(leg.chain, leg.account, o.actualOut.token), Some(received))]
  }

  /** Observe under the coordinator lock, up to the inventory settlement. */
  function ObserveStep(s: System, operation: string, leg: string, observation: Observation): System {
    if operation == "" || leg == "" || operation !in s.operations || s.settling.Some? then s
    else
      var seen := (if operation in s.observed then s.observed[operation] else map[])[leg := observation];
      SettleStep(s.(observed := s.observed[operation := seen]), operation, s.operations[operation], seen)
  }

  function SettleStep(s: System, operation: string, legs: seq<Leg>, seen: map<string, Observation>): System {
    if |seen| < |legs| || !AllVerified(legs, seen) then s
    else
      var (ledger, ok) := Settle(s.ledger, operation, LegEffects(legs, seen));
      if !ok then s else s.(ledger := ledger, verified := s.verified + {operation}, settling := Some(operation))
  }

  function FinishStep(s: System, marked: bool): System {
    if s.settling.None? then s
    else if !marked then s.(settling := None)
    else
      s.(operations := s.operations - {s.settling.value}, observed := s.observed - {s.settling.value},
         active := GateComplete(s.active, s.settling.value), settling := None)
  }

  function Step(s: System, a: Action): System {
    match a
    case Begin(t, operation) =>
      if t in s.threads then s
      else
        var (active, ok) := GateBegin(s.active, operation);
        s.(active := active, threads := s.threads[t := Thread(operation, if ok then Reserving else Returned)])
    case RefuseEarly(t) => if At(s, t, Reserving) then Move(s, t, Leaving) else s
    case TryReserve(t, requirements) =>
      if !At(s, t, Reserving) then s
      else
        var (ledger, r) := Reserve(s.ledger, s.threads[t].operation, s.threads[t].operation, requirements);
        Move(s.(ledger := ledger), t, if r.Some? then Preparing else Leaving)
    case FailBeforeCommit(t) => if At(s, t, Preparing) then Move(s, t, Undoing) else s
    case Commit(t) =>
      if !At(s, t, Preparing) then s
      else
        var operation := s.threads[t].operation;
        Move(s.(committed := s.committed + {operation}, rejected := s.rejected - {operation}), t, Broadcasting)
    case ReleaseUndone(t) =>
      if At(s, t, Undoing) then Move(s.(ledger := Release(s.ledger, s.threads[t].operation).0), t, Leaving) else s
    case CompleteUndone(t) =>
      if At(s, t, Leaving) then Move(s.(active := GateComplete(s.active, s.threads[t].operation)), t, Returned) else s
    case Broadcast(t, dispositions, recorded) =>
      if !At(s, t, Broadcasting) then s
      else if recorded && AllRejected(dispositions) then Move(s.(rejected := s.rejected + {s.threads[t].operation}), t, Rejecting)
      else Move(s, t, Returned)
    case ReleaseRejected(t) =>
      if At(s, t, Rejecting) then Move(s.(ledger := Release(s.ledger, s.threads[t].operation).0), t, Rejected) else s
    case CompleteRejected(t) =>
      if At(s, t, Rejected) then Move(s.(active := GateComplete(s.active, s.threads[t].operation)), t, Returned) else s
    case Register(operation, legs) => if operation == "" then s else s.(operations := s.operations[operation := legs])
    case Observe(operation, leg, observation) => ObserveStep(s, operation, leg, observation)
    case FinishSettling(marked) => FinishStep(s, marked)
  }

  function RunAll(s: System, actions: seq<Action>): System {
    if |actions| == 0 then s else Step(RunAll(s, actions[..|actions| - 1]), actions[|actions| - 1])
  }

  // ---------- the invariant ----------

  predicate Live(t: Thread) { t.phase != Returned }

  predicate BeforeCommit(p: Phase) { p == Reserving || p == Preparing || p == Undoing || p == Leaving }

  predicate Reserved(p: Phase) { p == Preparing || p == Undoing || p == Broadcasting || p == Rejecting }

  /** Settled for good, by verified effects. */
  predicate Done(s: System, operation: string) { operation in s.ledger.settled }

  /** Committed, and neither rejected on every leg nor settled. */
  predicate Pending(s: System, operation: string) {
    operation in s.committed && operation !in s.rejected && !Done(s, operation)
  }

  /** A running call owns the gate, unless its operation was settled meanwhile;
      and its reservation is live exactly in the phases that hold it. */
  ghost predicate ThreadOk(s: System, t: Thread) {
    Live(t) ==>
      && t.operation != ""
      && (Done(s, t.operation) || s.active == t.operation)
      && (Reserved(t.phase) ==> Done(s, t.operation) || t.operation in s.ledger.reservations)
      && (t.phase == Reserving || t.phase == Leaving || t.phase == Rejected ==> t.operation !in s.ledger.reservations)
      && (BeforeCommit(t.phase) && t.operation in s.committed ==> t.operation in s.rejected || Done(s, t.operation))
      && (t.phase == Broadcasting ==> t.operation in s.committed)
      && (t.phase == Rejecting || t.phase == Rejected ==> t.operation in s.rejected || Done(s, t.operation))
  }

  ghost predicate ThreadsOk(s: System) {
    forall t {:trigger ThreadOk(s, s.threads[t])} :: t in s.threads ==> ThreadOk(s, s.threads[t])
  }

  /** Two running calls of one operation only after it was settled. */
  ghost predicate OneEach(s: System) {
    forall t, u {:trigger s.threads[t], s.threads[u]} :: t in s.threads && u in s.threads && t != u &&
      Live(s.threads[t]) && Live(s.threads[u]) && s.threads[t].operation == s.threads[u].operation
      ==> Done(s, s.threads[t].operation)
  }

  /** The gate is held by a running call or by a committed operation. */
  ghost predicate GateHeld(s: System) {
    s.active != "" ==>
      s.active in s.committed || exists t :: t in s.threads && Live(s.threads[t]) && s.threads[t].operation == s.active
  }

  ghost predicate Inv(s: System) {
    && Valid(s.ledger)
    && (forall id {:trigger id in s.ledger.reservations} :: id in s.ledger.reservations ==> id == s.active)
    && ThreadsOk(s)
    && OneEach(s)
    && (forall op {:trigger op in s.committed} :: op in s.committed && Pending(s, op) ==> s.active == op && op in s.ledger.reservations)
    && "" !in s.committed
    && (s.settling.Some? ==> Done(s, s.settling.value))
    && (forall op {:trigger op in s.ledger.settled} :: op in s.ledger.settled ==> op in s.verified)
    && GateHeld(s)
  }

  ghost predicate Init(s: System) {
    && s.active == "" && Valid(s.ledger) && s.ledger.reservations == map[] && s.ledger.settled == map[]
    && s.threads == map[] && s.committed == {} && s.rejected == {} && s.verified == {}
    && s.operations == map[] && s.observed == map[] && s.settling == None
  }

  lemma InitInv(s: System)
    requires Init(s)
    ensures Inv(s)
  {
    assert forall id :: id !in s.ledger.reservations && id !in s.ledger.settled;
  }

  // ---------- every step keeps it ----------

  /** The part about one call is monotone in what is settled. */
  lemma BeginKeeps(s: System, t: nat, operation: string)
    requires Inv(s)
    ensures Inv(Step(s, Begin(t, operation)))
  {
    var n := Step(s, Begin(t, operation));
    if t !in s.threads {
      forall u | u in n.threads ensures ThreadOk(n, n.threads[u]) {
        if u != t { assert ThreadOk(s, s.threads[u]); }
      }
      if s.active == "" && operation != "" {
        assert n.threads[t].operation == n.active && Live(n.threads[t]);
        assert forall id :: id in s.ledger.reservations ==> ReservationOk(s.ledger, id, s.ledger.reservations[id]);
        forall u | u in s.threads && Live(s.threads[u]) && s.threads[u].operation == operation ensures Done(n, operation) {
          assert ThreadOk(s, s.threads[u]);
        }
      } else if s.active != "" && s.active !in s.committed {
        var u :| u in s.threads && Live(s.threads[u]) && s.threads[u].operation == s.active;
        assert n.threads[u] == s.threads[u];
      }
    }
  }

  /** A call changes its phase and nothing shared. */
  lemma MoveKeeps(s: System, t: nat, phase: Phase)
    requires Inv(s) && t in s.threads && Live(s.threads[t])
    requires ThreadOk(s, s.threads[t].(phase := phase))
    requires phase == Returned ==> s.threads[t].operation in s.committed || s.active != s.threads[t].operation
    ensures Inv(Move(s, t, phase))
  {
    var n := Move(s, t, phase);
    forall u | u in n.threads ensures ThreadOk(n, n.threads[u]) {
      if u != t { assert ThreadOk(s, s.threads[u]); }
    }
    if n.active != "" && n.active !in n.committed {
      var u :| u in s.threads && Live(s.threads[u]) && s.threads[u].operation == s.active;
      assert n.threads[u].operation == n.active && Live(n.threads[u]);
    }
  }

  lemma ReserveStepKeeps(s: System, t: nat, requirements: seq<Requirement>)
    requires Inv(s) && At(s, t, Reserving)
    ensures Inv(Step(s, TryReserve(t, requirements)))
  {
    var operation := s.threads[t].operation;
    var (ledger, r) := Reserve(s.ledger, operation, operation, requirements);
    ReserveKeeps(s.ledger, operation, operation, requirements);
    assert ThreadOk(s, s.threads[t]);
    if r.None? {
      MoveKeeps(s, t, Leaving);
      assert s.(ledger := ledger) == s;
    } else {
      ReservedKeeps(s, t, ledger);
    }
  }

  /** The reservation of the call that owns the gate appears. */
  lemma ReservedKeeps(s: System, t: nat, ledger: State)
    requires Inv(s) && At(s, t, Reserving) && Valid(ledger) && ledger.settled == s.ledger.settled
    requires s.threads[t].operation !in ledger.settled && s.threads[t].operation in ledger.reservations
    requires forall id :: id != s.threads[t].operation ==> (id in ledger.reservations <==> id in s.ledger.reservations)
    ensures Inv(Move(s.(ledger := ledger), t, Preparing))
  {
    var n := Move(s.(ledger := ledger), t, Preparing);
    assert ThreadOk(s, s.threads[t]);
    forall u | u in n.threads ensures ThreadOk(n, n.threads[u]) { assert ThreadOk(s, s.threads[u]); }
    assert n.threads[t].operation == n.active && Live(n.threads[t]);
  }

  lemma CommitKeeps(s: System, t: nat)
    requires Inv(s) && At(s, t, Preparing)
    ensures Inv(Step(s, Commit(t)))
  {
    var n := Step(s, Commit(t));
    assert ThreadOk(s, s.threads[t]);
    forall u | u in n.threads ensures ThreadOk(n, n.threads[u]) { assert ThreadOk(s, s.threads[u]); }
    if n.active != "" && n.active !in n.committed {
      var u :| u in s.threads && Live(s.threads[u]) && s.threads[u].operation == s.active;
      assert n.threads[u].operation == n.active && Live(n.threads[u]);
    }
  }

  predicate ReleaseMove(before: Phase, after: Phase) {
    (before == Undoing && after == Leaving) || (before == Rejecting && after == Rejected)
  }

  lemma ReleaseStepKeeps(s: System, t: nat, after: Phase)
    requires Inv(s) && t in s.threads && ReleaseMove(s.threads[t].phase, after)
    ensures Inv(Move(s.(ledger := Release(s.ledger, s.threads[t].operation).0), t, after))
  {
    assert ThreadOk(s, s.threads[t]);
    ReleaseKeeps(s.ledger, s.threads[t].operation);
    ReleasedKeeps(s, t, after, Release(s.ledger, s.threads[t].operation).0);
  }

  /** The reservation of a call that gives up disappears. */
  lemma ReleasedKeeps(s: System, t: nat, after: Phase, ledger: State)
    requires Inv(s) && t in s.threads && ReleaseMove(s.threads[t].phase, after)
    requires Valid(ledger) && ledger.settled == s.ledger.settled && s.threads[t].operation !in ledger.reservations
    requires forall id :: id != s.threads[t].operation ==> (id in ledger.reservations <==> id in s.ledger.reservations)
    ensures Inv(Move(s.(ledger := ledger), t, after))
  {
    var n := Move(s.(ledger := ledger), t, after);
    ReleasedThreads(s, t, after, ledger);
    assert ThreadOk(s, s.threads[t]);
    if n.active != "" && n.active !in n.committed {
      var u :| u in s.threads && Live(s.threads[u]) && s.threads[u].operation == s.active;
      assert n.threads[u].operation == n.active && Live(n.threads[u]);
    }
  }

  /** The calls' part of it; no other running call shares an unsettled operation. */
  lemma ReleasedThreads(s: System, t: nat, after: Phase, ledger: State)
    requires ThreadsOk(s) && OneEach(s) && t in s.threads && ReleaseMove(s.threads[t].phase, after)
    requires ledger.settled == s.ledger.settled && s.threads[t].operation !in ledger.reservations
    requires forall id :: id != s.threads[t].operation ==> (id in ledger.reservations <==> id in s.ledger.reservations)
    ensures ThreadsOk(Move(s.(ledger := ledger), t, after)) && OneEach(Move(s.(ledger := ledger), t, after))
  {
    var n := Move(s.(ledger := ledger), t, after);
    assert ThreadOk(s, s.threads[t]);
    forall u | u in n.threads ensures ThreadOk(n, n.threads[u]) { assert ThreadOk(s, s.threads[u]); }
  }

  /** Completing the gate for an operation that holds no reservation and is
      either settled or about to leave. */
  lemma CompleteKeeps(s: System, t: nat)
    requires Inv(s) && (At(s, t, Leaving) || At(s, t, Rejected))
    ensures Inv(Move(s.(active := GateComplete(s.active, s.threads[t].operation)), t, Returned))
  {
    var operation := s.threads[t].operation;
    assert ThreadOk(s, s.threads[t]);
    var n := Move(s.(active := GateComplete(s.active, operation)), t, Returned);
    forall u | u in n.threads ensures ThreadOk(n, n.threads[u]) { assert ThreadOk(s, s.threads[u]); }
    if s.active != operation { MoveKeeps(s, t, Returned); assert n == Move(s, t, Returned); }
  }

  lemma BroadcastKeeps(s: System, t: nat, dispositions: seq<Disposition>, recorded: bool)
    requires Inv(s) && At(s, t, Broadcasting)
    ensures Inv(Step(s, Broadcast(t, dispositions, recorded)))
  {
    assert ThreadOk(s, s.threads[t]);
    if recorded && AllRejected(dispositions) {
      var marked := s.(rejected := s.rejected + {s.threads[t].operation});
      forall u | u in marked.threads ensures ThreadOk(marked, marked.threads[u]) { assert ThreadOk(s, s.threads[u]); }
      assert Inv(marked);
      MoveKeeps(marked, t, Rejecting);
    } else {
      MoveKeeps(s, t, Returned);
    }
  }

  lemma SettledKeeps(s: System, operation: string, ledger: State)
    requires Inv(s) && Valid(ledger) && operation in ledger.settled
    requires ledger.settled.Keys == s.ledger.settled.Keys + {operation}
    requires forall id :: id != operation ==> (id in ledger.reservations <==> id in s.ledger.reservations)
    ensures Inv(s.(ledger := ledger, verified := s.verified + {operation}, settling := Some(operation)))
  {
    var n := s.(ledger := ledger, verified := s.verified + {operation}, settling := Some(operation));
    forall u | u in n.threads ensures ThreadOk(n, n.threads[u]) { assert ThreadOk(s, s.threads[u]); }
  }

  /** What the coordinator remembers does not matter to the invariant. */
  lemma MemoryKeeps(s: System, operations: map<string, seq<Leg>>, observed: map<string, map<string, Observation>>)
    requires Inv(s)
    ensures Inv(s.(operations := operations, observed := observed))
  {
    var n := s.(operations := operations, observed := observed);
    forall u | u in n.threads ensures ThreadOk(n, n.threads[u]) { assert ThreadOk(s, s.threads[u]); }
  }

  /** What Settle leaves behind when it succeeds. */
  lemma SettleAddsOne(s: State, id: string, es: seq<Effect>)
    requires Valid(s)
    ensures var (t, ok) := Settle(s, id, es);
            && Valid(t)
            && (ok ==> id in t.settled && t.settled.Keys == s.settled.Keys + {id})
            && (forall other :: other != id ==> (other in t.reservations <==> other in s.reservations))
  {
    SettleKeeps(s, id, es);
  }

  lemma ObserveKeeps(s: System, operation: string, leg: string, observation: Observation)
    requires Inv(s)
    ensures Inv(ObserveStep(s, operation, leg, observation))
  {
    if operation == "" || leg == "" || operation !in s.operations || s.settling.Some? { return; }
    var seen := (if operation in s.observed then s.observed[operation] else map[])[leg := observation];
    var observed := s.observed[operation := seen];
    var next := s.(operations := s.operations, observed := observed);
    MemoryKeeps(s, s.operations, observed);
    assert next == s.(observed := observed);
    VerifiedKeeps(next, operation, s.operations[operation], seen);
  }

  lemma VerifiedKeeps(s: System, operation: string, legs: seq<Leg>, seen: map<string, Observation>)
    requires Inv(s)
    ensures Inv(SettleStep(s, operation, legs, seen))
  {
    if |seen| < |legs| || !AllVerified(legs, seen) { return; }
    var es := LegEffects(legs, seen);
    SettleAddsOne(s.ledger, operation, es);
    var (ledger, ok) := Settle(s.ledger, operation, es);
    if ok { SettledKeeps(s, operation, ledger); }
  }

  lemma FinishKeeps(s: System, marked: bool)
    requires Inv(s)
    ensures Inv(FinishStep(s, marked))
  {
    var n := FinishStep(s, marked);
    forall u | u in n.threads ensures ThreadOk(n, n.threads[u]) { assert ThreadOk(s, s.threads[u]); }
  }

  /** Every step of every call keeps the invariant. */
  lemma StepKeeps(s: System, a: Action)
    requires Inv(s)
    ensures Inv(Step(s, a))
  {
    match a
    case Begin(t, operation) => BeginKeeps(s, t, operation);
    case RefuseEarly(t) => if At(s, t, Reserving) { assert ThreadOk(s, s.threads[t]); MoveKeeps(s, t, Leaving); }
    case TryReserve(t, requirements) => if At(s, t, Reserving) { ReserveStepKeeps(s, t, requirements); }
    case FailBeforeCommit(t) => if At(s, t, Preparing) { assert ThreadOk(s, s.threads[t]); MoveKeeps(s, t, Undoing); }
    case Commit(t) => if At(s, t, Preparing) { CommitKeeps(s, t); }
    case ReleaseUndone(t) => if At(s, t, Undoing) { ReleaseStepKeeps(s, t, Leaving); }
    case CompleteUndone(t) => if At(s, t, Leaving) { CompleteKeeps(s, t); }
    case Broadcast(t, dispositions, recorded) => if At(s, t, Broadcasting) { BroadcastKeeps(s, t, dispositions, recorded); }
    case ReleaseRejected(t) => if At(s, t, Rejecting) { ReleaseStepKeeps(s, t, Rejected); }
    case CompleteRejected(t) => if At(s, t, Rejected) { CompleteKeeps(s, t); }
    case Register(operation, legs) => if operation != "" { MemoryKeeps(s, s.operations[operation := legs], s.observed); }
    case Observe(operation, leg, observation) => ObserveKeeps(s, operation, leg, observation);
    case FinishSettling(marked) => FinishKeeps(s, marked);
  }

  lemma {:induction false} RunInv(s: System, actions: seq<Action>)
    requires Init(s)
    ensures Inv(RunAll(s, actions))
  {
    if |actions| == 0 { InitInv(s); } else {
      RunInv(s, actions[..|actions| - 1]);
      StepKeeps(RunAll(s, actions[..|actions| - 1]), actions[|actions| - 1]);
    }
  }

  // ---------- what the runs promise ----------

  /** At most one operation is active: two running calls never both have an
      unsettled operation. */
  lemma OneActiveOperation(s: System, actions: seq<Action>, t: nat, u: nat)
    requires Init(s)
    ensures var n := RunAll(s, actions);
            t != u && t in n.threads && u in n.threads && Live(n.threads[t]) && Live(n.threads[u]) ==>
              Done(n, n.threads[t].operation) || Done(n, n.threads[u].operation)
  {
    RunInv(s, actions);
    var n := RunAll(s, actions);
    if t != u && t in n.threads && u in n.threads && Live(n.threads[t]) && Live(n.threads[u]) {
      assert ThreadOk(n, n.threads[t]) && ThreadOk(n, n.threads[u]);
    }
  }

  /** The gate covers the reservation: whatever is reserved belongs to the one
      active operation, so a free gate means nothing is reserved. */
  lemma GateCoversReservation(s: System, actions: seq<Action>)
    requires Init(s)
    ensures var n := RunAll(s, actions);
            && n.ledger.reservations.Keys <= {n.active}
            && (n.active == "" ==> n.ledger.reservations == map[])
  {
    RunInv(s, actions);
    var n := RunAll(s, actions);
    forall id | id in n.ledger.reservations ensures id == n.active && id != "" {
      assert ReservationOk(n.ledger, id, n.ledger.reservations[id]);
    }
  }

  /** Once no call runs it, an operation that was never committed has given back
      both the gate and its reservation. */
  lemma FailureReleasesBoth(s: System, actions: seq<Action>, operation: string)
    requires Init(s) && operation != ""
    ensures var n := RunAll(s, actions);
            operation !in n.committed && (forall t :: t in n.threads && n.threads[t].operation == operation ==> !Live(n.threads[t])) ==>
              n.active != operation && operation !in n.ledger.reservations
  {
    RunInv(s, actions);
  }

  /** A committed operation keeps gate and reservation until every leg was
      rejected or its verified effects were settled. */
  lemma CommittedHoldsBoth(s: System, actions: seq<Action>, operation: string)
    requires Init(s)
    ensures var n := RunAll(s, actions);
            Pending(n, operation) ==> n.active == operation && operation in n.ledger.reservations
  {
    RunInv(s, actions);
  }

  /** The only steps that end being pending: a broadcast every leg of which was
      rejected and recorded so, or an observation that completes a verified set
      and settles its effects in the inventory. */
  lemma PendingEnds(s: System, a: Action, operation: string)
    requires Pending(s, operation) && !Pending(Step(s, a), operation)
    ensures (a.Broadcast? && a.recorded && AllRejected(a.dispositions)) || (a.Observe? && a.operation == operation)
    ensures a.Observe? ==> operation in s.operations && operation in Step(s, a).verified
    ensures a.Observe? ==> AllVerified(s.operations[operation], Step(s, a).observed[operation])
    ensures a.Observe? ==> Step(s, a).ledger == Settle(s.ledger, operation, LegEffects(s.operations[operation], Step(s, a).observed[operation])).0
  {
    match a
    case TryReserve(t, requirements) =>
      if At(s, t, Reserving) { ReserveSettlesNothing(s.ledger, s.threads[t].operation, requirements); }
    case _ =>
  }

  lemma ReserveSettlesNothing(s: State, operation: string, requirements: seq<Requirement>)
    ensures Reserve(s, operation, operation, requirements).0.settled == s.settled
  {
  }

  /** A step that opens the gate of a committed operation finds it rejected or
      settled. */
  lemma OpeningStep(s: System, a: Action)
    requires Inv(s) && s.active in s.committed && Step(s, a).active != s.active
    ensures Step(s, a).active == "" && !Pending(s, s.active)
  {
    match a
    case CompleteUndone(t) => assert ThreadOk(s, s.threads[t]);
    case CompleteRejected(t) => assert ThreadOk(s, s.threads[t]);
    case _ =>
  }

  /** The gate opens for a committed operation only when it is pending no more,
      and then nothing is reserved. */
  lemma GateOpensAfterOutcome(s: System, actions: seq<Action>, a: Action)
    requires Init(s)
    ensures var n := RunAll(s, actions);
            n.active in n.committed && Step(n, a).active != n.active ==>
              !Pending(n, n.active) && Step(n, a).active == "" && Step(n, a).ledger.reservations == map[]
  {
    RunInv(s, actions);
    var n := RunAll(s, actions);
    if n.active in n.committed && Step(n, a).active != n.active {
      OpeningStep(n, a);
      assert RunAll(s, actions + [a]) == Step(n, a) by { assert (actions + [a])[..|actions|] == actions; }
      GateCoversReservation(s, actions + [a]);
    }
  }
}
