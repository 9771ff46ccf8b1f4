/** The gate, the executor and the settlement coordinator as objects, each call
    proved to be a run of the protocol's steps. */
module LiveExecutor {
  import opened Common
  import opened Fingerprint
  import opened Ledger
  import opened LiveProtocol
  import opened LedgerLaws
  import opened LedgerMeaning
  import opened SettlementLaws
  import Stock = Inventory

  class OperationGate {
    var active: string

    constructor ()
      ensures active == ""
    {
      active := "";
    }

    method TryBegin(operation: string) returns (ok: bool)
      modifies this
      ensures (active, ok) == GateBegin(old(active), operation)
    {
      if operation == "" { return false; }
      if active != "" { return false; }
      active := operation;
      ok := true;
    }

    method Restore(operation: string) returns (ok: bool)
      modifies this
      ensures (active, ok) == GateBegin(old(active), operation)
    {
      ok := TryBegin(operation);
    }

    method Complete(operation: string) returns (ok: bool)
      modifies this
      ensures active == GateComplete(old(active), operation)
      ensures ok <==> operation != "" && old(active) == operation
    {
      if operation == "" { return false; }
      if active != operation { return false; }
      active := "";
      ok := true;
    }
  }

  // ---------- the executor ----------

  /** What a broadcast came back with. */
  datatype Broadcasted = Broadcasted(disposition: Option<Disposition>, accepted: bool, failed: bool)

  /** A broadcast without a disposition counts as accepted only if it returned
      without an error and was accepted. */
  function Classify(b: Broadcasted): (d: Disposition)
    ensures d == RejectedLeg <==> b.disposition == Some(RejectedLeg)
  {
    match b.disposition
    case Some(d) => d
    case None => if !b.failed && b.accepted then AcceptedLeg else UncertainLeg
  }

  function Dispositions(bs: seq<Broadcasted>): seq<Disposition> { seq(|bs|, i requires 0 <= i < |bs| => Classify(bs[i])) }

  /** Everything the managers, the clock and the store answer during one call:
      artifacts are the legs an artifact is given for, recorded tells leg by leg
      whether the broadcast could be written down. */
  datatype Answers = Answers(
    artifacts: set<string>, prepared: seq<bool>, recent: bool, wellFormed: bool, committed: bool,
    broadcasts: seq<Broadcasted>, recorded: seq<bool>, markedNone: bool)

  datatype Outcome = Refused | NoExecution | ReconciliationRequired | StoreFailed | Accepted

  predicate ArtifactsGiven(legs: seq<Leg>, artifacts: set<string>) {
    |artifacts| == 2 && forall i :: 0 <= i < |legs| ==> legs[i].id in artifacts
  }

  function Requirements(legs: seq<Leg>): (rs: seq<Requirement>)
    ensures |rs| == |legs|
  {
    seq(|legs|, i requires 0 <= i < |legs| =>
      Requirement(Key(legs[i].chain, legs[i].account, legs[i].input.token), legs[i].input))
  }

  predicate All(bs: seq<bool>) { forall i :: 0 <= i < |bs| ==> bs[i] }

  /** The store wrote down every broadcast and, where all were rejected, the end. */
  predicate WrittenDown(answers: Answers) { All(answers.recorded) && answers.markedNone }

  predicate ReadyToCommit(answers: Answers) {
    All(answers.prepared) && answers.recent && answers.wellFormed && answers.committed
  }

  predicate Shaped(legs: seq<Leg>, answers: Answers) {
    |answers.prepared| == |legs| && |answers.broadcasts| == |legs| && |answers.recorded| == |legs|
  }

  /** How a committed call ends. */
  function Concluded(answers: Answers): Outcome {
    if !All(answers.recorded) then StoreFailed
    else if AllRejected(Dispositions(answers.broadcasts)) then if answers.markedNone then NoExecution else StoreFailed
    else if exists i :: 0 <= i < |answers.broadcasts| && Classify(answers.broadcasts[i]) != AcceptedLeg then ReconciliationRequired
    else Accepted
  }

  /** How a call that nothing interferes with ends. */
  function Verdict(active: string, s: State, operation: string, legs: seq<Leg>, answers: Answers): Outcome {
    if operation == "" || active != "" || !ArtifactsGiven(legs, answers.artifacts) then Refused
    else VerdictOnceBegun(s, operation, Requirements(legs), answers)
  }

  function VerdictOnceBegun(s: State, operation: string, requirements: seq<Requirement>, answers: Answers): Outcome {
    if Reserve(s, operation, operation, requirements).1.None? || !ReadyToCommit(answers) then Refused
    else Concluded(answers)
  }

  predicate Holds(o: Outcome) { o != Refused && o != NoExecution }

  /** Reserving and then releasing leaves the ledger as it was. */
  lemma ReserveThenRelease(s: State, id: string, operation: string, rs: seq<Requirement>)
    requires Ledger.Valid(s) && id != "" && id !in s.reservations
    ensures Release(Reserve(s, id, operation, rs).0, id).0 == s
    ensures Reserve(s, id, operation, rs).1.None? ==> Reserve(s, id, operation, rs).0 == s
    ensures Reserve(s, id, operation, rs).1.Some? ==> |rs| > 0
  {
    var r := Reserve(s, id, operation, rs).1;
    if |rs| > 0 && (forall i :: 0 <= i < |rs| ==> AcceptableRequirement(rs[i])) && Affordable(s, rs, []) { LateCheckPasses(s, rs); }
    if r.Some? {
      AddThenSubtract(s.reserved, rs);
      assert s.reservations[id := r.value] - {id} == s.reservations;
    }
  }

  lemma AddThenSubtract(reserved: map<Key, int>, rs: seq<Requirement>)
    ensures SubReserved(AddReserved(reserved, rs), rs) == reserved
  {
  }

  // ---------- what a call asks for, and how it ends ----------

  /** What the legs' inputs ask of one key. */
  function Asked(legs: seq<Leg>, k: Key): nat {
    if |legs| == 0 then 0 else (if SpentFrom(legs[0]) == k then legs[0].input.units else 0) + Asked(legs[1..], k)
  }

  /** The requirements ask for the legs' inputs and nothing else. */
  lemma {:induction false} RequirementsAsk(legs: seq<Leg>, k: Key)
    ensures Need(Requirements(legs), k) == Asked(legs, k)
  {
    if |legs| == 0 {
    } else {
      var first := Requirement(SpentFrom(legs[0]), legs[0].input);
      assert Requirements(legs) == [first] + Requirements(legs[1..]);
      NeedAppend([first], Requirements(legs[1..]), k);
      NeedOfOne(first, k);
      RequirementsAsk(legs[1..], k);
    }
  }

  /** Every leg asks for something, and its key can hold what all legs ask of it. */
  predicate Fundable(s: State, legs: seq<Leg>) {
    |legs| > 0 && forall i :: 0 <= i < |legs| ==>
      legs[i].input.token != "" && legs[i].input.units > 0 && Fits(s, SpentFrom(legs[i]), Asked(legs, SpentFrom(legs[i])))
  }

  lemma FundableIff(s: State, operation: string, legs: seq<Leg>)
    requires Ledger.Valid(s) && operation !in s.reservations
    ensures Reserve(s, operation, operation, Requirements(legs)).1.Some? <==>
              operation != "" && operation !in s.settled && Fundable(s, legs)
  {
    ReserveIff(s, operation, operation, Requirements(legs));
    forall i | 0 <= i < |legs|
      ensures Holdable(s, Requirements(legs), Requirements(legs)[i]) <==>
              legs[i].input.token != "" && legs[i].input.units > 0 && Fits(s, SpentFrom(legs[i]), Asked(legs, SpentFrom(legs[i])))
    {
      RequirementsAsk(legs, SpentFrom(legs[i]));
    }
  }

  /** A reservation of its own, left from before, serves an operation again. */
  predicate Reservable(s: State, operation: string, legs: seq<Leg>) {
    if operation in s.reservations then |legs| > 0 && s.reservations[operation].operation == operation
    else operation !in s.settled && Fundable(s, legs)
  }

  /** The call reaches its broadcasts: it names an operation, the gate is free,
      there is an artifact for every leg and no other, the inventory can hold
      the inputs, and everything before the commit went well. */
  predicate Proceeds(active: string, s: State, operation: string, legs: seq<Leg>, answers: Answers) {
    && operation != "" && active == ""
    && |answers.artifacts| == 2 && (forall i :: 0 <= i < |legs| ==> legs[i].id in answers.artifacts)
    && Reservable(s, operation, legs)
    && (forall i :: 0 <= i < |answers.prepared| ==> answers.prepared[i])
    && answers.recent && answers.wellFormed && answers.committed
  }

  predicate RejectedBy(b: Broadcasted) { b.disposition == Some(RejectedLeg) }

  predicate AcceptedBy(b: Broadcasted) {
    b.disposition == Some(AcceptedLeg) || (b.disposition == None && !b.failed && b.accepted)
  }

  /** How a call that reached its broadcasts ended. */
  predicate ConcludedAs(r: Outcome, answers: Answers) {
    var recorded := forall i :: 0 <= i < |answers.recorded| ==> answers.recorded[i];
    var allRejected := forall i :: 0 <= i < |answers.broadcasts| ==> RejectedBy(answers.broadcasts[i]);
    var allAccepted := forall i :: 0 <= i < |answers.broadcasts| ==> AcceptedBy(answers.broadcasts[i]);
    match r
    case Refused => false
    case StoreFailed => !recorded || (allRejected && !answers.markedNone)
    case NoExecution => recorded && allRejected && answers.markedNone
    case Accepted => recorded && allAccepted
    case ReconciliationRequired => recorded && !allRejected && !allAccepted
  }

  lemma ConcludedSays(answers: Answers)
    requires |answers.broadcasts| > 0
    ensures ConcludedAs(Concluded(answers), answers)
  {
    var ds := Dispositions(answers.broadcasts);
    forall i | 0 <= i < |ds|
      ensures (ds[i] == RejectedLeg <==> RejectedBy(answers.broadcasts[i])) && (ds[i] == AcceptedLeg <==> AcceptedBy(answers.broadcasts[i]))
    {
    }
    if Concluded(answers) == Accepted { assert AcceptedBy(answers.broadcasts[0]); }
  }

  /** A call is refused exactly if it does not reach its broadcasts; otherwise
      they say how it ends. */
  lemma VerdictSays(active: string, s: State, operation: string, legs: seq<Leg>, answers: Answers)
    requires Ledger.Valid(s) && Shaped(legs, answers)
    ensures var r := Verdict(active, s, operation, legs, answers);
            && (r == Refused <==> !Proceeds(active, s, operation, legs, answers))
            && (r != Refused ==> ConcludedAs(r, answers))
  {
    if operation in s.reservations {
      assert Reserve(s, operation, operation, Requirements(legs)).1.Some? <==>
             operation != "" && |legs| > 0 && s.reservations[operation].operation == operation;
    } else {
      FundableIff(s, operation, legs);
    }
    if |legs| > 0 { ConcludedSays(answers); }
  }

  /** What a call that keeps its reservation has reserved. */
  lemma ReservesAsked(s: State, operation: string, legs: seq<Leg>)
    requires Ledger.Valid(s) && operation !in s.reservations
    ensures var (t, r) := Reserve(s, operation, operation, Requirements(legs));
            && t.reserved.Keys == s.reserved.Keys
            && forall k :: k in s.reserved ==> t.reserved[k] == s.reserved[k] + if r.Some? then Asked(legs, k) else 0
  {
    var (t, r) := Reserve(s, operation, operation, Requirements(legs));
    forall k | k in s.reserved
      ensures k in t.reserved && t.reserved[k] == s.reserved[k] + if r.Some? then Asked(legs, k) else 0
    {
      ReserveMoves(s, operation, operation, Requirements(legs), k);
      RequirementsAsk(legs, k);
    }
    ReservedKeys(s, operation, Requirements(legs));
  }

  lemma ReservedKeys(s: State, operation: string, rs: seq<Requirement>)
    ensures Reserve(s, operation, operation, rs).0.reserved.Keys == s.reserved.Keys
  {
  }

  class Executor {
    const gate: OperationGate
    const inventory: Stock.Inventory

    constructor (gate: OperationGate, inventory: Stock.Inventory)
      ensures this.gate == gate && this.inventory == inventory
    {
      this.gate, this.inventory := gate, inventory;
    }

    /** Every leg needs an artifact; each asks for its input. */
    method CheckArtifacts(legs: seq<Leg>, artifacts: set<string>) returns (ok: bool, requirements: seq<Requirement>)
      ensures ok == ArtifactsGiven(legs, artifacts)
      ensures ok ==> requirements == Requirements(legs)
    {
      requirements := [];
      if |artifacts| != 2 { return false, requirements; }
      for i := 0 to |legs|
        invariant forall j :: 0 <= j < i ==> legs[j].id in artifacts
        invariant requirements == Requirements(legs)[..i]
      {
        if legs[i].id !in artifacts { return false, requirements; }
        requirements := requirements + [Requirement(Key(legs[i].chain, legs[i].account, legs[i].input.token), legs[i].input)];
      }
      ok := true;
    }

    method AllPrepared(prepared: seq<bool>) returns (ok: bool)
      ensures ok == All(prepared)
    {
      for i := 0 to |prepared|
        invariant forall j :: 0 <= j < i ==> prepared[j]
      {
        if !prepared[i] { return false; }
      }
      ok := true;
    }

    /** Count the dispositions, writing each down; stops at the first failure. */
    method Count(broadcasts: seq<Broadcasted>, recorded: seq<bool>)
      returns (written: bool, accepted: nat, rejected: nat, unknown: nat)
      requires |broadcasts| == |recorded|
      ensures written == All(recorded)
      ensures written ==> accepted + rejected + unknown == |broadcasts|
      ensures written ==> (rejected == |broadcasts| <==> forall i :: 0 <= i < |broadcasts| ==> Classify(broadcasts[i]) == RejectedLeg)
      ensures written ==> (accepted == |broadcasts| <==> forall i :: 0 <= i < |broadcasts| ==> Classify(broadcasts[i]) == AcceptedLeg)
    {
      accepted, rejected, unknown := 0, 0, 0;
      for i := 0 to |broadcasts|
        invariant forall j :: 0 <= j < i ==> recorded[j]
        invariant accepted + rejected + unknown == i
        invariant rejected == i <==> forall j :: 0 <= j < i ==> Classify(broadcasts[j]) == RejectedLeg
        invariant accepted == i <==> forall j :: 0 <= j < i ==> Classify(broadcasts[j]) == AcceptedLeg
      {
        match Classify(broadcasts[i]) {
          case AcceptedLeg => accepted := accepted + 1;
          case RejectedLeg => rejected := rejected + 1;
          case UncertainLeg => unknown := unknown + 1;
        }
        if !recorded[i] { written := false; return; }
      }
      written := true;
    }

    /** Count the broadcasts of a committed call and say how it ends. */
    method Conclude(answers: Answers) returns (r: Outcome)
      requires |answers.broadcasts| == |answers.recorded| > 0
      ensures r == Concluded(answers)
    {
      var written, accepted, rejected, unknown := Count(answers.broadcasts, answers.recorded);
      ghost var ds := Dispositions(answers.broadcasts);
      assert forall i :: 0 <= i < |ds| ==> ds[i] == Classify(answers.broadcasts[i]);
      assert written ==> (AllRejected(ds) <==> rejected == |answers.broadcasts|);
      if !written { return StoreFailed; }
      if rejected == |answers.broadcasts| {
        if !answers.markedNone { return StoreFailed; }
        return NoExecution;
      }
      if rejected > 0 || unknown > 0 { return ReconciliationRequired; }
      r := Accepted;
    }

    /** One call, start to end. It reports exactly the verdict; a refused call and
        one that executed nothing leave gate and inventory as they were, any
        other keeps both. */
    method Execute(operation: string, legs: seq<Leg>, answers: Answers) returns (r: Outcome)
      requires inventory.Valid() && Shaped(legs, answers)
      modifies gate, inventory
      ensures inventory.Valid()
      ensures r == Verdict(old(gate.active), old(inventory.Snapshot()), operation, legs, answers)
      ensures r == Refused <==> !Proceeds(old(gate.active), old(inventory.Snapshot()), operation, legs, answers)
      ensures r != Refused ==> ConcludedAs(r, answers)
      ensures operation !in old(inventory.reservations) ==>
                && inventory.reserved.Keys == old(inventory.reserved.Keys)
                && forall k :: k in old(inventory.reserved) ==>
                     inventory.reserved[k] == old(inventory.reserved[k]) + if Holds(r) then Asked(legs, k) else 0
      ensures !Holds(r) ==> gate.active == old(gate.active)
      ensures !Holds(r) && operation !in old(inventory.reservations) ==> inventory.Snapshot() == old(inventory.Snapshot())
      ensures r == NoExecution ==> operation !in inventory.reservations
      ensures Holds(r) ==> gate.active == operation
      ensures Holds(r) ==> inventory.Snapshot() == Reserve(old(inventory.Snapshot()), operation, operation, Requirements(legs)).0
    {
      VerdictSays(gate.active, inventory.Snapshot(), operation, legs, answers);
      if operation !in inventory.reservations { ReservesAsked(inventory.Snapshot(), operation, legs); }
      var begun := gate.TryBegin(operation);
      if !begun { return Refused; }
      var given, requirements := CheckArtifacts(legs, answers.artifacts);
      if !given {
        var _ := gate.Complete(operation);
        return Refused;
      }
      r := ReserveAndAttempt(operation, legs, requirements, answers);
    }

    method ReserveAndAttempt(operation: string, legs: seq<Leg>, requirements: seq<Requirement>, answers: Answers) returns (r: Outcome)
      requires inventory.Valid() && operation != "" && gate.active == operation
      requires Shaped(legs, answers) && requirements == Requirements(legs)
      modifies gate, inventory
      ensures inventory.Valid()
      ensures r == VerdictOnceBegun(old(inventory.Snapshot()), operation, requirements, answers)
      ensures !Holds(r) ==> gate.active == ""
      ensures !Holds(r) && operation !in old(inventory.reservations) ==> inventory.Snapshot() == old(inventory.Snapshot())
      ensures r == NoExecution ==> operation !in inventory.reservations
      ensures Holds(r) ==> gate.active == operation
      ensures Holds(r) ==> inventory.Snapshot() == Reserve(old(inventory.Snapshot()), operation, operation, requirements).0
    {
      if operation !in inventory.reservations { ReserveThenRelease(inventory.Snapshot(), operation, operation, requirements); }
      ReserveKeeps(inventory.Snapshot(), operation, operation, requirements);
      var reservation := inventory.Reserve(operation, operation, requirements);
      if reservation.None? {
        var _ := gate.Complete(operation);
        return Refused;
      }
      ReleaseKeeps(inventory.Snapshot(), operation);
      r := Attempt(operation, legs, answers);
    }

    /** From the reservation on. */
    method Attempt(operation: string, legs: seq<Leg>, answers: Answers) returns (r: Outcome)
      requires inventory.Valid() && operation != "" && gate.active == operation && Shaped(legs, answers) && |legs| > 0
      modifies gate, inventory
      ensures inventory.Valid()
      ensures r == if ReadyToCommit(answers) then Concluded(answers) else Refused
      ensures Holds(r) ==> gate.active == operation && inventory.Snapshot() == old(inventory.Snapshot())
      ensures !Holds(r) ==> gate.active == "" && inventory.Snapshot() == Ledger.Release(old(inventory.Snapshot()), operation).0
    {
      r := Refused;
      var prepared := AllPrepared(answers.prepared);
      if prepared && answers.recent && answers.wellFormed && answers.committed {
        r := Conclude(answers);
      }
      if r == Refused || r == NoExecution {
        var _ := inventory.Release(operation);
        var _ := gate.Complete(operation);
      }
    }
  }

  // ---------- the settlement coordinator ----------

  class SettlementCoordinator {
    const gate: OperationGate
    const inventory: Stock.Inventory
    var operations: map<string, seq<Leg>>
    var observed: map<string, map<string, Observation>>

    constructor (gate: OperationGate, inventory: Stock.Inventory)
      ensures this.gate == gate && this.inventory == inventory && operations == map[] && observed == map[]
    {
      this.gate, this.inventory := gate, inventory;
      operations, observed := map[], map[];
    }

    /** The protocol's state as far as the coordinator can see it. */
    ghost function View(): System
      reads this, gate, inventory
    {
      System(gate.active, inventory.Snapshot(), map[], {}, {}, {}, operations, observed, None)
    }

    ghost predicate Shares(s: System)
      reads this, gate, inventory
    {
      s.active == gate.active && s.ledger == inventory.Snapshot() && s.operations == operations && s.observed == observed
    }

    /** prepared tells whether the operation passed its own validation. */
    method Register(operation: string, legs: seq<Leg>, prepared: bool) returns (ok: bool)
      modifies this
      ensures ok == (prepared && operation != "")
      ensures operations == if ok then old(operations)[operation := legs] else old(operations)
      ensures observed == old(observed)
    {
      ok := prepared && operation != "";
      if ok { operations := operations[operation := legs]; }
    }

    /** Sum up the verified legs, or fail at the first that is not. */
    method Effects(legs: seq<Leg>, seen: map<string, Observation>) returns (ok: bool, effects: seq<Effect>)
      ensures ok == AllVerified(legs, seen)
      ensures ok ==> effects == LegEffects(legs, seen)
    {
      effects := [];
      for i := 0 to |legs|
        invariant AllVerified(legs[..i], seen) && effects == LegEffects(legs[..i], seen)
      {
        var leg := legs[i];
        if leg.id !in seen || !VerifiedLeg(leg, seen[leg.id]) {
          assert legs[i] == leg;
          return false, effects;
        }
        assert legs[..i + 1][..i] == legs[..i];
        var o := seen[leg.id];
        var spent: int, received: int := 0 - o.actualIn.units, o.actualOut.units;
        effects := effects + [
          Effect(Key(leg.chain, leg.account, o.actualIn.token), Some(spent)),
          Effect(Key(leg.chain, leg.account, o.actualOut.token), Some(received))];
      }
      assert legs[..|legs|] == legs;
      ok := true;
    }

    /** One observation, start to end: the protocol's two steps under the lock.
        recorded and marked tell whether the store took it down. */
    method Observe(operation: string, leg: string, observation: Observation, recorded: bool, marked: bool) returns (ok: bool)
      requires inventory.Valid()
      modifies this, gate, inventory
      ensures inventory.Valid()
      ensures recorded ==> Shares(FinishStep(ObserveStep(old(View()), operation, leg, observation), marked))
      ensures !recorded ==> !ok && Shares(old(View()))
      ensures recorded ==> ObservedAs(old(View()), View(), operation, leg, observation, marked)
      ensures recorded && Settles(old(inventory.Snapshot()), old(operations), old(observed), operation, leg, observation) ==> ok == marked
    {
      ok := Take(operation, leg, observation, recorded, marked);
      if recorded { ObservationMeans(old(View()), View(), operation, leg, observation, marked); }
    }

    /** The same under the lock. */
    method Take(operation: string, leg: string, observation: Observation, recorded: bool, marked: bool) returns (ok: bool)
      requires inventory.Valid()
      modifies this, gate, inventory
      ensures inventory.Valid()
      ensures recorded ==> Shares(FinishStep(ObserveStep(old(View()), operation, leg, observation), marked))
      ensures !recorded ==> !ok && Shares(old(View()))
      ensures recorded && Settles(old(inventory.Snapshot()), old(operations), old(observed), operation, leg, observation) ==> ok == marked
    {
      if operation == "" || leg == "" { return false; }
      if !recorded { return false; }
      if operation !in operations { return false; }
      var seen := if operation in observed then observed[operation] else map[];
      seen := seen[leg := observation];
      observed := observed[operation := seen];
      var legs := operations[operation];
      if |seen| < |legs| { return true; }
      ok := Finish(operation, legs, seen, marked);
    }

    /** All legs are observed: settle, or leave it to an operator. */
    method Finish(operation: string, legs: seq<Leg>, seen: map<string, Observation>, marked: bool) returns (ok: bool)
      requires inventory.Valid() && |seen| >= |legs|
      modifies this, gate, inventory
      ensures inventory.Valid()
      ensures Shares(FinishStep(SettleStep(old(View()), operation, legs, seen), marked))
      ensures operation in old(inventory.reservations) && Payable(old(inventory.balances), legs, seen) ==> ok == marked
    {
      SettledMeans(View(), operation, legs, seen);
      var effects;
      ok, effects := Effects(legs, seen);
      if !ok { return; }
      ok := inventory.Settle(operation, effects);
      if !ok { LedgerLaws.SettleKeeps(old(inventory.Snapshot()), operation, effects); return; }
      if !marked { return false; }
      operations := operations - {operation};
      observed := observed - {operation};
      var _ := gate.Complete(operation);
    }
  }

  // ---------- the same call as a run of the protocol ----------

  /** The steps of one call, for each way it can go. */
  function Script(t: nat, operation: string, legs: seq<Leg>, answers: Answers): seq<Action> {
    [Begin(t, operation)] + (if ArtifactsGiven(legs, answers.artifacts) then
      [TryReserve(t, Requirements(legs)), if ReadyToCommit(answers) then Commit(t) else FailBeforeCommit(t)] + Ending(t, answers)
    else
      [RefuseEarly(t), CompleteUndone(t)])
  }

  function Ending(t: nat, answers: Answers): seq<Action> {
    [Broadcast(t, Dispositions(answers.broadcasts), WrittenDown(answers)), ReleaseRejected(t), CompleteRejected(t),
     ReleaseUndone(t), CompleteUndone(t)]
  }

  lemma {:induction false} RunFront(s: System, a: Action, rest: seq<Action>)
    ensures RunAll(s, [a] + rest) == RunAll(Step(s, a), rest)
  {
    var all := [a] + rest;
    if |rest| == 0 {
      assert all[..0] == [];
    } else {
      RunFront(s, a, rest[..|rest| - 1]);
      assert all[..|all| - 1] == [a] + rest[..|rest| - 1];
    }
  }

  ghost predicate By(a: Action, t: nat) {
    match a
    case Register(_, _) => false
    case Observe(_, _, _) => false
    case FinishSettling(_) => false
    case _ => a.thread == t
  }

  /** A call that returned takes no further step. */
  lemma {:induction false} ReturnedRun(s: System, t: nat, actions: seq<Action>)
    requires At(s, t, Returned) && forall i :: 0 <= i < |actions| ==> By(actions[i], t)
    ensures RunAll(s, actions) == s
  {
    if |actions| > 0 {
      ReturnedRun(s, t, actions[..|actions| - 1]);
      assert By(actions[|actions| - 1], t);
    }
  }

  /** What the run of one call leaves: the gate, the ledger and the caller. */
  ghost predicate Left(n: System, t: nat, operation: string, active: string, ledger: State) {
    n.active == active && n.ledger == ledger && t in n.threads && n.threads[t] == Thread(operation, Returned)
  }

  lemma LastRun(s: System, t: nat)
    requires At(s, t, Leaving)
    ensures Left(RunAll(s, [CompleteUndone(t)]), t, s.threads[t].operation, GateComplete(s.active, s.threads[t].operation), s.ledger)
  {
    RunFront(s, CompleteUndone(t), []);
  }

  /** The steps left after Broadcast. */
  function Tail(t: nat): seq<Action> { [ReleaseRejected(t), CompleteRejected(t), ReleaseUndone(t), CompleteUndone(t)] }

  lemma RejectedRun(s: System, t: nat, rest: seq<Action>)
    requires At(s, t, Rejected) && forall i :: 0 <= i < |rest| ==> By(rest[i], t)
    ensures var operation := s.threads[t].operation;
            Left(RunAll(s, [CompleteRejected(t)] + rest), t, operation, GateComplete(s.active, operation), s.ledger)
  {
    RunFront(s, CompleteRejected(t), rest);
    ReturnedRun(Step(s, CompleteRejected(t)), t, rest);
  }

  lemma RejectingStep(s: System, t: nat)
    requires At(s, t, Rejecting)
    ensures var n := Step(s, ReleaseRejected(t));
            && At(n, t, Rejected) && n.threads[t].operation == s.threads[t].operation
            && n.active == s.active && n.ledger == Release(s.ledger, s.threads[t].operation).0
  {
  }

  lemma RejectingTail(s: System, t: nat)
    requires At(s, t, Rejecting)
    ensures var operation := s.threads[t].operation;
            Left(RunAll(s, Tail(t)), t, operation, GateComplete(s.active, operation), Release(s.ledger, operation).0)
  {
    var rest := [ReleaseUndone(t), CompleteUndone(t)];
    var after := [CompleteRejected(t)] + rest;
    assert Tail(t) == [ReleaseRejected(t)] + after;
    RejectingStep(s, t);
    RunFront(s, ReleaseRejected(t), after);
    RejectedRun(Step(s, ReleaseRejected(t)), t, rest);
  }

  lemma UndoingTail(s: System, t: nat)
    requires At(s, t, Leaving) || At(s, t, Undoing)
    ensures var operation := s.threads[t].operation;
            Left(RunAll(s, Tail(t)), t, operation, GateComplete(s.active, operation),
                 if At(s, t, Leaving) then s.ledger else Release(s.ledger, operation).0)
  {
    var a, b, c, d := ReleaseRejected(t), CompleteRejected(t), ReleaseUndone(t), CompleteUndone(t);
    assert Step(s, a) == s && Step(s, b) == s;
    assert Tail(t) == [a] + ([b] + ([c] + [d]));
    RunFront(s, a, [b] + ([c] + [d]));
    RunFront(s, b, [c] + [d]);
    RunFront(s, c, [d]);
    LastRun(Step(s, c), t);
  }

  lemma EndingRun(s: System, t: nat, answers: Answers)
    requires At(s, t, Leaving) || At(s, t, Undoing) || At(s, t, Broadcasting)
    ensures var operation := s.threads[t].operation;
            var n := RunAll(s, Ending(t, answers));
            if At(s, t, Broadcasting) && Concluded(answers) != NoExecution then Left(n, t, operation, s.active, s.ledger)
            else if At(s, t, Leaving) then Left(n, t, operation, GateComplete(s.active, operation), s.ledger)
            else Left(n, t, operation, GateComplete(s.active, operation), Release(s.ledger, operation).0)
  {
    var a := Broadcast(t, Dispositions(answers.broadcasts), WrittenDown(answers));
    assert Ending(t, answers) == [a] + Tail(t);
    RunFront(s, a, Tail(t));
    if At(s, t, Broadcasting) && Concluded(answers) != NoExecution {
      ReturnedRun(Step(s, a), t, Tail(t));
    } else if At(s, t, Broadcasting) {
      RejectingTail(Step(s, a), t);
    } else {
      UndoingTail(s, t);
    }
  }

  lemma BusyRun(s: System, t: nat, operation: string, legs: seq<Leg>, answers: Answers)
    requires t !in s.threads && !GateBegin(s.active, operation).1
    ensures Left(RunAll(s, Script(t, operation, legs, answers)), t, operation, s.active, s.ledger)
  {
    var script := Script(t, operation, legs, answers);
    assert script == [script[0]] + script[1..];
    RunFront(s, script[0], script[1..]);
    ReturnedRun(Step(s, script[0]), t, script[1..]);
  }

  lemma EarlyRun(s: System, t: nat, operation: string, legs: seq<Leg>, answers: Answers)
    requires t !in s.threads && GateBegin(s.active, operation).1 && !ArtifactsGiven(legs, answers.artifacts)
    ensures Left(RunAll(s, Script(t, operation, legs, answers)), t, operation, "", s.ledger)
  {
    var a, b, c := Begin(t, operation), RefuseEarly(t), CompleteUndone(t);
    assert Script(t, operation, legs, answers) == [a] + [b, c];
    RunFront(s, a, [b, c]);
    assert [b, c] == [b] + [c];
    RunFront(Step(s, a), b, [c]);
    LastRun(Step(Step(s, a), b), t);
  }

  /** Begin and TryReserve, the rest to follow. */
  lemma FrontRun(s: System, t: nat, operation: string, legs: seq<Leg>, answers: Answers) returns (n: System)
    requires t !in s.threads && GateBegin(s.active, operation).1 && ArtifactsGiven(legs, answers.artifacts)
    ensures var (ledger, r) := Reserve(s.ledger, operation, operation, Requirements(legs));
            var phase := if r.None? then Leaving else if ReadyToCommit(answers) then Broadcasting else Undoing;
            n.active == operation && n.ledger == ledger && t in n.threads && n.threads[t] == Thread(operation, phase)
    ensures RunAll(s, Script(t, operation, legs, answers)) == RunAll(n, Ending(t, answers))
  {
    var a, b := Begin(t, operation), TryReserve(t, Requirements(legs));
    var c := if ReadyToCommit(answers) then Commit(t) else FailBeforeCommit(t);
    var rest := Ending(t, answers);
    assert Script(t, operation, legs, answers) == [a] + ([b] + ([c] + rest));
    RunFront(s, a, [b] + ([c] + rest));
    RunFront(Step(s, a), b, [c] + rest);
    RunFront(Step(Step(s, a), b), c, rest);
    n := Step(Step(Step(s, a), b), c);
  }

  lemma UnreservedRun(s: System, t: nat, operation: string, legs: seq<Leg>, answers: Answers)
    requires t !in s.threads && GateBegin(s.active, operation).1 && ArtifactsGiven(legs, answers.artifacts)
    requires Reserve(s.ledger, operation, operation, Requirements(legs)).1.None?
    ensures Left(RunAll(s, Script(t, operation, legs, answers)), t, operation, "", Reserve(s.ledger, operation, operation, Requirements(legs)).0)
  {
    var n := FrontRun(s, t, operation, legs, answers);
    EndingRun(n, t, answers);
  }

  lemma ReservedRun(s: System, t: nat, operation: string, legs: seq<Leg>, answers: Answers)
    requires t !in s.threads && GateBegin(s.active, operation).1 && ArtifactsGiven(legs, answers.artifacts)
    requires Reserve(s.ledger, operation, operation, Requirements(legs)).1.Some?
    ensures var n := RunAll(s, Script(t, operation, legs, answers));
            var ledger := Reserve(s.ledger, operation, operation, Requirements(legs)).0;
            if ReadyToCommit(answers) && Concluded(answers) != NoExecution then Left(n, t, operation, operation, ledger)
            else Left(n, t, operation, "", Release(ledger, operation).0)
  {
    var n := FrontRun(s, t, operation, legs, answers);
    EndingRun(n, t, answers);
  }

  /** The whole call: a run of the protocol's steps leaves the gate and the
      ledger as Execute does, with this caller returned. */
  lemma CallRun(s: System, t: nat, operation: string, legs: seq<Leg>, answers: Answers)
    requires Ledger.Valid(s.ledger) && t !in s.threads && operation !in s.ledger.reservations
    ensures var n := RunAll(s, Script(t, operation, legs, answers));
            if Holds(Verdict(s.active, s.ledger, operation, legs, answers)) then
              Left(n, t, operation, operation, Reserve(s.ledger, operation, operation, Requirements(legs)).0)
            else Left(n, t, operation, s.active, s.ledger)
  {
    if !GateBegin(s.active, operation).1 { BusyRun(s, t, operation, legs, answers); }
    else if !ArtifactsGiven(legs, answers.artifacts) { EarlyRun(s, t, operation, legs, answers); }
    else {
      ReserveThenRelease(s.ledger, operation, operation, Requirements(legs));
      ReserveKeeps(s.ledger, operation, operation, Requirements(legs));
      if Reserve(s.ledger, operation, operation, Requirements(legs)).1.None? {
        UnreservedRun(s, t, operation, legs, answers);
      } else {
        ReservedRun(s, t, operation, legs, answers);
      }
    }
  }
}
