/** What observing settlements does to the balances: an operation's verified
    legs take out what they spent and put in what they received, once. */
module SettlementLaws {
  import opened Common
  import opened Fingerprint
  import opened Ledger
  import opened LedgerLaws
  import opened LedgerMeaning
  import opened LiveProtocol

  // ---------- what the legs moved ----------

  /** Where a leg takes its input from, and where its output arrives. */
  function SpentFrom(leg: Leg): Key { Key(leg.chain, leg.account, leg.input.token) }

  function ReceivedAt(leg: Leg): Key { Key(leg.chain, leg.account, leg.expectedOutput.token) }

  function Spent(legs: seq<Leg>, seen: map<string, Observation>, k: Key): nat
    requires forall i :: 0 <= i < |legs| ==> legs[i].id in seen
  {
    if |legs| == 0 then 0
    else (if SpentFrom(legs[0]) == k then seen[legs[0].id].actualIn.units else 0) + Spent(legs[1..], seen, k)
  }

  function Received(legs: seq<Leg>, seen: map<string, Observation>, k: Key): nat
    requires forall i :: 0 <= i < |legs| ==> legs[i].id in seen
  {
    if |legs| == 0 then 0
    else (if ReceivedAt(legs[0]) == k then seen[legs[0].id].actualOut.units else 0) + Received(legs[1..], seen, k)
  }

  /** Every leg was seen confirmed, with a verified effect, in its own tokens. */
  predicate Seen(legs: seq<Leg>, seen: map<string, Observation>) {
    forall i :: 0 <= i < |legs| ==>
      && legs[i].id in seen
      && seen[legs[i].id].confirmed && seen[legs[i].id].effectVerified
      && seen[legs[i].id].actualIn.token == legs[i].input.token
      && seen[legs[i].id].actualOut.token == legs[i].expectedOutput.token
  }

  function PairOf(leg: Leg, o: Observation): seq<Effect> {
    [Effect(Key(leg.chain, leg.account, o.actualIn.token), Some(0 - o.actualIn.units)),
     Effect(Key(leg.chain, leg.account, o.actualOut.token), Some(o.actualOut.units))]
  }

  lemma PairMoves(leg: Leg, o: Observation, k: Key)
    requires o.actualIn.token == leg.input.token && o.actualOut.token == leg.expectedOutput.token
    ensures Delta(PairOf(leg, o), k) ==
            (if ReceivedAt(leg) == k then o.actualOut.units else 0) - if SpentFrom(leg) == k then o.actualIn.units else 0
  {
    var es := PairOf(leg, o);
    assert es == [es[0]] + [es[1]];
    DeltaAppend([es[0]], [es[1]], k);
    DeltaOfOne(es[0], k);
    DeltaOfOne(es[1], k);
  }

  lemma {:induction false} MovedSplit(legs: seq<Leg>, last: Leg, seen: map<string, Observation>, k: Key)
    requires forall i :: 0 <= i < |legs| ==> legs[i].id in seen
    requires last.id in seen
    ensures var all := legs + [last];
            && Spent(all, seen, k) == Spent(legs, seen, k) + (if SpentFrom(last) == k then seen[last.id].actualIn.units else 0)
            && Received(all, seen, k) == Received(legs, seen, k) + if ReceivedAt(last) == k then seen[last.id].actualOut.units else 0
  {
    var all := legs + [last];
    if |legs| > 0 {
      assert all[1..] == legs[1..] + [last];
      MovedSplit(legs[1..], last, seen, k);
    }
  }

  /** The effects that are settled move each balance by received less spent. */
  lemma {:induction false} EffectsMove(legs: seq<Leg>, seen: map<string, Observation>, k: Key)
    requires Seen(legs, seen)
    ensures AllVerified(legs, seen)
    ensures Delta(LegEffects(legs, seen), k) == Received(legs, seen, k) - Spent(legs, seen, k)
  {
    if |legs| > 0 {
      var front, last := legs[..|legs| - 1], legs[|legs| - 1];
      EffectsMove(front, seen, k);
      assert LegEffects(legs, seen) == LegEffects(front, seen) + PairOf(last, seen[last.id]);
      DeltaAppend(LegEffects(front, seen), PairOf(last, seen[last.id]), k);
      PairMoves(last, seen[last.id], k);
      MovedSplit(front, last, seen, k);
      assert legs == front + [last];
    }
  }

  predicate Named(leg: Leg) { KeyOk(SpentFrom(leg)) && KeyOk(ReceivedAt(leg)) }

  /** Each leg's two effects are where the list has them. */
  lemma {:induction false} EffectsAt(legs: seq<Leg>, seen: map<string, Observation>, i: nat)
    requires Seen(legs, seen) && AllVerified(legs, seen) && i < |legs|
    ensures |LegEffects(legs, seen)| == 2 * |legs|
    ensures LegEffects(legs, seen)[2 * i..2 * i + 2] == PairOf(legs[i], seen[legs[i].id])
  {
    var front, last := legs[..|legs| - 1], legs[|legs| - 1];
    EffectsCount(front, seen);
    assert LegEffects(legs, seen) == LegEffects(front, seen) + PairOf(last, seen[last.id]);
    if i < |front| { EffectsAt(front, seen, i); }
  }

  lemma {:induction false} EffectsCount(legs: seq<Leg>, seen: map<string, Observation>)
    requires AllVerified(legs, seen)
    ensures |LegEffects(legs, seen)| == 2 * |legs|
  {
    if |legs| > 0 { EffectsCount(legs[..|legs| - 1], seen); }
  }

  /** Even and odd positions hold what was spent and what was received. */
  lemma EffectsNamed(legs: seq<Leg>, seen: map<string, Observation>, es: seq<Effect>)
    requires Seen(legs, seen) && AllVerified(legs, seen) && es == LegEffects(legs, seen)
    ensures |es| == 2 * |legs|
    ensures forall i {:trigger legs[i]} :: 0 <= i < |legs| ==> es[2 * i].key == SpentFrom(legs[i]) && es[2 * i + 1].key == ReceivedAt(legs[i])
    ensures forall i {:trigger es[i]} :: 0 <= i < |es| ==>
              es[i].delta.Some? && es[i].key == if i % 2 == 0 then SpentFrom(legs[i / 2]) else ReceivedAt(legs[i / 2])
  {
    EffectsCount(legs, seen);
    forall i {:trigger legs[i]} | 0 <= i < |legs| ensures es[2 * i].key == SpentFrom(legs[i]) && es[2 * i + 1].key == ReceivedAt(legs[i]) {
      EffectsAt(legs, seen, i);
      assert es[2 * i..2 * i + 2][0] == es[2 * i] && es[2 * i..2 * i + 2][1] == es[2 * i + 1];
    }
    forall i {:trigger es[i]} | 0 <= i < |es|
      ensures es[i].delta.Some? && es[i].key == if i % 2 == 0 then SpentFrom(legs[i / 2]) else ReceivedAt(legs[i / 2])
    {
      EffectsAt(legs, seen, i / 2);
      var j := i / 2;
      assert es[2 * j..2 * j + 2][i % 2] == es[i];
    }
  }

  // ---------- when an operation is settled ----------

  /** The ledger knows the leg's balances and neither would fall below zero. */
  predicate Covers(balances: map<Key, int>, legs: seq<Leg>, seen: map<string, Observation>, k: Key)
    requires forall i :: 0 <= i < |legs| ==> legs[i].id in seen
  {
    KeyOk(k) && k in balances && balances[k] + Received(legs, seen, k) - Spent(legs, seen, k) >= 0
  }

  /** Every leg was seen as verified, and the balances cover what they moved. */
  predicate Payable(balances: map<Key, int>, legs: seq<Leg>, seen: map<string, Observation>) {
    && |legs| > 0 && Seen(legs, seen)
    && forall i :: 0 <= i < |legs| ==>
         Covers(balances, legs, seen, SpentFrom(legs[i])) && Covers(balances, legs, seen, ReceivedAt(legs[i]))
  }

  /** Each effect is complete and leaves its balance at zero or more. */
  predicate Pays(balances: map<Key, int>, e: Effect, change: int) {
    EffectOk(e) && e.key in balances && balances[e.key] + change >= 0
  }

  lemma PaysMeans(balances: map<Key, int>, legs: seq<Leg>, seen: map<string, Observation>, e: Effect)
    requires Seen(legs, seen) && AllVerified(legs, seen) && e.delta.Some?
    ensures Pays(balances, e, Delta(LegEffects(legs, seen), e.key)) <==> Covers(balances, legs, seen, e.key)
  {
    EffectsMove(legs, seen, e.key);
  }

  lemma PayableMeans(balances: map<Key, int>, legs: seq<Leg>, seen: map<string, Observation>, es: seq<Effect>)
    requires |legs| > 0 && Seen(legs, seen) && AllVerified(legs, seen) && es == LegEffects(legs, seen)
    ensures Payable(balances, legs, seen) <==> forall i :: 0 <= i < |es| ==> Pays(balances, es[i], Delta(es, es[i].key))
  {
    EffectsNamed(legs, seen, es);
    if forall i :: 0 <= i < |es| ==> Pays(balances, es[i], Delta(es, es[i].key)) {
      forall i | 0 <= i < |legs| ensures Covers(balances, legs, seen, SpentFrom(legs[i])) && Covers(balances, legs, seen, ReceivedAt(legs[i])) {
        PaysMeans(balances, legs, seen, es[2 * i]);
        PaysMeans(balances, legs, seen, es[2 * i + 1]);
      }
    }
    if Payable(balances, legs, seen) {
      forall i | 0 <= i < |es| ensures Pays(balances, es[i], Delta(es, es[i].key)) { PaysMeans(balances, legs, seen, es[i]); }
    }
  }

  lemma PayableEffects(s: State, id: string, legs: seq<Leg>, seen: map<string, Observation>)
    requires Ledger.Valid(s) && id in s.reservations && |legs| > 0 && Seen(legs, seen) && AllVerified(legs, seen)
    ensures Settle(s, id, LegEffects(legs, seen)).1 <==> Payable(s.balances, legs, seen)
  {
    var es := LegEffects(legs, seen);
    EffectsCount(legs, seen);
    PayableMeans(s.balances, legs, seen, es);
    SettlePays(s, id, es);
  }

  lemma SettlePays(s: State, id: string, es: seq<Effect>)
    requires Ledger.Valid(s) && id in s.reservations && |es| > 0
    ensures Settle(s, id, es).1 <==> forall i :: 0 <= i < |es| ==> Pays(s.balances, es[i], Delta(es, es[i].key))
  {
    if EffectsOk(es) {
      SettleIff(s, id, es);
    } else {
      var i :| 0 <= i < |es| && !EffectOk(es[i]);
      assert !Pays(s.balances, es[i], Delta(es, es[i].key));
    }
  }

  /** What one key's balance is after settling. */
  function Paid(balances: map<Key, int>, legs: seq<Leg>, seen: map<string, Observation>, k: Key): int
    requires k in balances && forall i :: 0 <= i < |legs| ==> legs[i].id in seen
  {
    balances[k] - Spent(legs, seen, k) + Received(legs, seen, k)
  }

  /** Every balance is what it was, less what was spent from it, plus what it
      received. */
  predicate PaidOut(before: map<Key, int>, legs: seq<Leg>, seen: map<string, Observation>, after: map<Key, int>)
    requires forall i :: 0 <= i < |legs| ==> legs[i].id in seen
  {
    after.Keys == before.Keys && forall k :: k in before ==> after[k] == Paid(before, legs, seen, k)
  }

  /** The observations of an operation once one more has come. */
  function With(observed: map<string, map<string, Observation>>, operation: string, leg: string, observation: Observation): map<string, Observation> {
    (if operation in observed then observed[operation] else map[])[leg := observation]
  }

  /** This observation settles the operation: it completes the set, every leg is
      seen as verified, the reservation is live and the balances cover it. */
  predicate Settles(ledger: State, operations: map<string, seq<Leg>>, observed: map<string, map<string, Observation>>,
                    operation: string, leg: string, observation: Observation) {
    && operation != "" && leg != "" && operation in operations && operation in ledger.reservations
    && |With(observed, operation, leg, observation)| >= |operations[operation]|
    && Payable(ledger.balances, operations[operation], With(observed, operation, leg, observation))
  }

  lemma NotPayable(s: State, id: string, legs: seq<Leg>, seen: map<string, Observation>)
    requires Ledger.Valid(s) && AllVerified(legs, seen)
    requires id !in s.reservations || |legs| == 0
    ensures Settle(s, id, LegEffects(legs, seen)).0 == s
  {
  }

  /** Settling pays: exactly then the balances move, each by what was spent and
      received on it, and the reservation is given back. */
  lemma SettleStepPays(s: System, operation: string, legs: seq<Leg>, seen: map<string, Observation>)
    requires Ledger.Valid(s.ledger) && |seen| >= |legs|
    ensures var t := SettleStep(s, operation, legs, seen).ledger;
            if operation in s.ledger.reservations && Payable(s.ledger.balances, legs, seen) then
              && operation !in t.reservations && operation in t.settled
              && PaidOut(s.ledger.balances, legs, seen, t.balances)
            else t == s.ledger
  {
    assert AllVerified(legs, seen) <==> Seen(legs, seen);
    if AllVerified(legs, seen) {
      SettleKeeps(s.ledger, operation, LegEffects(legs, seen));
      if operation !in s.ledger.reservations || |legs| == 0 {
        NotPayable(s.ledger, operation, legs, seen);
      } else {
        PayableEffects(s.ledger, operation, legs, seen);
        if Payable(s.ledger.balances, legs, seen) { PayableMoves(s.ledger, operation, legs, seen); }
      }
    }
  }

  lemma PayableMoves(s: State, id: string, legs: seq<Leg>, seen: map<string, Observation>)
    requires Ledger.Valid(s) && id in s.reservations && Seen(legs, seen) && AllVerified(legs, seen)
    requires Settle(s, id, LegEffects(legs, seen)).1
    ensures PaidOut(s.balances, legs, seen, Settle(s, id, LegEffects(legs, seen)).0.balances)
  {
    var es := LegEffects(legs, seen);
    forall k | k in s.balances
      ensures k in Settle(s, id, es).0.balances && Settle(s, id, es).0.balances[k] == Paid(s.balances, legs, seen, k)
    {
      SettleMovesAll(s, id, es, k);
      EffectsMove(legs, seen, k);
    }
    assert Settle(s, id, es).0.balances.Keys == s.balances.Keys;
  }

  // ---------- one observation ----------

  /** The observation settles as far as the balances go: exactly then they move. */
  lemma ObserveStepPays(s: System, operation: string, leg: string, observation: Observation)
    requires Ledger.Valid(s.ledger) && s.settling.None?
    ensures var t := ObserveStep(s, operation, leg, observation).ledger;
            if Settles(s.ledger, s.operations, s.observed, operation, leg, observation) then
              && operation !in t.reservations && operation in t.settled
              && PaidOut(s.ledger.balances, s.operations[operation], With(s.observed, operation, leg, observation), t.balances)
            else t == s.ledger
  {
    if operation != "" && leg != "" && operation in s.operations {
      var seen := With(s.observed, operation, leg, observation);
      if |seen| >= |s.operations[operation]| {
        SettleStepPays(s.(observed := s.observed[operation := seen]), operation, s.operations[operation], seen);
      }
    }
  }

  lemma SettledMeans(s: System, operation: string, legs: seq<Leg>, seen: map<string, Observation>)
    requires Ledger.Valid(s.ledger) && s.settling.None?
    ensures var t := SettleStep(s, operation, legs, seen);
            && (t.settling.Some? ==> t.settling.value == operation && operation in t.ledger.settled)
            && (operation in s.ledger.reservations && |seen| >= |legs| && Payable(s.ledger.balances, legs, seen) ==> t.settling.Some?)
            && t == s.(ledger := t.ledger, verified := t.verified, settling := t.settling)
  {
    if |seen| >= |legs| && AllVerified(legs, seen) {
      SettleKeeps(s.ledger, operation, LegEffects(legs, seen));
      if operation in s.ledger.reservations && |legs| > 0 { PayableEffects(s.ledger, operation, legs, seen); }
    }
  }

  /** The observation is remembered, and nothing else but the ledger changed. */
  ghost predicate Noted(s: System, t: System, operation: string, seen: map<string, Observation>) {
    t.operations == s.operations && t.observed == s.observed[operation := seen] && t.active == s.active
  }

  /** The operation is forgotten, and its gate opened. */
  ghost predicate Forgotten(s: System, t: System, operation: string) {
    && t.operations == s.operations - {operation} && t.observed == s.observed - {operation}
    && t.active == if s.active == operation then "" else s.active
  }

  lemma FinishMeans(s: System, n: System, operation: string, seen: map<string, Observation>, marked: bool)
    requires operation != "" && (n.settling.Some? ==> n.settling.value == operation && operation in n.ledger.settled)
    requires Noted(s, n, operation, seen)
    ensures var t := FinishStep(n, marked);
            && t.ledger == n.ledger
            && (Noted(s, t, operation, seen) || (Forgotten(s, t, operation) && marked && operation in t.ledger.settled))
            && (n.settling.Some? && marked ==> Forgotten(s, t, operation))
  {
    assert n.observed - {operation} == s.observed - {operation};
  }

  /** An observation of a registered operation is remembered, unless the
      operation is settled and the store marks it: then it is forgotten. */
  lemma FinishedObservation(s: System, operation: string, leg: string, observation: Observation, marked: bool)
    requires Ledger.Valid(s.ledger) && s.settling.None? && operation != "" && leg != "" && operation in s.operations
    ensures var t := FinishStep(ObserveStep(s, operation, leg, observation), marked);
            && (Noted(s, t, operation, With(s.observed, operation, leg, observation))
                || (Forgotten(s, t, operation) && marked && operation in t.ledger.settled))
            && (Settles(s.ledger, s.operations, s.observed, operation, leg, observation) && marked ==> Forgotten(s, t, operation))
  {
    var seen := With(s.observed, operation, leg, observation);
    var noted := s.(observed := s.observed[operation := seen]);
    SettledMeans(noted, operation, s.operations[operation], seen);
    FinishMeans(s, SettleStep(noted, operation, s.operations[operation], seen), operation, seen, marked);
  }

  /** What is seen of a call of Observe, in balances and memory: the balances
      move exactly if it settles, and then the store's mark alone decides
      whether the operation is forgotten. */
  ghost predicate ObservedAs(s: System, t: System, operation: string, leg: string, observation: Observation, marked: bool) {
    var seen := With(s.observed, operation, leg, observation);
    && (if Settles(s.ledger, s.operations, s.observed, operation, leg, observation) then
          && PaidOut(s.ledger.balances, s.operations[operation], seen, t.ledger.balances)
          && operation !in t.ledger.reservations && operation in t.ledger.settled
          && (if marked then Forgotten(s, t, operation) else Noted(s, t, operation, seen))
        else t.ledger == s.ledger)
    && (if operation != "" && leg != "" && operation in s.operations then
          Noted(s, t, operation, seen) || (Forgotten(s, t, operation) && marked && operation in t.ledger.settled)
        else
          t.operations == s.operations && t.observed == s.observed && t.active == s.active)
  }

  lemma ObservationMeans(s: System, t: System, operation: string, leg: string, observation: Observation, marked: bool)
    requires Ledger.Valid(s.ledger) && s.settling.None?
    requires var n := FinishStep(ObserveStep(s, operation, leg, observation), marked);
             t.active == n.active && t.ledger == n.ledger && t.operations == n.operations && t.observed == n.observed
    ensures ObservedAs(s, t, operation, leg, observation, marked)
  {
    ObserveStepPays(s, operation, leg, observation);
    FinishLedger(ObserveStep(s, operation, leg, observation), marked);
    if operation != "" && leg != "" && operation in s.operations { FinishedObservation(s, operation, leg, observation, marked); }
  }

  lemma FinishLedger(s: System, marked: bool)
    ensures FinishStep(s, marked).ledger == s.ledger
  {
  }

  // ---------- whole runs ----------

  /** The step settles an operation. */
  predicate SettlesBy(s: System, a: Action) {
    a.Observe? && s.settling.None? && Settles(s.ledger, s.operations, s.observed, a.operation, a.leg, a.observation)
  }

  /** What the step's verified legs put in less what they took out. */
  function PaidBy(s: System, a: Action, k: Key): int {
    if SettlesBy(s, a) then
      var legs, seen := s.operations[a.operation], With(s.observed, a.operation, a.leg, a.observation);
      Received(legs, seen, k) - Spent(legs, seen, k)
    else 0
  }

  /** Only observing moves balances or settles. */
  lemma OtherStepPaysNothing(s: System, a: Action)
    requires !a.Observe?
    ensures Step(s, a).ledger.balances == s.ledger.balances && Step(s, a).ledger.settled == s.ledger.settled
  {
    match a
    case TryReserve(t, requirements) =>
      if At(s, t, Reserving) { ReserveOnly(s.ledger, s.threads[t].operation, s.threads[t].operation, requirements); }
    case ReleaseUndone(t) => if At(s, t, Undoing) { ReleaseOnly(s.ledger, s.threads[t].operation); }
    case ReleaseRejected(t) => if At(s, t, Rejecting) { ReleaseOnly(s.ledger, s.threads[t].operation); }
    case _ =>
  }

  /** No step moves a balance but one that settles, and that by what the legs
      spent and received. */
  lemma StepPays(s: System, a: Action, k: Key)
    requires Ledger.Valid(s.ledger) && k in s.ledger.balances
    ensures k in Step(s, a).ledger.balances && Step(s, a).ledger.balances[k] == s.ledger.balances[k] + PaidBy(s, a, k)
  {
    if !a.Observe? {
      OtherStepPaysNothing(s, a);
    } else if s.settling.None? {
      ObserveStepPays(s, a.operation, a.leg, a.observation);
    }
  }

  function PaidInRun(s: System, actions: seq<Action>, k: Key): int {
    if |actions| == 0 then 0
    else
      var before := RunAll(s, actions[..|actions| - 1]);
      PaidInRun(s, actions[..|actions| - 1], k) + PaidBy(before, actions[|actions| - 1], k)
  }

  function TimesSettled(s: System, actions: seq<Action>, operation: string): nat {
    if |actions| == 0 then 0
    else
      var before, a := RunAll(s, actions[..|actions| - 1]), actions[|actions| - 1];
      TimesSettled(s, actions[..|actions| - 1], operation) + if SettlesBy(before, a) && a.operation == operation then 1 else 0
  }

  /** Over any interleaving, a balance is where it started plus what the settled
      operations received there, less what they spent; and no operation is
      settled twice. */
  lemma {:induction false} RunPays(s: System, actions: seq<Action>, k: Key, operation: string)
    requires Init(s) && k in s.ledger.balances
    ensures var n := RunAll(s, actions);
            k in n.ledger.balances && n.ledger.balances[k] == s.ledger.balances[k] + PaidInRun(s, actions, k)
    ensures TimesSettled(s, actions, operation) == if operation in RunAll(s, actions).ledger.settled then 1 else 0
  {
    if |actions| > 0 {
      var front, a := actions[..|actions| - 1], actions[|actions| - 1];
      RunPays(s, front, k, operation);
      RunInv(s, front);
      StepPays(RunAll(s, front), a, k);
      StepSettles(RunAll(s, front), a, operation);
    }
  }

  /** An operation is settled by a step that settles it, once, and stays so. */
  lemma StepSettles(s: System, a: Action, operation: string)
    requires Ledger.Valid(s.ledger)
    ensures operation in Step(s, a).ledger.settled <==> operation in s.ledger.settled || (SettlesBy(s, a) && a.operation == operation)
    ensures SettlesBy(s, a) ==> a.operation !in s.ledger.settled
  {
    if !a.Observe? {
      OtherStepPaysNothing(s, a);
    } else if s.settling.None? {
      ObserveStepPays(s, a.operation, a.leg, a.observation);
      ObservationAdds(s, a.operation, a.leg, a.observation);
    }
  }

  lemma ObservationAdds(s: System, operation: string, leg: string, observation: Observation)
    requires Ledger.Valid(s.ledger) && s.settling.None?
    ensures forall other :: other != operation ==>
              (other in ObserveStep(s, operation, leg, observation).ledger.settled <==> other in s.ledger.settled)
    ensures operation in s.ledger.settled ==> operation in ObserveStep(s, operation, leg, observation).ledger.settled
  {
    if operation != "" && leg != "" && operation in s.operations {
      var seen := With(s.observed, operation, leg, observation);
      SettlingAdds(s.(observed := s.observed[operation := seen]), operation, s.operations[operation], seen);
    }
  }

  lemma SettlingAdds(s: System, operation: string, legs: seq<Leg>, seen: map<string, Observation>)
    requires Ledger.Valid(s.ledger)
    ensures forall other :: other != operation ==>
              (other in SettleStep(s, operation, legs, seen).ledger.settled <==> other in s.ledger.settled)
    ensures operation in s.ledger.settled ==> operation in SettleStep(s, operation, legs, seen).ledger.settled
  {
    if |seen| >= |legs| && AllVerified(legs, seen) {
      SettleKeeps(s.ledger, operation, LegEffects(legs, seen));
      SettleAdds(s.ledger, operation, LegEffects(legs, seen), FingerprintOf(LegEffects(legs, seen)));
    }
  }

  lemma SettleAdds(s: State, id: string, es: seq<Effect>, fingerprint: Option<string>)
    ensures forall other :: other != id ==> (other in SettleWith(s, id, es, fingerprint).0.settled <==> other in s.settled)
  {
  }
}
