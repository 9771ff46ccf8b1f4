/** What every run of inventory calls keeps. */
module LedgerLaws {
  import opened Common
  import opened Fingerprint
  import opened Ledger

  // ---------- one call ----------

  /** The keys Reserve accepts are keys of balances, which are complete, so the
      late validity check never fails. */
  lemma LateCheckPasses(s: State, rs: seq<Requirement>)
    requires Valid(s) && |rs| > 0 && Affordable(s, rs, [])
    requires forall i :: 0 <= i < |rs| ==> AcceptableRequirement(rs[i])
    ensures RequirementsOk(rs)
  {
    forall i | 0 <= i < |rs| ensures RequirementOk(rs[i]) {
      assert rs[i].key in s.balances && s.balances[rs[i].key] >= 0;
    }
  }

  /** Putting a reservation into the ledger. */
  lemma AdditionKeeps(s: State, r: Reservation, t: State)
    requires Valid(s) && r.id !in s.reservations && r.id !in s.settled && ReservationOk(s, r.id, r)
    requires t == s.(reserved := AddReserved(s.reserved, r.requirements), reservations := s.reservations[r.id := r])
    ensures Valid(t)
  {
    forall k | k in t.reserved ensures t.reserved[k] == Held(t.reservations, k) {
      HeldAdd(s.reservations, r.id, r, k);
    }
    forall other | other in t.reservations ensures ReservationOk(t, other, t.reservations[other]) {
      if other != r.id { assert ReservationOk(s, other, s.reservations[other]); }
    }
  }

  /** Reserve is all or nothing, keeps the ledger valid, and on success the
      reservation is live. */
  lemma ReserveKeeps(s: State, id: string, operation: string, rs: seq<Requirement>)
    requires Valid(s)
    ensures var (t, r) := Reserve(s, id, operation, rs);
            && Valid(t)
            && (r.None? ==> t == s)
            && (r.Some? ==> id in t.reservations && t.reservations[id] == r.value && id !in t.settled)
            && t.settled == s.settled && t.balances == s.balances
            && (forall other :: other != id ==> (other in t.reservations <==> other in s.reservations))
  {
    var (t, r) := Reserve(s, id, operation, rs);
    if id != "" && operation != "" && |rs| > 0 && id !in s.reservations && id !in s.settled
       && (forall i :: 0 <= i < |rs| ==> AcceptableRequirement(rs[i])) && Affordable(s, rs, []) {
      LateCheckPasses(s, rs);
      AdditionKeeps(s, r.value, t);
    }
  }

  /** Taking a live reservation out of the ledger. */
  lemma RemovalKeeps(s: State, id: string, t: State)
    requires Valid(s) && id in s.reservations
    requires t.reserved == SubReserved(s.reserved, s.reservations[id].requirements)
    requires t.reservations == s.reservations - {id}
    requires t.balances.Keys == s.balances.Keys && forall k :: k in t.balances ==> t.balances[k] >= 0
    requires t.caps == s.caps && t.buffers == s.buffers && t.inFlight == s.inFlight
    requires t.settled.Keys <= s.settled.Keys + {id}
    ensures Valid(t)
  {
    forall k | k in t.reserved ensures t.reserved[k] == Held(t.reservations, k) {
      HeldRemove(s.reservations, id, k);
    }
    forall other | other in t.reservations ensures ReservationOk(t, other, t.reservations[other]) {
      assert ReservationOk(s, other, s.reservations[other]);
    }
  }

  lemma ReleaseKeeps(s: State, id: string)
    requires Valid(s)
    ensures var (t, ok) := Release(s, id);
            && Valid(t) && (!ok ==> t == s) && (ok ==> id !in t.reservations)
            && t.settled == s.settled && t.balances == s.balances
            && (forall other :: other != id ==> (other in t.reservations <==> other in s.reservations))
  {
    if id != "" && id in s.reservations { RemovalKeeps(s, id, Release(s, id).0); }
  }

  lemma DeltasNonnegative(s: State, es: seq<Effect>)
    requires Valid(s) && Applicable(s, es)
    ensures forall k :: k in s.balances ==> ApplyDeltas(s.balances, es)[k] >= 0
  {
    forall k | k in s.balances ensures s.balances[k] + Delta(es, k) >= 0 {
      if forall i :: 0 <= i < |es| ==> es[i].key != k { DeltaOfOthers(es, k); }
    }
  }

  lemma {:induction false} DeltaOfOthers(es: seq<Effect>, k: Key)
    requires forall i :: 0 <= i < |es| ==> es[i].key != k
    ensures Delta(es, k) == 0
  {
    if |es| > 0 { DeltaOfOthers(es[..|es| - 1], k); }
  }

  lemma SettleWithKeeps(s: State, id: string, es: seq<Effect>, fingerprint: Option<string>)
    requires Valid(s)
    ensures var (t, ok) := SettleWith(s, id, es, fingerprint);
            && Valid(t) && (!ok ==> t == s) && (ok ==> id !in t.reservations && id in t.settled)
            && (forall other :: other != id ==> (other in t.reservations <==> other in s.reservations))
            && (forall other :: other in s.settled ==> other in t.settled && t.settled[other] == s.settled[other])
  {
    var (t, ok) := SettleWith(s, id, es, fingerprint);
    if ok && id in s.reservations {
      DeltasNonnegative(s, es);
      RemovalKeeps(s, id, t);
    }
  }

  lemma SettleKeeps(s: State, id: string, es: seq<Effect>)
    requires Valid(s)
    ensures var (t, ok) := Settle(s, id, es);
            && Valid(t) && (!ok ==> t == s) && (ok ==> id !in t.reservations && id in t.settled)
            && (forall other :: other != id ==> (other in t.reservations <==> other in s.reservations))
            && (forall other :: other in s.settled ==> other in t.settled && t.settled[other] == s.settled[other])
  {
    SettleWithKeeps(s, id, es, FingerprintOf(es));
  }

  lemma AdjustKeeps(s: State, id: string, rs: seq<Requirement>)
    requires Valid(s)
    ensures var (t, r) := AdjustReservation(s, id, rs);
            && Valid(t) && (r.None? ==> t == s)
            && (r.Some? ==> t.reservations == s.reservations[id := r.value] && r.value.operation == s.reservations[id].operation)
            && t.settled == s.settled && t.balances == s.balances
  {
    var (t, r) := AdjustReservation(s, id, rs);
    if r.Some? {
      assert ReservationOk(s, id, s.reservations[id]);
      var without := s.(reserved := SubReserved(s.reserved, s.reservations[id].requirements), reservations := s.reservations - {id});
      RemovalKeeps(s, id, without);
      assert t.reservations == without.reservations[id := r.value];
      AdditionKeeps(without, r.value, t);
    }
  }

  lemma BalancesKeep(s: State, t: State)
    requires Valid(s) && t == s.(balances := t.balances, inFlight := t.inFlight)
    requires t.balances.Keys == s.balances.Keys == t.inFlight.Keys && forall k :: k in t.balances ==> t.balances[k] >= 0
    ensures Valid(t)
  {
    forall id | id in t.reservations ensures ReservationOk(t, id, t.reservations[id]) {
      assert ReservationOk(s, id, s.reservations[id]);
    }
  }

  lemma ApplyEffectsKeeps(s: State, es: seq<Effect>)
    requires Valid(s)
    ensures Valid(ApplyEffects(s, es).0) && (!ApplyEffects(s, es).1 ==> ApplyEffects(s, es).0 == s)
  {
    if ApplyEffects(s, es).1 {
      DeltasNonnegative(s, es);
      BalancesKeep(s, ApplyEffects(s, es).0);
    }
  }

  // ---------- funding ----------

  lemma ReserveFunded(s: State, id: string, operation: string, rs: seq<Requirement>)
    requires Valid(s) && Funded(s) && Valid(Reserve(s, id, operation, rs).0)
    ensures Funded(Reserve(s, id, operation, rs).0)
  {
    var t := Reserve(s, id, operation, rs).0;
    if t != s {
      ReserveOnly(s, id, operation, rs);
      forall k | k in t.balances ensures FundedKey(t, k) {
        assert FundedKey(s, k);
        assert s.reserved[k] == Held(s.reservations, k);
        AffordedKey(s, rs, k);
      }
    }
  }

  /** An affordable need of a funded key leaves it funded. */
  lemma AffordedKey(s: State, rs: seq<Requirement>, k: Key)
    requires k in s.balances && k in s.caps && k in s.buffers && k in s.inFlight && k in s.reserved
    requires FundedKey(s, k) && Affordable(s, rs, []) && forall i :: 0 <= i < |rs| ==> AcceptableRequirement(rs[i])
    requires s.reserved[k] >= 0
    ensures s.reserved[k] + Need(rs, k) > 0 ==>
              s.reserved[k] + Need(rs, k) + s.buffers[k] + s.inFlight[k] <= Min(s.balances[k], s.caps[k])
  {
    if forall i :: 0 <= i < |rs| ==> rs[i].key != k {
      NeedOfOthers(rs, k);
    } else {
      var i :| 0 <= i < |rs| && rs[i].key == k;
      NeedPositive(rs, i);
    }
  }

  lemma ReleaseFunded(s: State, id: string)
    requires Valid(s) && Funded(s) && Valid(Release(s, id).0)
    ensures Funded(Release(s, id).0)
  {
    var t := Release(s, id).0;
    forall k | k in t.balances ensures FundedKey(t, k) { assert FundedKey(s, k); }
  }

  /** An adjusted key was reserved before, so nothing was clamped and the
      increase is covered. */
  lemma AdjustFunded(s: State, id: string, rs: seq<Requirement>)
    requires Valid(s) && Funded(s) && Valid(AdjustReservation(s, id, rs).0)
    ensures Funded(AdjustReservation(s, id, rs).0)
  {
    var (t, r) := AdjustReservation(s, id, rs);
    if r.Some? {
      forall k | k in t.balances ensures FundedKey(t, k) { AdjustFundsKey(s, id, rs, k); }
    }
  }

  lemma AdjustFundsKey(s: State, id: string, rs: seq<Requirement>, k: Key)
    requires Valid(s) && Funded(s) && AdjustReservation(s, id, rs).1.Some? && k in s.balances
    ensures FundedKey(AdjustReservation(s, id, rs).0, k)
  {
    var held := s.reservations[id].requirements;
    assert FundedKey(s, k);
    assert ReservationOk(s, id, s.reservations[id]);
    HeldRemove(s.reservations, id, k);
    if forall i :: 0 <= i < |rs| ==> rs[i].key != k {
      NeedOfOthers(rs, k);
    } else {
      var i :| 0 <= i < |rs| && rs[i].key == k;
      var j :| 0 <= j < |held| && held[j].key == rs[i].key;
      NeedPositive(held, j);
    }
  }

  // ---------- runs ----------

  datatype Call =
    | DoReserve(id: string, operation: string, requirements: seq<Requirement>)
    | DoRelease(id: string)
    | DoAdjust(id: string, requirements: seq<Requirement>)
    | DoSettle(id: string, effects: seq<Effect>)
    | DoApply(effects: seq<Effect>)
    | DoObserve(key: Key, amount: Amount)
    | DoInFlight(key: Key, amount: Amount)

  /** The ledger after a call, and whether the call succeeded. */
  function Apply(s: State, c: Call): (State, bool) {
    match c
    case DoReserve(id, operation, rs) => var (t, r) := Reserve(s, id, operation, rs); (t, r.Some?)
    case DoRelease(id) => Release(s, id)
    case DoAdjust(id, rs) => var (t, r) := AdjustReservation(s, id, rs); (t, r.Some?)
    case DoSettle(id, es) => Settle(s, id, es)
    case DoApply(es) => ApplyEffects(s, es)
    case DoObserve(k, a) => ObserveWallet(s, k, a)
    case DoInFlight(k, a) => SetInFlight(s, k, a)
  }

  function Run(s: State, calls: seq<Call>): State {
    if |calls| == 0 then s else Apply(Run(s, calls[..|calls| - 1]), calls[|calls| - 1]).0
  }

  /** Every call keeps the ledger valid, is all or nothing, and forgets no
      settlement. */
  lemma ApplyKeeps(s: State, c: Call)
    requires Valid(s)
    ensures Valid(Apply(s, c).0) && (!Apply(s, c).1 ==> Apply(s, c).0 == s)
    ensures forall id :: id in s.settled ==> id in Apply(s, c).0.settled && Apply(s, c).0.settled[id] == s.settled[id]
  {
    match c
    case DoReserve(id, operation, rs) => ReserveKeeps(s, id, operation, rs);
    case DoRelease(id) => ReleaseKeeps(s, id);
    case DoAdjust(id, rs) => AdjustKeeps(s, id, rs);
    case DoSettle(id, es) => SettleKeeps(s, id, es);
    case DoApply(es) => ApplyEffectsKeeps(s, es);
    case DoObserve(k, a) => if Apply(s, c).1 { BalancesKeep(s, Apply(s, c).0); }
    case DoInFlight(k, a) => if Apply(s, c).1 { BalancesKeep(s, Apply(s, c).0); }
  }

  /** After any run: reserved amounts are the sums over live reservations,
      balances are not negative, and no settlement is forgotten. */
  lemma {:induction false} RunKeeps(s: State, calls: seq<Call>)
    requires Valid(s)
    ensures Valid(Run(s, calls))
    ensures forall id :: id in s.settled ==> id in Run(s, calls).settled && Run(s, calls).settled[id] == s.settled[id]
  {
    if |calls| > 0 {
      RunKeeps(s, calls[..|calls| - 1]);
      ApplyKeeps(Run(s, calls[..|calls| - 1]), calls[|calls| - 1]);
    }
  }

  /** Calls that leave wallet, buffer and in-flight values alone. */
  predicate Reserves(c: Call) { c.DoReserve? || c.DoRelease? || c.DoAdjust? }

  /** t is s with other reservations. */
  predicate OnlyReservations(s: State, t: State) { t == s.(reserved := t.reserved, reservations := t.reservations) }

  lemma ReserveOnly(s: State, id: string, operation: string, rs: seq<Requirement>)
    ensures OnlyReservations(s, Reserve(s, id, operation, rs).0)
  {
  }

  lemma ReleaseOnly(s: State, id: string)
    ensures OnlyReservations(s, Release(s, id).0)
  {
  }

  lemma AdjustOnly(s: State, id: string, rs: seq<Requirement>)
    ensures OnlyReservations(s, AdjustReservation(s, id, rs).0)
  {
  }

  lemma ApplyFunded(s: State, c: Call)
    requires Valid(s) && Funded(s) && Reserves(c)
    ensures Valid(Apply(s, c).0) && Funded(Apply(s, c).0)
    ensures OnlyReservations(s, Apply(s, c).0)
  {
    match c
    case DoReserve(id, operation, rs) => ReserveOnly(s, id, operation, rs); ReserveKeeps(s, id, operation, rs); ReserveFunded(s, id, operation, rs);
    case DoRelease(id) => ReleaseOnly(s, id); ReleaseKeeps(s, id); ReleaseFunded(s, id);
    case DoAdjust(id, rs) => AdjustOnly(s, id, rs); AdjustKeeps(s, id, rs); AdjustFunded(s, id, rs);
  }

  /** While those values are fixed, what is reserved stays within them. */
  lemma {:induction false} RunFunded(s: State, calls: seq<Call>)
    requires Valid(s) && Funded(s) && forall i :: 0 <= i < |calls| ==> Reserves(calls[i])
    ensures Valid(Run(s, calls)) && Funded(Run(s, calls))
    ensures OnlyReservations(s, Run(s, calls))
  {
    if |calls| > 0 {
      RunFunded(s, calls[..|calls| - 1]);
      ApplyFunded(Run(s, calls[..|calls| - 1]), calls[|calls| - 1]);
    }
  }

  // ---------- settled once ----------

  /** A settled ID can never be reserved again. */
  lemma SettledStaysSettled(s: State, id: string, calls: seq<Call>, operation: string, rs: seq<Requirement>)
    requires Valid(s) && id in s.settled
    ensures Reserve(Run(s, calls), id, operation, rs) == (Run(s, calls), None)
  {
    RunKeeps(s, calls);
  }

  /** Replaying a settlement succeeds without change exactly when the effects
      are a permutation of the first ones. */
  lemma ReplayIffPermutation(s: State, id: string, first: seq<Effect>, calls: seq<Call>, again: seq<Effect>)
    requires Valid(s) && id in s.reservations && Settle(s, id, first).1
    requires |again| > 0 && EffectsOk(again) && AllSeparable(first) && AllSeparable(again)
    ensures var t := Run(Settle(s, id, first).0, calls);
            && Settle(t, id, again).0 == t
            && (Settle(t, id, again).1 <==> multiset(again) == multiset(first))
  {
    SettleKeeps(s, id, first);
    var after := Settle(s, id, first).0;
    RunKeeps(after, calls);
    FingerprintDecidesPermutation(first, again);
  }

  /** The call moved balances on behalf of a reservation. */
  predicate Applies(s: State, c: Call) { c.DoSettle? && c.id in s.reservations && Settle(s, c.id, c.effects).1 }

  /** How often a run applied a settlement of id. */
  function TimesApplied(s: State, calls: seq<Call>, id: string): nat {
    if |calls| == 0 then 0
    else
      var before, c := Run(s, calls[..|calls| - 1]), calls[|calls| - 1];
      TimesApplied(s, calls[..|calls| - 1], id) + if Applies(before, c) && c.id == id then 1 else 0
  }

  /** The effects of a reservation reach the balances at most once in any run,
      and not at all if it was already settled. */
  lemma {:induction false} AppliedAtMostOnce(s: State, calls: seq<Call>, id: string)
    requires Valid(s)
    ensures TimesApplied(s, calls, id) <= 1
    ensures TimesApplied(s, calls, id) == 1 ==> id in Run(s, calls).settled && id !in s.settled
  {
    if |calls| > 0 {
      var before, c := Run(s, calls[..|calls| - 1]), calls[|calls| - 1];
      AppliedAtMostOnce(s, calls[..|calls| - 1], id);
      RunKeeps(s, calls[..|calls| - 1]);
      ApplyKeeps(before, c);
      if Applies(before, c) { SettleKeeps(before, c.id, c.effects); }
    }
  }

  /** What a call adds to one balance. */
  function Moved(s: State, c: Call, k: Key): int {
    if Applies(s, c) || (c.DoApply? && ApplyEffects(s, c.effects).1) then Delta(c.effects, k) else 0
  }

  function TotalMoved(s: State, calls: seq<Call>, k: Key): int {
    if |calls| == 0 then 0
    else
      var before, c := Run(s, calls[..|calls| - 1]), calls[|calls| - 1];
      TotalMoved(s, calls[..|calls| - 1], k) + Moved(before, c, k)
  }

  lemma SettleMoves(s: State, id: string, es: seq<Effect>, fingerprint: Option<string>, k: Key)
    requires k in s.balances
    ensures var (t, ok) := SettleWith(s, id, es, fingerprint);
            k in t.balances && t.balances[k] == s.balances[k] + if ok && id in s.reservations then Delta(es, k) else 0
  {
  }

  lemma OthersKeepBalances(s: State, c: Call)
    requires !c.DoSettle? && !c.DoApply? && !c.DoObserve?
    ensures Apply(s, c).0.balances == s.balances
  {
  }

  lemma ApplyMoves(s: State, c: Call, k: Key)
    requires k in s.balances && !c.DoObserve?
    ensures k in Apply(s, c).0.balances && Apply(s, c).0.balances[k] == s.balances[k] + Moved(s, c, k)
  {
    if c.DoSettle? {
      SettleMoves(s, c.id, c.effects, FingerprintOf(c.effects), k);
    } else if c.DoApply? {
      EffectsMove(s, c.effects, k);
    } else {
      OthersKeepBalances(s, c);
    }
  }

  lemma EffectsMove(s: State, es: seq<Effect>, k: Key)
    requires k in s.balances
    ensures var (t, ok) := ApplyEffects(s, es);
            k in t.balances && t.balances[k] == s.balances[k] + if ok then Delta(es, k) else 0
  {
  }

  /** Unless the wallet is observed anew, a balance is where it started plus
      the effects applied to it. */
  lemma {:induction false} BalanceLedger(s: State, calls: seq<Call>, k: Key)
    requires k in s.balances && forall i :: 0 <= i < |calls| ==> !calls[i].DoObserve?
    ensures k in Run(s, calls).balances && Run(s, calls).balances[k] == s.balances[k] + TotalMoved(s, calls, k)
  {
    if |calls| > 0 {
      BalanceLedger(s, calls[..|calls| - 1], k);
      ApplyMoves(Run(s, calls[..|calls| - 1]), calls[|calls| - 1], k);
    }
  }
}
