/** What the ledger's calls mean in wallet, cap, buffer, reserved and in-flight
    amounts. */
module LedgerMeaning {
  import opened Common
  import opened Fingerprint
  import opened Ledger
  import opened LedgerLaws

  // ---------- the sums ----------

  lemma {:induction false} NeedAppend(xs: seq<Requirement>, ys: seq<Requirement>, k: Key)
    ensures Need(xs + ys, k) == Need(xs, k) + Need(ys, k)
  {
    if |ys| == 0 {
      assert xs + ys == xs;
    } else {
      assert (xs + ys)[..|xs + ys| - 1] == xs + ys[..|ys| - 1];
      NeedAppend(xs, ys[..|ys| - 1], k);
    }
  }

  /** One requirement asks its amount of its own key. */
  lemma NeedOfOne(r: Requirement, k: Key)
    ensures Need([r], k) == if r.key == k then r.amount.units else 0
  {
    assert [r][..0] == [];
  }

  lemma {:induction false} DeltaAppend(xs: seq<Effect>, ys: seq<Effect>, k: Key)
    ensures Delta(xs + ys, k) == Delta(xs, k) + Delta(ys, k)
  {
    if |ys| == 0 {
      assert xs + ys == xs;
    } else {
      assert (xs + ys)[..|xs + ys| - 1] == xs + ys[..|ys| - 1];
      DeltaAppend(xs, ys[..|ys| - 1], k);
    }
  }

  /** One effect moves its own key by its delta. */
  lemma DeltaOfOne(e: Effect, k: Key)
    requires e.delta.Some?
    ensures Delta([e], k) == if e.key == k then e.delta.value else 0
  {
    assert [e][..0] == [];
  }

  // ---------- reserving ----------

  /** The ledger knows the key, and amount more can be reserved on it within
      wallet and cap. */
  predicate Fits(s: State, k: Key, amount: int) {
    && k in s.balances && k in s.caps && k in s.buffers && k in s.inFlight && k in s.reserved
    && s.reserved[k] + amount + s.buffers[k] + s.inFlight[k] <= s.balances[k]
    && s.reserved[k] + amount + s.buffers[k] + s.inFlight[k] <= s.caps[k]
  }

  /** For a key that is asked for, being affordable is fitting. */
  lemma AffordableIff(s: State, rs: seq<Requirement>)
    requires forall i :: 0 <= i < |rs| ==> rs[i].amount.units > 0
    ensures Affordable(s, rs, []) <==> forall i :: 0 <= i < |rs| ==> Fits(s, rs[i].key, Need(rs, rs[i].key))
  {
    forall i | 0 <= i < |rs| ensures Need(rs, rs[i].key) > 0 { NeedPositive(rs, i); }
  }

  /** Asks for a positive amount of the token its key names, and the key can
      hold what is asked of it in all. */
  predicate Holdable(s: State, rs: seq<Requirement>, r: Requirement) {
    && r.key.token != "" && r.amount.token == r.key.token && r.amount.units > 0
    && Fits(s, r.key, Need(rs, r.key))
  }

  /** A new reservation is given exactly if it has an ID and an operation, was
      not settled before, and asks for something that can all be held. */
  lemma ReserveIff(s: State, id: string, operation: string, rs: seq<Requirement>)
    requires Valid(s) && id !in s.reservations
    ensures Reserve(s, id, operation, rs).1.Some? <==>
              id != "" && operation != "" && id !in s.settled && |rs| > 0 && forall i :: 0 <= i < |rs| ==> Holdable(s, rs, rs[i])
  {
    if forall i :: 0 <= i < |rs| ==> AcceptableRequirement(rs[i]) {
      AffordableIff(s, rs);
      if |rs| > 0 && Affordable(s, rs, []) { LateCheckPasses(s, rs); }
    }
  }

  /** It then raises what is reserved by just what is asked. */
  lemma ReserveMoves(s: State, id: string, operation: string, rs: seq<Requirement>, k: Key)
    requires Valid(s) && id !in s.reservations && k in s.reserved
    ensures var (t, r) := Reserve(s, id, operation, rs);
            && k in t.reserved && t.reserved[k] == s.reserved[k] + (if r.Some? then Need(rs, k) else 0)
            && t.reservations == (if r.Some? then s.reservations[id := Reservation(id, operation, rs)] else s.reservations)
            && t == s.(reserved := t.reserved, reservations := t.reservations)
  {
    ReserveKeeps(s, id, operation, rs);
  }

  /** The same with something given back first. */
  predicate FitsAfter(s: State, k: Key, amount: nat, back: nat) { amount <= back || Fits(s, k, amount - back) }

  lemma AffordableAfterIff(s: State, held: seq<Requirement>, rs: seq<Requirement>)
    requires s.balances.Keys == s.caps.Keys == s.buffers.Keys == s.inFlight.Keys == s.reserved.Keys
    requires forall i :: 0 <= i < |rs| ==> rs[i].key in s.balances
    ensures Affordable(s, rs, held) <==>
            forall i :: 0 <= i < |rs| ==> FitsAfter(s, rs[i].key, Need(rs, rs[i].key), Need(held, rs[i].key))
  {
  }

  /** A replacement is accepted exactly if it asks no more of a key than is held
      there, or the increase fits. */
  lemma AdjustIff(s: State, id: string, rs: seq<Requirement>)
    requires Valid(s) && id in s.reservations && HoldsKeys(s.reservations[id].requirements, rs)
    ensures var held := s.reservations[id].requirements;
            AdjustReservation(s, id, rs).1.Some? <==>
              |rs| > 0 && forall i :: 0 <= i < |rs| ==>
                && KeyOk(rs[i].key) && rs[i].amount.token == rs[i].key.token && rs[i].amount.units > 0
                && FitsAfter(s, rs[i].key, Need(rs, rs[i].key), Need(held, rs[i].key))
  {
    var held := s.reservations[id].requirements;
    HeldKeysKnown(s, id, rs);
    AffordableAfterIff(s, held, rs);
  }

  lemma HeldKeysKnown(s: State, id: string, rs: seq<Requirement>)
    requires Valid(s) && id in s.reservations && HoldsKeys(s.reservations[id].requirements, rs)
    ensures id != "" && forall i :: 0 <= i < |rs| ==> rs[i].key in s.balances
  {
    var held := s.reservations[id].requirements;
    assert ReservationOk(s, id, s.reservations[id]);
    forall i | 0 <= i < |rs| ensures rs[i].key in s.balances {
      var j :| 0 <= j < |held| && held[j].key == rs[i].key;
    }
  }

  /** What is reserved then changes by the difference. */
  lemma AdjustMoves(s: State, id: string, rs: seq<Requirement>, k: Key)
    requires id in s.reservations && k in s.reserved
    ensures var (t, r) := AdjustReservation(s, id, rs);
            k in t.reserved
            && t.reserved[k] == s.reserved[k] + if r.Some? then Need(rs, k) - Need(s.reservations[id].requirements, k) else 0
  {
  }

  // ---------- settling ----------

  /** A live reservation is settled exactly if the effects name complete keys the
      ledger knows and leave no balance negative. */
  lemma SettleIff(s: State, id: string, es: seq<Effect>)
    requires Valid(s) && id in s.reservations && EffectsOk(es)
    ensures Settle(s, id, es).1 <==>
              |es| > 0 && forall i :: 0 <= i < |es| ==>
                es[i].key in s.balances && s.balances[es[i].key] + Delta(es, es[i].key) >= 0
  {
    assert ReservationOk(s, id, s.reservations[id]);
    SettleWithIff(s, id, es, FingerprintOf(es));
  }

  lemma SettleWithIff(s: State, id: string, es: seq<Effect>, fingerprint: Option<string>)
    requires id != "" && id in s.reservations && EffectsOk(es) && fingerprint.Some?
    ensures SettleWith(s, id, es, fingerprint).1 <==>
              |es| > 0 && forall i :: 0 <= i < |es| ==>
                es[i].key in s.balances && s.balances[es[i].key] + Delta(es, es[i].key) >= 0
  {
  }

  /** Every balance then moves by its effects, and what the reservation held is
      given back. */
  lemma SettleMovesAll(s: State, id: string, es: seq<Effect>, k: Key)
    requires id in s.reservations && k in s.balances && k in s.reserved
    ensures var (t, ok) := Settle(s, id, es);
            && k in t.balances && t.balances[k] == s.balances[k] + (if ok then Delta(es, k) else 0)
            && k in t.reserved && t.reserved[k] == s.reserved[k] - if ok then Need(s.reservations[id].requirements, k) else 0
  {
    SettleWithMoves(s, id, es, FingerprintOf(es), k);
  }

  lemma SettleWithMoves(s: State, id: string, es: seq<Effect>, fingerprint: Option<string>, k: Key)
    requires id in s.reservations && k in s.balances && k in s.reserved
    ensures var (t, ok) := SettleWith(s, id, es, fingerprint);
            && k in t.balances && t.balances[k] == s.balances[k] + (if ok then Delta(es, k) else 0)
            && k in t.reserved && t.reserved[k] == s.reserved[k] - if ok then Need(s.reservations[id].requirements, k) else 0
  {
  }
}
