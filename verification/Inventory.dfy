/** The inventory: the single mutable owner of the ledger. Each method leaves
    the ledger exactly as the call on values does. */
module Inventory {
  import opened Common
  import opened Fingerprint
  import opened LedgerLaws
  import Ledger

  type Key = Fingerprint.Key
  type Requirement = Ledger.Requirement
  type Reservation = Ledger.Reservation

  datatype Policy = Policy(wallet: Amount, cap: Amount, target: Amount, buffer: Amount, inFlightOut: Amount)

  predicate PolicyOk(k: Key, p: Policy) {
    && KeyOk(k)
    && p.wallet.token == k.token && p.cap.token == k.token && p.target.token == k.token
    && p.buffer.token == k.token && p.inFlightOut.token == k.token
    && p.target.units <= p.cap.units && p.buffer.units < p.cap.units
  }

  ghost predicate HasKey(rs: seq<Requirement>, k: Key) { exists i :: 0 <= i < |rs| && rs[i].key == k }

  ghost predicate HasEffect(es: seq<Effect>, k: Key) { exists i :: 0 <= i < |es| && es[i].key == k }

  /** m sums the requirements key by key. */
  ghost predicate Combined(rs: seq<Requirement>, m: map<Key, nat>) {
    && (forall i :: 0 <= i < |rs| ==> rs[i].key in m)
    && (forall k :: k in m ==> m[k] == Ledger.Need(rs, k) && HasKey(rs, k))
  }

  lemma CombinedNext(rs: seq<Requirement>, n: nat, m: map<Key, nat>)
    requires n < |rs| && Combined(rs[..n], m)
    ensures var k := rs[n].key;
            Combined(rs[..n + 1], m[k := (if k in m then m[k] else 0) + rs[n].amount.units])
  {
    var key := rs[n].key;
    var after := m[key := (if key in m then m[key] else 0) + rs[n].amount.units];
    assert rs[..n + 1][..n] == rs[..n] && rs[..n + 1][n] == rs[n];
    if key !in m {
      Ledger.NeedOfOthers(rs[..n], key);
    }
    forall k | k in after ensures after[k] == Ledger.Need(rs[..n + 1], k) && HasKey(rs[..n + 1], k) {
      if k == key {
        assert rs[..n + 1][n].key == k;
      } else {
        var i :| 0 <= i < n && rs[..n][i].key == k;
        assert rs[..n + 1][i].key == k;
      }
    }
  }

  /** Sum the requirements, refusing an unacceptable one. */
  method Combine(rs: seq<Requirement>) returns (ok: bool, combined: map<Key, nat>)
    ensures ok == forall i :: 0 <= i < |rs| ==> Ledger.AcceptableRequirement(rs[i])
    ensures ok ==> Combined(rs, combined)
  {
    combined := map[];
    for n := 0 to |rs|
      invariant forall i :: 0 <= i < n ==> Ledger.AcceptableRequirement(rs[i])
      invariant Combined(rs[..n], combined)
    {
      if !Ledger.AcceptableRequirement(rs[n]) { return false, combined; }
      CombinedNext(rs, n, combined);
      var k := rs[n].key;
      combined := combined[k := (if k in combined then combined[k] else 0) + rs[n].amount.units];
    }
    assert rs[..|rs|] == rs;
    ok := true;
  }

  /** m sums the effects key by key. */
  ghost predicate Summed(es: seq<Effect>, m: map<Key, int>) {
    && (forall i :: 0 <= i < |es| ==> es[i].key in m)
    && (forall k :: k in m ==> m[k] == Ledger.Delta(es, k) && HasEffect(es, k))
  }

  lemma SummedNext(es: seq<Effect>, n: nat, m: map<Key, int>)
    requires n < |es| && Summed(es[..n], m) && es[n].delta.Some?
    ensures var k := es[n].key;
            Summed(es[..n + 1], m[k := (if k in m then m[k] else 0) + es[n].delta.value])
  {
    var key := es[n].key;
    var after := m[key := (if key in m then m[key] else 0) + es[n].delta.value];
    assert es[..n + 1][..n] == es[..n] && es[..n + 1][n] == es[n];
    if key !in m { DeltaOfOthers(es[..n], key); }
    forall k | k in after ensures after[k] == Ledger.Delta(es[..n + 1], k) && HasEffect(es[..n + 1], k) {
      if k == key {
        assert es[..n + 1][n].key == k;
      } else {
        var i :| 0 <= i < n && es[..n][i].key == k;
        assert es[..n + 1][i].key == k;
      }
    }
  }

  class Inventory {
    var balances: map<Key, int>
    var caps: map<Key, nat>
    var buffers: map<Key, nat>
    var inFlight: map<Key, nat>
    var reserved: map<Key, int>
    var reservations: map<string, Reservation>
    var settled: map<string, string>

    /** The ledger this object holds. */
    ghost function Snapshot(): Ledger.State
      reads this
    {
      Ledger.State(balances, caps, buffers, inFlight, reserved, reservations, settled)
    }

    ghost predicate Valid()
      reads this
    {
      Ledger.Valid(Snapshot())
    }

    constructor (policies: map<Key, Policy>)
      requires forall k :: k in policies ==> PolicyOk(k, policies[k])
      ensures Valid() && reservations == map[] && settled == map[]
      ensures balances == map k | k in policies :: policies[k].wallet.units
      ensures caps == map k | k in policies :: policies[k].cap.units
      ensures buffers == map k | k in policies :: policies[k].buffer.units
      ensures inFlight == map k | k in policies :: policies[k].inFlightOut.units
      ensures reserved == map k | k in policies :: 0
    {
      balances := map k | k in policies :: policies[k].wallet.units;
      caps := map k | k in policies :: policies[k].cap.units;
      buffers := map k | k in policies :: policies[k].buffer.units;
      inFlight := map k | k in policies :: policies[k].inFlightOut.units;
      reserved := map k | k in policies :: 0;
      reservations, settled := map[], map[];
    }

    /** A new inventory, or nothing if a policy contradicts its key. */
    static method NewWithPolicies(policies: map<Key, Policy>) returns (r: Option<Inventory>)
      ensures r.Some? <==> forall k :: k in policies ==> PolicyOk(k, policies[k])
      ensures r.Some? ==> fresh(r.value) && r.value.Valid() && r.value.reservations == map[] && r.value.settled == map[]
      ensures r.Some? ==> r.value.balances == map k | k in policies :: policies[k].wallet.units
      ensures r.Some? ==> r.value.caps == map k | k in policies :: policies[k].cap.units
      ensures r.Some? ==> r.value.buffers == map k | k in policies :: policies[k].buffer.units
      ensures r.Some? ==> r.value.inFlight == map k | k in policies :: policies[k].inFlightOut.units
      ensures r.Some? ==> r.value.reserved == map k | k in policies :: 0
    {
      var pending := policies.Keys;
      while pending != {}
        invariant pending <= policies.Keys
        invariant forall k :: k in policies && k !in pending ==> PolicyOk(k, policies[k])
        decreases |pending|
      {
        var k :| k in pending;
        if !PolicyOk(k, policies[k]) { return None; }
        pending := pending - {k};
      }
      var inventory := new Inventory(policies);
      r := Some(inventory);
    }

    /** Whether every combined amount is available, given back what credit holds. */
    method CheckAvailable(wanted: map<Key, nat>, credit: map<Key, nat>) returns (ok: bool)
      requires Valid()
      ensures ok == forall k :: k in wanted ==>
                      k in balances && wanted[k] <= Ledger.Available(Snapshot(), k) + if k in credit then credit[k] else 0
    {
      var pending := wanted.Keys;
      while pending != {}
        invariant pending <= wanted.Keys
        invariant forall k :: k in wanted && k !in pending ==>
                    k in balances && wanted[k] <= Ledger.Available(Snapshot(), k) + if k in credit then credit[k] else 0
        decreases |pending|
      {
        var k :| k in pending;
        if k !in balances { return false; }
        var effective := Ledger.Min(balances[k], caps[k]) - buffers[k] - reserved[k] - inFlight[k];
        if effective < 0 { effective := 0; }
        if effective + (if k in credit then credit[k] else 0) < wanted[k] { return false; }
        pending := pending - {k};
      }
      ok := true;
    }

    /** Move every combined amount into the reserved totals. */
    method AddAll(rs: seq<Requirement>, combined: map<Key, nat>)
      requires Combined(rs, combined) && combined.Keys <= reserved.Keys
      modifies this`reserved
      ensures reserved == Ledger.AddReserved(old(reserved), rs)
    {
      ghost var before := reserved;
      var pending := combined.Keys;
      while pending != {}
        invariant pending <= combined.Keys && reserved.Keys == before.Keys
        invariant forall k :: k in reserved ==>
                    reserved[k] == before[k] + if k in combined && k !in pending then combined[k] else 0
        decreases |pending|
      {
        var k :| k in pending;
        reserved := reserved[k := reserved[k] + combined[k]];
        pending := pending - {k};
      }
      forall k | k in reserved ensures reserved[k] == before[k] + Ledger.Need(rs, k) {
        if k !in combined { Ledger.NeedOfOthers(rs, k); }
      }
    }

    /** Take every requirement out of the reserved totals, one by one. */
    method SubtractEach(rs: seq<Requirement>)
      requires forall i :: 0 <= i < |rs| ==> rs[i].key in reserved
      modifies this`reserved
      ensures reserved == Ledger.SubReserved(old(reserved), rs)
    {
      ghost var before := reserved;
      for n := 0 to |rs|
        invariant reserved.Keys == before.Keys
        invariant forall k :: k in reserved ==> reserved[k] == before[k] - Ledger.Need(rs[..n], k)
      {
        assert rs[..n + 1][..n] == rs[..n];
        var k := rs[n].key;
        reserved := reserved[k := reserved[k] - rs[n].amount.units];
      }
      assert rs[..|rs|] == rs;
    }

    /** Sum what is asked for and check that it is acceptable and available. */
    method Admit(rs: seq<Requirement>) returns (ok: bool, combined: map<Key, nat>)
      requires Valid()
      ensures ok == ((forall i :: 0 <= i < |rs| ==> Ledger.AcceptableRequirement(rs[i])) && Ledger.Affordable(Snapshot(), rs, []))
      ensures ok ==> Combined(rs, combined) && combined.Keys <= reserved.Keys
    {
      ok, combined := Combine(rs);
      if !ok { return; }
      ok := CheckAvailable(combined, map[]);
      AvailableMeansAffordable(Snapshot(), rs, combined, [], map[]);
    }

    method Reserve(id: string, operation: string, rs: seq<Requirement>) returns (r: Option<Reservation>)
      requires Valid()
      modifies this
      ensures Valid() && (Snapshot(), r) == Ledger.Reserve(old(Snapshot()), id, operation, rs)
    {
      ghost var s := Snapshot();
      ReserveKeeps(s, id, operation, rs);
      if id == "" || operation == "" || |rs| == 0 { return None; }
      if id in reservations {
        if reservations[id].operation != operation { return None; }
        return Some(reservations[id]);
      }
      if id in settled { return None; }
      var ok, combined := Admit(rs);
      if !ok { return None; }
      AddAll(rs, combined);
      r := NewReservation(id, operation, rs);
    }

    /** The reservation itself, if it is valid after all. */
    method NewReservation(id: string, operation: string, rs: seq<Requirement>) returns (r: Option<Reservation>)
      modifies this`reservations
      ensures r == if Ledger.RequirementsOk(rs) then Some(Ledger.Reservation(id, operation, rs)) else None
      ensures reservations == if r.Some? then old(reservations)[id := r.value] else old(reservations)
    {
      if !Ledger.RequirementsOk(rs) { return None; }
      var reservation := Ledger.Reservation(id, operation, rs);
      reservations := reservations[id := reservation];
      r := Some(reservation);
    }

    method Release(id: string) returns (ok: bool)
      requires Valid()
      modifies this
      ensures Valid() && (Snapshot(), ok) == Ledger.Release(old(Snapshot()), id)
    {
      ReleaseKeeps(Snapshot(), id);
      if id == "" { return false; }
      if id !in reservations { return true; }
      assert Ledger.ReservationOk(Snapshot(), id, reservations[id]);
      SubtractEach(reservations[id].requirements);
      reservations := reservations - {id};
      ok := true;
    }

    /** Sum a replacement and check that it is available once the current
        requirements are given back. */
    method AdmitAdjustment(current: seq<Requirement>, rs: seq<Requirement>) returns (ok: bool, combined: map<Key, nat>)
      requires Valid() && Ledger.RequirementsOk(current) && Ledger.RequirementsOk(rs)
      ensures ok == Ledger.Affordable(Snapshot(), rs, current)
      ensures ok ==> Combined(rs, combined) && combined.Keys <= reserved.Keys
    {
      var back: map<Key, nat>;
      ok, back := Combine(current);
      ok, combined := Combine(rs);
      ok := CheckAvailable(combined, back);
      AvailableMeansAffordable(Snapshot(), rs, combined, current, back);
    }

    method AdjustReservation(id: string, rs: seq<Requirement>) returns (r: Option<Reservation>)
      requires Valid()
      requires id in reservations ==> Ledger.HoldsKeys(reservations[id].requirements, rs)
      modifies this
      ensures Valid() && (Snapshot(), r) == Ledger.AdjustReservation(old(Snapshot()), id, rs)
    {
      ghost var s := Snapshot();
      AdjustKeeps(s, id, rs);
      if id == "" || |rs| == 0 || id !in reservations { return None; }
      if !Ledger.RequirementsOk(rs) { return None; }
      var current := reservations[id];
      assert Ledger.ReservationOk(s, id, current);
      var ok, combined := AdmitAdjustment(current.requirements, rs);
      if !ok { return None; }
      var replacement := Exchange(id, current, rs, combined);
      r := Some(replacement);
    }

    /** Give the current requirements back and take the new ones. */
    method Exchange(id: string, current: Reservation, rs: seq<Requirement>, combined: map<Key, nat>) returns (replacement: Reservation)
      requires forall i :: 0 <= i < |current.requirements| ==> current.requirements[i].key in reserved
      requires Combined(rs, combined) && combined.Keys <= reserved.Keys
      modifies this
      ensures replacement == Ledger.Reservation(id, current.operation, rs)
      ensures Snapshot() == old(Snapshot()).(
                reserved := Ledger.AddReserved(Ledger.SubReserved(old(reserved), current.requirements), rs),
                reservations := old(reservations)[id := replacement])
    {
      SubtractEach(current.requirements);
      AddAll(rs, combined);
      replacement := Ledger.Reservation(id, current.operation, rs);
      reservations := reservations[id := replacement];
    }

    /** Sum the effects and check that they name known balances. */
    method SumEffects(es: seq<Effect>) returns (ok: bool, deltas: map<Key, int>)
      ensures ok == (EffectsOk(es) && forall i :: 0 <= i < |es| ==> es[i].key in balances)
      ensures ok ==> Summed(es, deltas)
    {
      deltas := map[];
      for n := 0 to |es|
        invariant forall i :: 0 <= i < n ==> EffectOk(es[i]) && es[i].key in balances
        invariant Summed(es[..n], deltas)
      {
        if !EffectOk(es[n]) || es[n].key !in balances { return false, deltas; }
        SummedNext(es, n, deltas);
        var k := es[n].key;
        deltas := deltas[k := (if k in deltas then deltas[k] else 0) + es[n].delta.value];
      }
      assert es[..|es|] == es;
      ok := true;
    }

    method StaysNonnegative(deltas: map<Key, int>) returns (ok: bool)
      requires deltas.Keys <= balances.Keys
      ensures ok == forall k :: k in deltas ==> balances[k] + deltas[k] >= 0
    {
      var pending := deltas.Keys;
      while pending != {}
        invariant pending <= deltas.Keys
        invariant forall k :: k in deltas && k !in pending ==> balances[k] + deltas[k] >= 0
        decreases |pending|
      {
        var k :| k in pending;
        if balances[k] + deltas[k] < 0 { return false; }
        pending := pending - {k};
      }
      ok := true;
    }

    method AddDeltas(es: seq<Effect>, deltas: map<Key, int>)
      requires Summed(es, deltas) && deltas.Keys <= balances.Keys
      modifies this`balances
      ensures balances == Ledger.ApplyDeltas(old(balances), es)
    {
      ghost var before := balances;
      var pending := deltas.Keys;
      while pending != {}
        invariant pending <= deltas.Keys && balances.Keys == before.Keys
        invariant forall k :: k in balances ==>
                    balances[k] == before[k] + if k in deltas && k !in pending then deltas[k] else 0
        decreases |pending|
      {
        var k :| k in pending;
        balances := balances[k := balances[k] + deltas[k]];
        pending := pending - {k};
      }
      forall k | k in balances ensures balances[k] == before[k] + Ledger.Delta(es, k) {
        if k !in deltas { DeltaOfOthers(es, k); }
      }
    }

    /** Apply the effects to the balances if none would fall below zero. */
    method MoveBalances(es: seq<Effect>) returns (ok: bool)
      requires Valid()
      modifies this`balances
      ensures ok == Ledger.Applicable(old(Snapshot()), es)
      ensures balances == if ok then Ledger.ApplyDeltas(old(balances), es) else old(balances)
    {
      var known, deltas := SumEffects(es);
      if !known { return false; }
      assert forall k :: k in deltas ==> k in balances;
      ok := StaysNonnegative(deltas);
      SummedMeansApplicable(Snapshot(), es, deltas);
      if ok { AddDeltas(es, deltas); }
    }

    method SettleWith(id: string, es: seq<Effect>, fingerprint: Option<string>) returns (ok: bool)
      requires Valid()
      modifies this
      ensures Valid() && (Snapshot(), ok) == Ledger.SettleWith(old(Snapshot()), id, es, fingerprint)
    {
      SettleWithKeeps(Snapshot(), id, es, fingerprint);
      if id == "" || |es| == 0 || fingerprint.None? { return false; }
      if id !in reservations {
        return id in settled && settled[id] == fingerprint.value;
      }
      assert Ledger.ReservationOk(Snapshot(), id, reservations[id]);
      ok := MoveBalances(es);
      if !ok { return; }
      Strike(id, fingerprint.value);
    }

    /** Take a reservation out and remember how it was settled. */
    method Strike(id: string, fingerprint: string)
      requires id in reservations
      requires forall i :: 0 <= i < |reservations[id].requirements| ==> reservations[id].requirements[i].key in reserved
      modifies this
      ensures Snapshot() == old(Snapshot()).(
                reserved := Ledger.SubReserved(old(reserved), old(reservations)[id].requirements),
                reservations := old(reservations) - {id}, settled := old(settled)[id := fingerprint])
    {
      SubtractEach(reservations[id].requirements);
      reservations := reservations - {id};
      settled := settled[id := fingerprint];
    }

    method Settle(id: string, es: seq<Effect>) returns (ok: bool)
      requires Valid()
      modifies this
      ensures Valid() && (Snapshot(), ok) == Ledger.Settle(old(Snapshot()), id, es)
    {
      var fingerprint := FingerprintOf(es);
      ok := SettleWith(id, es, fingerprint);
    }

    method ApplyEffects(es: seq<Effect>) returns (ok: bool)
      requires Valid()
      modifies this
      ensures Valid() && (Snapshot(), ok) == Ledger.ApplyEffects(old(Snapshot()), es)
    {
      ApplyEffectsKeeps(Snapshot(), es);
      if |es| == 0 { return false; }
      ok := MoveBalances(es);
    }
  }

  /** The key-by-key check is the check on the requirements. */
  lemma AvailableMeansAffordable(s: Ledger.State, rs: seq<Requirement>, wanted: map<Key, nat>,
                                 credit: seq<Requirement>, back: map<Key, nat>)
    requires Ledger.Valid(s) && Combined(rs, wanted) && Combined(credit, back)
    ensures Ledger.Affordable(s, rs, credit) <==>
            forall k :: k in wanted ==>
              k in s.balances && wanted[k] <= Ledger.Available(s, k) + if k in back then back[k] else 0
  {
    forall k ensures (if k in back then back[k] else 0) == Ledger.Need(credit, k) {
      if k !in back { Ledger.NeedOfOthers(credit, k); }
    }
    if Ledger.Affordable(s, rs, credit) {
      forall k | k in wanted ensures k in s.balances && wanted[k] <= Ledger.Available(s, k) + if k in back then back[k] else 0 {
        var i :| 0 <= i < |rs| && rs[i].key == k;
      }
    }
  }

  lemma SummedMeansApplicable(s: Ledger.State, es: seq<Effect>, deltas: map<Key, int>)
    requires Summed(es, deltas) && EffectsOk(es) && forall i :: 0 <= i < |es| ==> es[i].key in s.balances
    ensures Ledger.Applicable(s, es) <==> forall k :: k in deltas ==> k in s.balances && s.balances[k] + deltas[k] >= 0
  {
  }
}
