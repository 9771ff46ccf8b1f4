/** The reservation ledger as a value: what every inventory call does to it and
    what every call keeps. */
module Ledger {
  import opened Common
  import opened Fingerprint

  datatype Requirement = Requirement(key: Key, amount: Amount)
  datatype Reservation = Reservation(id: string, operation: string, requirements: seq<Requirement>)

  datatype State = State(
    balances: map<Key, int>, caps: map<Key, nat>, buffers: map<Key, nat>, inFlight: map<Key, nat>,
    reserved: map<Key, int>, reservations: map<string, Reservation>, settled: map<string, string>)

  // ---------- sums ----------

  /** What the requirements ask of one key. */
  function Need(rs: seq<Requirement>, k: Key): nat {
    if |rs| == 0 then 0
    else Need(rs[..|rs| - 1], k) + if rs[|rs| - 1].key == k then rs[|rs| - 1].amount.units else 0
  }

  /** What the effects change of one key. */
  function Delta(es: seq<Effect>, k: Key): int {
    if |es| == 0 then 0
    else
      var e := es[|es| - 1];
      Delta(es[..|es| - 1], k) + if e.key == k && e.delta.Some? then e.delta.value else 0
  }

  lemma {:induction false} NeedOfOthers(rs: seq<Requirement>, k: Key)
    requires forall i :: 0 <= i < |rs| ==> rs[i].key != k
    ensures Need(rs, k) == 0
  {
    if |rs| > 0 { NeedOfOthers(rs[..|rs| - 1], k); }
  }

  lemma {:induction false} NeedPositive(rs: seq<Requirement>, i: nat)
    requires i < |rs| && rs[i].amount.units > 0
    ensures Need(rs, rs[i].key) > 0
  {
    if i < |rs| - 1 { NeedPositive(rs[..|rs| - 1], i); }
  }

  /** What all live reservations ask of one key. */
  ghost function Held(m: map<string, Reservation>, k: Key): nat
    decreases |m|
  {
    if m == map[] then 0
    else
      var id :| id in m;
      assert |m - {id}| < |m| by { RemoveShrinks(m, id); }
      Need(m[id].requirements, k) + Held(m - {id}, k)
  }

  lemma RemoveShrinks(m: map<string, Reservation>, id: string)
    requires id in m
    ensures |m - {id}| == |m| - 1
  {
    assert (m - {id}).Keys == m.Keys - {id};
    assert |m.Keys - {id}| == |m.Keys| - 1;
    assert |m| == |m.Keys| && |m - {id}| == |(m - {id}).Keys|;
  }

  /** The sum does not depend on which reservation is taken out first. */
  lemma {:induction false} HeldRemove(m: map<string, Reservation>, id: string, k: Key)
    requires id in m
    ensures Held(m, k) == Need(m[id].requirements, k) + Held(m - {id}, k)
    decreases |m|
  {
    var first :| first in m && Held(m, k) == Need(m[first].requirements, k) + Held(m - {first}, k);
    if first != id {
      RemoveShrinks(m, first);
      RemoveShrinks(m, id);
      HeldRemove(m - {first}, id, k);
      HeldRemove(m - {id}, first, k);
      assert m - {first} - {id} == m - {id} - {first};
    }
  }

  lemma HeldAdd(m: map<string, Reservation>, id: string, r: Reservation, k: Key)
    requires id !in m
    ensures Held(m[id := r], k) == Held(m, k) + Need(r.requirements, k)
  {
    HeldRemove(m[id := r], id, k);
    assert m[id := r] - {id} == m;
  }

  // ---------- what is kept ----------

  predicate RequirementOk(r: Requirement) {
    KeyOk(r.key) && r.amount.token == r.key.token && r.amount.units > 0
  }

  predicate RequirementsOk(rs: seq<Requirement>) { |rs| > 0 && forall i :: 0 <= i < |rs| ==> RequirementOk(rs[i]) }

  /** A live reservation under its own ID, over known balances. */
  ghost predicate ReservationOk(s: State, id: string, r: Reservation) {
    && id != "" && r.id == id && r.operation != "" && RequirementsOk(r.requirements)
    && forall i :: 0 <= i < |r.requirements| ==> r.requirements[i].key in s.balances
  }

  ghost predicate BalancesOk(balances: map<Key, int>) {
    forall k {:trigger balances[k]} :: k in balances ==> KeyOk(k) && balances[k] >= 0
  }

  /** The aggregate is the sum over the live reservations. */
  ghost predicate ReservedOk(reserved: map<Key, int>, reservations: map<string, Reservation>) {
    forall k {:trigger Held(reservations, k)} :: k in reserved ==> reserved[k] == Held(reservations, k)
  }

  ghost predicate LiveOk(s: State) {
    forall id {:trigger ReservationOk(s, id, s.reservations[id])} ::
      id in s.reservations ==> ReservationOk(s, id, s.reservations[id])
  }

  ghost predicate Valid(s: State) {
    && s.balances.Keys == s.caps.Keys == s.buffers.Keys == s.inFlight.Keys == s.reserved.Keys
    && BalancesOk(s.balances)
    && ReservedOk(s.reserved, s.reservations)
    && LiveOk(s)
    && s.reservations.Keys !! s.settled.Keys
  }

  function Min(x: int, y: int): int { if x < y then x else y }

  /** Spendable amount, never below zero. */
  function Available(s: State, k: Key): (a: int)
    requires k in s.balances && k in s.caps && k in s.buffers && k in s.inFlight && k in s.reserved
    ensures a >= 0
  {
    var a := Min(s.balances[k], s.caps[k]) - s.buffers[k] - s.reserved[k] - s.inFlight[k];
    if a < 0 then 0 else a
  }

  /** While anything is reserved on a key, reservations, buffer and in-flight
      funds fit within the wallet and the cap. */
  ghost predicate FundedKey(s: State, k: Key)
    requires k in s.balances && k in s.caps && k in s.buffers && k in s.inFlight && k in s.reserved
  {
    s.reserved[k] > 0 ==> s.reserved[k] + s.buffers[k] + s.inFlight[k] <= Min(s.balances[k], s.caps[k])
  }

  ghost predicate Funded(s: State)
    requires Valid(s)
  {
    forall k {:trigger FundedKey(s, k)} :: k in s.balances ==> FundedKey(s, k)
  }

  // ---------- the calls ----------

  /** Every key asked for exists and has enough. */
  predicate Affordable(s: State, rs: seq<Requirement>, credit: seq<Requirement>) {
    forall i :: 0 <= i < |rs| ==>
      var k := rs[i].key;
      && k in s.balances && k in s.caps && k in s.buffers && k in s.inFlight && k in s.reserved
      && Need(rs, k) <= Available(s, k) + Need(credit, k)
  }

  function AddReserved(reserved: map<Key, int>, rs: seq<Requirement>): map<Key, int> {
    map k | k in reserved :: reserved[k] + Need(rs, k)
  }

  function SubReserved(reserved: map<Key, int>, rs: seq<Requirement>): map<Key, int> {
    map k | k in reserved :: reserved[k] - Need(rs, k)
  }

  /** The check Reserve makes itself; it does not look at chain and account. */
  predicate AcceptableRequirement(r: Requirement) {
    r.key.token != "" && r.amount.token == r.key.token && r.amount.units > 0
  }

  function Reserve(s: State, id: string, operation: string, rs: seq<Requirement>): (State, Option<Reservation>) {
    if id == "" || operation == "" || |rs| == 0 then (s, None)
    else if id in s.reservations then
      (s, if s.reservations[id].operation == operation then Some(s.reservations[id]) else None)
    else if id in s.settled then (s, None)
    else if exists i :: 0 <= i < |rs| && !AcceptableRequirement(rs[i]) then (s, None)
    else if !Affordable(s, rs, []) then (s, None)
    else
      var reserved := s.(reserved := AddReserved(s.reserved, rs));
      if !RequirementsOk(rs) then (reserved, None)
      else
        var r := Reservation(id, operation, rs);
        (reserved.(reservations := s.reservations[id := r]), Some(r))
  }

  function Release(s: State, id: string): (State, bool) {
    if id == "" then (s, false)
    else if id !in s.reservations then (s, true)
    else
      (s.(reserved := SubReserved(s.reserved, s.reservations[id].requirements), reservations := s.reservations - {id}), true)
  }

  /** A key the reservation does not hold has no old amount to add: the call
      panics there before it changes anything, which is no result. */
  function AdjustReservation(s: State, id: string, rs: seq<Requirement>): (State, Option<Reservation>) {
    if id == "" || |rs| == 0 || id !in s.reservations || !RequirementsOk(rs) then (s, None)
    else
      var current := s.reservations[id];
      if !HoldsKeys(current.requirements, rs) || !Affordable(s, rs, current.requirements) then (s, None)
      else
        var r := Reservation(id, current.operation, rs);
        (s.(reserved := AddReserved(SubReserved(s.reserved, current.requirements), rs),
            reservations := s.reservations[id := r]), Some(r))
  }

  predicate HoldsKeys(held: seq<Requirement>, rs: seq<Requirement>) {
    forall i :: 0 <= i < |rs| ==> exists j :: 0 <= j < |held| && held[j].key == rs[i].key
  }

  /** The effects name known balances and leave none below zero. */
  predicate Applicable(s: State, es: seq<Effect>) {
    EffectsOk(es) && forall i :: 0 <= i < |es| ==>
      es[i].key in s.balances && s.balances[es[i].key] + Delta(es, es[i].key) >= 0
  }

  function ApplyDeltas(balances: map<Key, int>, es: seq<Effect>): map<Key, int> {
    map k | k in balances :: balances[k] + Delta(es, k)
  }

  function ApplyEffects(s: State, es: seq<Effect>): (State, bool) {
    if |es| == 0 || !Applicable(s, es) then (s, false)
    else (s.(balances := ApplyDeltas(s.balances, es)), true)
  }

  /** Settlement, given the fingerprint of the effects. */
  function SettleWith(s: State, id: string, es: seq<Effect>, fingerprint: Option<string>): (State, bool) {
    if id == "" || |es| == 0 || fingerprint.None? then (s, false)
    else if id !in s.reservations then (s, id in s.settled && s.settled[id] == fingerprint.value)
    else if !Applicable(s, es) then (s, false)
    else
      (s.(balances := ApplyDeltas(s.balances, es),
          reserved := SubReserved(s.reserved, s.reservations[id].requirements),
          reservations := s.reservations - {id},
          settled := s.settled[id := fingerprint.value]), true)
  }

  function Settle(s: State, id: string, es: seq<Effect>): (State, bool) {
    SettleWith(s, id, es, FingerprintOf(es))
  }

  function ObserveWallet(s: State, k: Key, amount: Amount): (State, bool) {
    if amount.token != k.token || k !in s.balances then (s, false)
    else (s.(balances := s.balances[k := amount.units]), true)
  }

  function SetInFlight(s: State, k: Key, amount: Amount): (State, bool) {
    if amount.token != k.token || k !in s.balances then (s, false)
    else (s.(inFlight := s.inFlight[k := amount.units]), true)
  }
}
