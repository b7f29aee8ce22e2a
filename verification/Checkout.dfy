/** The generated checkout policy: idempotency keys, generation-guarded handles and debit reservations. */
module Checkout {
  import opened Wrappers

  const REQUEST_WINDOW := 60_000
  const SPEND_WINDOW := 3_600_000
  const MAX_REQUESTS := 3
  const MAX_ENTRIES := 10_000
  const NEVER := 9_007_199_254_740_991
  const U64_MAX := 18_446_744_073_709_551_615

  /** An idempotency key is scoped to its principal. */
  datatype Key = Key(principal: nat, raw: nat)

  /** The SDK progress saved for a checkout whose hire may have been sent. */
  datatype Recovery = Recovery(task: nat, valid: bool, progress: nat)

  datatype State = Pending | Recoverable | Blocked | Complete

  datatype Entry = Entry(
    state: State, generation: nat, expiresAt: int, maxDebit: nat, fingerprint: Option<nat>,
    recovery: Option<Recovery>, reservation: Option<nat>, body: Option<nat>)

  datatype Reservation = Reservation(principal: nat, amount: nat, expiresAt: int)

  datatype Policy = Policy(
    entries: map<Key, Entry>, times: map<nat, seq<int>>, reservations: map<nat, Reservation>)

  /** What the closure returned by an admission captures. Its entry is shared with the map while it is current. */
  datatype Handle = Handle(
    key: Key, active: Entry, previous: Option<Entry>, created: bool, admittedAt: int, settled: bool)

  predicate Replays(h: Handle) { h.previous.Some? && h.previous.value.state.Complete? }

  // ---------------------------------------------------------------- pruning

  /** Only a pending key without recovery evidence is forgotten. */
  predicate Forgotten(e: Entry, now: int) {
    e.expiresAt <= now && e.state.Pending? && e.recovery.None?
  }

  function PrunedEntries(es: map<Key, Entry>, now: int): map<Key, Entry> {
    map k | k in es && !Forgotten(es[k], now) :: es[k]
  }

  /** The reservation of a key whose code may still broadcast. */
  predicate Retains(e: Entry, id: nat) {
    (e.state.Pending? || e.state.Blocked?) && e.reservation == Some(id)
  }

  predicate Retained(es: map<Key, Entry>, id: nat) {
    exists k :: k in es && Retains(es[k], id)
  }

  function PrunedReservations(es: map<Key, Entry>, rs: map<nat, Reservation>, now: int): map<nat, Reservation> {
    map id | id in rs && (rs[id].expiresAt > now || Retained(es, id)) :: rs[id]
  }

  function Recent(times: seq<int>, now: int): seq<int> {
    if times == [] then []
    else Recent(times[..|times| - 1], now) + (if times[|times| - 1] > now - REQUEST_WINDOW then [times[|times| - 1]] else [])
  }

  function PrunedTimes(ts: map<nat, seq<int>>, now: int): map<nat, seq<int>> {
    map p | p in ts && Recent(ts[p], now) != [] :: Recent(ts[p], now)
  }

  function Prune(p: Policy, now: int): Policy {
    var es := PrunedEntries(p.entries, now);
    Policy(es, PrunedTimes(p.times, now), PrunedReservations(es, p.reservations, now))
  }

  // ---------------------------------------------------------------- reserved amounts

  function AmountOf(r: Reservation, principal: nat): nat { if r.principal == principal then r.amount else 0 }

  /** What a principal has reserved in total. */
  ghost function Total(rs: map<nat, Reservation>, principal: nat): nat {
    if rs == map[] then 0
    else
      var id :| id in rs;
      AmountOf(rs[id], principal) + Total(rs - {id}, principal)
  }

  /** The total does not depend on the order of summation. */
  lemma {:induction false} TotalWithout(rs: map<nat, Reservation>, principal: nat, id: nat)
    requires id in rs
    ensures Total(rs, principal) == AmountOf(rs[id], principal) + Total(rs - {id}, principal)
    decreases |rs|
  {
    var first :| first in rs && Total(rs, principal) == AmountOf(rs[first], principal) + Total(rs - {first}, principal);
    if first != id {
      TotalWithout(rs - {first}, principal, id);
      TotalWithout(rs - {id}, principal, first);
      assert rs - {first} - {id} == rs - {id} - {first};
    }
  }

  // ---------------------------------------------------------------- admission

  /**
   One request: the authorized principal or the refusal status, a well-formed raw key or none, the maximum
   debit the application asks for, and the configured hourly limit if it parses.
   */
  datatype Request = Request(
    principal: Result<nat, int>, raw: Option<nat>, maxDebit: int, limit: Option<nat>)

  datatype Answer = Refused(status: int) | Admitted(handle: Handle)

  function Found<K, V>(m: map<K, V>, k: K): Option<V> { if k in m then Some(m[k]) else None }

  /** The reservation a resumed key still has. */
  predicate HasReservation(p: Policy, previous: Option<Entry>) {
    previous.Some? && previous.value.reservation.Some? && previous.value.reservation.value in p.reservations
  }

  /** Admission of a key on a pruned policy. */
  ghost function AdmitKey(
    p: Policy, key: Key, maxDebit: nat, limit: nat, now: int, generation: nat, id: nat): (Policy, Answer)
  {
    var previous := Found(p.entries, key);
    if previous.Some? && (previous.value.state.Pending? || previous.value.state.Blocked?) then (p, Refused(409))
    else if previous.None? && |p.entries| + |p.times| + |p.reservations| >= MAX_ENTRIES then (p, Refused(503))
    else if previous.Some? && previous.value.maxDebit != maxDebit then (p, Refused(409))
    else if previous.Some? && previous.value.state.Complete? then
      Enter(p, key, previous, maxDebit, now, generation, previous.value.reservation, false)
    else
      var recent := if key.principal in p.times then p.times[key.principal] else [];
      if |recent| >= MAX_REQUESTS then (p, Refused(429))
      else if Total(p.reservations, key.principal) + (if HasReservation(p, previous) then 0 else maxDebit) > limit
      then (p, Refused(429))
      else
        var held := if HasReservation(p, previous) then previous.value.reservation.value else id;
        Enter(Reserved(p, key, maxDebit, now, held), key, previous, maxDebit, now, generation, Some(held), !HasReservation(p, previous))
  }

  /** A new reservation for the full debit, or the existing one with its window restarted. */
  function Held(p: Policy, id: nat, key: Key, maxDebit: nat, now: int): Reservation {
    if id in p.reservations then p.reservations[id].(expiresAt := now + SPEND_WINDOW)
    else Reservation(key.principal, maxDebit, now + SPEND_WINDOW)
  }

  /** The policy once the request is counted and the debit reserved. */
  function Reserved(p: Policy, key: Key, maxDebit: nat, now: int, held: nat): Policy {
    var recent := if key.principal in p.times then p.times[key.principal] else [];
    p.(times := p.times[key.principal := recent + [now]],
       reservations := p.reservations[held := Held(p, held, key, maxDebit, now)])
  }

  function Enter(
    p: Policy, key: Key, previous: Option<Entry>, maxDebit: nat, now: int, generation: nat,
    reservation: Option<nat>, created: bool): (Policy, Answer)
  {
    var active :=
      Entry(Pending, generation, if previous.Some? then previous.value.expiresAt else now + SPEND_WINDOW, maxDebit,
            if previous.Some? then previous.value.fingerprint else None,
            if previous.Some? then previous.value.recovery else None, reservation, None);
    (p.(entries := p.entries[key := active]), Admitted(Handle(key, active, previous, created, now, false)))
  }

  /** `admitCheckout` */
  ghost function Admit(p: Policy, r: Request, now: int, generation: nat, id: nat): (Policy, Answer) {
    if r.principal.Err? then (p, Refused(r.principal.error))
    else if r.maxDebit <= 0 || r.maxDebit > U64_MAX || r.limit.None? then (p, Refused(503))
    else
      var q := Prune(p, now);
      if r.raw.None? then (q, Refused(400))
      else AdmitKey(q, Key(r.principal.value, r.raw.value), r.maxDebit, r.limit.value, now, generation, id)
  }

  // ---------------------------------------------------------------- the handle

  /** The handle has not settled and no other generation has taken the key. */
  predicate Current(p: Policy, h: Handle) {
    !h.settled && h.key in p.entries && p.entries[h.key].generation == h.active.generation
  }

  predicate MayBind(p: Policy, h: Handle, fingerprint: Option<nat>) {
    && Current(p, h) && fingerprint.Some?
    && (h.previous.Some? ==> h.active.fingerprint.Some?)
    && (h.active.fingerprint.Some? ==> h.active.fingerprint == fingerprint)
  }

  function Bind(p: Policy, h: Handle, fingerprint: Option<nat>): (Policy, Handle) {
    if MayBind(p, h, fingerprint) then
      var active := h.active.(fingerprint := fingerprint);
      (p.(entries := p.entries[h.key := active]), h.(active := active))
    else (p, h)
  }

  /** Restart the rolling window of the reservation, unless this is a replay of a completed key. */
  function Refresh(p: Policy, h: Handle, at: int): Policy {
    if Replays(h) || h.active.reservation.None? || h.active.reservation.value !in p.reservations then p
    else
      var id := h.active.reservation.value;
      var until := (if at > h.admittedAt then at else h.admittedAt) + SPEND_WINDOW;
      p.(reservations := p.reservations[id := p.reservations[id].(expiresAt := until)])
  }

  function Checkpoint(p: Policy, h: Handle, at: int): Policy {
    if Current(p, h) then
      var q := Refresh(p, h, at);
      q.(entries := q.entries[h.key := h.active])
    else p
  }

  function SettledBy(h: Handle, p: Policy): Handle { h.(settled := h.settled || Current(p, h)) }

  function Preserve(p: Policy, h: Handle, recovery: Recovery): Policy {
    if !Current(p, h) then p
    else p.(entries := p.entries[h.key := h.active.(state := Recoverable, expiresAt := NEVER, recovery := Some(recovery))])
  }

  function Block(p: Policy, h: Handle): Policy {
    if !Current(p, h) then p
    else p.(entries := p.entries[h.key := h.active.(state := Blocked, expiresAt := NEVER, recovery := None)])
  }

  function Without<K, V>(m: map<K, V>, k: Option<K>): map<K, V> { if k.Some? then m - {k.value} else m }

  function Discard(p: Policy, h: Handle): Policy {
    if !Current(p, h) then p
    else p.(entries := p.entries - {h.key}, reservations := Without(p.reservations, h.active.reservation))
  }

  function Finish(p: Policy, h: Handle, body: nat, at: int): Policy {
    if !Current(p, h) then p
    else
      var q := Refresh(p, h, at);
      q.(entries := q.entries[h.key := h.active.(state := Complete, expiresAt := NEVER, recovery := None, body := Some(body))])
  }

  function Abort(p: Policy, h: Handle): Policy {
    if !Current(p, h) then p
    else
      p.(entries := if h.previous.Some? then p.entries[h.key := h.previous.value] else p.entries - {h.key},
         reservations := if h.created then Without(p.reservations, h.active.reservation) else p.reservations)
  }
}
