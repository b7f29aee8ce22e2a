/** The policy as the generated module runs it: three maps, changed in place, and one handle per admission. */
module CheckoutStore {
  import opened Wrappers
  import opened Checkout

  /** `values.filter(time => time > now - WINDOW_MS)` */
  method FilterRecent(times: seq<int>, now: int) returns (kept: seq<int>)
    ensures kept == Recent(times, now)
  {
    kept := [];
    for i := 0 to |times|
      invariant kept == Recent(times[..i], now)
    {
      assert times[..i + 1][..i] == times[..i];
      if times[i] > now - REQUEST_WINDOW { kept := kept + [times[i]]; }
    }
    assert times[..|times|] == times;
  }

  /** The reservation numbers of keys whose code may still broadcast. */
  method CollectRetained(entries: map<Key, Entry>) returns (ids: set<nat>)
    ensures forall id :: id in ids <==> Retained(entries, id)
  {
    ids := {};
    var left := entries.Keys;
    while left != {}
      invariant left <= entries.Keys
      invariant forall id :: id in ids <==> exists k :: k in entries && k !in left && Retains(entries[k], id)
    {
      var k :| k in left;
      left := left - {k};
      var e := entries[k];
      ghost var before := ids;
      if (e.state.Pending? || e.state.Blocked?) && e.reservation.Some? { ids := ids + {e.reservation.value}; }
      forall id
        ensures id in ids <==> exists l :: l in entries && l !in left && Retains(entries[l], id)
      {
        if id in ids && id !in before { assert Retains(entries[k], id); }
      }
    }
  }

  /** What a principal has reserved, added up reservation by reservation. */
  method AddUp(reservations: map<nat, Reservation>, principal: nat) returns (total: nat)
    ensures total == Total(reservations, principal)
  {
    total := 0;
    var left := reservations;
    while left != map[]
      invariant total + Total(left, principal) == Total(reservations, principal)
      decreases |left|
    {
      var id :| id in left;
      TotalWithout(left, principal, id);
      total := total + AmountOf(left[id], principal);
      left := left - {id};
    }
  }

  class Store {
    var entries: map<Key, Entry>
    var times: map<nat, seq<int>>
    var reservations: map<nat, Reservation>

    function View(): Policy
      reads this
    {
      Policy(entries, times, reservations)
    }

    constructor ()
      ensures View() == Policy(map[], map[], map[])
    {
      entries, times, reservations := map[], map[], map[];
    }

    method ForgetEntries(now: int)
      modifies this
      ensures View() == old(View()).(entries := PrunedEntries(old(entries), now))
    {
      var left := entries.Keys;
      while left != {}
        invariant left <= old(entries).Keys
        invariant entries == map k | k in old(entries) && (k in left || !Forgotten(old(entries)[k], now)) :: old(entries)[k]
        invariant times == old(times) && reservations == old(reservations)
      {
        var k :| k in left;
        left := left - {k};
        if Forgotten(entries[k], now) { entries := entries - {k}; }
      }
    }

    method ForgetReservations(now: int)
      modifies this
      ensures View() == old(View()).(reservations := PrunedReservations(old(entries), old(reservations), now))
    {
      var retained := CollectRetained(entries);
      var left := reservations.Keys;
      while left != {}
        invariant left <= old(reservations).Keys
        invariant reservations == map id | id in old(reservations) &&
          (id in left || old(reservations)[id].expiresAt > now || id in retained) :: old(reservations)[id]
        invariant times == old(times) && entries == old(entries)
      {
        var id :| id in left;
        left := left - {id};
        if reservations[id].expiresAt <= now && id !in retained { reservations := reservations - {id}; }
      }
    }

    method ForgetTimes(now: int)
      modifies this
      ensures View() == old(View()).(times := PrunedTimes(old(times), now))
    {
      var left := times.Keys;
      while left != {}
        invariant left <= old(times).Keys
        invariant forall p :: p in times <==> p in old(times) && (p in left || Recent(old(times)[p], now) != [])
        invariant forall p :: p in times ==> times[p] == if p in left then old(times)[p] else Recent(old(times)[p], now)
        invariant reservations == old(reservations) && entries == old(entries)
      {
        var p :| p in left;
        left := left - {p};
        var current := FilterRecent(times[p], now);
        if current == [] { times := times - {p}; } else { times := times[p := current]; }
      }
    }

    /** `prune` */
    method PruneAll(now: int)
      modifies this
      ensures View() == Prune(old(View()), now)
    {
      ForgetEntries(now);
      ForgetReservations(now);
      ForgetTimes(now);
    }

    /** `admitCheckout`. `generation` and `id` are the numbers `randomUUID` would produce. */
    method AdmitCheckout(r: Request, now: int, generation: nat, id: nat) returns (status: int, admission: Admission?)
      requires id !in reservations
      modifies this
      ensures View() == Admit(old(View()), r, now, generation, id).0
      ensures admission == null ==> Admit(old(View()), r, now, generation, id).1 == Refused(status)
      ensures admission != null ==> fresh(admission) && admission.store == this
      ensures admission != null ==> Admit(old(View()), r, now, generation, id).1 == Admitted(admission.Value())
    {
      if r.principal.Err? { return r.principal.error, null; }
      if r.maxDebit <= 0 || r.maxDebit > U64_MAX || r.limit.None? { return 503, null; }
      PruneAll(now);
      if r.raw.None? { return 400, null; }
      status, admission := AdmitPruned(Key(r.principal.value, r.raw.value), r.maxDebit, r.limit.value, now, generation, id);
    }

    method AdmitPruned(key: Key, maxDebit: nat, limit: nat, now: int, generation: nat, id: nat)
      returns (status: int, admission: Admission?)
      requires id !in reservations
      modifies this
      ensures View() == AdmitKey(old(View()), key, maxDebit, limit, now, generation, id).0
      ensures admission == null ==> AdmitKey(old(View()), key, maxDebit, limit, now, generation, id).1 == Refused(status)
      ensures admission != null ==> fresh(admission) && admission.store == this
      ensures admission != null ==>
                AdmitKey(old(View()), key, maxDebit, limit, now, generation, id).1 == Admitted(admission.Value())
    {
      hide Total;
      var previous := if key in entries then Some(entries[key]) else None;
      status, admission := 409, null;
      if previous.Some? && (previous.value.state.Pending? || previous.value.state.Blocked?) { return; }
      if previous.None? && |entries| + |times| + |reservations| >= MAX_ENTRIES { return 503, null; }
      if previous.Some? && previous.value.maxDebit != maxDebit { return; }
      var reservation := if previous.Some? then previous.value.reservation else None;
      var created := false;
      if !(previous.Some? && previous.value.state.Complete?) {
        var recent := if key.principal in times then times[key.principal] else [];
        if |recent| >= MAX_REQUESTS { return 429, null; }
        var amount := AddUp(reservations, key.principal);
        var existing := reservation.Some? && reservation.value in reservations;
        if amount + (if existing then 0 else maxDebit) > limit { return 429, null; }
        times := times[key.principal := recent + [now]];
        if !existing {
          reservation, created := Some(id), true;
          reservations := reservations[id := Reservation(key.principal, maxDebit, now + SPEND_WINDOW)];
        } else {
          reservations := reservations[reservation.value := reservations[reservation.value].(expiresAt := now + SPEND_WINDOW)];
        }
      }
      var active := Entry(Pending, generation, if previous.Some? then previous.value.expiresAt else now + SPEND_WINDOW, maxDebit,
                          if previous.Some? then previous.value.fingerprint else None,
                          if previous.Some? then previous.value.recovery else None, reservation, None);
      entries := entries[key := active];
      admission := new Admission(this, key, active, previous, created, now);
    }
  }

  /** What an admission returns: operations on one key, for as long as this generation holds it. */
  class Admission {
    const store: Store
    const key: Key
    const previous: Option<Entry>
    const created: bool
    const admittedAt: int
    var active: Entry
    var settled: bool

    function Value(): Handle
      reads this
    {
      Handle(key, active, previous, created, admittedAt, settled)
    }

    constructor (store: Store, key: Key, active: Entry, previous: Option<Entry>, created: bool, now: int)
      ensures Value() == Handle(key, active, previous, created, now, false) && this.store == store
    {
      this.store, this.key, this.active, this.previous := store, key, active, previous;
      this.created, admittedAt, settled := created, now, false;
    }

    predicate IsCurrent()
      reads this, store
    {
      key in store.entries && store.entries[key].generation == active.generation
    }

    method RefreshReservation(at: int)
      modifies store
      ensures store.View() == Refresh(old(store.View()), Value(), at)
    {
      if previous.Some? && previous.value.state.Complete? { return; }
      if active.reservation.None? || active.reservation.value !in store.reservations { return; }
      var id := active.reservation.value;
      var until := (if at > admittedAt then at else admittedAt) + SPEND_WINDOW;
      store.reservations := store.reservations[id := store.reservations[id].(expiresAt := until)];
    }

    method BindIntent(fingerprint: Option<nat>) returns (ok: bool)
      modifies this, store
      ensures ok == MayBind(old(store.View()), old(Value()), fingerprint)
      ensures (store.View(), Value()) == Bind(old(store.View()), old(Value()), fingerprint)
    {
      if settled || !IsCurrent() || fingerprint.None? { return false; }
      if previous.Some? && active.fingerprint.None? { return false; }
      if active.fingerprint.Some? && active.fingerprint != fingerprint { return false; }
      active := active.(fingerprint := fingerprint);
      store.entries := store.entries[key := active];
      return true;
    }

    method Recheck(at: int) returns (ok: bool)
      modifies store
      ensures ok == Current(old(store.View()), Value())
      ensures store.View() == Checkpoint(old(store.View()), Value(), at)
    {
      if settled || !IsCurrent() { return false; }
      RefreshReservation(at);
      store.entries := store.entries[key := active];
      return true;
    }

    method PreserveRecovery(recovery: Recovery)
      modifies this, store
      ensures store.View() == Preserve(old(store.View()), old(Value()), recovery)
      ensures Value() == SettledBy(old(Value()), old(store.View()))
    {
      if settled || !IsCurrent() { return; }
      settled := true;
      store.entries := store.entries[key := active.(state := Recoverable, expiresAt := NEVER, recovery := Some(recovery))];
    }

    method BlockOutcome()
      modifies this, store
      ensures store.View() == Block(old(store.View()), old(Value()))
      ensures Value() == SettledBy(old(Value()), old(store.View()))
    {
      if settled || !IsCurrent() { return; }
      settled := true;
      store.entries := store.entries[key := active.(state := Blocked, expiresAt := NEVER, recovery := None)];
    }

    method DiscardRecovery()
      modifies this, store
      ensures store.View() == Discard(old(store.View()), old(Value()))
      ensures Value() == SettledBy(old(Value()), old(store.View()))
    {
      if settled || !IsCurrent() { return; }
      settled := true;
      store.entries := store.entries - {key};
      if active.reservation.Some? { store.reservations := store.reservations - {active.reservation.value}; }
    }

    method CompleteWith(body: nat, at: int)
      modifies this, store
      ensures store.View() == Finish(old(store.View()), old(Value()), body, at)
      ensures Value() == SettledBy(old(Value()), old(store.View()))
    {
      if settled || !IsCurrent() { return; }
      settled := true;
      RefreshReservation(at);
      store.entries :=
        store.entries[key := active.(state := Complete, expiresAt := NEVER, recovery := None, body := Some(body))];
    }

    method AbortCheckout()
      modifies this, store
      ensures store.View() == Abort(old(store.View()), old(Value()))
      ensures Value() == SettledBy(old(Value()), old(store.View()))
    {
      if settled || !IsCurrent() { return; }
      settled := true;
      if previous.Some? {
        if created && active.reservation.Some? { store.reservations := store.reservations - {active.reservation.value}; }
        store.entries := store.entries[key := previous.value];
        return;
      }
      store.entries := store.entries - {key};
      if created && active.reservation.Some? { store.reservations := store.reservations - {active.reservation.value}; }
    }
  }
}
