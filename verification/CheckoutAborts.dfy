/** Abort undoes its own admission, whatever other checkouts did in between. */
module CheckoutAborts {
  import opened Wrappers
  import opened Checkout
  import opened CheckoutRuns

  /** A reservation that what was there before the handle's admission refers to. */
  predicate RestoredRefers(h: Handle, id: nat) { h.previous.Some? && Refers(h.previous.value, id) }

  /** The reservation is in both policies or in neither, for the same principal and amount. */
  predicate SameReservation(p: Policy, q: Policy, id: nat) {
    && (id in p.reservations <==> id in q.reservations)
    && (id in q.reservations ==> SameDebit(p, q, id))
  }

  /** Up to its fingerprint, `h` is the handle admitted on the pruned policy `q`, and what it would restore is as it was in `q`. */
  ghost predicate Standing(q: Policy, p: Policy, h0: Handle, h: Handle) {
    && h.key == h0.key && h.previous == h0.previous && h.created == h0.created
    && h.active.reservation == h0.active.reservation && h.active.generation == h0.active.generation
    && h.previous == Found(q.entries, h.key)
    && (forall id :: RestoredRefers(h, id) ==> SameReservation(p, q, id) && (h.created ==> id !in q.reservations))
  }

  // ---------------------------------------------------------------- what other operations leave alone

  /** An operation on a handle changes no reservation but the handle's own, and none of them in amount. */
  lemma OperationIsLocal(s: System, e: Event)
    requires !e.op.Admission? && e.op.generation in s.handles
    ensures OnlyReservation(s.policy, Next(s, e).policy, s.handles[e.op.generation].active.reservation)
  {
  }

  /** An operation that leaves the handle current only moves windows and binds a fingerprint. */
  lemma OwnOperation(s: System, e: Event)
    requires !e.op.Admission? && e.op.generation in s.handles
    requires var g := e.op.generation; g in Next(s, e).handles && Current(Next(s, e).policy, Next(s, e).handles[g])
    requires Current(s.policy, s.handles[e.op.generation])
    ensures Next(s, e).policy.reservations.Keys == s.policy.reservations.Keys
    ensures var h, h' := s.handles[e.op.generation], Next(s, e).handles[e.op.generation];
            && h'.key == h.key && h'.previous == h.previous && h'.created == h.created
            && h'.active == h.active.(fingerprint := h'.active.fingerprint)
  {
    hide Retained;
  }

  lemma OtherHandlesStay(s: System, e: Event, g: nat)
    requires g in s.handles && (e.op.Admission? ==> e.op.generation != g) && (!e.op.Admission? ==> e.op.generation in s.handles)
    ensures g in Next(s, e).handles
    ensures e.op.generation != g ==> Next(s, e).handles[g] == s.handles[g]
    ensures s.handles[g].settled ==> Next(s, e).handles[g].settled
    ensures Next(s, e).handles[g].key == s.handles[g].key
    ensures Next(s, e).handles[g].active.generation == s.handles[g].active.generation
  {
    hide Admit, Prune;
  }

  /** The key's entry stays with the operating generation, goes back to what was there before it, or goes away. */
  lemma OperationOnKey(s: System, e: Event)
    requires !e.op.Admission? && e.op.generation in s.handles && Current(s.policy, s.handles[e.op.generation])
    ensures var h, p := s.handles[e.op.generation], Next(s, e).policy;
            && (forall k :: k != h.key ==> (k in p.entries <==> k in s.policy.entries))
            && (forall k :: k != h.key && k in s.policy.entries ==> p.entries[k] == s.policy.entries[k])
            && (h.key in p.entries ==> p.entries[h.key].generation == h.active.generation
                                       || (h.previous.Some? && p.entries[h.key] == h.previous.value))
  {
    hide Retained;
  }

  /** A handle does not become current again. */
  lemma WasCurrent(s: System, e: Event, g: nat, limit: nat)
    requires Inv(s, limit) && Enabled(s, e, limit) && g in s.handles
    requires g in Next(s, e).handles && Current(Next(s, e).policy, Next(s, e).handles[g])
    requires e.op.Admission? ==> e.op.generation != g
    ensures Current(s.policy, s.handles[g])
  {
    OtherHandlesStay(s, e, g);
    if e.op.Admission? {
      AdmittedWasCurrent(s, e, g, limit);
    } else if !Current(s.policy, s.handles[e.op.generation]) {
      StaleHandleDoesNothing(s, e);
    } else {
      OperationOnKey(s, e);
      CurrentHandle(s, e.op.generation, limit);
      hide Next, Total;
    }
  }

  /** An admission leaves everything, prunes, or prunes and enters one key under a new generation. */
  lemma AdmissionOnEntries(s: System, e: Event, limit: nat)
    requires Inv(s, limit) && Enabled(s, e, limit) && e.op.Admission?
    ensures var p, es := Next(s, e).policy, PrunedEntries(s.policy.entries, e.at);
            p == s.policy || forall k :: k in p.entries ==>
              p.entries[k].generation == e.op.generation || (k in es && p.entries[k] == s.policy.entries[k])
  {
    AdmissionEnters(s, e, limit);
    var pruned := s.(policy := Prune(s.policy, e.at), now := e.at);
    var (p, answer) := Admit(s.policy, e.op.request, e.at, e.op.generation, e.op.id);
    assert Next(s, e).policy == p;
    if answer.Admitted? {
      assert p.entries == pruned.policy.entries[answer.handle.key := answer.handle.active]
             && answer.handle.active.generation == e.op.generation by { EnteredEntries(pruned, Admitting(s, e), answer.handle, e.op.id, limit); }
    }
    hide Inv, Admit, Enters, Next, Enabled, PrunedReservations, PrunedTimes;
  }

  lemma EnteredEntries(s: System, s': System, h: Handle, id: nat, limit: nat)
    requires Enters(s, s', h, id, limit)
    ensures s'.policy.entries == s.policy.entries[h.key := h.active]
    ensures h.active.generation !in s.issued && s'.handles == s.handles[h.active.generation := h]
  {
  }

  lemma AdmittedWasCurrent(s: System, e: Event, g: nat, limit: nat)
    requires Inv(s, limit) && Enabled(s, e, limit) && g in s.handles && e.op.Admission? && e.op.generation != g
    requires g in Next(s, e).handles && Current(Next(s, e).policy, Next(s, e).handles[g])
    ensures Current(s.policy, s.handles[g]) && Next(s, e).handles[g] == s.handles[g]
    ensures Next(s, e).policy == s.policy || s.handles[g].key in PrunedEntries(s.policy.entries, e.at)
  {
    assert s.handles[g].active.generation == g;
    AdmissionOnEntries(s, e, limit);
    OtherHandlesStay(s, e, g);
    hide Inv, Admit, Next, Enabled, Forgotten;
  }

  /** What a handle would restore belongs to its key. */
  lemma RestoredIsOwned(s: System, g: nat, id: nat, limit: nat)
    requires Inv(s, limit) && g in s.handles && Current(s.policy, s.handles[g]) && RestoredRefers(s.handles[g], id)
    ensures Owns(s, s.handles[g].key, id) && id in s.issued
    ensures !s.handles[g].created ==> s.policy.entries[s.handles[g].key].reservation == Some(id)
    ensures s.policy.entries[s.handles[g].key].state.Pending?
  {
    CurrentHandle(s, g, limit);
    assert Owns(s, s.handles[g].key, id);
  }

  /** Pruning keeps a reservation of a pending key that survives it. */
  lemma PruningKeepsRestored(s: System, at: int, g: nat, id: nat, limit: nat)
    requires Inv(s, limit) && g in s.handles && Current(s.policy, s.handles[g]) && RestoredRefers(s.handles[g], id)
    requires s.handles[g].key in PrunedEntries(s.policy.entries, at) && !s.handles[g].created
    ensures id in Prune(s.policy, at).reservations <==> id in s.policy.reservations
    ensures id in s.policy.reservations ==> SameDebit(Prune(s.policy, at), s.policy, id)
  {
    RestoredIsOwned(s, g, id, limit);
    assert Retains(PrunedEntries(s.policy.entries, at)[s.handles[g].key], id);
  }

  /** An admission of another key. */
  lemma AdmissionElsewhere(s: System, e: Event, g: nat, id: nat, limit: nat)
    requires Inv(s, limit) && Enabled(s, e, limit) && g in s.handles && e.op.Admission? && e.op.generation != g
    requires g in Next(s, e).handles && Current(Next(s, e).policy, Next(s, e).handles[g])
    requires RestoredRefers(s.handles[g], id)
    ensures id in Next(s, e).policy.reservations ==> SameDebit(s.policy, Next(s, e).policy, id)
    ensures !s.handles[g].created && id in s.policy.reservations ==> id in Next(s, e).policy.reservations
  {
    AdmittedWasCurrent(s, e, g, limit);
    RestoredIsOwned(s, g, id, limit);
    if Next(s, e).policy != s.policy {
      if !s.handles[g].created { PruningKeepsRestored(s, e.at, g, id, limit); }
      AdmissionOnReservations(s, e, id, limit);
    }
  }

  lemma EnteredReservations(s: System, s': System, h: Handle, id: nat, x: nat, limit: nat)
    requires Enters(s, s', h, id, limit) && x != id
    ensures x in s'.policy.reservations <==> x in s.policy.reservations
    ensures x in s.policy.reservations ==> SameDebit(s.policy, s'.policy, x)
  {
    hide Total;
  }

  lemma PrunedReservation(p: Policy, at: int, id: nat)
    ensures id in Prune(p, at).reservations ==> id in p.reservations && Prune(p, at).reservations[id] == p.reservations[id]
  {
    hide Retained;
  }

  /** An admission adds only its own number, and changes no amount. */
  lemma AdmissionOnReservations(s: System, e: Event, id: nat, limit: nat)
    requires Inv(s, limit) && Enabled(s, e, limit) && e.op.Admission? && id in s.issued
    ensures var q, p := Prune(s.policy, e.at), Next(s, e).policy;
            p == s.policy || ((id in p.reservations <==> id in q.reservations) && (id in p.reservations ==> SameDebit(s.policy, p, id)))
  {
    AdmissionEnters(s, e, limit);
    PrunedReservation(s.policy, e.at, id);
    var pruned := s.(policy := Prune(s.policy, e.at), now := e.at);
    var (p, answer) := Admit(s.policy, e.op.request, e.at, e.op.generation, e.op.id);
    assert Next(s, e).policy == p;
    assert e.op.id != id;
    hide Inv, Admit, Prune, Enters, Enabled, Next;
    if answer.Admitted? { EnteredReservations(pruned, Admitting(s, e), answer.handle, e.op.id, id, limit); }
  }

  /** An operation on another handle. */
  lemma OperationElsewhere(s: System, e: Event, g: nat, id: nat, limit: nat)
    requires Inv(s, limit) && !e.op.Admission? && e.op.generation in s.handles && e.op.generation != g
    requires g in s.handles && Current(s.policy, s.handles[g]) && RestoredRefers(s.handles[g], id)
    ensures SameReservation(Next(s, e).policy, s.policy, id)
  {
    RestoredIsOwned(s, g, id, limit);
    var f := e.op.generation;
    if Current(s.policy, s.handles[f]) {
      OperationIsLocal(s, e);
      CurrentHandle(s, f, limit);
      CurrentHandle(s, g, limit);
      hide Next, EntryOk, HandleOk, BooksOk;
    } else {
      StaleHandleDoesNothing(s, e);
    }
  }

  lemma StandsOn(q: Policy, s: System, e: Event, h0: Handle, g: nat, limit: nat)
    requires Inv(s, limit) && Enabled(s, e, limit) && g in s.handles && (e.op.Admission? ==> e.op.generation != g)
    requires Current(s.policy, s.handles[g]) && Standing(q, s.policy, h0, s.handles[g])
    requires g in Next(s, e).handles && Current(Next(s, e).policy, Next(s, e).handles[g])
    ensures Standing(q, Next(s, e).policy, h0, Next(s, e).handles[g])
  {
    assert s.handles[g].active.generation == g;
    OtherHandlesStay(s, e, g);
    if e.op.Admission? { AdmittedWasCurrent(s, e, g, limit); }
    if !e.op.Admission? && e.op.generation == g { OwnOperation(s, e); OperationIsLocal(s, e); }
    var h, h' := s.handles[g], Next(s, e).handles[g];
    forall id | RestoredRefers(h', id)
      ensures SameReservation(Next(s, e).policy, q, id)
    {
      assert SameReservation(s.policy, q, id);
      if e.op.Admission? {
        AdmissionElsewhere(s, e, g, id, limit);
      } else if e.op.generation != g {
        OperationElsewhere(s, e, g, id, limit);
      }
      hide Next, Inv, Enabled, Current;
    }
    hide Next, Inv, Enabled;
  }

  // ---------------------------------------------------------------- the admission

  lemma AdmittedFreshly(q: Policy, key: Key, maxDebit: nat, limit: nat, now: int, g: nat, id: nat)
    ensures var (p, answer) := AdmitKey(q, key, maxDebit, limit, now, g, id);
            answer.Admitted? && answer.handle.created ==> !HasReservation(q, answer.handle.previous)
  {
    hide Total;
  }

  lemma EnteredStands(s: System, s': System, h: Handle, id: nat, limit: nat)
    requires Inv(s, limit) && Enters(s, s', h, id, limit) && (h.created ==> !HasReservation(s.policy, h.previous))
    ensures Standing(s.policy, s'.policy, h, h) && Current(s'.policy, h)
  {
    hide Total, BooksOk;
    forall x | RestoredRefers(h, x)
      ensures SameReservation(s'.policy, s.policy, x) && (h.created ==> x !in s.policy.reservations)
    {
      OwnedIsIssued(s, h.key, x);
    }
  }

  lemma StandsAtFirst(s: System, e: Event, limit: nat)
    requires Inv(s, limit) && Enabled(s, e, limit) && e.op.Admission? && e.op.generation in Next(s, e).handles
    ensures var h := Next(s, e).handles[e.op.generation];
            Standing(Prune(s.policy, e.at), Next(s, e).policy, h, h) && Current(Next(s, e).policy, h)
  {
    assert e.op.generation !in s.handles;
    AdmissionEnters(s, e, limit);
    var pruned := s.(policy := Prune(s.policy, e.at), now := e.at);
    var r := e.op.request;
    var (p, answer) := Admit(s.policy, r, e.at, e.op.generation, e.op.id);
    hide Inv, Enters, Prune, AdmitKey, Current, Standing, HasReservation;
    assert answer.Admitted?;
    AdmittedWith(s, e);
    EnteredStands(pruned, Admitting(s, e), answer.handle, e.op.id, limit);
    assert Next(s, e) == Admitting(s, e) && Admitting(s, e).handles[e.op.generation] == answer.handle;
  }

  lemma AdmittedWith(s: System, e: Event)
    requires e.op.Admission?
    ensures var q, (p, answer) := Prune(s.policy, e.at), Admit(s.policy, e.op.request, e.at, e.op.generation, e.op.id);
            answer.Admitted? && answer.handle.created ==> !HasReservation(q, answer.handle.previous)
  {
    var r := e.op.request;
    if r.principal.Ok? && 0 < r.maxDebit <= U64_MAX && r.limit.Some? && r.raw.Some? {
      AdmittedFreshly(Prune(s.policy, e.at), Key(r.principal.value, r.raw.value), r.maxDebit, r.limit.value, e.at, e.op.generation, e.op.id);
    }
    hide AdmitKey, Prune;
  }

  // ---------------------------------------------------------------- runs

  /** The system before event `i`. */
  ghost function Before(events: seq<Event>, i: nat): System
    requires i <= |events|
  {
    Run(events[..i])
  }

  lemma BeforeNext(events: seq<Event>, i: nat, limit: nat)
    requires IsRun(events, limit) && i < |events|
    ensures Before(events, i + 1) == Next(Before(events, i), events[i])
    ensures Inv(Before(events, i), limit) && Enabled(Before(events, i), events[i], limit)
  {
    assert events[..i + 1][..i] == events[..i];
    assert IsRun(events[..i], limit) by {
      assert forall k :: 0 <= k < i ==> events[..i][..k] == events[..k];
    }
    InvOverRuns(events[..i], limit);
  }

  /** Event `i` admits generation `g`. */
  ghost predicate Admits(events: seq<Event>, i: nat, g: nat)
    requires i < |events|
  {
    events[i].op.Admission? && events[i].op.generation == g && g in Before(events, i + 1).handles
  }

  /** From its admission on, for as long as it is current, a handle stands on what its admission found. */
  lemma {:induction false} StandsUntil(events: seq<Event>, i: nat, j: nat, g: nat, limit: nat)
    requires IsRun(events, limit) && i < j <= |events| && Admits(events, i, g)
    ensures g in Before(events, j).handles
    ensures Current(Before(events, j).policy, Before(events, j).handles[g]) ==>
              Standing(Prune(Before(events, i).policy, events[i].at), Before(events, j).policy,
                       Before(events, i + 1).handles[g], Before(events, j).handles[g])
    decreases j
  {
    hide Inv, Next, Enabled, Current, Standing, Prune, Before;
    BeforeNext(events, j - 1, limit);
    if j - 1 == i {
      StandsAtFirst(Before(events, i), events[i], limit);
    } else {
      StandsUntil(events, i, j - 1, g, limit);
      var s, e := Before(events, j - 1), events[j - 1];
      assert e.op.Admission? ==> e.op.generation != g by { AdmittedOnce(s, e, g, limit); }
      OtherHandlesStay(s, e, g) by { assert EnabledShape(s, e); }
      if Current(Next(s, e).policy, Next(s, e).handles[g]) {
        WasCurrent(s, e, g, limit);
        StandsOn(Prune(Before(events, i).policy, events[i].at), s, e, Before(events, i + 1).handles[g], g, limit);
      }
    }
  }

  predicate EnabledShape(s: System, e: Event) { !e.op.Admission? ==> e.op.generation in s.handles }

  lemma AdmittedOnce(s: System, e: Event, g: nat, limit: nat)
    requires Inv(s, limit) && Enabled(s, e, limit) && g in s.handles
    ensures e.op.Admission? ==> e.op.generation != g
    ensures EnabledShape(s, e)
  {
  }

  /**
   Abort undoes admission. However many operations on this and other keys lie between, the key's entry is again
   what the admission found after pruning; the reservation it refers to is there exactly if it was there then, with
   its amount; and a reservation the admission made is gone.
   */
  lemma AbortRestores(events: seq<Event>, i: nat, j: nat, g: nat, limit: nat)
    requires IsRun(events, limit) && i < j < |events| && Admits(events, i, g)
    requires events[j].op == AbortKey(g)
    requires g in Before(events, j).handles && Current(Before(events, j).policy, Before(events, j).handles[g])
    ensures var q := Prune(Before(events, i).policy, events[i].at);
            var h, p := Before(events, i + 1).handles[g], Before(events, j + 1).policy;
            && Found(p.entries, h.key) == Found(q.entries, h.key)
            && (forall id :: h.key in q.entries && Refers(q.entries[h.key], id) ==> SameReservation(p, q, id))
            && (h.created ==> h.active.reservation.Some? && h.active.reservation.value !in p.reservations)
  {
    StandsUntil(events, i, j, g, limit);
    BeforeNext(events, j, limit);
    Undone(Prune(Before(events, i).policy, events[i].at), Before(events, j), events[j], Before(events, i + 1).handles[g], g, limit);
  }

  lemma Undone(q: Policy, s: System, e: Event, h0: Handle, g: nat, limit: nat)
    requires Inv(s, limit) && g in s.handles && Current(s.policy, s.handles[g]) && Standing(q, s.policy, h0, s.handles[g])
    requires e.op == AbortKey(g)
    ensures var p := Next(s, e).policy;
            && Found(p.entries, h0.key) == Found(q.entries, h0.key)
            && (forall id :: h0.key in q.entries && Refers(q.entries[h0.key], id) ==> SameReservation(p, q, id))
            && (h0.created ==> h0.active.reservation.Some? && h0.active.reservation.value !in p.reservations)
  {
    CurrentHandle(s, g, limit);
    var p := Next(s, e).policy;
    hide Inv, Total;
    forall id | h0.key in q.entries && Refers(q.entries[h0.key], id)
      ensures SameReservation(p, q, id)
    {
      assert RestoredRefers(s.handles[g], id);
    }
  }
}
