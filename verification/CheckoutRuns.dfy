/** Interleaved checkouts: reservations are owned, and the rolling spend bound holds over every run. */
module CheckoutRuns {
  import opened Wrappers
  import opened Checkout

  /** A non-replay checkpoint that passed: from here the key's full debit may be spent. */
  datatype Spend = Spend(at: int, generation: nat, id: nat, released: bool)

  /**
   The policy together with what a bookkeeper would remember: every handle by its generation, every number
   `randomUUID` has produced, every reservation ever made, and every spend.
   */
  datatype System = System(
    policy: Policy, handles: map<nat, Handle>, issued: set<nat>, now: int,
    book: map<nat, Reservation>, spends: seq<Spend>)

  datatype Op =
    | Admission(request: Request, generation: nat, id: nat)
    | BindIntent(generation: nat, fingerprint: Option<nat>)
    | CheckpointAt(generation: nat)
    | PreserveWith(generation: nat, recovery: Recovery)
    | BlockKey(generation: nat)
    | DiscardRecovery(generation: nat)
    | CompleteWith(generation: nat, body: nat)
    | AbortKey(generation: nat)

  datatype Event = Event(at: int, op: Op)

  const EMPTY := System(Policy(map[], map[], map[]), map[], {}, 0, map[], [])

  /** The clock does not go back, fresh numbers are fresh, the limit is fixed, and operations are on issued handles. */
  predicate Enabled(s: System, e: Event, limit: nat) {
    && e.at >= s.now
    && (if e.op.Admission? then
          && e.op.generation !in s.issued && e.op.id !in s.issued && e.op.generation != e.op.id
          && (e.op.request.limit.Some? ==> e.op.request.limit.value == limit)
        else e.op.generation in s.handles)
  }

  /** Spends are released when their reservation is given back, or when their own handle aborts. */
  function Release(spends: seq<Spend>, id: Option<nat>, generation: Option<nat>): seq<Spend> {
    seq(|spends|, i requires 0 <= i < |spends| =>
      spends[i].(released := spends[i].released || Some(spends[i].id) == id || Some(spends[i].generation) == generation))
  }

  ghost function Admitting(s: System, e: Event): System
    requires e.op.Admission?
  {
    var (p, answer) := Admit(s.policy, e.op.request, e.at, e.op.generation, e.op.id);
    var t := s.(policy := p, issued := s.issued + {e.op.generation, e.op.id}, now := e.at);
    match answer
    case Refused(_) => t
    case Admitted(h) =>
      t.(handles := s.handles[e.op.generation := h],
         book := if h.created && h.active.reservation.Some? then s.book[h.active.reservation.value :=
                   Reservation(h.key.principal, h.active.maxDebit, 0)] else s.book)
  }

  function Spending(s: System, h: Handle, at: int): seq<Spend> {
    if Current(s.policy, h) && !Replays(h) && h.active.reservation.Some?
    then s.spends + [Spend(at, h.active.generation, h.active.reservation.value, false)]
    else s.spends
  }

  /** A settling operation of handle `g`. */
  function Settling(s: System, g: nat, at: int, p: Policy, spends: seq<Spend>): System
    requires g in s.handles
  {
    s.(policy := p, now := at, spends := spends, handles := s.handles[g := SettledBy(s.handles[g], s.policy)])
  }

  function Binding(s: System, g: nat, at: int, fingerprint: Option<nat>): System
    requires g in s.handles
  {
    var (q, k) := Bind(s.policy, s.handles[g], fingerprint);
    s.(now := at, policy := q, handles := s.handles[g := k])
  }

  ghost function Next(s: System, e: Event): System {
    if e.op.Admission? then Admitting(s, e)
    else if e.op.generation !in s.handles then s
    else
      var h := s.handles[e.op.generation];
      var p := s.policy;
      match e.op
      case BindIntent(g, fp) => Binding(s, g, e.at, fp)
      case CheckpointAt(g) => s.(now := e.at, policy := Checkpoint(p, h, e.at), spends := Spending(s, h, e.at))
      case PreserveWith(g, r) => Settling(s, g, e.at, Preserve(p, h, r), s.spends)
      case BlockKey(g) => Settling(s, g, e.at, Block(p, h), s.spends)
      case DiscardRecovery(g) =>
        Settling(s, g, e.at, Discard(p, h), if Current(p, h) then Release(s.spends, h.active.reservation, None) else s.spends)
      case CompleteWith(g, body) => Settling(s, g, e.at, Finish(p, h, body, e.at), s.spends)
      case AbortKey(g) =>
        Settling(s, g, e.at, Abort(p, h), if Current(p, h) then
          Release(s.spends, if h.created then h.active.reservation else None, Some(g)) else s.spends)
      case _ => s
  }

  // ---------------------------------------------------------------- the invariant

  /** The entry's reservation, if it still exists, is for the key's principal and its full debit. */
  predicate Backed(p: Policy, k: Key, e: Entry) {
    e.reservation.Some? && e.reservation.value in p.reservations ==>
      && p.reservations[e.reservation.value].principal == k.principal
      && p.reservations[e.reservation.value].amount == e.maxDebit
  }

  /** The numbers an entry or a handle refers to. */
  predicate Refers(e: Entry, id: nat) { e.reservation == Some(id) }

  /** Key `k` owns reservation `id`: through its entry, or through what an abort would restore. */
  predicate Owns(s: System, k: Key, id: nat) {
    && k in s.policy.entries
    && (Refers(s.policy.entries[k], id)
        || (s.policy.entries[k].state.Pending? && s.policy.entries[k].generation in s.handles
            && s.handles[s.policy.entries[k].generation].previous.Some?
            && Refers(s.handles[s.policy.entries[k].generation].previous.value, id)))
  }

  /** What is known of one entry of key `k`, in the map or waiting to be restored. */
  predicate ValueOk(s: System, k: Key, e: Entry) {
    && e.generation in s.handles
    && var h := s.handles[e.generation];
    && h.key == k && e.reservation == h.active.reservation && e.maxDebit == h.active.maxDebit
    && Backed(s.policy, k, e)
    && (h.settled <==> !e.state.Pending?)
    && ((e.state.Pending? || e.state.Blocked?) && !Replays(h) ==>
          e.reservation.Some? && e.reservation.value in s.policy.reservations)
  }

  /** What an abort of a pending entry's handle would restore. */
  predicate HandleOk(s: System, k: Key, h: Handle) {
    && (h.previous.None? ==> h.created)
    && (h.created ==> h.active.reservation.Some? && !Replays(h))
    && (h.previous.Some? ==>
          && (h.previous.value.state.Recoverable? || h.previous.value.state.Complete?)
          && (!h.created ==> h.previous.value.reservation == h.active.reservation)
          && ValueOk(s, k, h.previous.value))
  }

  predicate EntryOk(s: System, k: Key)
    requires k in s.policy.entries
  {
    var e := s.policy.entries[k];
    && ValueOk(s, k, e)
    && (e.state.Pending? ==> s.handles[e.generation].active == e && HandleOk(s, k, s.handles[e.generation]))
  }

  predicate SpendOk(s: System, x: Spend) {
    && x.id in s.book && x.at <= s.now
    && (!x.released && s.now < x.at + SPEND_WINDOW ==>
          x.id in s.policy.reservations && s.policy.reservations[x.id].expiresAt >= x.at + SPEND_WINDOW)
  }

  predicate Booked(s: System, id: nat)
    requires id in s.policy.reservations
  {
    && id in s.book && s.book[id].principal == s.policy.reservations[id].principal
    && s.book[id].amount == s.policy.reservations[id].amount
  }

  ghost predicate KeysOk(s: System) {
    && (forall k :: k in s.policy.entries ==> EntryOk(s, k))
    && (forall k, l, id :: Owns(s, k, id) && Owns(s, l, id) ==> k == l)
    && (forall k, id :: Owns(s, k, id) ==> id in s.issued)
  }

  ghost predicate BooksOk(s: System, limit: nat) {
    && (forall g :: g in s.handles ==> g in s.issued && s.handles[g].active.generation == g)
    && (forall id :: id in s.policy.reservations ==> Booked(s, id))
    && (forall id :: id in s.book ==> id in s.issued)
    && (forall i :: 0 <= i < |s.spends| ==> SpendOk(s, s.spends[i]))
    && (forall principal :: Total(s.policy.reservations, principal) <= limit)
  }

  ghost predicate Inv(s: System, limit: nat) {
    KeysOk(s) && BooksOk(s, limit)
  }

  // ---------------------------------------------------------------- totals

  /** Fewer reservations of the same amounts add up to no more. */
  lemma {:induction false} TotalOfFewer(rs: map<nat, Reservation>, qs: map<nat, Reservation>, principal: nat)
    requires forall id :: id in qs ==> id in rs && AmountOf(qs[id], principal) <= AmountOf(rs[id], principal)
    ensures Total(qs, principal) <= Total(rs, principal)
    decreases |rs|
  {
    if rs == map[] {
      assert qs == map[];
    } else {
      var id :| id in rs;
      TotalWithout(rs, principal, id);
      TotalOfFewer(rs - {id}, qs - {id}, principal);
      if id in qs { TotalWithout(qs, principal, id); } else { assert qs - {id} == qs; }
    }
  }

  lemma TotalWith(rs: map<nat, Reservation>, principal: nat, id: nat, r: Reservation)
    requires id !in rs
    ensures Total(rs[id := r], principal) == Total(rs, principal) + AmountOf(r, principal)
  {
    TotalWithout(rs[id := r], principal, id);
    assert rs[id := r] - {id} == rs;
  }

  // ---------------------------------------------------------------- steps on one key

  predicate SameDebit(p: Policy, q: Policy, id: nat)
    requires id in q.reservations
  {
    && id in p.reservations && q.reservations[id].principal == p.reservations[id].principal
    && q.reservations[id].amount == p.reservations[id].amount
  }

  predicate Untouched(p: Policy, q: Policy, id: nat)
    requires id in p.reservations
  {
    id in q.reservations && q.reservations[id] == p.reservations[id]
  }

  /** The step touches one key, its reservations and the handle of its generation, and gives no key anything new. */
  ghost predicate TouchesKey(s: System, s': System, k: Key, g: nat) {
    && k in s.policy.entries && s.policy.entries[k].generation == g && g in s.handles && g in s'.handles
    && s'.now >= s.now
    && (forall l :: l != k ==> (l in s'.policy.entries <==> l in s.policy.entries))
    && (forall l :: l != k && l in s.policy.entries ==> s'.policy.entries[l] == s.policy.entries[l])
    && s'.handles.Keys == s.handles.Keys && (forall f :: f in s.handles && f != g ==> s'.handles[f] == s.handles[f])
    && s'.handles[g].active.generation == g
    && s'.issued == s.issued && s'.book == s.book
    && (forall id :: id in s'.policy.reservations ==> SameDebit(s.policy, s'.policy, id))
    && (forall id :: id in s.policy.reservations && !Owns(s, k, id) ==> Untouched(s.policy, s'.policy, id))
    && (forall id :: Owns(s', k, id) ==> Owns(s, k, id))
    && (k in s'.policy.entries ==> EntryOk(s', k))
  }

  /** Another key is exactly as it was. */
  lemma OtherKeyKept(s: System, s': System, k: Key, g: nat, l: Key)
    requires KeysOk(s) && TouchesKey(s, s', k, g) && l != k && l in s.policy.entries
    ensures EntryOk(s', l)
    ensures forall id :: Owns(s', l, id) <==> Owns(s, l, id)
  {
    assert EntryOk(s, l) && EntryOk(s, k);
    var e := s.policy.entries[l];
    assert e.generation != g;
    if e.reservation.Some? { assert Owns(s, l, e.reservation.value); }
    var h := s.handles[e.generation];
    if e.state.Pending? && h.previous.Some? {
      assert h.previous.value.generation != g;
      if h.previous.value.reservation.Some? { assert Owns(s, l, h.previous.value.reservation.value); }
    }
  }

  lemma KeyStepKeepsKeys(s: System, s': System, k: Key, g: nat)
    requires KeysOk(s) && TouchesKey(s, s', k, g)
    ensures KeysOk(s')
  {
    hide EntryOk;
    forall l | l in s'.policy.entries
      ensures EntryOk(s', l)
    {
      if l != k { OtherKeyKept(s, s', k, g, l); }
    }
    forall l, id | Owns(s', l, id)
      ensures Owns(s, l, id)
    {
      if l != k { OtherKeyKept(s, s', k, g, l); }
    }
  }

  lemma KeyStepKeepsBooks(s: System, s': System, k: Key, g: nat, limit: nat)
    requires BooksOk(s, limit) && TouchesKey(s, s', k, g)
    requires forall i :: 0 <= i < |s'.spends| ==> SpendOk(s', s'.spends[i])
    ensures BooksOk(s', limit)
  {
    hide EntryOk, Owns, SpendOk;
    forall principal
      ensures Total(s'.policy.reservations, principal) <= limit
    {
      TotalOfFewer(s.policy.reservations, s'.policy.reservations, principal);
    }
  }

  lemma TimePasses(s: System, at: int, limit: nat)
    requires Inv(s, limit) && at >= s.now
    ensures Inv(s.(now := at), limit)
  {
    var s' := s.(now := at);
    assert forall k :: k in s'.policy.entries ==> EntryOk(s, k);
    assert forall k, id :: Owns(s', k, id) <==> Owns(s, k, id);
    assert forall i :: 0 <= i < |s.spends| ==> SpendOk(s, s.spends[i]);
    hide Owns, Total;
  }

  /** What an operation on a current handle may rely on. */
  lemma CurrentHandle(s: System, g: nat, limit: nat)
    requires Inv(s, limit)
    requires g in s.handles && Current(s.policy, s.handles[g])
    ensures var h := s.handles[g];
            && EntryOk(s, h.key) && s.policy.entries[h.key].generation == g
            && s.policy.entries[h.key] == h.active && h.active.state.Pending? && HandleOk(s, h.key, h)
            && (h.active.reservation.Some? ==> Owns(s, h.key, h.active.reservation.value))
  {
    assert EntryOk(s, s.handles[g].key);
  }

  /** Only the reservation `id` changes: it goes away, or its expiry moves. */
  predicate OnlyReservation(p: Policy, q: Policy, id: Option<nat>) {
    && (forall x :: x in q.reservations ==> SameDebit(p, q, x))
    && (forall x :: x in p.reservations && Some(x) != id ==> Untouched(p, q, x))
  }

  /** The reservations of a pending key are its handle's, and what the handle would restore. */
  lemma OwnedByHandle(s: System, g: nat, limit: nat)
    requires Inv(s, limit) && g in s.handles && Current(s.policy, s.handles[g])
    ensures var h := s.handles[g];
            forall id :: Owns(s, h.key, id) <==>
              (Refers(h.active, id) || (h.previous.Some? && Refers(h.previous.value, id)))
  {
    CurrentHandle(s, g, limit);
  }

  /** A settling operation replaces the key's entry by a settled one, or removes it. */
  lemma SettleTouches(s: System, s': System, g: nat, limit: nat)
    requires Inv(s, limit) && g in s.handles && Current(s.policy, s.handles[g])
    requires s' == Settling(s, g, s'.now, s'.policy, s'.spends) && s'.now >= s.now
    requires OnlyReservation(s.policy, s'.policy, s.handles[g].active.reservation)
    requires forall l :: l != s.handles[g].key ==> (l in s'.policy.entries <==> l in s.policy.entries)
    requires forall l :: l != s.handles[g].key && l in s.policy.entries ==> s'.policy.entries[l] == s.policy.entries[l]
    requires s.handles[g].key in s'.policy.entries ==>
               var e := s'.policy.entries[s.handles[g].key];
               && !e.state.Pending? && ValueOk(s', s.handles[g].key, e)
               && (e.reservation == s.handles[g].active.reservation
                   || (s.handles[g].previous.Some? && e.reservation == s.handles[g].previous.value.reservation))
    ensures TouchesKey(s, s', s.handles[g].key, g)
  {
    hide Total, Booked, SpendOk, ValueOk, HandleOk;
    CurrentHandle(s, g, limit);
    OwnedByHandle(s, g, limit);
  }

  /** The spends that are still counted against a surviving reservation. */
  lemma SettleKeeps(s: System, s': System, g: nat, limit: nat)
    requires Inv(s, limit) && g in s.handles && TouchesKey(s, s', s.handles[g].key, g)
    requires forall i :: 0 <= i < |s'.spends| ==> SpendOk(s', s'.spends[i])
    ensures Inv(s', limit)
  {
    hide TouchesKey, KeysOk, BooksOk, SpendOk;
    KeyStepKeepsKeys(s, s', s.handles[g].key, g);
    KeyStepKeepsBooks(s, s', s.handles[g].key, g, limit);
  }

  /** Operations on a handle that is settled or superseded change nothing but the clock. */
  lemma StaleHandleDoesNothing(s: System, e: Event)
    requires !e.op.Admission? && e.op.generation in s.handles && !Current(s.policy, s.handles[e.op.generation])
    ensures Next(s, e) == s.(now := e.at)
  {
    var g := e.op.generation;
    assert s.handles[g := s.handles[g]] == s.handles;
  }

  lemma PreserveKeeps(s: System, g: nat, r: Recovery, at: int, limit: nat)
    requires Inv(s, limit) && g in s.handles && at >= s.now && Current(s.policy, s.handles[g])
    ensures Inv(Next(s, Event(at, PreserveWith(g, r))), limit)
  {
    var s' := Next(s, Event(at, PreserveWith(g, r)));
    CurrentHandle(s, g, limit);
    SettleTouches(s, s', g, limit);
    assert forall i :: 0 <= i < |s.spends| ==> SpendOk(s, s.spends[i]);
    hide TouchesKey, Inv, Next;
    SettleKeeps(s, s', g, limit);
  }

  lemma BlockKeeps(s: System, g: nat, at: int, limit: nat)
    requires Inv(s, limit) && g in s.handles && at >= s.now && Current(s.policy, s.handles[g])
    ensures Inv(Next(s, Event(at, BlockKey(g))), limit)
  {
    var s' := Next(s, Event(at, BlockKey(g)));
    CurrentHandle(s, g, limit);
    SettleTouches(s, s', g, limit);
    assert forall i :: 0 <= i < |s.spends| ==> SpendOk(s, s.spends[i]);
    hide TouchesKey, Inv, Next;
    SettleKeeps(s, s', g, limit);
  }

  /** Restarting a reservation's window never shortens what a spend relies on. */
  lemma RefreshKeepsSpends(s: System, s': System, h: Handle, at: int)
    requires at >= s.now && s'.now == at && s'.book == s.book
    requires s'.policy.reservations == Refresh(s.policy, h, at).reservations
    requires forall i :: 0 <= i < |s.spends| ==> SpendOk(s, s.spends[i])
    ensures forall i :: 0 <= i < |s.spends| ==> SpendOk(s', s.spends[i])
  {
  }

  lemma RefreshOnly(s: System, h: Handle, at: int)
    ensures OnlyReservation(s.policy, Refresh(s.policy, h, at), h.active.reservation)
    ensures Refresh(s.policy, h, at).entries == s.policy.entries
    ensures forall id :: id in Refresh(s.policy, h, at).reservations <==> id in s.policy.reservations
  {
  }

  lemma CompleteKeeps(s: System, g: nat, body: nat, at: int, limit: nat)
    requires Inv(s, limit) && g in s.handles && at >= s.now && Current(s.policy, s.handles[g])
    ensures Inv(Next(s, Event(at, CompleteWith(g, body))), limit)
  {
    var h := s.handles[g];
    var s' := Next(s, Event(at, CompleteWith(g, body)));
    CurrentHandle(s, g, limit);
    RefreshOnly(s, h, at);
    RefreshKeepsSpends(s, s', h, at);
    assert s'.policy.reservations == Refresh(s.policy, h, at).reservations;
    assert s'.policy.entries == s.policy.entries[h.key :=
      h.active.(state := Complete, expiresAt := NEVER, recovery := None, body := Some(body))];
    hide Refresh, Next, SpendOk;
    assert s' == Settling(s, g, at, s'.policy, s.spends) by { NextCompletes(s, g, body, at); }
    SettleTouches(s, s', g, limit);
    hide TouchesKey, Inv;
    SettleKeeps(s, s', g, limit);
  }

  lemma NextCompletes(s: System, g: nat, body: nat, at: int)
    requires g in s.handles
    ensures var s' := Next(s, Event(at, CompleteWith(g, body)));
            s' == Settling(s, g, at, s'.policy, s.spends)
  {
  }

  /** Spends that survive a release did not use the released reservation or handle. */
  lemma ReleaseKeepsSpends(s: System, s': System, id: Option<nat>, generation: Option<nat>)
    requires s'.now >= s.now && s'.book == s.book && s'.spends == Release(s.spends, id, generation)
    requires forall x :: x in s.policy.reservations && Some(x) != id ==> Untouched(s.policy, s'.policy, x)
    requires forall i :: 0 <= i < |s.spends| ==> SpendOk(s, s.spends[i])
    ensures forall i :: 0 <= i < |s'.spends| ==> SpendOk(s', s'.spends[i])
  {
    forall i | 0 <= i < |s'.spends|
      ensures SpendOk(s', s'.spends[i])
    {
      assert SpendOk(s, s.spends[i]);
    }
  }

  lemma DiscardKeeps(s: System, g: nat, at: int, limit: nat)
    requires Inv(s, limit) && g in s.handles && at >= s.now && Current(s.policy, s.handles[g])
    ensures Inv(Next(s, Event(at, DiscardRecovery(g))), limit)
  {
    var s' := Next(s, Event(at, DiscardRecovery(g)));
    CurrentHandle(s, g, limit);
    SettleTouches(s, s', g, limit);
    ReleaseKeepsSpends(s, s', s.handles[g].active.reservation, None);
    hide TouchesKey, Inv, Next;
    SettleKeeps(s, s', g, limit);
  }

  lemma AbortKeeps(s: System, g: nat, at: int, limit: nat)
    requires Inv(s, limit) && g in s.handles && at >= s.now && Current(s.policy, s.handles[g])
    ensures Inv(Next(s, Event(at, AbortKey(g))), limit)
  {
    var h := s.handles[g];
    var s' := Next(s, Event(at, AbortKey(g)));
    CurrentHandle(s, g, limit);
    if h.previous.Some? { RestoredIsOk(s, s', g, limit); }
    SettleTouches(s, s', g, limit);
    ReleaseKeepsSpends(s, s', if h.created then h.active.reservation else None, Some(g));
    hide TouchesKey, Inv, Next;
    SettleKeeps(s, s', g, limit);
  }

  /** The entry an abort puts back is as sound as it was before the admission. */
  lemma RestoredIsOk(s: System, s': System, g: nat, limit: nat)
    requires Inv(s, limit) && g in s.handles && Current(s.policy, s.handles[g])
    requires s.handles[g].previous.Some?
    requires s'.handles == s.handles[g := SettledBy(s.handles[g], s.policy)]
    requires s'.policy == Abort(s.policy, s.handles[g])
    ensures ValueOk(s', s.handles[g].key, s.handles[g].previous.value)
  {
    CurrentHandle(s, g, limit);
    hide Total, SpendOk, Booked;
  }

  /** The key keeps its handle's entry: a new fingerprint, or a restarted window. */
  lemma HoldTouches(s: System, s': System, g: nat, active: Entry, limit: nat)
    requires Inv(s, limit) && g in s.handles && Current(s.policy, s.handles[g]) && s'.now >= s.now
    requires active == s.handles[g].active.(fingerprint := active.fingerprint)
    requires s'.policy.entries == s.policy.entries[s.handles[g].key := active]
    requires s'.handles == s.handles[g := s.handles[g].(active := active)]
    requires s'.issued == s.issued && s'.book == s.book
    requires OnlyReservation(s.policy, s'.policy, active.reservation)
    requires forall id :: id in s.policy.reservations ==> id in s'.policy.reservations
    ensures TouchesKey(s, s', s.handles[g].key, g)
  {
    hide Total, Booked, SpendOk;
    CurrentHandle(s, g, limit);
    OwnedByHandle(s, g, limit);
    var h := s.handles[g];
    HandleStillOk(s, s', g, limit);
    assert forall id :: Owns(s', h.key, id) ==> Owns(s, h.key, id);
  }

  lemma HandleStillOk(s: System, s': System, g: nat, limit: nat)
    requires Inv(s, limit) && g in s.handles && Current(s.policy, s.handles[g])
    requires g in s'.handles && s'.handles[g] == s.handles[g].(active := s'.handles[g].active)
    requires s'.handles[g].active == s.handles[g].active.(fingerprint := s'.handles[g].active.fingerprint)
    requires s'.handles == s.handles[g := s'.handles[g]]
    requires s'.policy.entries == s.policy.entries[s.handles[g].key := s'.handles[g].active]
    requires OnlyReservation(s.policy, s'.policy, s.handles[g].active.reservation)
    requires forall id :: id in s.policy.reservations ==> id in s'.policy.reservations
    ensures EntryOk(s', s.handles[g].key)
  {
    hide Total, Booked, SpendOk, Owns;
    CurrentHandle(s, g, limit);
  }

  lemma BindKeeps(s: System, g: nat, fingerprint: Option<nat>, at: int, limit: nat)
    requires Inv(s, limit) && g in s.handles && at >= s.now && MayBind(s.policy, s.handles[g], fingerprint)
    ensures Inv(Next(s, Event(at, BindIntent(g, fingerprint))), limit)
  {
    var s' := Next(s, Event(at, BindIntent(g, fingerprint)));
    var h := s.handles[g];
    HoldTouches(s, s', g, h.active.(fingerprint := fingerprint), limit);
    assert forall i :: 0 <= i < |s.spends| ==> SpendOk(s, s.spends[i]);
    hide TouchesKey, Inv, Next;
    SettleKeeps(s, s', g, limit);
  }

  lemma CheckpointTouches(s: System, g: nat, at: int, limit: nat)
    requires Inv(s, limit) && g in s.handles && at >= s.now && Current(s.policy, s.handles[g])
    ensures TouchesKey(s, Next(s, Event(at, CheckpointAt(g))), s.handles[g].key, g)
  {
    var h := s.handles[g];
    var s' := Next(s, Event(at, CheckpointAt(g)));
    RefreshOnly(s, h, at);
    assert s.handles[g := h.(active := h.active)] == s.handles;
    assert s'.policy.reservations == Refresh(s.policy, h, at).reservations;
    assert s'.policy.entries == s.policy.entries[h.key := h.active];
    assert s'.handles == s.handles && s'.issued == s.issued && s'.book == s.book && s'.now == at;
    hide Refresh, Next;
    HoldTouches(s, s', g, h.active, limit);
  }

  lemma CheckpointKeeps(s: System, g: nat, at: int, limit: nat)
    requires Inv(s, limit) && g in s.handles && at >= s.now && Current(s.policy, s.handles[g])
    ensures Inv(Next(s, Event(at, CheckpointAt(g))), limit)
  {
    var h := s.handles[g];
    var s' := Next(s, Event(at, CheckpointAt(g)));
    CheckpointTouches(s, g, at, limit);
    RefreshKeepsSpends(s, s', h, at);
    if !Replays(h) { NewSpendOk(s, g, at, limit); }
    hide TouchesKey, Inv;
    SettleKeeps(s, s', g, limit);
  }

  /** A new spend's reservation is live for the whole window from now. */
  lemma NewSpendOk(s: System, g: nat, at: int, limit: nat)
    requires Inv(s, limit) && g in s.handles && at >= s.now && Current(s.policy, s.handles[g])
    requires !Replays(s.handles[g])
    ensures s.handles[g].active.reservation.Some?
    ensures SpendOk(Next(s, Event(at, CheckpointAt(g))), Spend(at, g, s.handles[g].active.reservation.value, false))
  {
    CurrentHandle(s, g, limit);
    assert Booked(s, s.handles[g].active.reservation.value);
    hide Total;
  }

  // ---------------------------------------------------------------- pruning and admission

  /** A key that survives pruning keeps what it needs. */
  lemma PrunedKeyOk(s: System, now: int, k: Key)
    requires KeysOk(s) && k in PrunedEntries(s.policy.entries, now)
    ensures EntryOk(s.(policy := Prune(s.policy, now), now := now), k)
    ensures forall id :: Owns(s.(policy := Prune(s.policy, now), now := now), k, id) ==> Owns(s, k, id)
  {
    assert EntryOk(s, k);
    var e := s.policy.entries[k];
    if (e.state.Pending? || e.state.Blocked?) && e.reservation.Some? {
      assert Retains(PrunedEntries(s.policy.entries, now)[k], e.reservation.value);
    }
  }

  lemma PruneKeeps(s: System, now: int, limit: nat)
    requires Inv(s, limit) && now >= s.now
    ensures Inv(s.(policy := Prune(s.policy, now), now := now), limit)
  {
    var s' := s.(policy := Prune(s.policy, now), now := now);
    forall k | k in s'.policy.entries
      ensures EntryOk(s', k) && forall id :: Owns(s', k, id) ==> Owns(s, k, id)
    {
      PrunedKeyOk(s, now, k);
    }
    hide EntryOk, Owns;
    assert forall id :: id in s'.policy.reservations ==> Booked(s, id);
    assert forall i :: 0 <= i < |s.spends| ==> SpendOk(s, s.spends[i]);
    forall principal
      ensures Total(s'.policy.reservations, principal) <= limit
    {
      TotalOfFewer(s.policy.reservations, s'.policy.reservations, principal);
    }
  }

  /** What an admitted key brings into a system, after pruning. */
  ghost predicate Enters(s: System, s': System, h: Handle, id: nat, limit: nat) {
    var k, g := h.key, h.active.generation;
    && g !in s.issued && id !in s.issued && g != id && s'.now == s.now
    && h.previous == Found(s.policy.entries, k) && !h.settled && h.active.state.Pending? && h.admittedAt == s.now
    && h.active.expiresAt == (if h.previous.Some? then h.previous.value.expiresAt else s.now + SPEND_WINDOW)
    && (h.previous.Some? ==> (h.previous.value.state.Recoverable? || h.previous.value.state.Complete?)
                             && h.previous.value.maxDebit == h.active.maxDebit)
    && s'.policy.entries == s.policy.entries[k := h.active]
    && s'.handles == s.handles[g := h] && s'.issued == s.issued + {g, id} && s'.spends == s.spends
    && (h.created ==> h.active.reservation == Some(id) && !Replays(h) && NewReservation(s, s', h, id, limit))
    && (!h.created ==> h.previous.Some? && h.active.reservation == h.previous.value.reservation
                       && s'.book == s.book && RestartedReservation(s, s', h))
  }

  ghost predicate NewReservation(s: System, s': System, h: Handle, id: nat, limit: nat) {
    && s'.policy.reservations == s.policy.reservations[id := Reservation(h.key.principal, h.active.maxDebit, s.now + SPEND_WINDOW)]
    && s'.book == s.book[id := Reservation(h.key.principal, h.active.maxDebit, 0)]
    && Total(s.policy.reservations, h.key.principal) + h.active.maxDebit <= limit
  }

  predicate RestartedReservation(s: System, s': System, h: Handle) {
    || (Replays(h) && s'.policy.reservations == s.policy.reservations)
    || (h.active.reservation.Some? && h.active.reservation.value in s.policy.reservations
        && s'.policy.reservations == s.policy.reservations[h.active.reservation.value :=
             s.policy.reservations[h.active.reservation.value].(expiresAt := s.now + SPEND_WINDOW)])
  }

  /** Reservations a key owns are known numbers, so a new one belongs to nobody. */
  lemma OwnedIsIssued(s: System, k: Key, id: nat)
    requires KeysOk(s) && k in s.policy.entries && s.policy.entries[k].reservation == Some(id)
    ensures id in s.issued && Owns(s, k, id)
  {
    assert Owns(s, k, id);
  }

  lemma OtherKeyAtEntry(s: System, s': System, h: Handle, id: nat, limit: nat, l: Key)
    requires Inv(s, limit) && Enters(s, s', h, id, limit) && l in s.policy.entries && l != h.key
    ensures EntryOk(s', l)
    ensures forall x :: Owns(s', l, x) <==> Owns(s, l, x)
  {
    assert EntryOk(s, l);
    var e := s.policy.entries[l];
    if e.reservation.Some? { assert Owns(s, l, e.reservation.value); }
    var f := s.handles[e.generation];
    if e.state.Pending? && f.previous.Some? && f.previous.value.reservation.Some? {
      assert Owns(s, l, f.previous.value.reservation.value);
    }
    if h.previous.Some? && h.previous.value.reservation.Some? {
      assert Owns(s, h.key, h.previous.value.reservation.value);
    }
  }

  lemma EnteredKeyOk(s: System, s': System, h: Handle, id: nat, limit: nat)
    requires Inv(s, limit) && Enters(s, s', h, id, limit)
    ensures EntryOk(s', h.key)
    ensures forall x :: Owns(s', h.key, x) ==> Owns(s, h.key, x) || (x == id && h.created)
  {
    if h.previous.Some? {
      assert EntryOk(s, h.key);
      if h.previous.value.reservation.Some? { OwnedIsIssued(s, h.key, h.previous.value.reservation.value); }
    }
    hide Total;
  }

  lemma EnterKeepsKeys(s: System, s': System, h: Handle, id: nat, limit: nat)
    requires Inv(s, limit) && Enters(s, s', h, id, limit)
    ensures KeysOk(s')
  {
    EnteredKeyOk(s, s', h, id, limit);
    forall l | l in s.policy.entries && l != h.key
      ensures EntryOk(s', l) && forall x :: Owns(s', l, x) <==> Owns(s, l, x)
    {
      OtherKeyAtEntry(s, s', h, id, limit, l);
    }
    hide EntryOk, BooksOk, NewReservation, RestartedReservation;
    assert forall k, x :: Owns(s', k, x) ==> k in s'.policy.entries;
    hide Owns;
    forall k, l, x | Owns(s', k, x) && Owns(s', l, x)
      ensures k == l
    {
    }
  }

  lemma EnterKeepsBooks(s: System, s': System, h: Handle, id: nat, limit: nat)
    requires Inv(s, limit) && Enters(s, s', h, id, limit)
    ensures BooksOk(s', limit)
  {
    hide EntryOk, Owns, KeysOk;
    assert forall x :: x in s.policy.reservations ==> Booked(s, x);
    assert id !in s.policy.reservations;
    assert forall i :: 0 <= i < |s.spends| ==> SpendOk(s, s.spends[i]);
    forall principal
      ensures Total(s'.policy.reservations, principal) <= limit
    {
      if h.created {
        TotalWith(s.policy.reservations, principal, id, s'.policy.reservations[id]);
      } else {
        TotalOfFewer(s.policy.reservations, s'.policy.reservations, principal);
      }
    }
  }

  /** Admission is pruning, then either a refusal or an entry. */
  lemma AdmissionEnters(s: System, e: Event, limit: nat)
    requires Inv(s, limit) && Enabled(s, e, limit) && e.op.Admission?
    ensures var pruned := s.(policy := Prune(s.policy, e.at), now := e.at);
            var s' := Admitting(s, e);
            var (p, answer) := Admit(s.policy, e.op.request, e.at, e.op.generation, e.op.id);
            && (answer.Refused? ==> s' == s.(policy := p, now := e.at, issued := s.issued + {e.op.generation, e.op.id})
                                    && (p == s.policy || p == pruned.policy))
            && (answer.Admitted? ==> Inv(pruned, limit) && Enters(pruned, s', answer.handle, e.op.id, limit))
  {
    var pruned := s.(policy := Prune(s.policy, e.at), now := e.at);
    PruneKeeps(s, e.at, limit);
    hide Prune, KeysOk;
    var r := e.op.request;
    if r.principal.Ok? && 0 < r.maxDebit <= U64_MAX && r.limit.Some? && r.raw.Some? {
      KeyEnters(pruned, Key(r.principal.value, r.raw.value), r.maxDebit, limit, e.at, e.op.generation, e.op.id);
      hide AdmitKey, BooksOk, Enters;
      EntersFrom(s, e, limit, Key(r.principal.value, r.raw.value));
    } else {
      hide AdmitKey, BooksOk;
    }
  }

  lemma EntersFrom(s: System, e: Event, limit: nat, key: Key)
    requires Enabled(s, e, limit) && e.op.Admission?
    requires var r := e.op.request;
             r.principal.Ok? && 0 < r.maxDebit <= U64_MAX && r.limit.Some? && r.raw.Some?
             && key == Key(r.principal.value, r.raw.value)
    ensures var pruned := s.(policy := Prune(s.policy, e.at), now := e.at);
            var (p, answer) := AdmitKey(pruned.policy, key, e.op.request.maxDebit, limit, e.at, e.op.generation, e.op.id);
            && (answer.Admitted? ==> Admitting(s, e) == After(pruned, p, answer.handle, e.op.generation, e.op.id))
            && (answer.Refused? ==> Admitting(s, e) == s.(policy := p, now := e.at, issued := s.issued + {e.op.generation, e.op.id}))
            && Admit(s.policy, e.op.request, e.at, e.op.generation, e.op.id) == (p, answer)
  {
    hide AdmitKey, Prune;
  }

  /** The system once `h` has been admitted. */
  function After(s: System, p: Policy, h: Handle, generation: nat, id: nat): System {
    s.(policy := p, issued := s.issued + {generation, id}, handles := s.handles[generation := h],
       book := if h.created && h.active.reservation.Some?
               then s.book[h.active.reservation.value := Reservation(h.key.principal, h.active.maxDebit, 0)] else s.book)
  }

  lemma KeyEnters(s: System, key: Key, maxDebit: nat, limit: nat, now: int, g: nat, id: nat)
    requires g !in s.issued && id !in s.issued && g != id && s.now == now
    requires forall x :: x in s.policy.reservations ==> x in s.issued
    ensures var (p, answer) := AdmitKey(s.policy, key, maxDebit, limit, now, g, id);
            && (answer.Refused? ==> p == s.policy)
            && (answer.Admitted? ==> Enters(s, After(s, p, answer.handle, g, id), answer.handle, id, limit))
  {
  }

  lemma AdmissionKeeps(s: System, e: Event, limit: nat)
    requires Inv(s, limit) && Enabled(s, e, limit) && e.op.Admission?
    ensures Inv(Next(s, e), limit)
  {
    AdmissionEnters(s, e, limit);
    var pruned := s.(policy := Prune(s.policy, e.at), now := e.at);
    var (p, answer) := Admit(s.policy, e.op.request, e.at, e.op.generation, e.op.id);
    hide Prune, Admit, Enters, KeysOk, BooksOk;
    if answer.Admitted? {
      EnterKeepsKeys(pruned, Admitting(s, e), answer.handle, e.op.id, limit);
      EnterKeepsBooks(pruned, Admitting(s, e), answer.handle, e.op.id, limit);
    } else {
      PruneKeeps(s, e.at, limit);
      TimePasses(s, e.at, limit);
      if p == s.policy {
        MoreIssued(s.(now := e.at), Admitting(s, e), limit);
      } else {
        MoreIssued(pruned, Admitting(s, e), limit);
      }
    }
  }

  lemma MoreIssued(s: System, s': System, limit: nat)
    requires Inv(s, limit) && s' == s.(issued := s'.issued) && s.issued <= s'.issued
    ensures Inv(s', limit)
  {
    assert forall k :: k in s'.policy.entries ==> EntryOk(s, k);
    assert forall k, id :: Owns(s', k, id) <==> Owns(s, k, id);
    assert forall i :: 0 <= i < |s.spends| ==> SpendOk(s, s.spends[i]);
    assert forall id :: id in s.policy.reservations ==> Booked(s, id);
    hide Owns, Total;
  }

  /** Every operation, by any handle in any order, keeps the invariant. */
  lemma StepKeepsInv(s: System, e: Event, limit: nat)
    requires Inv(s, limit) && Enabled(s, e, limit)
    ensures Inv(Next(s, e), limit)
  {
    hide Inv, Next, Admit;
    if e.op.Admission? {
      AdmissionKeeps(s, e, limit);
    } else if !Current(s.policy, s.handles[e.op.generation]) {
      StaleHandleDoesNothing(s, e);
      TimePasses(s, e.at, limit);
    } else {
      match e.op
      case BindIntent(g, fp) =>
        if MayBind(s.policy, s.handles[g], fp) {
          BindKeeps(s, g, fp, e.at, limit);
        } else {
          RefusedBindDoesNothing(s, g, fp, e.at);
          TimePasses(s, e.at, limit);
        }
      case CheckpointAt(g) => CheckpointKeeps(s, g, e.at, limit);
      case PreserveWith(g, r) => PreserveKeeps(s, g, r, e.at, limit);
      case BlockKey(g) => BlockKeeps(s, g, e.at, limit);
      case DiscardRecovery(g) => DiscardKeeps(s, g, e.at, limit);
      case CompleteWith(g, body) => CompleteKeeps(s, g, body, e.at, limit);
      case AbortKey(g) => AbortKeeps(s, g, e.at, limit);
    }
  }

  lemma RefusedBindDoesNothing(s: System, g: nat, fingerprint: Option<nat>, at: int)
    requires g in s.handles && !MayBind(s.policy, s.handles[g], fingerprint)
    ensures Next(s, Event(at, BindIntent(g, fingerprint))) == s.(now := at)
  {
    assert s.handles[g := s.handles[g]] == s.handles;
  }

  // ---------------------------------------------------------------- runs

  ghost function Run(events: seq<Event>): System
    decreases |events|
  {
    if events == [] then EMPTY else Next(Run(events[..|events| - 1]), events[|events| - 1])
  }

  ghost predicate IsRun(events: seq<Event>, limit: nat) {
    forall i :: 0 <= i < |events| ==> Enabled(Run(events[..i]), events[i], limit)
  }

  lemma PrefixIsRun(events: seq<Event>, limit: nat)
    requires IsRun(events, limit) && events != []
    ensures IsRun(events[..|events| - 1], limit)
    ensures Enabled(Run(events[..|events| - 1]), events[|events| - 1], limit)
  {
    var p := events[..|events| - 1];
    assert forall i :: 0 <= i < |p| ==> p[..i] == events[..i] && p[i] == events[i];
  }

  lemma {:induction false} InvOverRuns(events: seq<Event>, limit: nat)
    requires IsRun(events, limit)
    ensures Inv(Run(events), limit)
    decreases |events|
  {
    hide Enabled, Next, EntryOk;
    if events != [] {
      PrefixIsRun(events, limit);
      InvOverRuns(events[..|events| - 1], limit);
      StepKeepsInv(Run(events[..|events| - 1]), events[|events| - 1], limit);
    }
  }

  /**
   In every run, each pending or blocked key that is not a replay owns a live reservation for its principal and
   its full debit, no two keys share one, and what a principal has reserved never exceeds the limit.
   */
  lemma ReservationsAreOwned(events: seq<Event>, limit: nat, k: Key, l: Key)
    requires IsRun(events, limit)
    requires k in Run(events).policy.entries && l in Run(events).policy.entries
    ensures var p := Run(events).policy;
            var e := p.entries[k];
            && e.generation in Run(events).handles
            && ((e.state.Pending? || e.state.Blocked?) && !Replays(Run(events).handles[e.generation]) ==>
                  && e.reservation.Some? && e.reservation.value in p.reservations
                  && p.reservations[e.reservation.value].principal == k.principal
                  && p.reservations[e.reservation.value].amount == e.maxDebit)
            && (k != l && e.reservation.Some? ==> e.reservation != p.entries[l].reservation)
            && (forall principal :: Total(p.reservations, principal) <= limit)
  {
    InvOverRuns(events, limit);
    var s := Run(events);
    hide Run, BooksOk;
    assert EntryOk(s, k);
    var e := s.policy.entries[k];
    if e.reservation.Some? && e.reservation == s.policy.entries[l].reservation {
      assert Owns(s, k, e.reservation.value) && Owns(s, l, e.reservation.value);
    }
    assert BooksOk(s, limit);
    TotalsBounded(s, limit);
  }

  lemma TotalsBounded(s: System, limit: nat)
    requires BooksOk(s, limit)
    ensures forall principal :: Total(s.policy.reservations, principal) <= limit
  {
  }
}
