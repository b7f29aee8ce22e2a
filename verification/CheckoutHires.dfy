/** At most one funded hire per idempotency key, and a completed key only replays its answer. */
module CheckoutHires {
  import opened Wrappers
  import opened Checkout
  import opened CheckoutRuns

  /** How far `executeCheckout` has come with one admission. */
  datatype Stage = Started | Bound | Checked(task: nat) | Sent(task: nat) | Over

  /** `hired` is the task of the hires possibly sent for a key since its last discard, `done` its completed body. */
  datatype Flow = Flow(sys: System, stages: map<nat, Stage>, hired: map<Key, nat>, done: map<Key, nat>)

  datatype Act =
    | Do(op: Op)
    | Check(generation: nat, task: nat)
    | Hire(generation: nat, task: nat)

  datatype Step = Step(at: int, act: Act)

  function PolicyEvent(e: Step): CheckoutRuns.Event
    requires !e.act.Hire?
  {
    CheckoutRuns.Event(e.at, if e.act.Do? then e.act.op else CheckpointAt(e.act.generation))
  }

  /** The recovery evidence a handle was admitted with. */
  function Saved(h: Handle): Option<Recovery> {
    if h.previous.Some? && h.previous.value.state.Recoverable? then h.previous.value.recovery else None
  }

  predicate HasTask(st: Stage) { st.Checked? || st.Sent? }

  /**
   What `executeCheckout` does with a handle. The SDK contract is in the abort: once a hire may have been sent,
   no outcome is reported as a plain error.
   */
  predicate Follows(h: Handle, st: Stage, act: Act) {
    match act
    case Hire(_, task) => HasTask(st) && st.task == task
    case Check(_, task) =>
      && st.Bound? && !Replays(h)
      && (Saved(h).Some? ==> Saved(h).value.valid && task == Saved(h).value.task)
    case Do(op) =>
      match op
      case BindIntent(_, _) => st.Started?
      case AbortKey(_) => st.Started? || st.Bound? || (st.Checked? && Saved(h).None?)
      case PreserveWith(_, r) => (st.Bound? && Saved(h) == Some(r)) || (HasTask(st) && r.task == st.task)
      case CompleteWith(_, body) =>
        (st.Bound? && Replays(h) && h.previous.value.body == Some(body)) || (HasTask(st) && !Replays(h))
      case DiscardRecovery(_) => HasTask(st)
      case BlockKey(_) => HasTask(st) && Saved(h).None?
      case _ => false
  }

  function Generation(act: Act): nat {
    match act
    case Do(op) => op.generation
    case Check(g, _) => g
    case Hire(g, _) => g
  }

  /** Every admission of this key has settled before its hour was over, and the end of time has not come. */
  predicate Timely(f: Flow, at: int, k: Key) {
    at < NEVER &&
    forall g :: g in f.sys.handles && f.sys.handles[g].key == k && !f.sys.handles[g].settled ==>
      at < f.sys.handles[g].admittedAt + SPEND_WINDOW
  }

  predicate Allowed(f: Flow, e: Step, limit: nat) {
    && e.at >= f.sys.now
    && (!e.act.Hire? ==> Enabled(f.sys, PolicyEvent(e), limit))
    && (!(e.act.Do? && e.act.op.Admission?) ==>
          && Generation(e.act) in f.sys.handles && Generation(e.act) in f.stages
          && !f.sys.handles[Generation(e.act)].settled
          && Follows(f.sys.handles[Generation(e.act)], f.stages[Generation(e.act)], e.act))
  }

  function StageAfter(p: Policy, h: Handle, st: Stage, act: Act): Stage {
    match act
    case Hire(_, task) => Sent(task)
    case Check(_, task) => if Current(p, h) then Checked(task) else st
    case Do(op) => if op.BindIntent? then (if MayBind(p, h, op.fingerprint) then Bound else st) else Over
  }

  ghost function NextFlow(f: Flow, e: Step): Flow {
    if e.act.Do? && e.act.op.Admission? then
      var s := Next(f.sys, PolicyEvent(e));
      f.(sys := s, stages := if e.act.op.generation in s.handles then f.stages[e.act.op.generation := Started] else f.stages)
    else if Generation(e.act) !in f.sys.handles || Generation(e.act) !in f.stages then f
    else
      var g := Generation(e.act);
      var h := f.sys.handles[g];
      Flow(if e.act.Hire? then f.sys.(now := e.at) else Next(f.sys, PolicyEvent(e)),
           f.stages[g := StageAfter(f.sys.policy, h, f.stages[g], e.act)],
           if e.act.Hire? then f.hired[h.key := e.act.task]
           else if e.act.Do? && e.act.op.DiscardRecovery? && Current(f.sys.policy, h) then f.hired - {h.key}
           else f.hired,
           if e.act.Do? && e.act.op.CompleteWith? && Current(f.sys.policy, h) && !Replays(h)
           then f.done[h.key := e.act.op.body] else f.done)
  }

  // ---------------------------------------------------------------- the invariant

  /** An unsettled handle is the current one of its key. */
  predicate HandleLive(f: Flow, g: nat)
    requires g in f.sys.handles
  {
    var h := f.sys.handles[g];
    && (!h.settled ==> Current(f.sys.policy, h) && g in f.stages && !f.stages[g].Over?)
    && (h.previous.Some? ==> h.active.expiresAt == NEVER)
    && (h.previous.None? ==> h.active.expiresAt == h.admittedAt + SPEND_WINDOW)
    && (g in f.stages && HasTask(f.stages[g]) ==> !Replays(h))
    && (g in f.stages && HasTask(f.stages[g]) && Saved(h).Some? ==> f.stages[g].task == Saved(h).value.task)
    && (h.previous.Some? && h.previous.value.state.Recoverable? ==> Saved(h).Some?)
  }

  /** A key for which a hire may have been sent holds on to that hire's task. */
  predicate HireKept(f: Flow, k: Key)
    requires k in f.hired
  {
    && k in f.sys.policy.entries
    && var e := f.sys.policy.entries[k];
    && (e.state.Recoverable? ==> e.recovery.Some? && e.recovery.value.task == f.hired[k])
    && (e.state.Pending? ==>
          && e.generation in f.sys.handles && e.generation in f.stages
          && var h := f.sys.handles[e.generation];
          && (h.previous.None? ==> f.stages[e.generation] == Sent(f.hired[k]))
          && (Saved(h).Some? ==> Saved(h).value.task == f.hired[k]))
  }

  /** A completed key is complete with its body, or is replaying it. */
  predicate DoneKept(f: Flow, k: Key)
    requires k in f.done
  {
    && k in f.sys.policy.entries
    && var e := f.sys.policy.entries[k];
    && ((e.state.Complete? && e.body == Some(f.done[k]))
        || (e.state.Pending? && e.generation in f.sys.handles && Replays(f.sys.handles[e.generation])
            && f.sys.handles[e.generation].previous.value.body == Some(f.done[k])))
  }

  /** Settled entries never expire, and a recoverable one has recovery evidence. */
  predicate Lasting(e: Entry) {
    !e.state.Pending? ==> e.expiresAt == NEVER && (e.state.Recoverable? ==> e.recovery.Some?)
  }

  /** What is kept about one key, as long as its own admissions are timely. */
  ghost predicate FlowInv(f: Flow, k: Key, limit: nat) {
    && Inv(f.sys, limit)
    && (forall g :: g in f.stages ==> g in f.sys.handles)
    && (forall g :: g in f.sys.handles && f.sys.handles[g].key == k ==>
          HandleLive(f, g) && (f.sys.handles[g].previous.Some? ==> Lasting(f.sys.handles[g].previous.value)))
    && (k in f.sys.policy.entries ==> Lasting(f.sys.policy.entries[k]))
    && (k in f.hired ==> HireKept(f, k))
    && (k in f.done ==> DoneKept(f, k))
  }

  // ---------------------------------------------------------------- steps elsewhere

  /** Nothing about the key is different, except the time. */
  ghost predicate SameFor(f: Flow, f': Flow, k: Key) {
    && Found(f'.sys.policy.entries, k) == Found(f.sys.policy.entries, k)
    && (forall g :: g in f.sys.handles ==> g in f'.sys.handles && f'.sys.handles[g].key == f.sys.handles[g].key)
    && (forall g :: g in f.sys.handles && f.sys.handles[g].key == k ==>
          f'.sys.handles[g] == f.sys.handles[g] && Found(f'.stages, g) == Found(f.stages, g))
    && (forall g :: g in f'.sys.handles && f'.sys.handles[g].key == k ==> g in f.sys.handles)
    && (forall g :: g in f'.stages ==> g in f'.sys.handles)
    && Found(f'.hired, k) == Found(f.hired, k) && Found(f'.done, k) == Found(f.done, k)
  }

  lemma SameKeepsFlow(f: Flow, f': Flow, k: Key, limit: nat)
    requires FlowInv(f, k, limit) && SameFor(f, f', k) && Inv(f'.sys, limit)
    ensures FlowInv(f', k, limit)
  {
    if k in f.sys.policy.entries { EntryOwner(f.sys, k, limit); }
    SameHandlesLive(f, f', k);
    hide Inv, HandleLive;
    if k in f'.hired { assert HireKept(f, k); }
    if k in f'.done { assert DoneKept(f, k); }
  }

  lemma SameHandlesLive(f: Flow, f': Flow, k: Key)
    requires SameFor(f, f', k)
    requires forall g :: g in f.sys.handles && f.sys.handles[g].key == k ==> HandleLive(f, g)
    ensures forall g :: g in f'.sys.handles && f'.sys.handles[g].key == k ==> HandleLive(f', g)
  {
    forall g | g in f'.sys.handles && f'.sys.handles[g].key == k
      ensures HandleLive(f', g)
    {
      assert HandleLive(f, g);
    }
  }

  /** A key's entry belongs to a handle of that key. */
  lemma EntryOwner(s: System, k: Key, limit: nat)
    requires Inv(s, limit) && k in s.policy.entries
    ensures s.policy.entries[k].generation in s.handles && s.handles[s.policy.entries[k].generation].key == k
  {
    assert EntryOk(s, k);
  }

  /** An operation on a handle of another key. */
  lemma OperationElsewhere(s: System, e: CheckoutRuns.Event, k: Key)
    requires !e.op.Admission? && e.op.generation in s.handles && s.handles[e.op.generation].key != k
    ensures Found(Next(s, e).policy.entries, k) == Found(s.policy.entries, k)
    ensures Next(s, e).handles.Keys == s.handles.Keys
    ensures forall g :: g in s.handles ==> Next(s, e).handles[g].key == s.handles[g].key
    ensures forall g :: g in s.handles && g != e.op.generation ==> Next(s, e).handles[g] == s.handles[g]
  {
    hide Refresh, Release;
    assert forall at, h :: Refresh(s.policy, h, at).entries == s.policy.entries by { RefreshKeepsEntries(s.policy); }
  }

  lemma RefreshKeepsEntries(p: Policy)
    ensures forall at, h :: Refresh(p, h, at).entries == p.entries
  {
  }

  lemma ElsewhereIsSame(f: Flow, e: Step, k: Key, limit: nat)
    requires Allowed(f, e, limit) && !(e.act.Do? && e.act.op.Admission?)
    requires f.sys.handles[Generation(e.act)].key != k && forall g :: g in f.stages ==> g in f.sys.handles
    ensures SameFor(f, NextFlow(f, e), k)
  {
    hide Settling, Replays;
    if !e.act.Hire? { OperationElsewhere(f.sys, PolicyEvent(e), k); }
    hide Next, Follows, Enabled;
  }

  lemma ElsewhereKeepsFlow(f: Flow, e: Step, k: Key, limit: nat)
    requires FlowInv(f, k, limit) && Allowed(f, e, limit) && !(e.act.Do? && e.act.op.Admission?)
    requires f.sys.handles[Generation(e.act)].key != k
    ensures FlowInv(NextFlow(f, e), k, limit)
  {
    StagesHaveHandles(f, k, limit);
    ElsewhereIsSame(f, e, k, limit);
    if e.act.Hire? { TimePasses(f.sys, e.at, limit); } else { StepKeepsInv(f.sys, PolicyEvent(e), limit); }
    assert Inv(NextFlow(f, e).sys, limit) by { hide Inv, Next, Follows, Enabled; }
    hide NextFlow, FlowInv, Allowed, SameFor;
    SameKeepsFlow(f, NextFlow(f, e), k, limit);
  }

  lemma StagesHaveHandles(f: Flow, k: Key, limit: nat)
    requires FlowInv(f, k, limit)
    ensures forall g :: g in f.stages ==> g in f.sys.handles
  {
  }

  // ---------------------------------------------------------------- admission

  /** While its admissions settle in time, pruning does not forget a key. */
  lemma NotForgotten(f: Flow, at: int, k: Key, limit: nat)
    requires FlowInv(f, k, limit) && Timely(f, at, k)
    ensures Found(PrunedEntries(f.sys.policy.entries, at), k) == Found(f.sys.policy.entries, k)
  {
    hide Owns, BooksOk;
    if k in f.sys.policy.entries {
      assert EntryOk(f.sys, k);
      var e := f.sys.policy.entries[k];
      if e.state.Pending? { assert HandleLive(f, e.generation); }
    }
  }

  /** An admission adds one handle, and possibly a pending entry for the key, or nothing. */
  ghost predicate Adds(f: Flow, s': System, g: nat, k: Key) {
    g !in f.sys.handles &&
    if g in s'.handles then
      var h := s'.handles[g];
      && s'.handles == f.sys.handles[g := h] && !h.settled && h.active.generation == g
      && (if h.key == k then
            && Found(s'.policy.entries, k) == Some(h.active) && h.active.state.Pending?
            && h.previous == Found(f.sys.policy.entries, k)
            && (h.previous.Some? ==> (h.previous.value.state.Recoverable? || h.previous.value.state.Complete?)
                                     && h.active.expiresAt == h.previous.value.expiresAt)
            && (h.previous.None? ==> h.active.expiresAt == h.admittedAt + SPEND_WINDOW)
          else Found(s'.policy.entries, k) == Found(f.sys.policy.entries, k))
    else s'.handles == f.sys.handles && Found(s'.policy.entries, k) == Found(f.sys.policy.entries, k)
  }

  lemma AdmissionAdds(f: Flow, e: Step, k: Key, limit: nat)
    requires FlowInv(f, k, limit) && Allowed(f, e, limit) && Timely(f, e.at, k) && e.act.Do? && e.act.op.Admission?
    ensures Adds(f, Next(f.sys, PolicyEvent(e)), e.act.op.generation, k)
  {
    hide Inv, Enabled;
    NotForgotten(f, e.at, k, limit);
    FreshGeneration(f, e, limit);
    var e' := PolicyEvent(e);
    AdmissionEnters(f.sys, e', limit);
    hide FlowInv, KeysOk, BooksOk, HandleLive, HireKept, DoneKept, Total, PrunedTimes, PrunedReservations, PrunedEntries, AdmitKey,
         NewReservation, RestartedReservation, Admit, Timely, Follows, Lasting, Enters;
    var pruned := f.sys.(policy := Prune(f.sys.policy, e.at), now := e.at);
    var (p, answer) := Admit(f.sys.policy, e'.op.request, e.at, e'.op.generation, e'.op.id);
    if answer.Admitted? { EnteredKey(pruned, Admitting(f.sys, e'), answer.handle, e'.op.id, limit); }
  }

  lemma EnteredKey(s: System, s': System, h: Handle, id: nat, limit: nat)
    requires Enters(s, s', h, id, limit)
    ensures s'.policy.entries == s.policy.entries[h.key := h.active] && s'.handles == s.handles[h.active.generation := h]
    ensures h.previous == Found(s.policy.entries, h.key) && !h.settled && h.active.state.Pending?
    ensures h.active.expiresAt == (if h.previous.Some? then h.previous.value.expiresAt else h.admittedAt + SPEND_WINDOW)
    ensures h.previous.Some? ==> h.previous.value.state.Recoverable? || h.previous.value.state.Complete?
  {
    hide NewReservation, RestartedReservation;
  }

  lemma FreshGeneration(f: Flow, e: Step, limit: nat)
    requires Inv(f.sys, limit) && Allowed(f, e, limit) && e.act.Do? && e.act.op.Admission?
    ensures e.act.op.generation !in f.sys.handles
  {
  }

  lemma AddedHandlesLive(f: Flow, s': System, g: nat, k: Key, limit: nat, stages: map<nat, Stage>)
    requires FlowInv(f, k, limit) && Adds(f, s', g, k)
    requires stages == if g in s'.handles then f.stages[g := Started] else f.stages
    ensures forall x :: x in s'.handles && s'.handles[x].key == k ==>
              HandleLive(Flow(s', stages, f.hired, f.done), x)
              && (s'.handles[x].previous.Some? ==> Lasting(s'.handles[x].previous.value))
  {
    var f' := Flow(s', stages, f.hired, f.done);
    hide HireKept, DoneKept, Owns, BooksOk;
    forall x | x in s'.handles && s'.handles[x].key == k
      ensures HandleLive(f', x) && (s'.handles[x].previous.Some? ==> Lasting(s'.handles[x].previous.value))
    {
      if x in f.sys.handles {
        assert HandleLive(f, x);
        if g in s'.handles && !f.sys.handles[x].settled {
          CurrentHandle(f.sys, x, limit);
          assert s'.handles[g].key != k;
        }
      } else {
        assert x == g;
      }
    }
  }

  lemma AddedKeyKept(f: Flow, s': System, g: nat, k: Key, limit: nat, stages: map<nat, Stage>)
    requires FlowInv(f, k, limit) && Adds(f, s', g, k)
    requires stages == if g in s'.handles then f.stages[g := Started] else f.stages
    ensures var f' := Flow(s', stages, f.hired, f.done);
            && (k in f.hired ==> HireKept(f', k)) && (k in f.done ==> DoneKept(f', k))
            && (k in s'.policy.entries ==> Lasting(s'.policy.entries[k]))
  {
    hide HandleLive, Owns, BooksOk, Inv;
    if k in f.hired { assert HireKept(f, k); }
    if k in f.done { assert DoneKept(f, k); }
  }

  lemma AdmissionKeepsFlow(f: Flow, e: Step, k: Key, limit: nat)
    requires FlowInv(f, k, limit) && Allowed(f, e, limit) && Timely(f, e.at, k) && e.act.Do? && e.act.op.Admission?
    ensures FlowInv(NextFlow(f, e), k, limit)
  {
    hide Inv, HandleLive, HireKept, DoneKept, Next, Lasting, Timely, Follows, Enabled;
    var s', g := Next(f.sys, PolicyEvent(e)), e.act.op.generation;
    AdmissionAdds(f, e, k, limit);
    StepKeepsInv(f.sys, PolicyEvent(e), limit);
    hide Allowed;
    var stages := if g in s'.handles then f.stages[g := Started] else f.stages;
    AddedHandlesLive(f, s', g, k, limit, stages);
    AddedKeyKept(f, s', g, k, limit, stages);
    assert NextFlow(f, e) == Flow(s', stages, f.hired, f.done);
  }

  // ---------------------------------------------------------------- one handle at work

  /** Only handle `g`, its stage and its key change. */
  ghost predicate TouchesOne(f: Flow, f': Flow, g: nat) {
    && g in f.sys.handles && g in f'.sys.handles && g in f.stages && g in f'.stages
    && !f.sys.handles[g].settled
    && var h, h' := f.sys.handles[g], f'.sys.handles[g];
    && f'.sys.handles == f.sys.handles[g := h'] && f'.stages == f.stages[g := f'.stages[g]]
    && h' == h.(active := h'.active, settled := h'.settled)
    && h'.active == h.active.(fingerprint := h'.active.fingerprint)
  }

  /** A key has one unsettled handle. */
  lemma OneUnsettled(f: Flow, g: nat, x: nat, limit: nat)
    requires g in f.sys.handles && x in f.sys.handles && f.sys.handles[x].key == f.sys.handles[g].key
    requires FlowInv(f, f.sys.handles[g].key, limit)
    requires !f.sys.handles[g].settled && !f.sys.handles[x].settled
    ensures x == g
  {
    hide KeysOk, HireKept, DoneKept, Total;
    assert HandleLive(f, g) && HandleLive(f, x);
  }

  /** The rest of the invariant, once the handle's own key is in order. */
  lemma OneHandleKeeps(f: Flow, f': Flow, g: nat, limit: nat)
    requires TouchesOne(f, f', g) && FlowInv(f, f.sys.handles[g].key, limit) && Inv(f'.sys, limit)
    requires HandleLive(f', g)
    requires var k := f.sys.handles[g].key;
             && (k in f'.sys.policy.entries ==> Lasting(f'.sys.policy.entries[k]))
             && (k in f'.hired ==> HireKept(f', k)) && (k in f'.done ==> DoneKept(f', k))
    ensures FlowInv(f', f.sys.handles[g].key, limit)
  {
    hide Inv, HireKept, DoneKept;
    var k := f.sys.handles[g].key;
    forall x | x in f'.sys.handles && f'.sys.handles[x].key == k
      ensures HandleLive(f', x)
      ensures f'.sys.handles[x].previous.Some? ==> Lasting(f'.sys.handles[x].previous.value)
    {
      assert x in f.sys.handles && HandleLive(f, x);
      if !f.sys.handles[x].settled { OneUnsettled(f, g, x, limit); }
    }
    hide HandleLive, Lasting;
  }

  /** A step of a checkout of this key. */
  predicate Own(f: Flow, e: Step, k: Key) {
    && !(e.act.Do? && e.act.op.Admission?)
    && Generation(e.act) in f.sys.handles && f.sys.handles[Generation(e.act)].key == k
  }

  predicate PreviousSettled(h: Handle) {
    h.previous.Some? ==> h.previous.value.state.Recoverable? || h.previous.value.state.Complete?
  }

  /** An unsettled handle is current, and its entry is the key's. */
  lemma UnsettledIsCurrent(f: Flow, g: nat, limit: nat)
    requires g in f.sys.handles && FlowInv(f, f.sys.handles[g].key, limit) && !f.sys.handles[g].settled
    ensures var h := f.sys.handles[g];
            && Current(f.sys.policy, h) && f.sys.policy.entries[h.key] == h.active && h.active.state.Pending?
            && h.active.generation == g && HandleLive(f, g) && PreviousSettled(h)
  {
    hide HireKept, DoneKept, Total;
    assert HandleLive(f, g);
    CurrentHandle(f.sys, g, limit);
  }

  /** The handle keeps its key: a fingerprint is bound, the window restarts, or a hire is sent. */
  lemma HeldKeepsFlow(f: Flow, f': Flow, g: nat, limit: nat)
    requires TouchesOne(f, f', g) && FlowInv(f, f.sys.handles[g].key, limit) && Inv(f'.sys, limit)
    requires !f'.sys.handles[g].settled && !f'.stages[g].Over?
    requires f'.sys.policy.entries == f.sys.policy.entries[f.sys.handles[g].key := f'.sys.handles[g].active]
    requires var h := f.sys.handles[g];
             && (HasTask(f'.stages[g]) ==> !Replays(h) && (Saved(h).Some? ==> f'.stages[g].task == Saved(h).value.task))
             && f'.done == f.done
             && (h.key in f'.hired ==>
                   (f'.stages[g] == Sent(f'.hired[h.key]) && (Saved(h).Some? ==> Saved(h).value.task == f'.hired[h.key]))
                   || (f'.hired == f.hired && f'.stages[g].Sent? == f.stages[g].Sent?
                       && (f.stages[g].Sent? ==> f'.stages[g] == f.stages[g])))
    ensures FlowInv(f', f.sys.handles[g].key, limit)
  {
    hide Inv;
    UnsettledIsCurrent(f, g, limit);
    var h := f.sys.handles[g];
    if h.key in f'.hired && f'.hired == f.hired { assert HireKept(f, h.key); }
    if h.key in f'.done { assert DoneKept(f, h.key); }
    OneHandleKeeps(f, f', g, limit);
  }

  /** The handle settles: its key has a lasting entry, or none. */
  lemma SettledKeepsFlow(f: Flow, f': Flow, g: nat, limit: nat)
    requires TouchesOne(f, f', g) && FlowInv(f, f.sys.handles[g].key, limit) && Inv(f'.sys, limit)
    requires f'.sys.handles[g].settled
    requires var k := f.sys.handles[g].key;
             && (k in f'.sys.policy.entries ==> !f'.sys.policy.entries[k].state.Pending? && Lasting(f'.sys.policy.entries[k]))
             && (k in f'.hired ==> HireKept(f', k)) && (k in f'.done ==> DoneKept(f', k))
    requires HasTask(f'.stages[g]) ==> f'.stages[g] == f.stages[g]
    ensures FlowInv(f', f.sys.handles[g].key, limit)
  {
    hide Inv, HireKept, DoneKept;
    UnsettledIsCurrent(f, g, limit);
    OneHandleKeeps(f, f', g, limit);
  }

  // ---------------------------------------------------------------- every step of a checkout

  lemma BindKeepsFlow(f: Flow, e: Step, k: Key, limit: nat)
    requires Allowed(f, e, limit) && Own(f, e, k) && FlowInv(f, k, limit) && e.act.Do? && e.act.op.BindIntent?
    ensures FlowInv(NextFlow(f, e), k, limit)
  {
    hide Inv, HireKept, DoneKept, Enabled;
    var g, f' := e.act.op.generation, NextFlow(f, e);
    StepKeepsInv(f.sys, PolicyEvent(e), limit);
    UnsettledIsCurrent(f, g, limit);
    assert f.sys.policy.entries[f.sys.handles[g].key := f.sys.handles[g].active] == f.sys.policy.entries;
    assert f.sys.handles[g := f.sys.handles[g]] == f.sys.handles;
    if f.sys.handles[g].key in f.hired { StageOfHired(f, g, limit); }
    HeldKeepsFlow(f, f', g, limit);
  }

  /** A first admission that is still only starting cannot belong to a key with a hire. */
  lemma StageOfHired(f: Flow, g: nat, limit: nat)
    requires g in f.sys.handles && FlowInv(f, f.sys.handles[g].key, limit) && !f.sys.handles[g].settled && f.sys.handles[g].key in f.hired
    ensures var h := f.sys.handles[g];
            && g in f.stages
            && (h.previous.None? ==> f.stages[g] == Sent(f.hired[h.key]))
            && (Saved(h).Some? ==> Saved(h).value.task == f.hired[h.key])
  {
    hide Inv, DoneKept;
    UnsettledIsCurrent(f, g, limit);
    assert HireKept(f, f.sys.handles[g].key);
  }

  lemma CheckKeepsFlow(f: Flow, e: Step, k: Key, limit: nat)
    requires Allowed(f, e, limit) && Own(f, e, k) && FlowInv(f, k, limit) && e.act.Check?
    ensures FlowInv(NextFlow(f, e), k, limit)
  {
    hide Inv, HireKept, DoneKept, Enabled, Refresh;
    var g, f' := e.act.generation, NextFlow(f, e);
    StepKeepsInv(f.sys, PolicyEvent(e), limit);
    UnsettledIsCurrent(f, g, limit);
    RefreshOnly(f.sys, f.sys.handles[g], e.at);
    assert f.sys.handles[g := f.sys.handles[g]] == f.sys.handles;
    HeldKeepsFlow(f, f', g, limit);
  }

  /** A completed key is only ever replayed, so no other checkout holds it. */
  lemma WorkingKeyIsNotDone(f: Flow, g: nat, limit: nat)
    requires g in f.sys.handles && FlowInv(f, f.sys.handles[g].key, limit) && !f.sys.handles[g].settled
    requires !Replays(f.sys.handles[g]) || (g in f.stages && HasTask(f.stages[g]))
    ensures f.sys.handles[g].key !in f.done
  {
    hide Inv, HireKept;
    UnsettledIsCurrent(f, g, limit);
    assert f.sys.handles[g].key in f.done ==> DoneKept(f, f.sys.handles[g].key);
  }

  /** A hire sent for a key with an earlier possibly-sent hire is for the same task. */
  lemma HireIsTheSame(f: Flow, e: Step, k: Key, limit: nat)
    requires Allowed(f, e, limit) && Own(f, e, k) && FlowInv(f, k, limit) && e.act.Hire?
    ensures var k := f.sys.handles[e.act.generation].key;
            && k !in f.done
            && (k in f.hired ==> f.hired[k] == e.act.task)
            && (Saved(f.sys.handles[e.act.generation]).Some? ==> Saved(f.sys.handles[e.act.generation]).value.task == e.act.task)
  {
    hide Inv, HireKept, DoneKept;
    var g := e.act.generation;
    UnsettledIsCurrent(f, g, limit);
    WorkingKeyIsNotDone(f, g, limit);
    if f.sys.handles[g].key in f.hired { StageOfHired(f, g, limit); }
  }

  lemma HireKeepsFlow(f: Flow, e: Step, k: Key, limit: nat)
    requires Allowed(f, e, limit) && Own(f, e, k) && FlowInv(f, k, limit) && e.act.Hire?
    ensures FlowInv(NextFlow(f, e), k, limit)
  {
    hide Inv, HireKept, DoneKept, HandleLive, Lasting;
    HireIsTheSame(f, e, k, limit);
    var g, f' := e.act.generation, NextFlow(f, e);
    UnsettledIsCurrent(f, g, limit);
    TimePasses(f.sys, e.at, limit);
    assert f.sys.policy.entries[f.sys.handles[g].key := f.sys.handles[g].active] == f.sys.policy.entries;
    assert f.sys.handles[g := f.sys.handles[g]] == f.sys.handles;
    HiredNow(f, e, k, limit);
    hide FlowInv, Allowed;
    HeldKeepsFlow(f, f', g, limit);
  }

  lemma HiredNow(f: Flow, e: Step, k: Key, limit: nat)
    requires Allowed(f, e, limit) && Own(f, e, k) && FlowInv(f, k, limit) && e.act.Hire?
    ensures var h := f.sys.handles[e.act.generation];
            !Replays(h) && !h.settled && (Saved(h).Some? ==> Saved(h).value.task == e.act.task)
  {
    hide Inv, HireKept, DoneKept;
    HireIsTheSame(f, e, k, limit);
    UnsettledIsCurrent(f, e.act.generation, limit);
  }

  lemma PreserveKeepsFlow(f: Flow, e: Step, k: Key, limit: nat)
    requires Allowed(f, e, limit) && Own(f, e, k) && FlowInv(f, k, limit) && e.act.Do? && e.act.op.PreserveWith?
    ensures FlowInv(NextFlow(f, e), k, limit)
  {
    hide Inv, Enabled;
    var g, f' := e.act.op.generation, NextFlow(f, e);
    StepKeepsInv(f.sys, PolicyEvent(e), limit);
    UnsettledIsCurrent(f, g, limit);
    if k in f.hired { StageOfHired(f, g, limit); }
    WorkingKeyIsNotDone(f, g, limit);
    SettledKeepsFlow(f, f', g, limit);
  }

  lemma BlockKeepsFlow(f: Flow, e: Step, k: Key, limit: nat)
    requires Allowed(f, e, limit) && Own(f, e, k) && FlowInv(f, k, limit) && e.act.Do? && e.act.op.BlockKey?
    ensures FlowInv(NextFlow(f, e), k, limit)
  {
    hide Inv, Enabled;
    var g, f' := e.act.op.generation, NextFlow(f, e);
    StepKeepsInv(f.sys, PolicyEvent(e), limit);
    UnsettledIsCurrent(f, g, limit);
    WorkingKeyIsNotDone(f, g, limit);
    SettledKeepsFlow(f, f', g, limit);
  }

  lemma DiscardKeepsFlow(f: Flow, e: Step, k: Key, limit: nat)
    requires Allowed(f, e, limit) && Own(f, e, k) && FlowInv(f, k, limit) && e.act.Do? && e.act.op.DiscardRecovery?
    ensures FlowInv(NextFlow(f, e), k, limit)
  {
    hide Inv, Enabled;
    var g, f' := e.act.op.generation, NextFlow(f, e);
    StepKeepsInv(f.sys, PolicyEvent(e), limit);
    UnsettledIsCurrent(f, g, limit);
    WorkingKeyIsNotDone(f, g, limit);
    SettledKeepsFlow(f, f', g, limit);
  }

  lemma CompleteKeepsFlow(f: Flow, e: Step, k: Key, limit: nat)
    requires Allowed(f, e, limit) && Own(f, e, k) && FlowInv(f, k, limit) && e.act.Do? && e.act.op.CompleteWith?
    ensures FlowInv(NextFlow(f, e), k, limit)
  {
    hide Inv, Enabled, Refresh;
    var g, f' := e.act.op.generation, NextFlow(f, e);
    StepKeepsInv(f.sys, PolicyEvent(e), limit);
    UnsettledIsCurrent(f, g, limit);
    RefreshOnly(f.sys, f.sys.handles[g], e.at);
    if k in f.done { assert DoneKept(f, k); }
    SettledKeepsFlow(f, f', g, limit);
  }

  lemma AbortKeepsFlow(f: Flow, e: Step, k: Key, limit: nat)
    requires Allowed(f, e, limit) && Own(f, e, k) && FlowInv(f, k, limit) && e.act.Do? && e.act.op.AbortKey?
    ensures FlowInv(NextFlow(f, e), k, limit)
  {
    hide Inv, Enabled, HandleLive;
    var g, f' := e.act.op.generation, NextFlow(f, e);
    StepKeepsInv(f.sys, PolicyEvent(e), limit);
    UnsettledIsCurrent(f, g, limit);
    if k in f.hired { StageOfHired(f, g, limit); }
    if k in f.done { assert DoneKept(f, k); }
    assert f'.sys.policy.entries ==
      if f.sys.handles[g].previous.Some? then f.sys.policy.entries[k := f.sys.handles[g].previous.value]
      else f.sys.policy.entries - {k};
    hide Without, Release;
    SettledKeepsFlow(f, f', g, limit);
  }

  lemma OwnStepKeepsFlow(f: Flow, e: Step, k: Key, limit: nat)
    requires Allowed(f, e, limit) && Own(f, e, k) && FlowInv(f, k, limit)
    ensures FlowInv(NextFlow(f, e), k, limit)
  {
    hide FlowInv, NextFlow, Enabled;
    match e.act
    case Hire(_, _) => HireKeepsFlow(f, e, k, limit);
    case Check(_, _) => CheckKeepsFlow(f, e, k, limit);
    case Do(op) =>
      match op
      case BindIntent(_, _) => BindKeepsFlow(f, e, k, limit);
      case PreserveWith(_, _) => PreserveKeepsFlow(f, e, k, limit);
      case BlockKey(_) => BlockKeepsFlow(f, e, k, limit);
      case DiscardRecovery(_) => DiscardKeepsFlow(f, e, k, limit);
      case CompleteWith(_, _) => CompleteKeepsFlow(f, e, k, limit);
      case AbortKey(_) => AbortKeepsFlow(f, e, k, limit);
      case _ => assert false;
  }

  /** Every step, of this key or of another, keeps what is known of a timely key. */
  lemma StepKeepsFlow(f: Flow, e: Step, k: Key, limit: nat)
    requires FlowInv(f, k, limit) && Allowed(f, e, limit) && Timely(f, e.at, k)
    ensures FlowInv(NextFlow(f, e), k, limit)
  {
    hide FlowInv, NextFlow, Enabled, Timely, Follows;
    if e.act.Do? && e.act.op.Admission? {
      AdmissionKeepsFlow(f, e, k, limit);
    } else if f.sys.handles[Generation(e.act)].key == k {
      OwnStepKeepsFlow(f, e, k, limit);
    } else {
      ElsewhereKeepsFlow(f, e, k, limit);
    }
  }

  // ---------------------------------------------------------------- whole runs

  const NOTHING := Flow(CheckoutRuns.EMPTY, map[], map[], map[])

  ghost function Play(steps: seq<Step>): Flow
    decreases |steps|
  {
    if steps == [] then NOTHING else NextFlow(Play(steps[..|steps| - 1]), steps[|steps| - 1])
  }

  ghost predicate IsPlay(steps: seq<Step>, limit: nat) {
    forall i :: 0 <= i < |steps| ==> Allowed(Play(steps[..i]), steps[i], limit)
  }

  /** At every step of the run, the key's admissions are timely. */
  ghost predicate TimelyKey(steps: seq<Step>, k: Key) {
    forall i :: 0 <= i < |steps| ==> Timely(Play(steps[..i]), steps[i].at, k)
  }

  lemma {:induction false} FlowOverPlays(steps: seq<Step>, k: Key, limit: nat)
    requires IsPlay(steps, limit) && TimelyKey(steps, k)
    ensures FlowInv(Play(steps), k, limit)
    decreases |steps|
  {
    hide Allowed, NextFlow, Timely;
    if steps == [] {
      assert FlowInv(NOTHING, k, limit) by { InvOverRuns([], limit); }
    } else {
      var p := steps[..|steps| - 1];
      assert forall i :: 0 <= i < |p| ==> p[..i] == steps[..i] && p[i] == steps[i];
      FlowOverPlays(p, k, limit);
      StepKeepsFlow(Play(p), steps[|steps| - 1], k, limit);
    }
  }

  lemma PrefixIsPlay(steps: seq<Step>, n: nat, k: Key, limit: nat)
    requires IsPlay(steps, limit) && TimelyKey(steps, k) && n <= |steps|
    ensures IsPlay(steps[..n], limit) && TimelyKey(steps[..n], k)
  {
    hide Allowed, Timely;
    var p := steps[..n];
    assert forall i :: 0 <= i < |p| ==> p[..i] == steps[..i] && p[i] == steps[i];
  }

  /** The flow before step `i`. */
  ghost function Before(steps: seq<Step>, i: nat): Flow
    requires i <= |steps|
  {
    Play(steps[..i])
  }

  lemma BeforeStep(steps: seq<Step>, i: nat, k: Key, limit: nat)
    requires IsPlay(steps, limit) && TimelyKey(steps, k) && i < |steps|
    ensures FlowInv(Before(steps, i), k, limit) && Allowed(Before(steps, i), steps[i], limit)
    ensures Timely(Before(steps, i), steps[i].at, k)
    ensures Before(steps, i + 1) == NextFlow(Before(steps, i), steps[i])
  {
    hide Allowed, NextFlow, FlowInv, Timely;
    PrefixIsPlay(steps, i, k, limit);
    FlowOverPlays(steps[..i], k, limit);
    assert steps[..i + 1][..i] == steps[..i];
  }

  /** Step `i` may send a hire of `task` for key `k`. */
  ghost predicate Sends(steps: seq<Step>, i: nat, k: Key, task: nat)
    requires i < |steps|
  {
    && steps[i].act.Hire? && steps[i].act.task == task
    && steps[i].act.generation in Before(steps, i).sys.handles
    && Before(steps, i).sys.handles[steps[i].act.generation].key == k
  }

  /** Step `i` discards the recovery of key `k`, on finalized proof that nothing was funded. */
  ghost predicate Discards(steps: seq<Step>, i: nat, k: Key)
    requires i < |steps|
  {
    && steps[i].act.Do? && steps[i].act.op.DiscardRecovery?
    && steps[i].act.op.generation in Before(steps, i).sys.handles
    && Before(steps, i).sys.handles[steps[i].act.op.generation].key == k
  }

  lemma HiredStays(f: Flow, e: Step, k: Key, limit: nat)
    requires FlowInv(f, k, limit) && Allowed(f, e, limit) && k in f.hired
    requires e.act.Do? && e.act.op.DiscardRecovery? && e.act.op.generation in f.sys.handles ==>
               f.sys.handles[e.act.op.generation].key != k
    ensures k in NextFlow(f, e).hired && NextFlow(f, e).hired[k] == f.hired[k]
  {
    if e.act.Hire? && Own(f, e, k) { HireIsTheSame(f, e, k, limit); }
    hide FlowInv, Next, Follows, Enabled;
  }

  lemma {:induction false} HiredUntil(steps: seq<Step>, i: nat, j: nat, k: Key, task: nat, limit: nat)
    requires IsPlay(steps, limit) && TimelyKey(steps, k) && i < j <= |steps| && Sends(steps, i, k, task)
    requires forall l :: i < l < j ==> !Discards(steps, l, k)
    ensures k in Before(steps, j).hired && Before(steps, j).hired[k] == task
    decreases j
  {
    hide FlowInv, Allowed, IsPlay, TimelyKey, Timely;
    BeforeStep(steps, j - 1, k, limit);
    if j - 1 == i {
      assert Before(steps, j).hired[k] == task by { SendIsRecorded(Before(steps, i), steps[i], limit); }
    } else {
      hide NextFlow;
      HiredUntil(steps, i, j - 1, k, task, limit);
      assert !Discards(steps, j - 1, k);
      HiredStays(Before(steps, j - 1), steps[j - 1], k, limit);
    }
  }

  lemma SendIsRecorded(f: Flow, e: Step, limit: nat)
    requires Allowed(f, e, limit) && e.act.Hire?
    ensures var k := f.sys.handles[e.act.generation].key;
            k in NextFlow(f, e).hired && NextFlow(f, e).hired[k] == e.act.task
  {
    hide Follows;
  }

  /**
   At most one funded hire per key. If every admission settles within the hour and the SDK reports what it
   sent, then all hires possibly sent for a key, without a discard in between, are for one task.
   */
  lemma OneHirePerKey(steps: seq<Step>, i: nat, j: nat, k: Key, t1: nat, t2: nat, limit: nat)
    requires IsPlay(steps, limit) && TimelyKey(steps, k) && i < j < |steps|
    requires Sends(steps, i, k, t1) && Sends(steps, j, k, t2)
    requires forall l :: i < l < j ==> !Discards(steps, l, k)
    ensures t1 == t2
  {
    hide FlowInv, Allowed;
    HiredUntil(steps, i, j, k, t1, limit);
    BeforeStep(steps, j, k, limit);
    HireIsTheSame(Before(steps, j), steps[j], k, limit);
  }

  lemma DoneStays(f: Flow, e: Step, k: Key, limit: nat)
    requires FlowInv(f, k, limit) && Allowed(f, e, limit) && k in f.done
    ensures k in NextFlow(f, e).done && NextFlow(f, e).done[k] == f.done[k]
  {
    if e.act.Do? && e.act.op.CompleteWith? && Own(f, e, k) && !Replays(f.sys.handles[e.act.op.generation]) {
      WorkingKeyIsNotDone(f, e.act.op.generation, limit);
    }
    hide FlowInv, Next, Follows, Enabled;
  }

  lemma {:induction false} DoneUntil(steps: seq<Step>, i: nat, j: nat, k: Key, limit: nat)
    requires IsPlay(steps, limit) && TimelyKey(steps, k) && i <= j <= |steps| && k in Before(steps, i).done
    ensures k in Before(steps, j).done && Before(steps, j).done[k] == Before(steps, i).done[k]
    decreases j
  {
    hide FlowInv, Allowed, IsPlay, NextFlow, TimelyKey, Timely;
    if i < j {
      BeforeStep(steps, j - 1, k, limit);
      DoneUntil(steps, i, j - 1, k, limit);
      DoneStays(Before(steps, j - 1), steps[j - 1], k, limit);
    }
  }

  /** A completed key keeps its answer for ever, sends nothing more, and answers every later admission with it. */
  lemma CompletedKeyOnlyReplays(steps: seq<Step>, i: nat, j: nat, k: Key, limit: nat)
    requires IsPlay(steps, limit) && TimelyKey(steps, k) && i <= j < |steps| && k in Before(steps, i).done
    ensures forall task :: !Sends(steps, j, k, task)
    ensures var f := Before(steps, j);
            && k in f.sys.policy.entries
            && var e := f.sys.policy.entries[k];
            && (e.state.Complete? ==> e.body == Some(Before(steps, i).done[k]))
            && (!e.state.Complete? ==>
                  && e.generation in f.sys.handles && Replays(f.sys.handles[e.generation])
                  && f.sys.handles[e.generation].previous.value.body == Some(Before(steps, i).done[k]))
  {
    DoneUntil(steps, i, j, k, limit);
    BeforeStep(steps, j, k, limit);
    var f := Before(steps, j);
    assert DoneKept(f, k);
    if steps[j].act.Hire? && Own(f, steps[j], k) { HireIsTheSame(f, steps[j], k, limit); }
  }

  // ---------------------------------------------------------------- why admissions must settle in time

  /** A first admission that has not settled is remembered by pruning exactly while its hour lasts. */
  lemma UnsettledIsRememberedForItsHour(f: Flow, g: nat, at: int, limit: nat)
    requires g in f.sys.handles && FlowInv(f, f.sys.handles[g].key, limit) && !f.sys.handles[g].settled && f.sys.handles[g].previous.None?
    requires f.sys.handles[g].active.recovery.None?
    ensures f.sys.handles[g].key in PrunedEntries(f.sys.policy.entries, at) <==>
              at < f.sys.handles[g].admittedAt + SPEND_WINDOW
  {
    hide Inv, HireKept, DoneKept;
    UnsettledIsCurrent(f, g, limit);
  }

  /**
   Once it is forgotten, the next admission of the key starts from nothing and may hire under any task, even
   though the first hire may have been sent; and the first handle can no longer record its outcome.
   */
  lemma ForgottenKeyHiresAnew(f: Flow, g: nat, at: int, generation: nat, id: nat, debit: nat, task: nat, limit: nat)
    requires g in f.sys.handles && FlowInv(f, f.sys.handles[g].key, limit) && !f.sys.handles[g].settled && f.sys.handles[g].previous.None?
    requires f.sys.handles[g].active.recovery.None? && at >= f.sys.handles[g].admittedAt + SPEND_WINDOW
    ensures var q := Prune(f.sys.policy, at);
            var (p, answer) := AdmitKey(q, f.sys.handles[g].key, debit, limit, at, generation, id);
            && !Current(q, f.sys.handles[g])
            && (answer.Admitted? ==>
                  answer.handle.previous.None? && Follows(answer.handle, Bound, Check(generation, task)))
  {
    UnsettledIsRememberedForItsHour(f, g, at, limit);
    hide FlowInv, Total;
  }
}
