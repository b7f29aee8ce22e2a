/** Why a checkout must settle within its hour: a run in which one key is hired under two tasks. */
module CheckoutTwice {
  import opened Wrappers
  import opened Checkout
  import opened CheckoutRuns
  import opened CheckoutHires

  const KEY := Key(0, 0)
  const ASK := Request(Ok(0), Some(0), 1, Some(1))
  const NO_POLICY := Policy(map[], map[], map[])

  /** The handle of a checkout of the key, before its intent is bound and after. */
  function Opened(g: nat, id: nat, at: int): Handle {
    Handle(KEY, Entry(Pending, g, at + SPEND_WINDOW, 1, None, None, Some(id), None), None, true, at, false)
  }

  function Ready(g: nat, id: nat, at: int): Handle {
    Opened(g, id, at).(active := Opened(g, id, at).active.(fingerprint := Some(0)))
  }

  /** The policy while this is the only checkout. */
  function Holding(h: Handle, id: nat): Policy {
    Policy(map[KEY := h.active], map[0 := [h.admittedAt]], map[id := Reservation(0, 1, h.admittedAt + SPEND_WINDOW)])
  }

  /** Admission, binding, the last check before the send, and the send. */
  function Checkout4(g: nat, id: nat, at: int, task: nat): seq<Step> {
    [Step(at, Do(Admission(ASK, g, id))), Step(at, Do(BindIntent(g, Some(0)))), Step(at, Check(g, task)), Step(at, Hire(g, task))]
  }

  lemma ExtendPlay(steps: seq<Step>, e: Step, limit: nat)
    requires IsPlay(steps, limit) && Allowed(Play(steps), e, limit)
    ensures IsPlay(steps + [e], limit) && Play(steps + [e]) == NextFlow(Play(steps), e)
  {
    hide Allowed, NextFlow;
    var longer := steps + [e];
    assert longer[..|longer| - 1] == steps;
    forall i | 0 <= i < |longer|
      ensures Allowed(Play(longer[..i]), longer[i], limit)
    {
      if i < |steps| { assert longer[..i] == steps[..i]; } else { assert longer[..i] == steps; }
    }
  }

  /** Nothing is kept of an unsettled first checkout once its hour is over. */
  lemma ForgottenByThen(h: Handle, id: nat, now: int)
    requires h.active.state.Pending? && h.active.recovery.None? && h.active.expiresAt <= now
    requires h.active.reservation == Some(id) && h.admittedAt + SPEND_WINDOW <= now
    ensures Prune(Holding(h, id), now) == NO_POLICY
  {
    var p := Holding(h, id);
    var none: map<Key, Entry> := map[];
    assert PrunedEntries(p.entries, now) == none;
    assert PrunedReservations(none, p.reservations, now) == map[];
    assert [h.admittedAt][..0] == [] && Recent([h.admittedAt], now) == [];
    assert PrunedTimes(p.times, now) == map[];
  }

  /** Admission of the key when nothing else is remembered. */
  lemma AdmittedAlone(p: Policy, g: nat, id: nat, at: int)
    requires Prune(p, at) == NO_POLICY
    ensures Admit(p, ASK, at, g, id) == (Holding(Opened(g, id, at), id), Admitted(Opened(g, id, at)))
  {
    hide Prune;
    assert Total(map[], 0) == 0;
    assert [] + [at] == [at];
  }

  /** Where a checkout stands after its first `n` steps. */
  ghost predicate Stands(f: Flow, h: Handle, id: nat, st: Stage) {
    var g := h.active.generation;
    && f.sys.policy == Holding(h, id) && f.sys.now == h.admittedAt
    && g in f.sys.handles && f.sys.handles[g] == h && g in f.stages && f.stages[g] == st
  }

  lemma OpensAlone(f: Flow, g: nat, id: nat, at: int)
    requires Prune(f.sys.policy, at) == NO_POLICY && at >= f.sys.now && g != id && g !in f.sys.issued && id !in f.sys.issued
    ensures var e := Step(at, Do(Admission(ASK, g, id)));
            Allowed(f, e, 1) && Stands(NextFlow(f, e), Opened(g, id, at), id, Started)
            && NextFlow(f, e).sys.issued == f.sys.issued + {g, id}
  {
    AdmittedAlone(f.sys.policy, g, id, at);
    hide Prune, Admit;
  }

  lemma Binds(f: Flow, g: nat, id: nat, at: int)
    requires Stands(f, Opened(g, id, at), id, Started)
    ensures var e := Step(at, Do(BindIntent(g, Some(0))));
            Allowed(f, e, 1) && Stands(NextFlow(f, e), Ready(g, id, at), id, Bound) && NextFlow(f, e).sys.issued == f.sys.issued
  {
    var h := Opened(g, id, at);
    assert MayBind(f.sys.policy, h, Some(0));
    assert f.sys.policy.entries[KEY := Ready(g, id, at).active] == Holding(Ready(g, id, at), id).entries;
  }

  lemma Checks(f: Flow, g: nat, id: nat, at: int, task: nat)
    requires Stands(f, Ready(g, id, at), id, Bound)
    ensures var e := Step(at, Check(g, task));
            Allowed(f, e, 1) && Stands(NextFlow(f, e), Ready(g, id, at), id, Checked(task)) && NextFlow(f, e).sys.issued == f.sys.issued
  {
    var p := f.sys.policy;
    assert Checkpoint(p, Ready(g, id, at), at) == p;
  }

  lemma Hires(f: Flow, g: nat, id: nat, at: int, task: nat)
    requires Stands(f, Ready(g, id, at), id, Checked(task))
    ensures var e := Step(at, Hire(g, task));
            Allowed(f, e, 1) && Stands(NextFlow(f, e), Ready(g, id, at), id, Sent(task)) && NextFlow(f, e).sys.issued == f.sys.issued
  {
  }

  /** A whole checkout that starts when nothing is remembered, and has just sent its hire. */
  lemma ChecksOut(steps: seq<Step>, g: nat, id: nat, at: int, task: nat)
    requires IsPlay(steps, 1)
    requires var f := Play(steps);
             Prune(f.sys.policy, at) == NO_POLICY && at >= f.sys.now && g != id && g !in f.sys.issued && id !in f.sys.issued
    ensures var after := steps + Checkout4(g, id, at, task);
            && IsPlay(after, 1) && Stands(Play(after), Ready(g, id, at), id, Sent(task))
            && Play(after).sys.issued == Play(steps).sys.issued + {g, id}
            && Sends(after, |steps| + 3, KEY, task)
  {
    var run := Checkout4(g, id, at, task);
    hide Allowed, NextFlow, Play, IsPlay, Prune;
    OpensAlone(Play(steps), g, id, at);
    ExtendPlay(steps, run[0], 1);
    var s1 := steps + [run[0]];
    Binds(Play(s1), g, id, at);
    ExtendPlay(s1, run[1], 1);
    var s2 := s1 + [run[1]];
    Checks(Play(s2), g, id, at, task);
    ExtendPlay(s2, run[2], 1);
    var s3 := s2 + [run[2]];
    Hires(Play(s3), g, id, at, task);
    ExtendPlay(s3, run[3], 1);
    assert s3 + [run[3]] == steps + run;
    assert (steps + run)[..|steps| + 3] == s3;
  }

  /** A checkout does not settle; its hour passes; the key is checked out again, under another task. */
  const TWICE := Checkout4(1, 2, 0, 1) + Checkout4(3, 4, SPEND_WINDOW, 2)

  lemma SendsEarlier(steps: seq<Step>, more: seq<Step>, i: nat, k: Key, task: nat)
    requires i < |steps| && Sends(steps, i, k, task)
    ensures Sends(steps + more, i, k, task)
  {
    hide Play;
    assert (steps + more)[..i] == steps[..i];
  }

  lemma NoDiscards()
    ensures |TWICE| == 8 && forall l :: 0 <= l < 8 ==> !Discards(TWICE, l, KEY)
  {
    hide Play;
  }

  /** One key, two hires possibly sent under two tasks, and no discard: the first admission had not settled in time. */
  lemma TwoHiresForOneKey()
    ensures IsPlay(TWICE, 1) && Sends(TWICE, 3, KEY, 1) && Sends(TWICE, 7, KEY, 2)
    ensures forall l :: 3 < l < 7 ==> !Discards(TWICE, l, KEY)
    ensures !TimelyKey(TWICE, KEY)
  {
    var first := Checkout4(1, 2, 0, 1);
    assert Prune(NO_POLICY, 0) == NO_POLICY;
    assert [] + first == first;
    assert IsPlay([], 1) && Play([]) == NOTHING;
    hide Allowed, NextFlow, Prune, Play, IsPlay, Sends, TimelyKey;
    ChecksOut([], 1, 2, 0, 1);
    ForgottenByThen(Ready(1, 2, 0), 2, SPEND_WINDOW);
    ChecksOut(first, 3, 4, SPEND_WINDOW, 2);
    SendsEarlier(first, Checkout4(3, 4, SPEND_WINDOW, 2), 3, KEY, 1);
    NoDiscards();
    if TimelyKey(TWICE, KEY) { OneHirePerKey(TWICE, 3, 7, KEY, 1, 2, 1); }
  }
}
