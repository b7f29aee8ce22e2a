/** Settlement accounting over whole histories. */
module WorkerEarnings {
  import opened Wrappers
  import opened WorkerState
  import opened WorkerProtocol

  /** Lamports attributed to records by one event. */
  function Attributes(m: Monitor, e: Event): nat
    requires Allowed(m, e)
  {
    if e.act.Reconcile? then Gains(Remaining(m.disk, e.act.next), e.act.next.submissions) else 0
  }

  /** Lamports attributed to records by the first `i` events. */
  ghost function Attributed(sha: Hasher, t: seq<Event>, i: nat): nat
    requires IsHistory(sha, t) && i <= |t|
  {
    if i == 0 then 0
    else
      StepAt(sha, t, i - 1);
      Attributed(sha, t, i - 1) + Attributes(At(sha, t, i - 1), t[i - 1])
  }

  lemma EventPays(sha: Hasher, m: Monitor, e: Event)
    requires Allowed(m, e)
    ensures Apply(sha, m, e).disk.baseline >= m.disk.baseline + Attributes(m, e)
  {
    hide Unsettled, HasTask, KeepNewest, MaySendAgain, HashKnown, Remaining, RecordMoves, SolAccepted, Gains;
  }

  /**
   Between any two points of a history the earnings baseline does not decrease, and the lamports attributed
   to records are at most its growth.
   */
  lemma {:induction false} AttributionBounded(sha: Hasher, t: seq<Event>, i: nat, j: nat)
    requires IsHistory(sha, t) && i <= j <= |t|
    ensures 0 <= Attributed(sha, t, j) - Attributed(sha, t, i) <= At(sha, t, j).disk.baseline - At(sha, t, i).disk.baseline
    decreases j
  {
    hide Allowed, Apply, Attributes;
    if i < j {
      AttributionBounded(sha, t, i, j - 1);
      StepAt(sha, t, j - 1);
      EventPays(sha, At(sha, t, j - 1), t[j - 1]);
    }
  }

  // ---------------------------------------------------------------- a record settles at most once

  lemma InTasks(rs: seq<Record>, r: Record)
    requires UniqueTasks(rs) && r in rs
    ensures HasTask(rs, r.task) && forall q :: q in rs && q.task == r.task ==> q == r
  {
  }

  /** An event leaves a settled record of the ledger as it is, or prunes it. */
  lemma SettledStays(sha: Hasher, m: Monitor, e: Event, r: Record)
    requires Sound(sha, m.disk) && Allowed(m, e) && r in m.disk.submissions && r.settled
    ensures forall q :: q in Apply(sha, m, e).disk.submissions && q.task == r.task ==> q == r
  {
    hide ClaimOk, RecordOk, KeepNewest, Settled, Unsettled, MaySendAgain, HashKnown, Gains, SolAccepted, Without;
    DraftValid(sha, m, e);
    var draft := Draft(sha, m, e);
    PrunedValid(sha, draft);
    InTasks(m.disk.submissions, r);
    forall q | q in Apply(sha, m, e).disk.submissions && q.task == r.task
      ensures q == r
    {
      assert q in draft.submissions;
      if e.act.Reconcile? { ReconcileFreezes(sha, m.disk, draft, e.act.observed, e.act.sol, r, q); }
    }
  }

  lemma ReconcileFreezes(
      sha: Hasher, d: WorkerState, next: WorkerState, observed: Option<nat>, sol: set<Address>, r: Record, q: Record)
    requires Sound(sha, d) && Reconciles(d, next, observed, sol)
    requires r in d.submissions && r.settled && q in next.submissions && q.task == r.task
    ensures q == r
  {
    hide ClaimOk, RecordOk, Settled, Unsettled, Gains, SolAccepted, Without, HasTask;
    var k :| 0 <= k < |next.submissions| && next.submissions[k] == q;
    var before := Remaining(d, next)[k];
    assert before in Remaining(d, next);
    if d.openClaim.None? && next.openClaim.Some? {
      WithoutTask(d.submissions, next.openClaim.value.task);
    }
    InTasks(d.submissions, r);
    assert before == r;
  }

  /** The task keeps a record from event `i` on. */
  ghost predicate Kept(sha: Hasher, t: seq<Event>, i: nat, j: nat, task: Address)
    requires IsHistory(sha, t) && i <= j <= |t|
  {
    forall k :: i <= k <= j ==> HasTask(At(sha, t, k).disk.submissions, task)
  }

  /** A settled record never changes again, nor settles again, for as long as it is retained. */
  lemma {:induction false} SettlesOnce(sha: Hasher, t: seq<Event>, i: nat, j: nat, r: Record)
    requires IsHistory(sha, t) && i <= j <= |t|
    requires r in At(sha, t, i).disk.submissions && r.settled
    requires Kept(sha, t, i, j, r.task)
    ensures r in At(sha, t, j).disk.submissions
    decreases j
  {
    hide Allowed, Apply, Sound;
    if i < j {
      SettlesOnce(sha, t, i, j - 1, r);
      StepAt(sha, t, j - 1);
      PrefixIsHistory(sha, t, j - 1);
      DiskSound(sha, t[..j - 1]);
      SettledStays(sha, At(sha, t, j - 1), t[j - 1], r);
      var rs := At(sha, t, j).disk.submissions;
      assert HasTask(rs, r.task);
      var k :| 0 <= k < |rs| && rs[k].task == r.task;
      assert rs[k] in rs;
    }
  }

  // ---------------------------------------------------------------- what a SOL acceptance shows

  /** Event `j` reconciles, and settles the `k`-th remaining record as `r`. */
  ghost predicate SettledBy(sha: Hasher, t: seq<Event>, j: nat, k: nat, r: Record)
    requires IsHistory(sha, t) && j < |t|
  {
    && t[j].act.Reconcile? && k < |t[j].act.next.submissions| && t[j].act.next.submissions[k] == r
    && k < |Remaining(At(sha, t, j).disk, t[j].act.next)|
    && NewlySettled(Remaining(At(sha, t, j).disk, t[j].act.next)[k], r)
  }

  /** An event leaves a record as it found it, or is the reconciliation that settles it. */
  lemma SettlesOrKeeps(sha: Hasher, m: Monitor, e: Event, r: Record) returns (k: nat)
    requires Sound(sha, m.disk) && Allowed(m, e) && r in Apply(sha, m, e).disk.submissions && r.settled && r !in m.disk.submissions
    ensures e.act.Reconcile? && k < |e.act.next.submissions| && e.act.next.submissions[k] == r
    ensures k < |Remaining(m.disk, e.act.next)| && NewlySettled(Remaining(m.disk, e.act.next)[k], r)
  {
    hide ClaimOk, RecordOk, KeepNewest, Settled, Unsettled, MaySendAgain, HashKnown, Gains, SolAccepted, Without;
    DraftValid(sha, m, e);
    PrunedValid(sha, Draft(sha, m, e));
    assert r in Draft(sha, m, e).submissions;
    k :| 0 <= k < |e.act.next.submissions| && e.act.next.submissions[k] == r;
    var before := Remaining(m.disk, e.act.next)[k];
    assert before in Remaining(m.disk, e.act.next);
    if m.disk.openClaim.None? && e.act.next.openClaim.Some? { WithoutTask(m.disk.submissions, e.act.next.openClaim.value.task); }
    assert before in m.disk.submissions;
  }

  /** Every settled record of the ledger was settled by a reconciliation. */
  lemma {:induction false} SettledHasOrigin(sha: Hasher, t: seq<Event>, i: nat, r: Record) returns (j: nat, k: nat)
    requires IsHistory(sha, t) && i <= |t| && r in At(sha, t, i).disk.submissions && r.settled
    ensures j < i && SettledBy(sha, t, j, k, r)
    decreases i
  {
    hide Allowed, Apply, Sound;
    AtStart(sha, t);
    StepAt(sha, t, i - 1);
    PrefixIsHistory(sha, t, i - 1);
    DiskSound(sha, t[..i - 1]);
    if r in At(sha, t, i - 1).disk.submissions {
      j, k := SettledHasOrigin(sha, t, i - 1, r);
    } else {
      j := i - 1;
      k := SettlesOrKeeps(sha, At(sha, t, i - 1), t[i - 1], r);
    }
  }

  /**
   An accepted record in the ledger, at any point of any history, was settled by a reconciliation; and if its task
   was read to pay in SOL, that reconciliation observed earnings strictly above the baseline, and made them the baseline.
   */
  lemma AcceptedSolWasEarned(sha: Hasher, t: seq<Event>, i: nat, r: Record) returns (j: nat, k: nat)
    requires IsHistory(sha, t) && i <= |t| && r in At(sha, t, i).disk.submissions
    requires r.settled && r.outcome == Some(Outcome.Accepted)
    ensures j < i && SettledBy(sha, t, j, k, r)
    ensures r.task in t[j].act.sol ==>
              && t[j].act.observed.Some? && t[j].act.observed.value > At(sha, t, j).disk.baseline
              && At(sha, t, j + 1).disk.baseline == t[j].act.observed.value
  {
    j, k := SettledHasOrigin(sha, t, i, r);
    StepAt(sha, t, j);
    hide Sound, Gains, RecordOk, Unsettled, KeepNewest;
    var before := Remaining(At(sha, t, j).disk, t[j].act.next)[k];
    assert RecordMoves(before, r);
  }
}
