/** Claims never overlap: whatever is open on chain, or may still land, is in the marker or in the ledger. */
module WorkerClaims {
  import opened Wrappers
  import opened WorkerState
  import opened WorkerProtocol

  /**
   The chain's side of a history. `fate(k)` is when the claim broadcast by event `k` lands, if it ever does;
   `open(task, time)` says whether this worker's claim account on the task exists. A claim lands within
   `landing` of the time its marker was written, and a recovery reads at most `latency` before it acts.
   */
  datatype Chain = Chain(fate: nat -> Option<int>, open: (Address, int) -> bool, landing: nat, latency: nat)

  predicate MarkerIs(d: WorkerState, task: Address) {
    d.openClaim.Some? && d.openClaim.value.task == task
  }

  ghost predicate Sends(sha: Hasher, t: seq<Event>, k: nat, task: Address)
    requires IsHistory(sha, t)
  {
    k < |t| && t[k].act.SendClaim? && MarkerIs(At(sha, t, k).disk, task)
  }

  ghost predicate LastSend(t: seq<Event>, i: nat, k: nat)
    requires i <= |t|
  {
    k < i && t[k].act.SendClaim? && forall l :: k < l < i ==> !t[l].act.SendClaim?
  }

  ghost predicate EverLedgered(t: seq<Event>, i: nat, task: Address)
    requires i <= |t|
  {
    exists k :: 0 <= k < i && t[k].act.Commit? && t[k].act.record.task == task
  }

  /** The broadcast does not land after `z`. */
  predicate Done(w: Chain, k: nat, z: int) {
    w.fate(k).None? || w.fate(k).value <= z
  }

  // ---------------------------------------------------------------- assumptions

  /** A claim lands after it is sent, within the landing time of its marker. */
  ghost predicate LandsInTime(sha: Hasher, t: seq<Event>, w: Chain)
    requires IsHistory(sha, t)
  {
    forall k :: 0 <= k < |t| && t[k].act.SendClaim? && w.fate(k).Some? ==>
      At(sha, t, k).disk.openClaim.Some? &&
      t[k].at < w.fate(k).value <= At(sha, t, k).disk.openClaim.value.claimedAt + w.landing
  }

  /** The SDK's definite verdicts are right. */
  ghost predicate ReportsTrue(t: seq<Event>, w: Chain) {
    forall j, k :: 0 <= j < |t| && t[j].act.HearClaim? && LastSend(t, j, k) ==>
      && (t[j].act.report.Failed? ==> w.fate(k).None?)
      && (t[j].act.report.Landed? ==> w.fate(k).Some? && w.fate(k).value <= t[j].at)
  }

  /** Reads of the claim account are true at the moment they happen. */
  ghost predicate ReadsTrue(sha: Hasher, t: seq<Event>, w: Chain)
    requires IsHistory(sha, t)
  {
    forall j :: 0 <= j < |t| && t[j].act.ReadClaim? && At(sha, t, j).disk.openClaim.Some? ==>
      (t[j].act.claim.Some? <==> w.open(At(sha, t, j).disk.openClaim.value.task, t[j].at))
  }

  ghost predicate LandsIn(sha: Hasher, t: seq<Event>, w: Chain, task: Address, u: int, v: int)
    requires IsHistory(sha, t)
  {
    exists k :: Sends(sha, t, k, task) && w.fate(k).Some? && u < w.fate(k).value <= v
  }

  /** Claim accounts start out absent, and only a landing broadcast of this worker opens one. */
  ghost predicate OpenedByLanding(sha: Hasher, t: seq<Event>, w: Chain)
    requires IsHistory(sha, t)
  {
    && (forall task :: !w.open(task, 0))
    && (forall task, u, v :: u < v <= At(sha, t, |t|).now && !w.open(task, u) && w.open(task, v) ==>
          LandsIn(sha, t, w, task, u, v))
  }

  /** A marker is retired on a claim read no older than the latency. */
  ghost predicate PromptReads(sha: Hasher, t: seq<Event>, w: Chain)
    requires IsHistory(sha, t)
  {
    forall j :: 0 <= j < |t| && t[j].act.Retire? && At(sha, t, j).claim.Some? ==>
      At(sha, t, j).claim.value.at >= t[j].at - w.latency
  }

  ghost predicate Believable(sha: Hasher, t: seq<Event>, w: Chain) {
    && IsHistory(sha, t)
    && w.landing + w.latency <= GRACE
    && LandsInTime(sha, t, w) && ReportsTrue(t, w) && ReadsTrue(sha, t, w)
    && OpenedByLanding(sha, t, w) && PromptReads(sha, t, w)
  }

  // ---------------------------------------------------------------- what the process remembers is true

  lemma MarkerAfter(sha: Hasher, m: Monitor, e: Event, task: Address)
    requires Allowed(m, e)
    ensures var d := Apply(sha, m, e).disk;
            && (MarkerIs(d, task) && !MarkerIs(m.disk, task) ==>
                  (e.act == StartClaim(task) && m.disk.openClaim.None?)
                  || (e.act.Reconcile? && m.disk.openClaim.None? && HasTask(m.disk.submissions, task) && !InPhase(d, Claiming)))
            && (MarkerIs(m.disk, task) && !MarkerIs(d, task) ==> e.act.AbandonClaim? || e.act.Commit? || e.act.Retire?)
  {
    hide Unsettled, KeepNewest, MaySendAgain, HashKnown, Remaining, Gains, RecordMoves, SolAccepted;
  }

  /** Evidence held about the claim account comes from a read made for the current marker's task. */
  ghost predicate ClaimEvidence(sha: Hasher, t: seq<Event>, i: nat)
    requires IsHistory(sha, t) && i <= |t|
  {
    var m := At(sha, t, i);
    m.claim.Some? ==>
      && m.disk.openClaim.Some?
      && exists j :: ReadFor(sha, t, i, j, m.claim.value, m.disk.openClaim.value.task)
  }

  ghost predicate ReadFor(sha: Hasher, t: seq<Event>, i: nat, j: nat, seen: Seen<Claim>, task: Address)
    requires IsHistory(sha, t) && i <= |t|
  {
    j < i && t[j].act == ReadClaim(seen.value) && t[j].at == seen.at && MarkerIs(At(sha, t, j).disk, task)
  }

  lemma EvidenceStep(sha: Hasher, m: Monitor, e: Event)
    requires Allowed(m, e) && (m.claim.Some? ==> m.disk.openClaim.Some?)
    ensures var n := Apply(sha, m, e);
            && (n.claim.Some? ==> n.disk.openClaim.Some? && m.disk.openClaim.Some?
                                  && n.disk.openClaim.value.task == m.disk.openClaim.value.task)
            && (n.claim.Some? && !e.act.ReadClaim? ==> n.claim == m.claim)
            && (e.act.ReadClaim? ==> n.claim == Some(Seen(e.at, e.act.claim)))
  {
    hide Unsettled, KeepNewest, MaySendAgain, HashKnown, Reconciles;
  }

  lemma {:induction false} ClaimEvidenceHolds(sha: Hasher, t: seq<Event>, i: nat)
    requires IsHistory(sha, t) && i <= |t|
    ensures ClaimEvidence(sha, t, i)
    decreases i
  {
    hide Allowed, Apply;
    AtStart(sha, t);
    if i > 0 {
      ClaimEvidenceHolds(sha, t, i - 1);
      StepAt(sha, t, i - 1);
      var m, n := At(sha, t, i - 1), At(sha, t, i);
      EvidenceStep(sha, m, t[i - 1]);
      if n.claim.Some? {
        var task := n.disk.openClaim.value.task;
        if t[i - 1].act.ReadClaim? {
          assert ReadFor(sha, t, i, i - 1, n.claim.value, task);
        } else {
          var j :| ReadFor(sha, t, i - 1, j, m.claim.value, task);
          assert ReadFor(sha, t, i, j, n.claim.value, task);
        }
      }
    }
  }

  /** A broadcast of the current claim attempt, and the verdict heard about it. */
  ghost predicate ReportEvidence(sha: Hasher, t: seq<Event>, i: nat)
    requires IsHistory(sha, t) && i <= |t|
  {
    var m := At(sha, t, i);
    && (m.memory.ClaimSent? ==> exists k :: LastSend(t, i, k))
    && (m.memory.Heard? ==> exists j, k :: HeardAbout(t, i, j, k, m.memory.report))
  }

  ghost predicate HeardAbout(t: seq<Event>, i: nat, j: nat, k: nat, report: Report)
    requires i <= |t|
  {
    j < i && t[j].act == HearClaim(report) && LastSend(t, j, k) && LastSend(t, i, k)
  }

  lemma MemoryStep(sha: Hasher, m: Monitor, e: Event)
    requires Allowed(m, e)
    ensures var n := Apply(sha, m, e);
            && (n.memory.ClaimSent? ==> e.act.SendClaim? || (m.memory.ClaimSent? && !e.act.SendClaim?))
            && (n.memory.Heard? ==> (e.act == HearClaim(n.memory.report) && m.memory.ClaimSent?)
                                    || (m.memory == n.memory && !e.act.SendClaim?))
  {
    hide Draft, Pruned, Unsettled, MaySendAgain, HashKnown, Reconciles;
  }

  lemma {:induction false} ReportEvidenceHolds(sha: Hasher, t: seq<Event>, i: nat)
    requires IsHistory(sha, t) && i <= |t|
    ensures ReportEvidence(sha, t, i)
    decreases i
  {
    hide Allowed, Apply;
    AtStart(sha, t);
    if i > 0 {
      ReportEvidenceHolds(sha, t, i - 1);
      StepAt(sha, t, i - 1);
      var m, n, e := At(sha, t, i - 1), At(sha, t, i), t[i - 1];
      MemoryStep(sha, m, e);
      if n.memory.ClaimSent? {
        if e.act.SendClaim? {
          assert LastSend(t, i, i - 1);
        } else {
          var k :| LastSend(t, i - 1, k);
          assert LastSend(t, i, k);
        }
      } else if n.memory.Heard? {
        if m.memory.ClaimSent? {
          var k :| LastSend(t, i - 1, k);
          assert HeardAbout(t, i, i - 1, k, n.memory.report);
        } else {
          var j, k :| HeardAbout(t, i - 1, j, k, m.memory.report);
          assert HeardAbout(t, i, j, k, n.memory.report);
        }
      }
    }
  }

  /** Everything in the ledger was committed to it earlier. */
  lemma {:induction false} LedgerWasCommitted(sha: Hasher, t: seq<Event>, i: nat, task: Address)
    requires IsHistory(sha, t) && i <= |t| && HasTask(At(sha, t, i).disk.submissions, task)
    ensures EverLedgered(t, i, task)
    decreases i
  {
    hide Allowed, Apply, Sound;
    AtStart(sha, t);
    if i > 0 {
      StepAt(sha, t, i - 1);
      PrefixIsHistory(sha, t, i - 1);
      DiskSound(sha, t[..i - 1]);
      LedgerGrows(sha, At(sha, t, i - 1), t[i - 1], task);
      if HasTask(At(sha, t, i - 1).disk.submissions, task) { LedgerWasCommitted(sha, t, i - 1, task); }
    }
  }

  lemma LedgerGrows(sha: Hasher, m: Monitor, e: Event, task: Address)
    requires Sound(sha, m.disk) && Allowed(m, e) && HasTask(Apply(sha, m, e).disk.submissions, task)
    ensures HasTask(m.disk.submissions, task) || (e.act.Commit? && e.act.record.task == task)
  {
    hide ClaimOk, RecordOk, KeepNewest, Settled, Unsettled, MaySendAgain, HashKnown, Gains, SolAccepted, Without;
    DraftValid(sha, m, e);
    var draft := Draft(sha, m, e);
    PrunedValid(sha, draft);
    var n := Apply(sha, m, e).disk.submissions;
    var i :| 0 <= i < |n| && n[i].task == task;
    assert n[i] in n;
    if e.act.Reconcile? {
      var k :| 0 <= k < |draft.submissions| && draft.submissions[k] == n[i];
      var r := Remaining(m.disk, draft)[k];
      if m.disk.openClaim.None? && draft.openClaim.Some? {
        WithoutTask(m.disk.submissions, draft.openClaim.value.task);
        assert r in Remaining(m.disk, draft);
      }
      assert r in m.disk.submissions;
    }
  }

  // ---------------------------------------------------------------- what every history keeps, task by task

  ghost predicate DoneBy(sha: Hasher, t: seq<Event>, w: Chain, i: nat, task: Address, z: int)
    requires IsHistory(sha, t) && i <= |t|
  {
    forall k :: 0 <= k < i && Sends(sha, t, k, task) ==> Done(w, k, z)
  }

  ghost predicate DoneButLast(sha: Hasher, t: seq<Event>, w: Chain, i: nat, task: Address, z: int)
    requires IsHistory(sha, t) && i <= |t|
  {
    forall k :: 0 <= k < i && Sends(sha, t, k, task) && !LastSend(t, i, k) ==> Done(w, k, z)
  }

  /** At `z` no claim of the task was open, and no earlier broadcast lands after it. */
  ghost predicate Quiet(sha: Hasher, t: seq<Event>, w: Chain, i: nat, task: Address, z: int)
    requires IsHistory(sha, t) && i <= |t|
  {
    0 <= z <= At(sha, t, i).now && !w.open(task, z) && DoneBy(sha, t, w, i, task, z)
  }

  /** The marker is claiming the task: only its own broadcast may still land, and only within the landing time. */
  ghost predicate Pending(sha: Hasher, t: seq<Event>, w: Chain, i: nat, task: Address, z: int)
    requires IsHistory(sha, t) && i <= |t|
  {
    var m := At(sha, t, i);
    && InPhase(m.disk, Claiming) && m.disk.openClaim.value.task == task
    && 0 <= z <= m.disk.openClaim.value.claimedAt <= m.now && !w.open(task, z)
    && DoneButLast(sha, t, w, i, task, z)
    && DoneBy(sha, t, w, i, task, m.disk.openClaim.value.claimedAt + w.landing)
    && (m.memory.ClaimStarted? ==> DoneBy(sha, t, w, i, task, z))
    && (m.claim.Some? ==> m.claim.value.at >= m.disk.openClaim.value.claimedAt)
  }

  /** The marker is past claiming: every broadcast of the task has landed, or never will. */
  ghost predicate Engaged(sha: Hasher, t: seq<Event>, w: Chain, i: nat, task: Address, z: int)
    requires IsHistory(sha, t) && i <= |t|
  {
    var m := At(sha, t, i);
    && MarkerIs(m.disk, task) && !InPhase(m.disk, Claiming)
    && 0 <= z <= m.now && DoneBy(sha, t, w, i, task, z)
    && (m.claim.Some? ==> z <= m.claim.value.at)
  }

  ghost predicate IsPending(sha: Hasher, t: seq<Event>, w: Chain, i: nat, task: Address)
    requires IsHistory(sha, t) && i <= |t|
  {
    exists z :: Pending(sha, t, w, i, task, z)
  }

  ghost predicate IsEngaged(sha: Hasher, t: seq<Event>, w: Chain, i: nat, task: Address)
    requires IsHistory(sha, t) && i <= |t|
  {
    exists z :: Engaged(sha, t, w, i, task, z)
  }

  ghost predicate Accounted(sha: Hasher, t: seq<Event>, w: Chain, i: nat, task: Address)
    requires IsHistory(sha, t) && i <= |t|
  {
    || EverLedgered(t, i, task)
    || IsPending(sha, t, w, i, task)
    || IsEngaged(sha, t, w, i, task)
    || (!MarkerIs(At(sha, t, i).disk, task) && exists z :: Quiet(sha, t, w, i, task, z))
  }

  /** Without a new broadcast of the task, what was done stays done. */
  lemma DoneStays(sha: Hasher, t: seq<Event>, w: Chain, i: nat, task: Address, z: int)
    requires IsHistory(sha, t) && i < |t| && !Sends(sha, t, i, task)
    ensures DoneBy(sha, t, w, i, task, z) ==> DoneBy(sha, t, w, i + 1, task, z)
    ensures DoneButLast(sha, t, w, i, task, z) && !t[i].act.SendClaim? ==> DoneButLast(sha, t, w, i + 1, task, z)
  {
    if !t[i].act.SendClaim? {
      forall k | 0 <= k < i && LastSend(t, i, k)
        ensures LastSend(t, i + 1, k)
      {
      }
    }
  }

  /** A claim account that was absent at `z` and is present at `r` was opened by a broadcast that landed by `r`. */
  lemma PresenceMeansLanded(sha: Hasher, t: seq<Event>, w: Chain, i: nat, task: Address, z: int, r: int)
    requires Believable(sha, t, w) && i <= |t| && r <= At(sha, t, i).now
    requires 0 <= z && !w.open(task, z) && w.open(task, r) && z <= r
    requires DoneButLast(sha, t, w, i, task, z)
    ensures exists k :: LastSend(t, i, k) && Sends(sha, t, k, task) && Done(w, k, r)
  {
    NowGrows(sha, t, i, |t|);
    assert z < r;
    assert LandsIn(sha, t, w, task, z, r);
    var k: nat :| Sends(sha, t, k, task) && w.fate(k).Some? && z < w.fate(k).value <= r;
    if k >= i {
      SentAfter(sha, t, w, i, k, task);
      assert false;
    }
  }

  /** A broadcast still to come lands after now. */
  lemma SentAfter(sha: Hasher, t: seq<Event>, w: Chain, i: nat, k: nat, task: Address)
    requires Believable(sha, t, w) && i <= k && Sends(sha, t, k, task) && w.fate(k).Some?
    ensures w.fate(k).value > At(sha, t, i).now
  {
    hide OpenedByLanding, ReportsTrue, ReadsTrue, PromptReads;
    NowGrows(sha, t, i, k);
    StepAt(sha, t, k);
  }

  lemma {:induction false} NowGrows(sha: Hasher, t: seq<Event>, i: nat, j: nat)
    requires IsHistory(sha, t) && i <= j <= |t|
    ensures At(sha, t, i).now <= At(sha, t, j).now
    decreases j
  {
    hide Draft, Pruned;
    if i < j {
      NowGrows(sha, t, i, j - 1);
      StepAt(sha, t, j - 1);
    }
  }

  predicate KeepsClaiming(a: Act) {
    || a.Restart? || a.Register? || a.ReadClaim? || a.ReadTask? || a.ReadSubmission? || a.SendClaim? || a.HearClaim? || a.NoteClaim?
    || a.Reconcile?
  }

  /** What can happen while a claim attempt is in the marker. */
  lemma ClaimingStep(sha: Hasher, m: Monitor, e: Event)
    requires InPhase(m.disk, Claiming) && Allowed(m, e)
    ensures KeepsClaiming(e.act) || e.act.ConfirmClaim? || e.act.Revise? || e.act.AbandonClaim? || e.act.Commit? || e.act.Retire?
    ensures var n := Apply(sha, m, e);
            && n.now == e.at
            && (KeepsClaiming(e.act) ==>
                  && InPhase(n.disk, Claiming) && n.disk.openClaim.value.task == m.disk.openClaim.value.task
                  && n.disk.openClaim.value.claimedAt == m.disk.openClaim.value.claimedAt
                  && (n.memory.ClaimStarted? ==> m.memory.ClaimStarted? && !e.act.SendClaim?))
            && (e.act.ConfirmClaim? || e.act.Revise? ==>
                  MarkerIs(n.disk, m.disk.openClaim.value.task) && !InPhase(n.disk, Claiming))
            && (n.claim.Some? ==> n.claim == m.claim || n.claim.value.at == e.at)
            && (e.act.ConfirmClaim? ==> n.claim.None?) && (e.act.Revise? ==> n.claim == m.claim)
            && (e.act.AbandonClaim? || e.act.Commit? || e.act.Retire? ==> n.disk.openClaim.None?)
  {
    hide Unsettled, HasTask, KeepNewest, HashKnown, Remaining, Gains, RecordMoves, SolAccepted;
  }

  /** What can happen once the marker is past claiming. */
  lemma EngagedStep(sha: Hasher, m: Monitor, e: Event, task: Address)
    requires MarkerIs(m.disk, task) && !InPhase(m.disk, Claiming) && Allowed(m, e)
    ensures !e.act.SendClaim?
    ensures var n := Apply(sha, m, e);
            && n.now == e.at
            && (!e.act.Commit? && !e.act.Retire? ==> MarkerIs(n.disk, task) && !InPhase(n.disk, Claiming))
            && (e.act.Commit? ==> e.act.record.task == task)
            && (n.claim.Some? ==> n.claim == m.claim || n.claim.value.at == e.at)
            && (e.act.Commit? || e.act.Retire? ==> n.disk.openClaim.None?)
  {
    hide Unsettled, HasTask, KeepNewest, HashKnown, Remaining, Gains, RecordMoves, SolAccepted, MaySendAgain;
  }

  /** A claim read held as evidence is true at its own time. */
  lemma EvidenceIsTrue(sha: Hasher, t: seq<Event>, w: Chain, i: nat, task: Address)
    requires Believable(sha, t, w) && i <= |t| && MarkerIs(At(sha, t, i).disk, task) && At(sha, t, i).claim.Some?
    ensures var seen := At(sha, t, i).claim.value;
            (seen.value.Some? <==> w.open(task, seen.at)) && seen.at <= At(sha, t, i).now
  {
    ClaimEvidenceHolds(sha, t, i);
    var seen := At(sha, t, i).claim.value;
    var j: nat :| ReadFor(sha, t, i, j, seen, task);
    StepAt(sha, t, j);
    NowGrows(sha, t, j + 1, i);
  }

  /** Every broadcast but the last is done, and so is the last. */
  lemma AllDone(sha: Hasher, t: seq<Event>, w: Chain, i: nat, task: Address, z: int, r: int)
    requires IsHistory(sha, t) && i <= |t| && z <= r && DoneButLast(sha, t, w, i, task, z)
    requires forall k :: LastSend(t, i, k) && Sends(sha, t, k, task) ==> Done(w, k, r)
    ensures DoneBy(sha, t, w, i, task, r)
  {
  }

  lemma OneLastSend(t: seq<Event>, i: nat, k: nat, l: nat)
    requires i <= |t| && LastSend(t, i, k) && LastSend(t, i, l)
    ensures k == l
  {
  }

  /** The marker's claim account has been read as present: its broadcast has landed. */
  lemma SeenMeansDone(sha: Hasher, t: seq<Event>, w: Chain, i: nat, task: Address, z: int)
    requires Believable(sha, t, w) && i <= |t| && Pending(sha, t, w, i, task, z) && SeesClaim(At(sha, t, i), true)
    ensures var r := At(sha, t, i).claim.value.at; DoneBy(sha, t, w, i, task, r) && 0 <= r <= At(sha, t, i).now
  {
    var r := At(sha, t, i).claim.value.at;
    EvidenceIsTrue(sha, t, w, i, task);
    PresenceMeansLanded(sha, t, w, i, task, z, r);
    var k :| LastSend(t, i, k) && Sends(sha, t, k, task) && Done(w, k, r);
    forall l | LastSend(t, i, l)
      ensures l == k
    {
      OneLastSend(t, i, k, l);
    }
    AllDone(sha, t, w, i, task, z, r);
  }

  /** The SDK's verdict on the marker's broadcast settles it. */
  lemma HeardMeansDone(sha: Hasher, t: seq<Event>, w: Chain, i: nat, task: Address, z: int)
    requires Believable(sha, t, w) && i <= |t| && Pending(sha, t, w, i, task, z)
    ensures At(sha, t, i).memory == Heard(Landed) ==> DoneBy(sha, t, w, i, task, At(sha, t, i).now)
    ensures At(sha, t, i).memory == Heard(Failed) ==> DoneBy(sha, t, w, i, task, z)
  {
    var m := At(sha, t, i);
    ReportEvidenceHolds(sha, t, i);
    if m.memory.Heard? {
      var j: nat, k: nat :| HeardAbout(t, i, j, k, m.memory.report);
      StepAt(sha, t, j);
      NowGrows(sha, t, j + 1, i);
      forall l | LastSend(t, i, l)
        ensures l == k
      {
        OneLastSend(t, i, k, l);
      }
      if m.memory.report.Landed? { AllDone(sha, t, w, i, task, z, m.now); }
      if m.memory.report.Failed? { AllDone(sha, t, w, i, task, z, z); }
    }
  }

  /** The marker's claim is retired: it was read as absent after it could last land. */
  lemma RetiredIsQuiet(sha: Hasher, t: seq<Event>, w: Chain, i: nat, task: Address, z: int)
    requires Believable(sha, t, w) && i < |t| && t[i].act.Retire?
    requires Pending(sha, t, w, i, task, z) || Engaged(sha, t, w, i, task, z)
    ensures At(sha, t, i).claim.Some? && Quiet(sha, t, w, i, task, At(sha, t, i).claim.value.at)
  {
    hide OpenedByLanding, LandsInTime, ReportsTrue, ReadsTrue;
    StepAt(sha, t, i);
    EvidenceIsTrue(sha, t, w, i, task);
    var m, r := At(sha, t, i), At(sha, t, i).claim.value.at;
    assert r >= t[i].at - w.latency;
  }

  lemma QuietStep(sha: Hasher, t: seq<Event>, w: Chain, i: nat, task: Address, z: int)
    requires Believable(sha, t, w) && i < |t|
    requires !MarkerIs(At(sha, t, i).disk, task) && Quiet(sha, t, w, i, task, z)
    ensures Accounted(sha, t, w, i + 1, task)
  {
    hide OpenedByLanding, LandsInTime, ReportsTrue, ReadsTrue, PromptReads, Allowed, Draft, Pruned, HasTask;
    StepAt(sha, t, i);
    var m, n, e := At(sha, t, i), At(sha, t, i + 1), t[i];
    MarkerAfter(sha, m, e, task);
    DoneStays(sha, t, w, i, task, z);
    NowGrows(sha, t, i, i + 1);
    if !MarkerIs(n.disk, task) {
      assert Quiet(sha, t, w, i + 1, task, z);
    } else if e.act.Reconcile? {
      LedgerWasCommitted(sha, t, i, task);
    } else {
      StartedIsFresh(sha, m, e);
      assert Pending(sha, t, w, i + 1, task, z);
    }
  }

  lemma StartedIsFresh(sha: Hasher, m: Monitor, e: Event)
    requires Allowed(m, e) && e.act.StartClaim?
    ensures var n := Apply(sha, m, e);
            && InPhase(n.disk, Claiming) && n.disk.openClaim.value.task == e.act.task
            && n.disk.openClaim.value.claimedAt == e.at == n.now && n.claim.None? && n.memory.ClaimStarted?
  {
  }

  lemma PendingStays(sha: Hasher, t: seq<Event>, w: Chain, i: nat, task: Address, z: int)
    requires Believable(sha, t, w) && i < |t| && Pending(sha, t, w, i, task, z) && KeepsClaiming(t[i].act)
    ensures Pending(sha, t, w, i + 1, task, z)
  {
    hide OpenedByLanding, ReportsTrue, ReadsTrue, PromptReads, Draft, Pruned, KeepsClaiming;
    StepAt(sha, t, i);
    var m, e := At(sha, t, i), t[i];
    assert e.act.SendClaim? ==> m.memory.ClaimStarted?;
    hide Allowed, Apply;
    ClaimingStep(sha, m, e);
    var late := m.disk.openClaim.value.claimedAt + w.landing;
    if e.act.SendClaim? {
      assert Done(w, i, late);
      assert LastSend(t, i + 1, i);
      assert forall k :: 0 <= k < i && Sends(sha, t, k, task) ==> Done(w, k, z) && Done(w, k, late);
    } else {
      DoneStays(sha, t, w, i, task, z);
      DoneStays(sha, t, w, i, task, late);
    }
  }

  lemma PendingStep(sha: Hasher, t: seq<Event>, w: Chain, i: nat, task: Address, z: int)
    requires Believable(sha, t, w) && i < |t| && Pending(sha, t, w, i, task, z)
    ensures Accounted(sha, t, w, i + 1, task)
  {
    hide OpenedByLanding, LandsInTime, ReportsTrue, ReadsTrue, PromptReads, Draft, Pruned;
    StepAt(sha, t, i);
    var m, n, e := At(sha, t, i), At(sha, t, i + 1), t[i];
    ClaimingStep(sha, m, e);
    NowGrows(sha, t, i, i + 1);
    if KeepsClaiming(e.act) {
      PendingStays(sha, t, w, i, task, z);
    } else if e.act.Commit? {
      assert t[i].act.record.task == task;
    } else if e.act.Retire? {
      RetiredIsQuiet(sha, t, w, i, task, z);
      DoneStays(sha, t, w, i, task, m.claim.value.at);
      assert Quiet(sha, t, w, i + 1, task, m.claim.value.at);
    } else if e.act.AbandonClaim? {
      HeardMeansDone(sha, t, w, i, task, z);
      DoneStays(sha, t, w, i, task, z);
      assert Quiet(sha, t, w, i + 1, task, z);
    } else {
      var r := if SeesClaim(m, true) then m.claim.value.at else m.now;
      if SeesClaim(m, true) { SeenMeansDone(sha, t, w, i, task, z); } else { HeardMeansDone(sha, t, w, i, task, z); }
      DoneStays(sha, t, w, i, task, r);
      assert Engaged(sha, t, w, i + 1, task, r);
    }
  }

  lemma EngagedKept(sha: Hasher, t: seq<Event>, w: Chain, i: nat, task: Address, z: int)
    requires Believable(sha, t, w) && i < |t| && Engaged(sha, t, w, i, task, z)
    ensures Accounted(sha, t, w, i + 1, task)
  {
    hide OpenedByLanding, LandsInTime, ReportsTrue, ReadsTrue, PromptReads, Draft, Pruned, Allowed, Apply;
    StepAt(sha, t, i);
    var m, e := At(sha, t, i), t[i];
    EngagedStep(sha, m, e, task);
    NowGrows(sha, t, i, i + 1);
    if e.act.Commit? {
      assert t[i].act.record.task == task;
    } else if e.act.Retire? {
      RetiredIsQuiet(sha, t, w, i, task, z);
      DoneStays(sha, t, w, i, task, m.claim.value.at);
      assert Quiet(sha, t, w, i + 1, task, m.claim.value.at);
    } else {
      DoneStays(sha, t, w, i, task, z);
      assert Engaged(sha, t, w, i + 1, task, z);
    }
  }

  lemma {:induction false} AccountedAlways(sha: Hasher, t: seq<Event>, w: Chain, i: nat, task: Address)
    requires Believable(sha, t, w) && i <= |t|
    ensures Accounted(sha, t, w, i, task)
    decreases i
  {
    hide LandsInTime, ReportsTrue, ReadsTrue, PromptReads, Pending, Engaged;
    AtStart(sha, t);
    if i == 0 {
      assert Quiet(sha, t, w, 0, task, 0);
    } else {
      hide Quiet;
      AccountedAlways(sha, t, w, i - 1, task);
      if IsPending(sha, t, w, i - 1, task) {
        var z :| Pending(sha, t, w, i - 1, task, z);
        PendingStep(sha, t, w, i - 1, task, z);
      } else if IsEngaged(sha, t, w, i - 1, task) {
        var z :| Engaged(sha, t, w, i - 1, task, z);
        EngagedKept(sha, t, w, i - 1, task, z);
      } else if !EverLedgered(t, i - 1, task) {
        var z :| Quiet(sha, t, w, i - 1, task, z);
        QuietStep(sha, t, w, i - 1, task, z);
      }
    }
  }

  /**
   Every claim of this worker that is open on chain belongs to the open-claim marker or to a task that was
   committed to the ledger, at every point of every history, whatever crashes happened in between.
   */
  lemma OpenClaimsAreTracked(sha: Hasher, t: seq<Event>, w: Chain, i: nat, task: Address)
    requires Believable(sha, t, w) && i <= |t|
    requires w.open(task, At(sha, t, i).now)
    ensures MarkerIs(At(sha, t, i).disk, task) || EverLedgered(t, i, task)
  {
    AccountedAlways(sha, t, w, i, task);
    if !MarkerIs(At(sha, t, i).disk, task) && !EverLedgered(t, i, task) {
      var z :| Quiet(sha, t, w, i, task, z);
      QuietMeansClosed(sha, t, w, i, task, z);
    }
  }

  lemma QuietMeansClosed(sha: Hasher, t: seq<Event>, w: Chain, i: nat, task: Address, z: int)
    requires Believable(sha, t, w) && i <= |t| && Quiet(sha, t, w, i, task, z)
    ensures !w.open(task, At(sha, t, i).now)
  {
    var now := At(sha, t, i).now;
    if w.open(task, now) {
      NowGrows(sha, t, i, |t|);
      assert LandsIn(sha, t, w, task, z, now);
      var k: nat :| Sends(sha, t, k, task) && w.fate(k).Some? && z < w.fate(k).value <= now;
      if k >= i { SentAfter(sha, t, w, i, k, task); }
      assert false;
    }
  }

  // ---------------------------------------------------------------- one claim at a time

  /** A task that is claimed again after it was ledgered has no claim left open. */
  ghost predicate CleanReclaims(sha: Hasher, t: seq<Event>, w: Chain)
    requires IsHistory(sha, t)
  {
    forall i :: 0 <= i < |t| && t[i].act.StartClaim? && EverLedgered(t, i, t[i].act.task) ==> !w.open(t[i].act.task, t[i].at)
  }

  /**
   Within the grace of a claim attempt the chain shows no claim, but a submission that was delivered, or that was
   rejected while its task is open again or over: one left from an earlier engagement.
   */
  predicate SeesLeftover(m: Monitor) {
    && InPhase(m.disk, Claiming) && m.now < m.disk.openClaim.value.claimedAt + GRACE
    && SeesClaim(m, false) && SeesOutcome(m)
  }

  ghost predicate NoLeftovers(sha: Hasher, t: seq<Event>)
    requires IsHistory(sha, t)
  {
    forall i :: 0 <= i <= |t| ==> !SeesLeftover(At(sha, t, i))
  }

  /** Without leftovers, a claim attempt is ledgered within the grace only if its claim was read as present. */
  lemma NoHastyCommit(sha: Hasher, t: seq<Event>, i: nat)
    requires IsHistory(sha, t) && NoLeftovers(sha, t) && i < |t| && t[i].act.Commit? && InPhase(At(sha, t, i).disk, Claiming)
    ensures SeesClaim(At(sha, t, i), true) || t[i].at >= At(sha, t, i).disk.openClaim.value.claimedAt + GRACE
  {
    StepAt(sha, t, i);
    assert !SeesLeftover(At(sha, t, i));
    hide Unsettled, HasTask, KeepNewest, Draft;
  }

  /** No claim of the task is open when an attempt on it starts. */
  lemma StartsClosed(sha: Hasher, t: seq<Event>, w: Chain, i: nat)
    requires Believable(sha, t, w) && CleanReclaims(sha, t, w) && i < |t| && t[i].act.StartClaim?
    ensures !w.open(t[i].act.task, t[i].at)
  {
    hide LandsInTime, ReportsTrue, ReadsTrue, PromptReads, CleanReclaims, Draft, Pruned, EverLedgered;
    var task := t[i].act.task;
    StepAt(sha, t, i);
    AccountedAlways(sha, t, w, i, task);
    if EverLedgered(t, i, task) {
      assert !w.open(task, t[i].at) by { assert CleanReclaims(sha, t, w); ReclaimIsClean(sha, t, w, i); }
    } else {
      var z :| Quiet(sha, t, w, i, task, z);
      StaysClosed(sha, t, w, i, task, z);
    }
  }

  lemma ReclaimIsClean(sha: Hasher, t: seq<Event>, w: Chain, i: nat)
    requires IsHistory(sha, t) && CleanReclaims(sha, t, w) && i < |t| && t[i].act.StartClaim?
    requires EverLedgered(t, i, t[i].act.task)
    ensures !w.open(t[i].act.task, t[i].at)
  {
  }

  lemma StaysClosed(sha: Hasher, t: seq<Event>, w: Chain, i: nat, task: Address, z: int)
    requires Believable(sha, t, w) && i < |t| && !t[i].act.SendClaim? && Quiet(sha, t, w, i, task, z)
    ensures !w.open(task, t[i].at)
  {
    hide LandsInTime, ReportsTrue, ReadsTrue, PromptReads, Draft, Pruned, Allowed;
    StepAt(sha, t, i);
    NowGrows(sha, t, i, i + 1);
    NowGrows(sha, t, i + 1, |t|);
    if w.open(task, t[i].at) {
      assert LandsIn(sha, t, w, task, z, t[i].at);
      var k: nat :| Sends(sha, t, k, task) && w.fate(k).Some? && z < w.fate(k).value <= t[i].at;
      if k > i { SentAfter(sha, t, w, i + 1, k, task); }
      assert false;
    }
  }

  /** All broadcasts are done, but for the one the marker may have made, which lands in time if it lands. */
  ghost predicate Settling(t: seq<Event>, w: Chain, i: nat, m: Monitor)
    requires i <= |t|
  {
    if InPhase(m.disk, Claiming) then
      var c := m.disk.openClaim.value;
      && c.claimedAt <= m.now && !w.open(c.task, c.claimedAt)
      && (m.claim.Some? ==> m.claim.value.at >= c.claimedAt)
      && (forall k :: 0 <= k < i && t[k].act.SendClaim? ==> Done(w, k, c.claimedAt + w.landing))
      && (forall k :: 0 <= k < i && t[k].act.SendClaim? && (m.memory.ClaimStarted? || !LastSend(t, i, k)) ==>
            Done(w, k, c.claimedAt))
    else
      AllDoneBy(t, w, i, m.now)
  }

  ghost predicate AllDoneBy(t: seq<Event>, w: Chain, i: nat, z: int)
    requires i <= |t|
  {
    forall k :: 0 <= k < i && t[k].act.SendClaim? ==> Done(w, k, z)
  }

  /** The marker's claim account was absent when the attempt began and has been read as present: its broadcast landed. */
  lemma SeenSettles(sha: Hasher, t: seq<Event>, w: Chain, i: nat)
    requires Believable(sha, t, w) && i <= |t| && Settling(t, w, i, At(sha, t, i))
    requires InPhase(At(sha, t, i).disk, Claiming) && SeesClaim(At(sha, t, i), true)
    ensures AllDoneBy(t, w, i, At(sha, t, i).now)
  {
    hide LandsInTime, ReportsTrue, ReadsTrue, PromptReads;
    var m := At(sha, t, i);
    var c, r := m.disk.openClaim.value, m.claim.value.at;
    EvidenceIsTrue(sha, t, w, i, c.task);
    NowGrows(sha, t, i, |t|);
    assert LandsIn(sha, t, w, c.task, c.claimedAt, r);
    var k: nat :| Sends(sha, t, k, c.task) && w.fate(k).Some? && c.claimedAt < w.fate(k).value <= r;
    if k >= i { SentAfter(sha, t, w, i, k, c.task); }
    assert k < i && !Done(w, k, c.claimedAt);
    assert LastSend(t, i, k);
    forall l | 0 <= l < i && t[l].act.SendClaim?
      ensures Done(w, l, m.now)
    {
      if LastSend(t, i, l) { OneLastSend(t, i, k, l); }
    }
  }

  /** A definite verdict on the marker's broadcast settles it. */
  lemma HeardSettles(sha: Hasher, t: seq<Event>, w: Chain, i: nat)
    requires Believable(sha, t, w) && i <= |t| && Settling(t, w, i, At(sha, t, i))
    requires InPhase(At(sha, t, i).disk, Claiming)
    requires At(sha, t, i).memory == Heard(Landed) || At(sha, t, i).memory == Heard(Failed)
    ensures AllDoneBy(t, w, i, At(sha, t, i).now)
  {
    hide OpenedByLanding, LandsInTime, ReadsTrue, PromptReads, Allowed, Draft, Pruned;
    var m := At(sha, t, i);
    ReportEvidenceHolds(sha, t, i);
    var j: nat, k: nat :| HeardAbout(t, i, j, k, m.memory.report);
    StepAt(sha, t, j);
    NowGrows(sha, t, j + 1, i);
    forall l | 0 <= l < i && t[l].act.SendClaim?
      ensures Done(w, l, m.now)
    {
      if LastSend(t, i, l) { OneLastSend(t, i, k, l); }
    }
  }

  /** Leaving the claiming phase settles every broadcast. */
  lemma LeavingSettles(sha: Hasher, t: seq<Event>, w: Chain, i: nat)
    requires Believable(sha, t, w) && NoLeftovers(sha, t) && i < |t| && Settling(t, w, i, At(sha, t, i))
    requires InPhase(At(sha, t, i).disk, Claiming) && !KeepsClaiming(t[i].act)
    ensures AllDoneBy(t, w, i, t[i].at) && !t[i].act.SendClaim?
  {
    hide OpenedByLanding, LandsInTime, ReportsTrue, ReadsTrue, PromptReads, Draft, Pruned;
    StepAt(sha, t, i);
    var m, e := At(sha, t, i), t[i];
    ClaimingStep(sha, m, e);
    if SeesClaim(m, true) {
      SeenSettles(sha, t, w, i);
    } else if e.act.Retire? || e.act.Commit? {
      if e.act.Commit? { NoHastyCommit(sha, t, i); }
      assert e.at >= m.disk.openClaim.value.claimedAt + w.landing;
    } else {
      HeardSettles(sha, t, w, i);
    }
  }

  lemma StaysSettling(sha: Hasher, t: seq<Event>, w: Chain, i: nat)
    requires Believable(sha, t, w) && i < |t| && Settling(t, w, i, At(sha, t, i))
    requires InPhase(At(sha, t, i).disk, Claiming) && KeepsClaiming(t[i].act)
    ensures Settling(t, w, i + 1, At(sha, t, i + 1))
  {
    hide OpenedByLanding, ReportsTrue, ReadsTrue, PromptReads, Draft, Pruned, KeepsClaiming;
    StepAt(sha, t, i);
    var m, e := At(sha, t, i), t[i];
    assert e.act.SendClaim? ==> m.memory.ClaimStarted?;
    assert e.at >= m.now;
    hide Allowed, Apply;
    ClaimingStep(sha, m, e);
    if e.act.SendClaim? {
      assert Done(w, i, m.disk.openClaim.value.claimedAt + w.landing);
      assert LastSend(t, i + 1, i);
    } else {
      assert forall k :: 0 <= k < i ==> (LastSend(t, i, k) ==> LastSend(t, i + 1, k));
    }
  }

  lemma {:induction false} AlwaysSettling(sha: Hasher, t: seq<Event>, w: Chain, i: nat)
    requires Believable(sha, t, w) && CleanReclaims(sha, t, w) && NoLeftovers(sha, t) && i <= |t|
    ensures Settling(t, w, i, At(sha, t, i))
    decreases i
  {
    assert IsHistory(sha, t);
    hide Believable, CleanReclaims, NoLeftovers, Allowed, Draft, Pruned;
    AtStart(sha, t);
    if i > 0 {
      AlwaysSettling(sha, t, w, i - 1);
      StepAt(sha, t, i - 1);
      NowGrows(sha, t, i - 1, i);
      var m, n, e := At(sha, t, i - 1), At(sha, t, i), t[i - 1];
      if InPhase(m.disk, Claiming) {
        ClaimingStep(sha, m, e);
        if KeepsClaiming(e.act) { StaysSettling(sha, t, w, i - 1); } else { LeavingSettles(sha, t, w, i - 1); }
      } else {
        NotClaimingStep(sha, m, e);
        if InPhase(n.disk, Claiming) { StartsSettling(sha, t, w, i - 1); }
      }
    }
  }

  lemma StartsSettling(sha: Hasher, t: seq<Event>, w: Chain, i: nat)
    requires Believable(sha, t, w) && CleanReclaims(sha, t, w) && i < |t| && Settling(t, w, i, At(sha, t, i))
    requires !InPhase(At(sha, t, i).disk, Claiming) && InPhase(At(sha, t, i + 1).disk, Claiming)
    ensures Settling(t, w, i + 1, At(sha, t, i + 1))
  {
    assert IsHistory(sha, t);
    hide Believable, CleanReclaims, Draft, Pruned;
    StepAt(sha, t, i);
    NotClaimingStep(sha, At(sha, t, i), t[i]);
    StartsClosed(sha, t, w, i);
    StartedIsFresh(sha, At(sha, t, i), t[i]);
  }

  lemma NotClaimingStep(sha: Hasher, m: Monitor, e: Event)
    requires Allowed(m, e) && !InPhase(m.disk, Claiming)
    ensures !e.act.SendClaim? && Apply(sha, m, e).now == e.at
    ensures InPhase(Apply(sha, m, e).disk, Claiming) ==> e.act.StartClaim?
  {
    hide Unsettled, HasTask, KeepNewest, HashKnown, Remaining, Gains, RecordMoves, SolAccepted, MaySendAgain;
  }

  /**
   No claim is broadcast while an earlier one could still land, unless a ledgered task is claimed again with its
   claim left open, or a claim attempt meets a leftover submission within its grace.
   */
  lemma ClaimsNeverOverlap(sha: Hasher, t: seq<Event>, w: Chain, i: nat, j: nat)
    requires Believable(sha, t, w) && CleanReclaims(sha, t, w) && NoLeftovers(sha, t)
    requires i < j < |t| && t[i].act.SendClaim? && t[j].act.SendClaim?
    ensures Done(w, i, t[j].at)
  {
    assert IsHistory(sha, t);
    hide Believable, CleanReclaims, NoLeftovers, Draft, Pruned;
    StepAt(sha, t, j);
    AlwaysSettling(sha, t, w, j);
  }
}
