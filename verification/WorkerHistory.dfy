/** A durable result is final for its round, and its broadcasts are spaced and never repeat a landed one. */
module WorkerHistory {
  import opened Wrappers
  import opened WorkerState
  import opened WorkerProtocol

  /** The events that end a round: the marker is given up, or a rejected submission opens the next one. */
  predicate EndsRound(a: Act) { a.AbandonClaim? || a.Commit? || a.Retire? || a.Revise? }

  /** The marker holds executor output, or a submission prepared from it. */
  predicate HasResult(d: WorkerState) {
    && d.openClaim.Some?
    && var c := d.openClaim.value;
    && ((ResultPhase(c.phase) && c.execution.Some?) || (c.phase.Submitting? && c.submission.Some?))
  }

  /** The hash under which that output will be, or was, submitted. */
  function ResultHash(d: WorkerState): Hash
    requires HasResult(d)
  {
    var c := d.openClaim.value;
    if c.phase.Submitting? then c.submission.value.hash else c.execution.value.hash
  }

  /** Within a round the result stays, with its task and its hash. */
  lemma ResultStays(sha: Hasher, m: Monitor, e: Event)
    requires HasResult(m.disk) && Allowed(m, e) && !EndsRound(e.act)
    ensures HasResult(Apply(sha, m, e).disk)
    ensures ResultHash(Apply(sha, m, e).disk) == ResultHash(m.disk)
    ensures Apply(sha, m, e).disk.openClaim.value.task == m.disk.openClaim.value.task
    ensures !e.act.Run? && !e.act.Persist?
  {
    hide Unsettled, HasTask, KeepNewest, MaySendAgain, HashKnown, Remaining, Gains, RecordMoves, SolAccepted;
  }

  lemma {:induction false} ResultStaysUntil(sha: Hasher, t: seq<Event>, i: nat, j: nat)
    requires IsHistory(sha, t) && i <= j <= |t| && HasResult(At(sha, t, i).disk)
    requires forall k :: i <= k < j ==> !EndsRound(t[k].act)
    ensures HasResult(At(sha, t, j).disk)
    ensures ResultHash(At(sha, t, j).disk) == ResultHash(At(sha, t, i).disk)
    ensures At(sha, t, j).disk.openClaim.value.task == At(sha, t, i).disk.openClaim.value.task
    decreases j
  {
    if i < j {
      hide Allowed, Apply, HasResult, ResultHash;
      ResultStaysUntil(sha, t, i, j - 1);
      StepAt(sha, t, j - 1);
      ResultStays(sha, At(sha, t, j - 1), t[j - 1]);
    }
  }

  /**
   Once a result is durable the executor does not run again until the round ends, and a revision round
   begins only on a Rejected submission with a count the marker has not acknowledged.
   */
  lemma ResultIsFinal(sha: Hasher, t: seq<Event>, i: nat, j: nat)
    requires IsHistory(sha, t) && i <= j < |t| && HasResult(At(sha, t, i).disk)
    requires t[j].act.Run?
    ensures exists k :: i <= k < j && EndsRound(t[k].act)
    ensures forall k :: i <= k < j && t[k].act.Revise? ==>
              && t[k].act.rejected.status == SubmissionStatus.Rejected
              && At(sha, t, k).disk.openClaim.Some?
              && At(sha, t, k).disk.openClaim.value.revision != Some(t[k].act.rejected.count)
  {
    hide HasResult, ResultHash, Apply;
    forall k | i <= k < j && t[k].act.Revise?
      ensures t[k].act.rejected.status == SubmissionStatus.Rejected
      ensures At(sha, t, k).disk.openClaim.Some?
      ensures At(sha, t, k).disk.openClaim.value.revision != Some(t[k].act.rejected.count)
    {
      StepAt(sha, t, k);
    }
    if forall k :: i <= k < j ==> !EndsRound(t[k].act) {
      ResultStaysUntil(sha, t, i, j);
      StepAt(sha, t, j);
      ResultStays(sha, At(sha, t, j), t[j]);
    }
  }

  /** Event `k` persisted output with this hash, for this task, and its round has not ended before `j`. */
  ghost predicate PersistedAt(sha: Hasher, t: seq<Event>, k: nat, j: nat, task: Address, hash: Hash)
    requires IsHistory(sha, t)
  {
    && k < j <= |t| && t[k].act.Persist? && sha(t[k].act.bytes) == hash
    && At(sha, t, k).disk.openClaim.Some? && At(sha, t, k).disk.openClaim.value.task == task
    && forall l :: k <= l < j ==> !EndsRound(t[l].act)
  }

  lemma ResultBegins(sha: Hasher, m: Monitor, e: Event)
    requires Allowed(m, e) && HasResult(Apply(sha, m, e).disk) && !(HasResult(m.disk) && !EndsRound(e.act))
    ensures e.act.Persist? && m.disk.openClaim.Some?
    ensures ResultHash(Apply(sha, m, e).disk) == sha(e.act.bytes)
    ensures Apply(sha, m, e).disk.openClaim.value.task == m.disk.openClaim.value.task
  {
    hide Unsettled, HasTask, KeepNewest, MaySendAgain, HashKnown, Remaining, Gains, RecordMoves, SolAccepted;
  }

  lemma {:induction false} ResultHasOrigin(sha: Hasher, t: seq<Event>, j: nat)
    requires IsHistory(sha, t) && j <= |t| && HasResult(At(sha, t, j).disk)
    ensures exists k :: PersistedAt(sha, t, k, j, At(sha, t, j).disk.openClaim.value.task, ResultHash(At(sha, t, j).disk))
    decreases j
  {
    hide Allowed, Apply, ResultHash;
    AtStart(sha, t);
    if j > 0 {
      StepAt(sha, t, j - 1);
      var m, e := At(sha, t, j - 1), t[j - 1];
      var task, hash := At(sha, t, j).disk.openClaim.value.task, ResultHash(At(sha, t, j).disk);
      if HasResult(m.disk) && !EndsRound(e.act) {
        ResultStays(sha, m, e);
        ResultHasOrigin(sha, t, j - 1);
        var k :| PersistedAt(sha, t, k, j - 1, task, hash);
        assert PersistedAt(sha, t, k, j, task, hash);
      } else {
        ResultBegins(sha, m, e);
        assert PersistedAt(sha, t, j - 1, j, task, hash);
      }
    }
  }

  /** Every proof hash that is broadcast is the hash of output persisted earlier in the same round, for the same task. */
  lemma BroadcastIsPersistedOutput(sha: Hasher, t: seq<Event>, j: nat)
    requires IsHistory(sha, t) && j < |t| && t[j].act.SendResult?
    ensures At(sha, t, j).disk.openClaim.Some?
    ensures exists k :: PersistedAt(sha, t, k, j, At(sha, t, j).disk.openClaim.value.task, t[j].act.hash)
  {
    hide PersistedAt, Apply;
    StepAt(sha, t, j);
    assert HasResult(At(sha, t, j).disk);
    ResultHasOrigin(sha, t, j);
  }

  // ---------------------------------------------------------------- rebroadcasts

  /** Since a stamp at `stamped`, with no new result prepared: any pending intent was last sent then or later. */
  predicate SentSince(m: Monitor, stamped: int) {
    && m.now >= stamped && !m.memory.Prepared?
    && (m.disk.openClaim.Some? && m.disk.openClaim.value.phase.Submitting? && m.disk.openClaim.value.submission.Some? ==>
          m.disk.openClaim.value.submission.value.lastBroadcastAt.Some?
          && m.disk.openClaim.value.submission.value.lastBroadcastAt.value >= stamped)
  }

  lemma SentSinceStays(sha: Hasher, m: Monitor, e: Event, stamped: int)
    requires SentSince(m, stamped) && Allowed(m, e) && !e.act.Prepare?
    ensures SentSince(Apply(sha, m, e), stamped)
    ensures e.act.Stamp? ==> e.at >= stamped + GRACE
  {
    hide Unsettled, HasTask, KeepNewest, HashKnown, Remaining, Gains, RecordMoves, SolAccepted;
  }

  lemma {:induction false} SentSinceUntil(sha: Hasher, t: seq<Event>, i: nat, j: nat)
    requires IsHistory(sha, t) && i < j <= |t| && t[i].act.Stamp?
    requires forall k :: i < k < j ==> !t[k].act.Prepare?
    ensures SentSince(At(sha, t, j), t[i].at)
    decreases j
  {
    hide SentSince, Allowed, Apply;
    StepAt(sha, t, j - 1);
    if j - 1 == i {
      StampSends(sha, At(sha, t, i), t[i]);
    } else {
      SentSinceUntil(sha, t, i, j - 1);
      SentSinceStays(sha, At(sha, t, j - 1), t[j - 1], t[i].at);
    }
  }

  lemma StampSends(sha: Hasher, m: Monitor, e: Event)
    requires Allowed(m, e) && e.act.Stamp?
    ensures SentSince(Apply(sha, m, e), e.at)
  {
    hide MaySendAgain, KeepNewest;
  }

  /** Two broadcast stamps of one submission intent are at least the grace apart, crashes or not. */
  lemma BroadcastsSpaced(sha: Hasher, t: seq<Event>, i: nat, j: nat)
    requires IsHistory(sha, t) && i < j < |t| && t[i].act.Stamp? && t[j].act.Stamp?
    requires forall k :: i < k < j ==> !t[k].act.Prepare?
    ensures t[j].at - t[i].at >= GRACE
  {
    hide SentSince, Allowed, Apply;
    SentSinceUntil(sha, t, i, j);
    StepAt(sha, t, j);
    SentSinceStays(sha, At(sha, t, j), t[j], t[i].at);
  }

  /** The last thing the process read of the submission shows it landed, and nothing is ready to be sent. */
  predicate HoldsBack(m: Monitor) {
    && !m.memory.Prepared? && !m.memory.Stamped?
    && (SeesSubmission(m, true) ==> IsLanded(m.submission.value.value.value))
    && !SeesSubmission(m, false)
  }

  predicate ShowsLanded(a: Act) {
    a.ReadSubmission? ==> a.submission.Some? && IsLanded(a.submission.value)
  }

  lemma HoldsBackStays(sha: Hasher, m: Monitor, e: Event)
    requires HoldsBack(m) && Allowed(m, e) && !e.act.Prepare? && ShowsLanded(e.act)
    ensures HoldsBack(Apply(sha, m, e)) && !e.act.SendResult? && !e.act.Stamp?
  {
    hide Unsettled, HasTask, Pruned, Draft, HashKnown, Remaining, Gains, RecordMoves, SolAccepted, Reconciles;
  }

  lemma {:induction false} HoldsBackUntil(sha: Hasher, t: seq<Event>, i: nat, j: nat)
    requires IsHistory(sha, t) && i < j <= |t| && t[i].act.ReadSubmission? && ShowsLanded(t[i].act)
    requires forall k :: i < k < j ==> !t[k].act.Prepare? && ShowsLanded(t[k].act)
    ensures HoldsBack(At(sha, t, j))
    decreases j
  {
    hide Allowed, HoldsBack, Draft, Pruned;
    StepAt(sha, t, j - 1);
    if j - 1 == i {
      assert HoldsBack(At(sha, t, j)) by { LandedReadHoldsBack(sha, At(sha, t, i), t[i]); }
    } else {
      HoldsBackUntil(sha, t, i, j - 1);
      HoldsBackStays(sha, At(sha, t, j - 1), t[j - 1]);
    }
  }

  lemma LandedReadHoldsBack(sha: Hasher, m: Monitor, e: Event)
    requires Allowed(m, e) && e.act.ReadSubmission? && ShowsLanded(e.act)
    ensures HoldsBack(Apply(sha, m, e))
  {
  }

  /**
   Nothing is sent after a read that shows a landed submission, unless a later read shows otherwise or a
   new result is prepared: not after a crash either, because a fresh read must come first.
   */
  lemma LandedIsNotResent(sha: Hasher, t: seq<Event>, i: nat, j: nat)
    requires IsHistory(sha, t) && i < j < |t| && t[i].act.ReadSubmission? && ShowsLanded(t[i].act)
    requires forall k :: i < k < j ==> !t[k].act.Prepare? && ShowsLanded(t[k].act)
    requires !t[j].act.Prepare?
    ensures !t[j].act.SendResult? && !t[j].act.Stamp?
  {
    hide Allowed, HoldsBack, Apply;
    HoldsBackUntil(sha, t, i, j);
    StepAt(sha, t, j);
    if t[j].act.SendResult? || t[j].act.Stamp? { HoldsBackStays(sha, At(sha, t, j), t[j]); }
  }
}
