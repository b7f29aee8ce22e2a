/** Why a claim attempt must not meet a leftover submission: a run of the worker's code in which two claims overlap. */
module WorkerOverlap {
  import opened Wrappers
  import opened WorkerState
  import opened WorkerProtocol
  import opened WorkerClaims
  import opened WorkerRuntime

  /** A task somebody may claim, and a rejected submission left on it by an earlier engagement. */
  const OPEN_TASK := TaskInfo(TaskStatus.Open, 0, 0, true, false)
  const STALE := Submission(SubmissionStatus.Rejected, 0, 1, 0)
  const STALE_VIEW := Snapshot(None, Some(OPEN_TASK), Some(STALE))
  const STALE_RECORD := Record(1, None, 0, 0, 0, 0, false, None, false, None, None, None)

  /** The SDK cannot say whether the claim was sent, and the claim account cannot be read. */
  const UNHEARD := Refused(ClaimError(false, None, false))
  const NO_ANSWERS := Answers(None, None, NotConfirmed(None), ReadFailed)

  const OVERLAP: seq<Event> := [
    Event(0, StartClaim(1)), Event(0, SendClaim), Event(0, HearClaim(Unknown)),
    Event(0, ReadClaim(None)), Event(0, ReadTask(Some(OPEN_TASK))), Event(0, ReadSubmission(Some(STALE))),
    Event(0, Act.Commit(STALE_RECORD)),
    Event(0, StartClaim(2)), Event(0, SendClaim), Event(0, HearClaim(Unknown))]

  /** The first claim lands at 100; the worker forgot it before. */
  const LATE := Chain(k => if k == 1 then Some(100) else None, (task, at) => task == 1 && at >= 100, 100, 20_000)

  lemma OneRecordIsKept()
    ensures KeepNewest([STALE_RECORD], RETENTION) == [STALE_RECORD] && |Unsettled([STALE_RECORD])| == 1
  {
    assert [STALE_RECORD][..0] == [];
    assert Settled([STALE_RECORD]) == [];
    KeepNewestAll([STALE_RECORD], RETENTION);
  }

  /**
   The code itself: a claim on task 1 is broadcast and not heard of; the next tick finds no claim but the stale
   submission, and ledgers the attempt inside its grace; then task 2 is claimed.
   */
  method RecoverInHaste(sha: Hasher) returns (rt: Runtime, recovery: ProcessOutcome)
    ensures fresh(rt) && rt.sha == sha && rt.Ready() && rt.log == OVERLAP
    ensures recovery == ResultSubmitted(STALE_RECORD)
    // and so, for a chain on which the first claim lands late, two claims overlap
    ensures IsHistory(sha, OVERLAP) && Believable(sha, rt.log, LATE) && CleanReclaims(sha, rt.log, LATE)
    ensures !NoLeftovers(sha, rt.log)
    ensures rt.log[1].act.SendClaim? && rt.log[8].act.SendClaim? && !Done(LATE, 1, rt.log[8].at)
  {
    rt, recovery := RunInHaste(sha);
    hide Believable, CleanReclaims, NoLeftovers, Sound;
    StaleSubmissionOverlaps(sha);
  }

  method RunInHaste(sha: Hasher) returns (rt: Runtime, recovery: ProcessOutcome)
    ensures fresh(rt) && rt.sha == sha && rt.Ready() && rt.log == OVERLAP && IsHistory(sha, OVERLAP)
    ensures recovery == ResultSubmitted(STALE_RECORD)
  {
    hide HasTask, Sound, IsHistory, KeepNewest, Unsettled, Settled, Valid;
    rt := new Runtime(sha, false, false, true, 0);
    assert !HasTask([], 1) by { NothingIn(1); }
    var first := rt.ProcessCandidate(1, true, Read(Some(OPEN_TASK)), true, true, UNHEARD, ReadFailed, NO_ANSWERS);
    assert |Unsettled([])| == 0 by { NothingUnsettled(); }
    recovery := rt.Resume(Some(STALE_VIEW), false, true, NO_ANSWERS);
    OneRecordIsKept();
    assert [] + [STALE_RECORD] == [STALE_RECORD];
    assert !HasTask([STALE_RECORD], 2) by { OneTask(); }
    var second := rt.ProcessCandidate(2, true, Read(Some(OPEN_TASK)), true, true, UNHEARD, ReadFailed, NO_ANSWERS);
    assert rt.log == OVERLAP;
  }

  lemma NothingIn(task: Address)
    ensures !HasTask([], task)
  {
  }

  lemma NothingUnsettled()
    ensures Unsettled([]) == []
  {
  }

  lemma OneTask()
    ensures !HasTask([STALE_RECORD], 2)
  {
  }

  lemma OverlapShape()
    ensures |OVERLAP| == 10 && (forall j :: 0 <= j < 10 ==> OVERLAP[j].at == 0)
    ensures forall j :: 0 <= j < 10 && OVERLAP[j].act.ReadClaim? ==> j == 3
    ensures OVERLAP[3].act == ReadClaim(None) && OVERLAP[5].act == ReadSubmission(Some(STALE))
    ensures forall k :: 0 <= k < 10 && OVERLAP[k].act.SendClaim? ==> k == 1 || k == 8
    ensures OVERLAP[1].act.SendClaim? && OVERLAP[8].act.SendClaim?
    ensures forall k :: 0 <= k < 10 && OVERLAP[k].act.StartClaim? ==> k == 0 || k == 7
    ensures forall k :: 0 <= k < 10 && OVERLAP[k].act.Commit? ==> k == 6
    ensures OVERLAP[7].act == StartClaim(2)
    ensures forall j :: 0 <= j < 10 ==> !OVERLAP[j].act.Retire?
    ensures forall j :: 0 <= j < 10 && OVERLAP[j].act.HearClaim? ==> OVERLAP[j].act.report.Unknown?
  {
  }

  /** The marker of the first claim, as long as it is there. */
  ghost predicate Claims1(sha: Hasher, i: nat)
    requires IsHistory(sha, OVERLAP) && i <= |OVERLAP|
  {
    var m := At(sha, OVERLAP, i);
    InPhase(m.disk, Claiming) && m.disk.openClaim.value.task == 1 && m.disk.openClaim.value.claimedAt == 0 && m.now == 0
  }

  lemma StillClaims1(sha: Hasher, i: nat)
    requires IsHistory(sha, OVERLAP) && 1 <= i < 6 && Claims1(sha, i)
    ensures Claims1(sha, i + 1)
  {
    hide Allowed, Draft, Pruned;
    OverlapShape();
    StepAt(sha, OVERLAP, i);
    ClaimingStep(sha, At(sha, OVERLAP, i), OVERLAP[i]);
  }

  /** What the worker has on disk and in mind while it recovers. */
  lemma DuringRecovery(sha: Hasher)
    requires IsHistory(sha, OVERLAP)
    ensures Claims1(sha, 1) && Claims1(sha, 3)
    ensures SeesLeftover(At(sha, OVERLAP, 6))
  {
    assert Claims1(sha, 1) by {
      hide Allowed, Draft, Pruned;
      StepAt(sha, OVERLAP, 0);
      StartedIsFresh(sha, At(sha, OVERLAP, 0), OVERLAP[0]);
    }
    StillClaims1(sha, 1);
    StillClaims1(sha, 2);
    StillClaims1(sha, 3);
    StillClaims1(sha, 4);
    StillClaims1(sha, 5);
    Remembers(sha);
    hide Apply, Play;
  }

  lemma Remembers(sha: Hasher)
    requires IsHistory(sha, OVERLAP)
    ensures At(sha, OVERLAP, 6).claim == Some(Seen(0, None))
    ensures At(sha, OVERLAP, 6).info == Some(Seen(0, Some(OPEN_TASK)))
    ensures At(sha, OVERLAP, 6).submission == Some(Seen(0, Some(STALE)))
  {
    hide Allowed, Draft, Pruned;
    StepAt(sha, OVERLAP, 3);
    StepAt(sha, OVERLAP, 4);
    StepAt(sha, OVERLAP, 5);
  }

  /**
   The history of that run is believable, re-claims nothing, and two claims overlap in it: the worker has met a
   leftover submission.
   */
  lemma StaleSubmissionOverlaps(sha: Hasher)
    requires IsHistory(sha, OVERLAP)
    ensures Believable(sha, OVERLAP, LATE) && CleanReclaims(sha, OVERLAP, LATE) && !NoLeftovers(sha, OVERLAP)
    ensures OVERLAP[1].act.SendClaim? && OVERLAP[8].act.SendClaim? && !Done(LATE, 1, OVERLAP[8].at)
  {
    OverlapShape();
    DuringRecovery(sha);
    hide Play, Draft, Apply, Allowed, SeesLeftover;
    assert OVERLAP[..10] == OVERLAP;
    StepAt(sha, OVERLAP, 9);
    EndsAtOnce(sha);
    NothingReclaimed();
    assert !NoLeftovers(sha, OVERLAP);
  }

  lemma EndsAtOnce(sha: Hasher)
    requires IsHistory(sha, OVERLAP)
    ensures At(sha, OVERLAP, |OVERLAP|).now == 0
  {
    hide Allowed, Draft, Pruned;
    OverlapShape();
    StepAt(sha, OVERLAP, 9);
  }

  lemma NothingReclaimed()
    ensures !EverLedgered(OVERLAP, 7, 2) && !EverLedgered(OVERLAP, 0, 1)
  {
    OverlapShape();
    assert OVERLAP[6].act.record.task == 1;
  }
}
