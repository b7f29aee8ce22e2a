/** The worker's lifecycle code, step by step, as a source of protocol histories. */
module WorkerRuntime {
  import opened Wrappers
  import opened WorkerState
  import opened WorkerProtocol
  import opened WorkerSettlement

  /** `Threw` covers errors that leave the function and the death of the process; nothing after it runs. */
  datatype ProcessOutcome =
    | ResultSubmitted(record: Record) | DryRun | Skipped | ClaimFailed | ExecutionFailed | NoClaim | Threw

  /** What the SDK says about a claim broadcast it did not confirm. */
  datatype ClaimError = ClaimError(isAgenc: bool, signature: Option<Signature>, coded: bool)

  datatype ClaimAnswer = Confirmed | Refused(error: ClaimError)

  datatype SubmitAnswer = Sent(signature: Signature) | NotConfirmed(seen: Option<Signature>)

  /** Only a send that never happened, or a decoded program error, is definite. */
  function Verdict(answer: ClaimAnswer): Report {
    match answer
    case Confirmed => Landed
    case Refused(e) => if e.isAgenc && (e.signature.None? || e.coded) then Failed else Unknown
  }

  /** `matchingIntent`: the prepared intent if the chain carries its hash, else one rebuilt from the chain. */
  function MatchingIntent(c: OpenClaim, s: Submission, reward: nat): Intent {
    if c.submission.Some? && c.submission.value.hash == s.proofHash then c.submission.value
    else Intent(PlaceholderUri(s.proofHash), s.proofHash, reward, Timestamp(s.submittedAt, c.claimedAt), None, None)
  }

  function PlaceholderUri(hash: Hash): Uri { hash }

  lemma HistoryGrows(sha: Hasher, t: seq<Event>, e: Event)
    requires IsHistory(sha, t) && Allowed(Play(sha, t).value, e)
    ensures Play(sha, t + [e]) == Some(Apply(sha, Play(sha, t).value, e))
    ensures Apply(sha, Play(sha, t).value, e).now == e.at
    ensures Apply(sha, Play(sha, t).value, e).disk ==
            if Writes(e.act) then Pruned(Draft(sha, Play(sha, t).value, e)) else Play(sha, t).value.disk
  {
    hide Allowed;
    assert (t + [e])[..|t|] == t;
  }

  datatype Reading<T> = ReadFailed | Read(value: Option<T>)

  /** What the outside world answers during one attempt. */
  datatype Answers = Answers(executor: Option<Bytes>, upload: Option<Uri>, submit: SubmitAnswer, after: Reading<Submission>)

  /** The marker of `before` became this unsettled record. */
  predicate Delivered(before: WorkerState, after: WorkerState, r: Record) {
    && before.openClaim.Some? && after.openClaim.None?
    && r in after.submissions && r.task == before.openClaim.value.task && !r.settled
  }

  /** Both markers are for one task and carry one prepared result. */
  predicate SameResult(before: WorkerState, after: WorkerState) {
    && before.openClaim.Some? && after.openClaim.Some?
    && before.openClaim.value.submission.Some? && after.openClaim.value.submission.Some?
    && after.openClaim.value.task == before.openClaim.value.task
    && after.openClaim.value.revision == before.openClaim.value.revision
    && after.openClaim.value.submission.value.hash == before.openClaim.value.submission.value.hash
    && after.openClaim.value.submission.value.uri == before.openClaim.value.submission.value.uri
  }

  /** The marker's task is in the ledger, unsettled, and the marker is gone. */
  predicate Ledgered(before: WorkerState, after: WorkerState) {
    && before.openClaim.Some? && after.openClaim.None?
    && exists i :: 0 <= i < |after.submissions| && after.submissions[i].task == before.openClaim.value.task && !after.submissions[i].settled
  }

  /** The read shows the marker's result landed. */
  predicate ShowsDelivery(read: Reading<Submission>, c: OpenClaim) {
    && read.Read? && read.value.Some? && c.submission.Some?
    && IsLanded(read.value.value) && MatchesIntent(read.value.value, c.submission.value, c.revision)
  }

  /** One coherent set of reads for the marker's task. */
  datatype Snapshot = Snapshot(claim: Option<Claim>, info: Option<TaskInfo>, submission: Option<Submission>)

  /** A submission count on chain is a positive u16. */
  predicate CountsInRange(v: Snapshot) {
    v.submission.Some? ==> 1 <= v.submission.value.count <= 65535
  }

  predicate Reopened(v: Snapshot) { v.info.Some? && IsOver(v.info.value) }

  /** What `SeesLeftover` is about: no claim, but a submission that was delivered, or rejected on a task that is over. */
  predicate Leftover(v: Snapshot, c: OpenClaim) {
    && v.claim.None? && v.submission.Some?
    && ((IsLanded(v.submission.value) && c.revision.None?) || (v.submission.value.status.Rejected? && Reopened(v)))
  }

  /** The ledger record a recovery makes of such a submission when no result had been prepared. */
  function RecoveredRecord(c: OpenClaim, v: Snapshot): Record
    requires v.submission.Some?
  {
    var s := v.submission.value;
    var prepared := Timestamp(s.submittedAt, c.claimedAt);
    Record(c.task, None, PlaceholderUri(s.proofHash), s.proofHash, if v.info.Some? then v.info.value.reward else 0,
           Timestamp(s.submittedAt, prepared), false, None, false, None, None, None)
  }
  predicate AsksRevision(v: Snapshot, now: int) {
    v.submission.Some? && v.claim.Some? && v.info.Some?
    && RevisionRequested(v.info.value, v.claim.value, v.submission.value, now)
  }

  /** A landed submission that the marker's round accounts for. */
  predicate LandedForRound(v: Snapshot, c: OpenClaim) {
    && v.submission.Some? && IsLanded(v.submission.value)
    && (if c.phase.Submitting? && c.submission.Some? then MatchesIntent(v.submission.value, c.submission.value, c.revision)
        else c.revision.None?)
  }

  /** A rejection that is a settlement outcome, not a request for another round. */
  predicate RejectedForGood(v: Snapshot, now: int) {
    && v.submission.Some? && v.submission.value.status.Rejected? && v.info.Some?
    && ((v.info.value.status.Open? && (v.claim.None? || !LooksLive(v.claim.value, now)))
        || v.info.value.status.Completed? || v.info.value.status.Cancelled?)
  }

  /** One candidate task, and everything the outside world answers while it is attempted. */
  datatype Candidate = Candidate(
    task: Address, passes: bool, info: Reading<TaskInfo>, prepared: bool, funded: bool,
    answer: ClaimAnswer, seen: Reading<Claim>, rest: Answers)

  /** What the outside world answers during one reconciliation. */
  datatype Accounts = Accounts(
    view: Address -> RecordView, fails: bool, agent: Reading<nat>, signatures: Address -> Option<Signature>)

  class Runtime {
    const sha: Hasher
    const hasUploader: bool
    const dryRun: bool
    /** In a smooth run every save succeeds, and calls take no time. */
    const smooth: bool
    var disk: WorkerState
    var clock: int
    ghost var log: seq<Event>

    /** The durable state is exactly what the history of effects so far says, and the validator accepts it. */
    ghost predicate Ready()
      reads this
    {
      IsHistory(sha, log) && Mon().disk == disk && Mon().now <= clock && Sound(sha, disk)
    }

    ghost function Mon(): Monitor
      reads this
      requires IsHistory(sha, log)
    {
      Play(sha, log).value
    }

    /** A worker whose state directory holds no state file. */
    constructor (hash: Hasher, hasUploader: bool, dryRun: bool, smooth: bool, now: nat)
      ensures Ready() && disk == EMPTY && log == [] && clock == now
      ensures sha == hash && this.hasUploader == hasUploader && this.dryRun == dryRun && this.smooth == smooth
    {
      sha, this.hasUploader, this.dryRun, this.smooth := hash, hasUploader, dryRun, smooth;
      disk, clock, log := EMPTY, now, [];
    }

    /** Time passes. */
    method Wait()
      requires Ready()
      modifies `clock
      ensures Ready() && clock >= old(clock) && (smooth ==> clock == old(clock))
    {
      var delay: int :| delay >= 0 && (smooth ==> delay == 0);
      clock := clock + delay;
    }

    /** An effect or an observation that writes nothing. */
    ghost method Note(a: Act)
      requires Ready() && !Writes(a) && Allowed(Mon(), Event(clock, a))
      modifies `log
      ensures Ready() && log == old(log) + [Event(clock, a)]
      ensures Mon() == Apply(sha, old(Mon()), Event(clock, a))
    {
      var e := Event(clock, a);
      HistoryGrows(sha, log, e);
      log := log + [e];
    }

    /**
     `saveState`: the state is validated, pruned and written. The write may fail before or after it takes effect, and
     the process may die around it; only if it is still `alive` does anything run afterwards.
     */
    method Save(next: WorkerState, ghost a: Act) returns (ok: bool, alive: bool)
      requires Ready() && Writes(a) && Allowed(Mon(), Event(clock, a)) && next == Draft(sha, Mon(), Event(clock, a))
      modifies `disk, `log
      ensures Ready() && (ok ==> alive) && (smooth ==> ok)
      ensures log == old(log) + [Event(clock, a)] || (!ok && log == old(log))
      ensures log == old(log) + [Event(clock, a)] ==> Mon() == Apply(sha, old(Mon()), Event(clock, a)) && disk == Pruned(next)
      ensures !ok && log == old(log) ==> disk == old(disk) && Mon() == old(Mon())
      ensures ok ==> log == old(log) + [Event(clock, a)]
      ensures disk == old(disk) || disk == Pruned(next)
      ensures log == old(log) + [Event(clock, a)] && next.submissions == old(disk).submissions ==> disk == next
    {
      hide Allowed, Draft, Apply, Valid, KeepNewest, Settled, Unsettled, Play, Writes;
      ghost var e := Event(clock, a);
      SoundIsSmall(sha, disk);
      DraftValid(sha, Mon(), e);
      assert Valid(sha, next);
      alive :| smooth ==> alive;
      var written :| smooth ==> written;
      if !written { return false, alive; }
      var pruned := PruneSettled(next.submissions, RETENTION);
      PrunedSound(sha, next);
      HistoryGrows(sha, log, e);
      disk := next.(submissions := pruned.value.0);
      log := log + [e];
      ok :| (ok ==> alive) && (smooth ==> ok);
    }

    /** `loadState` reads what is on disk; nothing is left to prune. */
    method Load() returns (s: WorkerState)
      requires Ready()
      ensures s == disk
    {
      var pruned := PruneSettled(disk.submissions, RETENTION);
      SoundIsSmall(sha, disk);
      s := disk.(submissions := pruned.value.0);
    }

    /** `commitSubmission`: the marker becomes an unsettled ledger record. */
    method Commit(intent: Intent, signature: Option<Signature>, submittedAt: int) returns (r: Option<Record>, alive: bool)
      requires Ready() && disk.openClaim.Some? && HashKnown(Mon(), intent.hash)
      requires InPhase(disk, Claiming) ==> Mon().claim.Some?
      modifies `disk, `log
      ensures Ready() && old(log) <= log
      ensures r.Some? ==> alive && Delivered(old(disk), disk, r.value)
      ensures r.Some? ==> r.value == Record(old(disk).openClaim.value.task, signature, intent.uri, intent.hash, intent.reward,
                                             submittedAt, false, None, false, None, None, None)
      ensures r.Some? ==> log == old(log) + [Event(clock, Act.Commit(r.value))]
                          && disk == Pruned(old(disk).(openClaim := None, submissions := old(disk).submissions + [r.value]))
      ensures r.None? ==> (disk == old(disk) && log == old(log)) || Ledgered(old(disk), disk)
      ensures |Unsettled(old(disk).submissions)| >= MAX_UNSETTLED ==> r.None? && disk == old(disk) && log == old(log)
      ensures smooth ==> alive && (r.Some? <==> |Unsettled(old(disk).submissions)| < MAX_UNSETTLED)
    {
      var state := Load();
      var c := state.openClaim.value;
      assert !HasTask(state.submissions, c.task);
      if |Unsettled(state.submissions)| >= MAX_UNSETTLED { return None, true; }
      var record := Record(c.task, signature, intent.uri, intent.hash, intent.reward, submittedAt,
                           false, None, false, None, None, None);
      var next := state.(openClaim := None, submissions := state.submissions + [record]);
      var ok;
      NewestStays(state.submissions, record, RETENTION);
      ok, alive := Save(next, Act.Commit(record));
      hide KeepNewest, Unsettled, Settled;
      r := if ok then Some(record) else None;
    }

    /** The exact broadcast boundary is persisted, then the result is sent. */
    method StampAndSend() returns (ok: bool)
      requires Ready() && InPhase(disk, Submitting)
      requires Mon().memory.Prepared? || MaySendAgain(Mon(), clock, disk.openClaim.value)
      modifies `disk, `log, `clock
      ensures Ready() && old(log) <= log && old(clock) <= clock
      ensures ok ==> disk.submissions == old(disk).submissions && InPhase(disk, Submitting) && SameResult(old(disk), disk)
      ensures ok ==> disk.openClaim.value.submission.value.lastBroadcastAt == Some(old(clock))
      ensures ok ==> !Mon().memory.Stamped? && !Mon().memory.Prepared?
      ensures smooth ==> ok && clock == old(clock)
    {
      hide Unsettled, Settled, HasTask, KeepNewest, UniqueTasks, Reconciles, HashKnown;
      var c := disk.openClaim.value;
      var intent := c.submission.value.(lastBroadcastAt := Some(clock));
      var alive;
      ok, alive := Save(WithClaim(disk, c.(submission := Some(intent))), Stamp);
      if ok {
        Note(SendResult(intent.hash));
        Wait();
      }
    }

    /** The signature of an ambiguous send is kept with the intent. */
    method NoteSignature(signature: Signature) returns (ok: bool)
      requires Ready() && InPhase(disk, Submitting)
      modifies `disk, `log
      ensures Ready() && old(log) <= log
      ensures ok ==> disk.submissions == old(disk).submissions && InPhase(disk, Submitting) && SameResult(old(disk), disk)
    {
      hide Unsettled, Settled, HasTask, KeepNewest, UniqueTasks, Reconciles, HashKnown, MaySendAgain;
      var c := disk.openClaim.value;
      var alive;
      ok, alive := Save(WithClaim(disk, c.(submission := Some(c.submission.value.(signature := Some(signature))))), NoteResult(signature));
    }

    /** Reading the chain changes nothing but what the process knows. */
    method Observe(claim: Reading<Claim>, info: Reading<TaskInfo>, submission: Reading<Submission>)
      requires Ready() && disk.openClaim.Some?
      modifies `log
      ensures Ready() && old(log) <= log
      ensures log == old(log) + (if claim.Read? then [Event(clock, ReadClaim(claim.value))] else [])
                     + (if info.Read? then [Event(clock, ReadTask(info.value))] else [])
                     + (if submission.Read? then [Event(clock, ReadSubmission(submission.value))] else [])
      ensures info.Read? ==> Mon().info == Some(Seen(clock, info.value))
      ensures info.ReadFailed? ==> Mon().info == old(Mon()).info
      ensures claim.Read? ==> Mon().claim == Some(Seen(clock, claim.value))
      ensures claim.ReadFailed? ==> Mon().claim == old(Mon()).claim
      ensures submission.Read? ==> Mon().submission == Some(Seen(clock, submission.value))
      ensures submission.ReadFailed? ==> Mon().submission == old(Mon()).submission
      ensures old(Mon()).memory.Heard? ==> Mon().memory == old(Mon()).memory
    {
      hide Pruned, Play;
      hide Unsettled, Settled, HasTask, KeepNewest, UniqueTasks, Reconciles, HashKnown, MaySendAgain;
      if claim.Read? { Note(ReadClaim(claim.value)); }
      if info.Read? { Note(ReadTask(info.value)); }
      if submission.Read? { Note(ReadSubmission(submission.value)); }
    }

    /** A submission read to have an outcome is ledgered under the intent it matches. */
    method CommitLanded(s: Submission, reward: nat, signature: Option<Signature>) returns (r: Option<Record>, alive: bool)
      requires Ready() && disk.openClaim.Some? && SeesOutcome(Mon()) && Mon().submission.value.value.value == s
      requires InPhase(disk, Claiming) ==> Mon().claim.Some?
      modifies `disk, `log
      ensures Ready() && old(log) <= log
      ensures r.Some? ==> alive && Delivered(old(disk), disk, r.value) && r.value.hash == s.proofHash
      ensures r.Some? ==> var intent := MatchingIntent(old(disk).openClaim.value, s, reward);
                r.value == Record(old(disk).openClaim.value.task, signature, intent.uri, intent.hash, intent.reward,
                                  Timestamp(s.submittedAt, intent.preparedAt), false, None, false, None, None, None)
      ensures r.Some? ==> log == old(log) + [Event(clock, Act.Commit(r.value))]
                          && disk == Pruned(old(disk).(openClaim := None, submissions := old(disk).submissions + [r.value]))
      ensures r.None? ==> disk == old(disk) || Ledgered(old(disk), disk)
      ensures |Unsettled(old(disk).submissions)| >= MAX_UNSETTLED ==> r.None? && disk == old(disk)
      ensures smooth ==> alive && (r.Some? <==> |Unsettled(old(disk).submissions)| < MAX_UNSETTLED)
    {
      hide Unsettled, Settled, HasTask, KeepNewest, UniqueTasks, Allowed, Apply, Sound;
      var intent := MatchingIntent(disk.openClaim.value, s, reward);
      r, alive := Commit(intent, signature, Timestamp(s.submittedAt, intent.preparedAt));
    }

    /**
     `submitPreparedResult`: stamp, send, and ledger the result. A ledgering that fails after a confirmed send is
     caught like an unconfirmed send: the submission is read back, and ledgered if it shows the delivery.
     */
    method SubmitPrepared(a: Answers) returns (r: ProcessOutcome)
      requires Ready() && InPhase(disk, Submitting)
      requires Mon().memory.Prepared? || MaySendAgain(Mon(), clock, disk.openClaim.value)
      modifies `disk, `log, `clock
      ensures Ready() && old(log) <= log && old(clock) <= clock
      ensures r.ResultSubmitted? || r.ExecutionFailed? || r.Threw?
      ensures r.ResultSubmitted? ==> Delivered(old(disk), disk, r.record)
      ensures r.ExecutionFailed? ==> (InPhase(disk, Submitting) && SameResult(old(disk), disk)) || Ledgered(old(disk), disk)
      ensures smooth && |Unsettled(old(disk).submissions)| < MAX_UNSETTLED && a.submit.Sent? ==> r.ResultSubmitted?
      ensures smooth && |Unsettled(old(disk).submissions)| < MAX_UNSETTLED && r.ExecutionFailed? ==>
                InPhase(disk, Submitting) && !ShowsDelivery(a.after, disk.openClaim.value)
    {
      hide Unsettled, Settled, HasTask, KeepNewest, UniqueTasks, Allowed, Apply, Sound, IsHistory;
      var ok := StampAndSend();
      if !ok { return Threw; }
      if a.submit.Sent? {
        var record, alive := Commit(disk.openClaim.value.submission.value, Some(a.submit.signature), clock);
        if record.Some? { return ResultSubmitted(record.value); }
        if !alive { return Threw; }
      } else if a.submit.seen.Some? {
        ok := NoteSignature(a.submit.seen.value);
        if !ok { return Threw; }
      }
      if a.after.ReadFailed? || disk.openClaim.None? { return ExecutionFailed; }
      r := ReconcileSent(a.after);
    }

    /** The submission is read back after a send whose outcome is not ledgered. */
    method ReconcileSent(after: Reading<Submission>) returns (r: ProcessOutcome)
      requires Ready() && InPhase(disk, Submitting) && after.Read?
      modifies `disk, `log
      ensures Ready() && old(log) <= log
      ensures r.ResultSubmitted? || r.ExecutionFailed? || r.Threw?
      ensures r.ResultSubmitted? ==> Delivered(old(disk), disk, r.record)
      ensures r.ExecutionFailed? ==> disk == old(disk) || Ledgered(old(disk), disk)
      ensures smooth ==> !r.Threw?
      ensures smooth && |Unsettled(old(disk).submissions)| < MAX_UNSETTLED ==>
                (r.ResultSubmitted? <==> ShowsDelivery(after, old(disk).openClaim.value))
      ensures smooth && r.ExecutionFailed? ==> disk == old(disk)
    {
      hide Unsettled, Settled, HasTask, KeepNewest, UniqueTasks, Allowed, Apply, Sound, IsHistory;
      Observe(ReadFailed, ReadFailed, after);
      var state := Load();
      if !ShowsDelivery(after, state.openClaim.value) { return ExecutionFailed; }
      var intent := state.openClaim.value.submission.value;
      var record, alive := CommitLanded(after.value.value, intent.reward, intent.signature);
      if record.Some? { return ResultSubmitted(record.value); }
      return if alive then ExecutionFailed else Threw;
    }

    /** The marker moves to the uploading phase and keeps its output. */
    method MarkUploading() returns (ok: bool)
      requires Ready() && disk.openClaim.Some? && ResultPhase(disk.openClaim.value.phase)
      modifies `disk, `log
      ensures Ready() && old(log) <= log
      ensures ok ==> disk == old(disk).(openClaim := Some(old(disk).openClaim.value.(phase := Uploading)))
      ensures smooth ==> ok
    {
      hide Unsettled, Settled, HasTask, KeepNewest, UniqueTasks, Reconciles, HashKnown, MaySendAgain;
      var alive;
      ok, alive := Save(WithClaim(disk, disk.openClaim.value.(phase := Uploading)), Upload);
    }

    /** The output becomes a prepared submission with the output's hash. */
    method PrepareSubmission(uri: Uri) returns (ok: bool)
      requires Ready() && disk.openClaim.Some? && ResultPhase(disk.openClaim.value.phase)
      modifies `disk, `log
      ensures Ready() && old(log) <= log
      ensures ok ==> disk.submissions == old(disk).submissions && InPhase(disk, Submitting) && Mon().memory.Prepared?
      ensures smooth ==> ok
      ensures ok ==> old(disk).openClaim.value.execution.Some?
      ensures ok ==> disk.openClaim.value == old(disk).openClaim.value.(phase := Submitting, execution := None,
                       submission := Some(Intent(uri, old(disk).openClaim.value.execution.value.hash,
                                                 old(disk).openClaim.value.execution.value.reward, clock, None, None)))
    {
      hide Unsettled, Settled, HasTask, KeepNewest, UniqueTasks, Reconciles, HashKnown, MaySendAgain;
      var c := disk.openClaim.value;
      var x := c.execution.value;
      var next := c.(phase := Submitting, execution := None,
                     submission := Some(Intent(uri, x.hash, x.reward, clock, None, None)));
      var alive;
      ok, alive := Save(WithClaim(disk, next), Prepare(uri));
    }

    /** `continueExecutedResult`: upload and submit what was persisted; the executor is not involved. */
    method ContinueExecuted(a: Answers) returns (r: ProcessOutcome)
      requires Ready() && disk.openClaim.Some? && ResultPhase(disk.openClaim.value.phase)
      modifies `disk, `log, `clock
      ensures Ready() && old(log) <= log && old(clock) <= clock
      ensures r.ResultSubmitted? || r.ExecutionFailed? || r.Threw?
      ensures r.ResultSubmitted? ==> Delivered(old(disk), disk, r.record)
      ensures r.ExecutionFailed? && hasUploader && a.upload.None? ==>
                disk == old(disk).(openClaim := Some(old(disk).openClaim.value.(phase := Uploading)))
      ensures r.ExecutionFailed? && !(hasUploader && a.upload.None?) ==>
                (InPhase(disk, Submitting) && disk.openClaim.value.task == old(disk).openClaim.value.task)
                || Ledgered(old(disk), disk)
      ensures smooth && |Unsettled(old(disk).submissions)| < MAX_UNSETTLED && a.submit.Sent? && (hasUploader ==> a.upload.Some?) ==>
                r.ResultSubmitted?
    {
      hide Unsettled, Settled, HasTask, KeepNewest, UniqueTasks, Allowed, Apply, IsHistory;
      var state := Load();
      var uri := PlaceholderUri(state.openClaim.value.execution.value.hash);
      if hasUploader {
        var ok := MarkUploading();
        if !ok { return Threw; }
        Wait();
        if a.upload.None? { return ExecutionFailed; }
        uri := a.upload.value;
      }
      var ok := PrepareSubmission(uri);
      if !ok { return Threw; }
      r := SubmitPrepared(a);
    }

    /** The executor runs; its output is persisted before anything else happens. */
    method RunExecutor(output: Option<Bytes>, reward: nat) returns (ok: bool)
      requires Ready() && InPhase(disk, Claimed)
      modifies `disk, `log, `clock
      ensures Ready() && old(log) <= log && old(clock) <= clock
      ensures output.None? ==> !ok && disk == old(disk)
      ensures ok ==> disk.submissions == old(disk).submissions
                     && disk.openClaim == Some(old(disk).openClaim.value.(phase := Phase.Executed,
                          execution := Some(Execution(output.value, sha(output.value), reward, clock))))
    {
      hide Unsettled, Settled, HasTask, KeepNewest, UniqueTasks, Reconciles, HashKnown, MaySendAgain;
      Note(Run);
      Wait();
      if output.None? { return false; }
      var x := Execution(output.value, sha(output.value), reward, clock);
      var alive;
      ok, alive := Save(WithClaim(disk, disk.openClaim.value.(phase := Phase.Executed, execution := Some(x))), Persist(output.value, reward));
    }

    /** `executeAndSubmit` */
    method ExecuteAndSubmit(reward: nat, a: Answers) returns (r: ProcessOutcome)
      requires Ready() && InPhase(disk, Claimed)
      modifies `disk, `log, `clock
      ensures Ready() && old(log) <= log && old(clock) <= clock
      ensures r.ResultSubmitted? || r.ExecutionFailed? || r.Threw?
      ensures r.ResultSubmitted? ==> Delivered(old(disk), disk, r.record)
      ensures a.executor.None? ==> r.ExecutionFailed? && disk == old(disk)
    {
      hide Unsettled, Settled, HasTask, KeepNewest, UniqueTasks, Allowed, Apply, Sound, IsHistory;
      var ok := RunExecutor(a.executor, reward);
      if a.executor.None? { return ExecutionFailed; }
      if !ok { return Threw; }
      r := ContinueExecuted(a);
    }

    /** The marker is written before the claim is broadcast. */
    method StartAndSendClaim(task: Address) returns (ok: bool)
      requires Ready() && disk.openClaim.None? && !HasTask(disk.submissions, task)
      modifies `disk, `log, `clock
      ensures Ready() && old(log) <= log && old(clock) <= clock
      ensures ok ==> disk == old(disk).(openClaim := Some(OpenClaim(task, old(clock), Claiming, None, None, None, None)))
      ensures ok ==> Mon().memory.ClaimSent? && Mon().claim.None?
      ensures ok ==> log == old(log) + [Event(old(clock), StartClaim(task)), Event(old(clock), SendClaim)]
      ensures smooth ==> ok && clock == old(clock)
    {
      hide Unsettled, Settled, HasTask, KeepNewest, UniqueTasks, Reconciles, HashKnown, MaySendAgain;
      var alive;
      ok, alive := Save(WithClaim(disk, OpenClaim(task, clock, Claiming, None, None, None, None)), StartClaim(task));
      if ok {
        Note(SendClaim);
        Wait();
      }
    }

    /** The claim is known to have landed. A promotion that had failed after its write is written again. */
    method PromoteClaim() returns (ok: bool, alive: bool)
      requires Ready() && (InPhase(disk, Claiming) || InPhase(disk, Claimed))
      requires InPhase(disk, Claiming) ==> Mon().memory == Heard(Landed) || SeesClaim(Mon(), true)
      modifies `disk, `log
      ensures Ready() && old(log) <= log && (ok ==> alive) && (smooth ==> ok)
      ensures disk == old(disk) || disk == old(disk).(openClaim := Some(old(disk).openClaim.value.(phase := Claimed)))
      ensures ok ==> disk == old(disk).(openClaim := Some(old(disk).openClaim.value.(phase := Claimed)))
      ensures disk == old(disk) && InPhase(disk, Claiming) ==> Mon() == old(Mon())
    {
      hide Unsettled, Settled, HasTask, KeepNewest, UniqueTasks, Reconciles, HashKnown, MaySendAgain;
      if InPhase(disk, Claimed) {
        alive :| smooth ==> alive;
        ok :| (ok ==> alive) && (smooth ==> ok);
        return;
      }
      ok, alive := Save(WithClaim(disk, disk.openClaim.value.(phase := Claimed)), ConfirmClaim);
    }

    method HearReport(report: Report)
      requires Ready() && InPhase(disk, Claiming) && Mon().memory.ClaimSent?
      modifies `log
      ensures Ready() && old(log) <= log && Mon().memory == Heard(report)
      ensures log == old(log) + [Event(clock, HearClaim(report))]
    {
      hide Unsettled, Settled, HasTask, KeepNewest, UniqueTasks, Reconciles, HashKnown, MaySendAgain;
      Note(HearClaim(report));
    }

    method NoteClaimSignature(signature: Signature) returns (ok: bool)
      requires Ready() && InPhase(disk, Claiming)
      modifies `disk, `log
      ensures Ready() && old(log) <= log
      ensures ok ==> disk == old(disk).(openClaim := Some(old(disk).openClaim.value.(claimSignature := Some(signature))))
      ensures ok ==> Mon().memory == old(Mon()).memory
      ensures smooth ==> ok
    {
      hide Unsettled, Settled, HasTask, KeepNewest, UniqueTasks, Reconciles, HashKnown, MaySendAgain;
      var alive;
      ok, alive := Save(WithClaim(disk, disk.openClaim.value.(claimSignature := Some(signature))), NoteClaim(signature));
    }

    /** A claim that was never sent, or failed for certain, is given up. */
    method GiveUpClaim() returns (ok: bool, alive: bool)
      requires Ready() && InPhase(disk, Claiming) && Mon().memory == Heard(Failed) && SeesClaim(Mon(), false)
      modifies `disk, `log
      ensures Ready() && old(log) <= log && (ok ==> alive) && (smooth ==> ok)
      ensures ok ==> disk == old(disk).(openClaim := None)
      ensures disk == old(disk) || disk == old(disk).(openClaim := None)
    {
      hide Unsettled, Settled, HasTask, KeepNewest, UniqueTasks, Reconciles, HashKnown, MaySendAgain;
      ok, alive := Save(disk.(openClaim := None), AbandonClaim);
    }

    /**
     What `processCandidate` does about the answer to its broadcast. A promotion that fails after a confirmed claim is
     caught like an unconfirmed claim: the claim account is read, and the marker follows it.
     */
    method SettleClaim(answer: ClaimAnswer, seen: Reading<Claim>) returns (r: Option<ProcessOutcome>)
      requires Ready() && InPhase(disk, Claiming) && Mon().memory == Heard(Verdict(answer))
      modifies `disk, `log
      ensures Ready() && old(log) <= log
      // nothing means that the claim is held and the work goes on
      ensures r.None? ==> InPhase(disk, Claimed) && disk.submissions == old(disk).submissions
                          && disk.openClaim.value.task == old(disk).openClaim.value.task
      ensures r.None? ==> Verdict(answer).Landed? || (seen.Read? && seen.value.Some?)
      ensures r.Some? ==> r.value.Threw? || r.value.ClaimFailed? || r.value.ExecutionFailed?
      ensures r == Some(ClaimFailed) ==> Verdict(answer).Failed? && seen == Read(None) && disk == old(disk).(openClaim := None)
      ensures r.Some? && Verdict(answer).Unknown? && !(seen.Read? && seen.value.Some?) && !r.value.Threw? ==>
                r.value.ExecutionFailed? && InPhase(disk, Claiming) && disk.openClaim.value.task == old(disk).openClaim.value.task
      ensures smooth && Verdict(answer).Landed? ==> r.None?
      ensures smooth && seen.Read? && seen.value.Some? ==> r.None?
      ensures smooth && Verdict(answer).Failed? && seen == Read(None) ==> r == Some(ClaimFailed)
      ensures answer == Refused(ClaimError(false, None, false)) && seen.ReadFailed? ==>
                r == Some(ExecutionFailed) && disk == old(disk) && log == old(log)
    {
      hide Unsettled, Settled, HasTask, KeepNewest, UniqueTasks, Allowed, Apply, Sound, IsHistory;
      var ok, alive;
      if answer.Confirmed? {
        ok, alive := PromoteClaim();
        if ok { return None; }
        if !alive { return Some(Threw); }
      } else if answer.error.isAgenc && answer.error.signature.Some? {
        ok := NoteClaimSignature(answer.error.signature.value);
        if !ok { return Some(Threw); }
      }
      if seen.ReadFailed? { return Some(ExecutionFailed); }
      Observe(seen, ReadFailed, ReadFailed);
      if seen.value.Some? {
        ok, alive := PromoteClaim();
        return if ok then None else Some(if alive then ExecutionFailed else Threw);
      }
      if !Verdict(answer).Failed? { return Some(ExecutionFailed); }
      ok, alive := GiveUpClaim();
      return Some(if ok then ClaimFailed else if alive then ExecutionFailed else Threw);
    }

    /**
     `processCandidate`. `passes` is the verdict of the policy filters, `prepared` that the hire binding, job
     spec, commitment and prompt are all in order, `funded` that the fresh-claim funding check succeeds.
     */
    method ProcessCandidate(
      task: Address, passes: bool, info: Reading<TaskInfo>, prepared: bool, funded: bool,
      answer: ClaimAnswer, seen: Reading<Claim>, a: Answers) returns (r: ProcessOutcome)
      requires Ready()
      modifies `disk, `log, `clock
      ensures Ready() && old(log) <= log && old(clock) <= clock
      ensures !passes || old(disk).openClaim.Some? || HasTask(old(disk).submissions, task) ==> r.Skipped?
      ensures r.Skipped? || r.DryRun? || dryRun ==> disk == old(disk) && log == old(log)
      ensures log != old(log) ==> passes && prepared && funded && !dryRun && info.Read? && info.value.Some? && info.value.value.status.Open?
      ensures r.ClaimFailed? ==> Verdict(answer).Failed? && seen == Read(None) && disk == old(disk)
      ensures r.ExecutionFailed? && Verdict(answer).Unknown? && !(seen.Read? && seen.value.Some?) ==>
                InPhase(disk, Claiming) && disk.openClaim.value.task == task
      ensures Verdict(answer).Unknown? || !(seen == Read(None)) ==> !r.ClaimFailed?
      ensures r.ResultSubmitted? ==> r.record.task == task && r.record in disk.submissions && disk.openClaim.None?
      // a claim whose broadcast is never heard of again
      ensures smooth && Attempts(old(disk), task, passes, info, prepared, funded)
              && answer == Refused(ClaimError(false, None, false)) && seen.ReadFailed? ==>
                && r.ExecutionFailed? && clock == old(clock)
                && disk == old(disk).(openClaim := Some(OpenClaim(task, clock, Claiming, None, None, None, None)))
                && log == old(log) + [Event(clock, StartClaim(task)), Event(clock, SendClaim), Event(clock, HearClaim(Unknown))]
    {
      hide Unsettled, Settled, HasTask, KeepNewest, UniqueTasks, Allowed, Apply, Sound, IsHistory;
      var state := Load();
      if !passes || state.openClaim.Some? || HasTask(state.submissions, task) { return Skipped; }
      if info.ReadFailed? { return Threw; }
      if info.value.None? || !info.value.value.status.Open? { return Skipped; }
      if !prepared { return Skipped; }
      if dryRun { return DryRun; }
      if !funded { return Threw; }
      Wait();
      var ok := StartAndSendClaim(task);
      if !ok { return Threw; }
      HearReport(Verdict(answer));
      var settled := SettleClaim(answer, seen);
      if settled.Some? { return settled.value; }
      r := ExecuteAndSubmit(info.value.value.reward, a);
    }

    /** The candidate is attempted: nothing stands in the way of its claim. */
    predicate Attempts(d: WorkerState, task: Address, passes: bool, info: Reading<TaskInfo>, prepared: bool, funded: bool) {
      && passes && d.openClaim.None? && !HasTask(d.submissions, task) && prepared && funded && !dryRun
      && info.Read? && info.value.Some? && info.value.value.status.Open?
    }

    /** `restoreRevisionRound`: a new round replaces whatever the marker held. */
    method RestoreRevision(claim: Claim, info: TaskInfo, s: Submission, checkedAt: int) returns (ok: bool)
      requires Ready() && disk.openClaim.Some? && checkedAt <= clock && RevisionRequested(info, claim, s, checkedAt)
      requires SeesClaim(Mon(), true) && Mon().claim.value.value == Some(claim)
      requires SeesSubmission(Mon(), true) && Mon().submission.value.value == Some(s)
      requires disk.openClaim.value.revision != Some(s.count) && 1 <= s.count <= 65535
      modifies `disk, `log
      ensures Ready() && old(log) <= log
      ensures ok ==> Mon().claim == old(Mon()).claim && Mon().info == old(Mon()).info && Mon().submission == old(Mon()).submission
      ensures ok ==> disk.submissions == old(disk).submissions && InPhase(disk, Claimed)
                     && disk.openClaim.value.task == old(disk).openClaim.value.task
                     && disk.openClaim.value.revision == Some(s.count)
    {
      hide Unsettled, Settled, KeepNewest, UniqueTasks, Reconciles, HashKnown, MaySendAgain;
      var c := disk.openClaim.value;
      var at := Timestamp(claim.claimedAt, c.claimedAt);
      WithoutAbsent(disk.submissions, c.task);
      var next := disk.(submissions := Without(disk.submissions, c.task),
                        openClaim := Some(OpenClaim(c.task, at, Claimed, c.claimSignature, Some(s.count), None, None)));
      var alive;
      ok, alive := Save(next, Revise(claim, info, s, checkedAt, at));
    }

    /** The canonical lifecycle is gone: the marker is dropped. */
    method RetireMarker() returns (ok: bool)
      requires Ready() && disk.openClaim.Some? && SeesClaim(Mon(), false) && SeesSubmission(Mon(), false)
      requires InPhase(disk, Claiming) ==> clock >= disk.openClaim.value.claimedAt + GRACE
      modifies `disk, `log
      ensures Ready() && old(log) <= log
      ensures ok ==> disk == old(disk).(openClaim := None)
    {
      hide Unsettled, Settled, KeepNewest, UniqueTasks, Reconciles, HashKnown, MaySendAgain;
      var alive;
      ok, alive := Save(disk.(openClaim := None), Retire);
    }

    /** A prepared submission whose accounts are all closed goes to the ledger as it is. */
    method CommitPrepared() returns (r: Option<Record>)
      requires Ready() && InPhase(disk, Submitting)
      modifies `disk, `log
      ensures Ready() && old(log) <= log
      ensures r.Some? ==> Delivered(old(disk), disk, r.value)
                          && r.value.hash == old(disk).openClaim.value.submission.value.hash
    {
      hide Unsettled, Settled, KeepNewest, UniqueTasks;
      var intent := disk.openClaim.value.submission.value;
      var alive;
      r, alive := Commit(intent, intent.signature, ReconciliationAt(intent));
    }

    /** The part of `resumeOpenClaim` after the chain has been found to still hold the lifecycle. */
    method Continue(v: Snapshot, revisionRound: bool, feedback: bool, prepared: bool, a: Answers) returns (r: ProcessOutcome)
      requires Ready() && disk.openClaim.Some? && v.claim.Some? && v.info.Some?
      requires SeesClaim(Mon(), true)
      requires disk.openClaim.value.phase.Submitting? && disk.openClaim.value.submission.Some? ==>
                 MaySendAgain(Mon(), clock, disk.openClaim.value)
      modifies `disk, `log, `clock
      ensures Ready() && old(log) <= log && old(clock) <= clock
      ensures r.ResultSubmitted? || r.ExecutionFailed? || r.DryRun? || r.Threw?
      ensures dryRun ==> r.DryRun? && disk == old(disk) && log == old(log)
      ensures !dryRun && !v.info.value.status.InProgress? && !(revisionRound && v.info.value.status.PendingValidation?) ==>
                r.ExecutionFailed? && disk == old(disk) && log == old(log)
      ensures r.ResultSubmitted? ==> Delivered(old(disk), disk, r.record)
    {
      hide Unsettled, Settled, KeepNewest, UniqueTasks, Allowed, Apply, IsHistory, MaySendAgain;
      if dryRun { return DryRun; }
      var c := disk.openClaim.value;
      if c.revision.Some? && !revisionRound && (c.phase.Claiming? || c.phase.Claimed?) { return ExecutionFailed; }
      if !v.info.value.status.InProgress? && !(revisionRound && v.info.value.status.PendingValidation?) {
        return ExecutionFailed;
      }
      if c.phase.Submitting? {
        r := SubmitPrepared(a);
        return;
      }
      if ResultPhase(c.phase) {
        r := ContinueExecuted(a);
        return;
      }
      if c.phase.Claiming? {
        var ok, alive := PromoteClaim();
        if !ok { return Threw; }
      }
      if revisionRound && !feedback { return ExecutionFailed; }
      if !prepared { return ExecutionFailed; }
      r := ExecuteAndSubmit(v.info.value.reward, a);
    }

    /** The round changes if the chain asks for a revision the marker has not acknowledged. */
    method Acknowledge(v: Snapshot) returns (revisionRound: bool, ok: bool)
      requires Ready() && disk.openClaim.Some? && CountsInRange(v)
      requires Mon().claim.Some? && Mon().claim.value.value == v.claim
      requires Mon().submission.Some? && Mon().submission.value.value == v.submission
      modifies `disk, `log
      ensures Ready() && old(log) <= log
      ensures revisionRound == AsksRevision(v, clock)
      ensures ok ==> Mon().claim == old(Mon()).claim && Mon().info == old(Mon()).info && Mon().submission == old(Mon()).submission
      ensures ok && revisionRound && old(disk).openClaim.value.revision != Some(v.submission.value.count) ==>
                disk.submissions == old(disk).submissions && InPhase(disk, Claimed)
                && disk.openClaim.value.task == old(disk).openClaim.value.task
      ensures !(revisionRound && old(disk).openClaim.value.revision != Some(v.submission.value.count)) ==>
                ok && disk == old(disk) && log == old(log)
    {
      hide Unsettled, Settled, KeepNewest, UniqueTasks, Allowed, Apply, IsHistory, Sound, LooksLive;
      revisionRound, ok := AsksRevision(v, clock), true;
      if revisionRound && disk.openClaim.value.revision != Some(v.submission.value.count) {
        ok := RestoreRevision(v.claim.value, v.info.value, v.submission.value, clock);
      }
    }

    /**
     `resumeOpenClaim`. `view` is what the three canonical reads return, or nothing when one of them fails.
     Canonical chain state wins over the marker; ambiguity is waited out; only a live claim is worked on.
     */
    method Resume(view: Option<Snapshot>, feedback: bool, prepared: bool, a: Answers) returns (r: ProcessOutcome)
      requires Ready() && (view.Some? ==> CountsInRange(view.value))
      modifies `disk, `log, `clock
      ensures Ready() && old(log) <= log && old(clock) <= clock
      ensures old(disk).openClaim.None? ==> r.NoClaim? && disk == old(disk) && log == old(log)
      ensures old(disk).openClaim.Some? && view.None? ==> r.Threw? && disk == old(disk) && log == old(log)
      // a landed submission of the round is ledgered, and nothing else
      ensures old(disk).openClaim.Some? && view.Some? && LandedForRound(view.value, old(disk).openClaim.value) ==>
                (r.ResultSubmitted? && r.record.hash == view.value.submission.value.proofHash) || r.Threw?
      // an unknown outcome is waited out
      ensures InPhase(old(disk), Submitting) && view.Some? && !LandedForRound(view.value, old(disk).openClaim.value)
              && (view.value.submission.None? || !view.value.submission.value.status.Rejected?)
              && clock < ReconciliationAt(old(disk).openClaim.value.submission.value) + GRACE ==>
                r.ExecutionFailed? && disk == old(disk)
      ensures InPhase(old(disk), Claiming) && view.Some? && view.value.claim.None? && view.value.submission.None?
              && clock < old(disk).openClaim.value.claimedAt + GRACE ==>
                r.ExecutionFailed? && disk == old(disk)
      // the marker is dropped only when both child accounts are gone, and then it is dropped or ledgered
      ensures old(disk).openClaim.Some? && r.NoClaim? ==>
                view.Some? && view.value.claim.None? && view.value.submission.None? && disk == old(disk).(openClaim := None)
      ensures old(disk).openClaim.Some? && view.Some? && view.value.claim.None? && view.value.submission.None?
              && (view.value.info.None? || Reopened(view.value))
              && (InPhase(old(disk), Claiming) ==> old(clock) >= old(disk).openClaim.value.claimedAt + GRACE)
              && (InPhase(old(disk), Submitting) ==>
                    old(clock) >= ReconciliationAt(old(disk).openClaim.value.submission.value) + GRACE) ==>
                r.NoClaim? || r.ResultSubmitted? || r.Threw?
      ensures r.ResultSubmitted? ==> old(disk).openClaim.Some? && Delivered(old(disk), disk, r.record)
      // within the grace of a claim attempt whose claim does not show, it is ledgered exactly if a leftover shows
      ensures InPhase(old(disk), Claiming) && view.Some? && view.value.claim.None?
              && clock < old(disk).openClaim.value.claimedAt + GRACE && !r.Threw? ==>
                && (r.ResultSubmitted? <==> Leftover(view.value, old(disk).openClaim.value))
                && (!r.ResultSubmitted? ==> r.ExecutionFailed? && disk == old(disk))
      ensures smooth && HastyResume(old(disk), view, old(clock)) ==>
                && r.ResultSubmitted? && clock == old(clock)
                && r.record == RecoveredRecord(old(disk).openClaim.value, view.value)
                && disk == Pruned(old(disk).(openClaim := None, submissions := old(disk).submissions + [r.record]))
                && log == old(log) + [Event(clock, ReadClaim(None)), Event(clock, ReadTask(view.value.info)),
                                      Event(clock, ReadSubmission(view.value.submission)), Event(clock, Act.Commit(r.record))]
    {
      hide Unsettled, Settled, KeepNewest, UniqueTasks, Allowed, Apply, IsHistory, LooksLive, Sound, MatchesIntent, ReconciliationAt;
      var state := Load();
      if state.openClaim.None? { return NoClaim; }
      if view.None? { return Threw; }
      var v := view.value;
      Observe(Read(v.claim), Read(v.info), Read(v.submission));
      Wait();
      var revisionRound, ok := Acknowledge(v);
      if !ok { return Threw; }
      r := Decide(v, revisionRound, feedback, prepared, a);
    }

    /** The process remembers having read this snapshot. */
    ghost predicate Knows(v: Snapshot)
      reads this
      requires IsHistory(sha, log)
    {
      && Mon().claim.Some? && Mon().claim.value.value == v.claim && Mon().info.Some? && Mon().info.value.value == v.info
      && Mon().submission.Some? && Mon().submission.value.value == v.submission
    }

    /** What `resumeOpenClaim` does once it knows the chain and whether a revision is asked for. */
    method Decide(v: Snapshot, revisionRound: bool, feedback: bool, prepared: bool, a: Answers) returns (r: ProcessOutcome)
      requires Ready() && disk.openClaim.Some? && Knows(v) && revisionRound == AsksRevision(v, clock)
      modifies `disk, `log, `clock
      ensures Ready() && old(log) <= log && old(clock) <= clock
      ensures !revisionRound && LandedForRound(v, old(disk).openClaim.value) ==>
                (r.ResultSubmitted? && r.record.hash == v.submission.value.proofHash) || r.Threw?
      ensures InPhase(old(disk), Submitting) && (revisionRound || !LandedForRound(v, old(disk).openClaim.value))
              && old(clock) < ReconciliationAt(old(disk).openClaim.value.submission.value) + GRACE ==>
                r.ExecutionFailed? && disk == old(disk)
      ensures InPhase(old(disk), Claiming) && v.claim.None? && v.submission.None?
              && old(clock) < old(disk).openClaim.value.claimedAt + GRACE ==>
                r.ExecutionFailed? && disk == old(disk)
      ensures r.NoClaim? ==> v.claim.None? && v.submission.None? && disk == old(disk).(openClaim := None)
      ensures v.claim.None? && v.submission.None? && (v.info.None? || Reopened(v))
              && (InPhase(old(disk), Claiming) ==> old(clock) >= old(disk).openClaim.value.claimedAt + GRACE)
              && (InPhase(old(disk), Submitting) ==>
                    old(clock) >= ReconciliationAt(old(disk).openClaim.value.submission.value) + GRACE) ==>
                r.NoClaim? || r.ResultSubmitted? || r.Threw?
      ensures r.ResultSubmitted? ==> Delivered(old(disk), disk, r.record)
      ensures InPhase(old(disk), Claiming) && v.claim.None? && old(clock) < old(disk).openClaim.value.claimedAt + GRACE && !r.Threw? ==>
                && (r.ResultSubmitted? <==> Leftover(v, old(disk).openClaim.value))
                && (!r.ResultSubmitted? ==> r.ExecutionFailed? && disk == old(disk))
      ensures smooth && HastyResume(old(disk), Some(v), old(clock)) ==>
                && r.ResultSubmitted? && clock == old(clock) && r.record == RecoveredRecord(old(disk).openClaim.value, v)
                && disk == Pruned(old(disk).(openClaim := None, submissions := old(disk).submissions + [r.record]))
                && log == old(log) + [Event(clock, Act.Commit(r.record))]
    {
      assert InPhase(disk, Submitting) ==> disk.openClaim.value.submission.Some?;
      hide Unsettled, Settled, KeepNewest, UniqueTasks, Allowed, Apply, IsHistory, LooksLive, Sound, MatchesIntent;
      var c := disk.openClaim.value;
      if !revisionRound && LandedForRound(v, c) {
        var record, alive := CommitLanded(v.submission.value, Reward(c, v), None);
        return if record.Some? then ResultSubmitted(record.value) else Threw;
      }
      if c.phase.Submitting? {
        if clock - ReconciliationAt(c.submission.value) < GRACE { return ExecutionFailed; }
        if v.submission.Some? && IsLanded(v.submission.value) { return ExecutionFailed; }
      }
      if !revisionRound && RejectedForGood(v, clock) {
        var record, alive := CommitLanded(v.submission.value, Reward(c, v), if c.submission.Some? then c.submission.value.signature else None);
        return if record.Some? then ResultSubmitted(record.value) else Threw;
      }
      if v.claim.None? && c.phase.Claiming? && clock - c.claimedAt < GRACE { return ExecutionFailed; }
      r := CarryOn(v, revisionRound, feedback, prepared, a);
    }

    /** The lifecycle is over, or incoherent, or goes on. */
    method CarryOn(v: Snapshot, revisionRound: bool, feedback: bool, prepared: bool, a: Answers) returns (r: ProcessOutcome)
      requires Ready() && disk.openClaim.Some? && Knows(v)
      requires v.claim.None? && InPhase(disk, Claiming) ==> clock >= disk.openClaim.value.claimedAt + GRACE
      requires InPhase(disk, Submitting) ==> MaySendAgain(Mon(), clock, disk.openClaim.value)
      modifies `disk, `log, `clock
      ensures Ready() && old(log) <= log && old(clock) <= clock
      ensures r.NoClaim? ==> v.claim.None? && v.submission.None? && disk == old(disk).(openClaim := None)
      ensures v.claim.None? && v.submission.None? && (v.info.None? || Reopened(v)) ==> r.NoClaim? || r.ResultSubmitted? || r.Threw?
      ensures r.ResultSubmitted? ==> Delivered(old(disk), disk, r.record)
    {
      hide Unsettled, Settled, KeepNewest, UniqueTasks, Allowed, Apply, IsHistory, LooksLive, Sound, MaySendAgain;
      if Reopened(v) && v.claim.None? && v.submission.None? && disk.openClaim.value.phase.Submitting? {
        var record := CommitPrepared();
        return if record.Some? then ResultSubmitted(record.value) else Threw;
      }
      if v.claim.None? && v.submission.None? && (Reopened(v) || v.info.None?) {
        var ok := RetireMarker();
        return if ok then NoClaim else Threw;
      }
      if v.claim.None? || v.info.None? { return ExecutionFailed; }
      r := Continue(v, revisionRound, feedback, prepared, a);
    }

    /** A recovery that ledgers a claim attempt within its grace, with room in the ledger. */
    predicate HastyResume(d: WorkerState, view: Option<Snapshot>, now: int) {
      && InPhase(d, Claiming) && view.Some? && Leftover(view.value, d.openClaim.value)
      && d.openClaim.value.submission.None? && d.openClaim.value.revision.None?
      && now < d.openClaim.value.claimedAt + GRACE && |Unsettled(d.submissions)| < MAX_UNSETTLED
    }

    method SaveReconciled(next: WorkerState, observed: Option<nat>, ghost sol: set<Address>) returns (ok: bool)
      requires Ready() && Reconciles(disk, next, observed, sol)
      modifies `disk, `log
      ensures Ready() && (log == old(log) || log == old(log) + [Event(clock, Reconcile(next, observed, sol))])
      ensures ok ==> disk == Pruned(next)
      ensures smooth ==> ok
    {
      hide Reconciles, KeepNewest;
      var alive;
      ok, alive := Save(next, Reconcile(next, observed, sol));
    }

    /**
     `checkSettlements`. `view` is what the accounts behind each ledger task say, `agent` the worker's
     `totalEarned` (read only when a SOL payment is to be settled), `fails` whether some account read throws.
     */
    method CheckSettlements(
      view: Address -> RecordView, fails: bool, agent: Reading<nat>, signatures: Address -> Option<Signature>)
      returns (ok: bool)
      requires Ready() && ViewsInRange(view)
      modifies `disk, `log, `clock
      ensures Ready() && old(log) <= log && old(clock) <= clock
      ensures |log| <= |old(log)| + 1
      ensures fails && |Unsettled(old(disk).submissions)| > 0 ==> !ok && disk == old(disk)
      ensures ok && |Unsettled(old(disk).submissions)| == 0 ==> disk == old(disk)
      // what the history records of it: the ledger tasks that pay in SOL, and the earnings it observed
      ensures |log| > |old(log)| ==>
                && log[|old(log)|].act.Reconcile? && log[|old(log)|].act.sol == SolLedger(old(disk).submissions, view)
                && (log[|old(log)|].act.observed.Some? ==> agent == Read(log[|old(log)|].act.observed))
      ensures ok && |Unsettled(old(disk).submissions)| > 0 ==>
                Checked(old(disk), disk, view, if agent.Read? then agent.value else None, old(clock), clock)
    {
      hide Unsettled, Settled, KeepNewest, Allowed, Draft, Apply, SweptTo, AllSettledAs, Reconciles, SettlesNow;
      var state := Load();
      if |Unsettled(state.submissions)| == 0 { return true; }
      if fails { return false; }
      var items, reopened, changed, last := SweepLedger(state.submissions, view, clock, state.openClaim.None?);
      clock := last;
      var paid := CountPaid(items);
      if paid > 0 && agent.ReadFailed? { return false; }
      var observed := if agent.Read? then agent.value else None;
      var growth := Growth(paid, observed, state.baseline);
      var settles := AnySettles(items, growth);
      var qs := SettleItems(items, growth, paid, signatures, clock);
      var next := Reconciled(state, reopened, qs, growth);
      if !settles && !changed {
        assert CheckedBy(state, disk, view, observed, old(clock), clock, items, reopened, qs, last, clock);
        return true;
      }
      ReconcilesHolds(sha, state, view, items, reopened, qs, observed, old(clock), last, clock);
      ok := SaveReconciled(next, if growth.Some? then observed else None, SolLedger(state.submissions, view));
      if ok { assert CheckedBy(state, disk, view, observed, old(clock), clock, items, reopened, qs, last, clock); }
    }

    /** A process starts: all it has is the disk. */
    method Restart()
      requires Ready()
      modifies `log, `clock
      ensures Ready() && old(log) <= log && old(clock) <= clock && Mon().memory.Nothing?
      ensures disk == old(disk)
    {
      Wait();
      Note(Act.Restart);
    }

    /** The agent id is persisted before it is registered on chain, and never replaced. */
    method EnsureRegistered(newId: nat) returns (ok: bool)
      requires Ready()
      modifies `disk, `log
      ensures Ready() && old(log) <= log
      ensures ok ==> disk == old(disk).(agentId := Some(if old(disk).agentId.Some? then old(disk).agentId.value else newId))
    {
      hide Unsettled, Settled, HasTask, KeepNewest, UniqueTasks, Reconciles, HashKnown, MaySendAgain;
      if disk.agentId.Some? { return true; }
      var alive;
      ok, alive := Save(disk.(agentId := Some(newId)), Register(newId));
    }

    /**
     `runTickOnceLocked`: settle, resume, otherwise try candidates until one engages, settle again. An agent that is
     not yet registered has nothing to settle.
     */
    method Tick(newId: nat, registered: bool, before: Accounts, view: Option<Snapshot>, feedback: bool, prepared: bool, a: Answers,
                candidates: seq<Candidate>, after: Accounts) returns (r: ProcessOutcome)
      requires Ready() && ViewsInRange(before.view) && ViewsInRange(after.view)
      requires view.Some? ==> CountsInRange(view.value)
      modifies `disk, `log, `clock
      ensures Ready() && old(log) <= log && old(clock) <= clock
    {
      hide Unsettled, Settled, KeepNewest, UniqueTasks, HasTask, Allowed, Draft, Apply, Play, Sound, Checked, InPhase, LandedForRound, Reopened;
      Restart();
      var ok := EnsureRegistered(newId);
      if !ok { return Threw; }
      if registered {
        ok := CheckSettlements(before.view, before.fails, before.agent, before.signatures);
        if !ok { return Threw; }
      }
      r := Resume(view, feedback, prepared, a);
      if r.Threw? { return; }
      if r.NoClaim? {
        var i := 0;
        while i < |candidates| && (r.NoClaim? || r.Skipped? || r.ClaimFailed?)
          invariant Ready() && old(log) <= log && old(clock) <= clock && i <= |candidates|
        {
          var c := candidates[i];
          r := ProcessCandidate(c.task, c.passes, c.info, c.prepared, c.funded, c.answer, c.seen, c.rest);
          if r.Threw? { return; }
          i := i + 1;
        }
      }
      if registered {
        ok := CheckSettlements(after.view, after.fails, after.agent, after.signatures);
        if !ok { return Threw; }
      }
    }
  }

  /** Is any record settled by this reconciliation? */
  method AnySettles(items: seq<Item>, growth: Option<nat>) returns (any: bool)
    ensures any <==> exists i :: 0 <= i < |items| && SettlesNow(items[i].verdict, growth)
  {
    any := false;
    for i := 0 to |items|
      invariant any <==> exists k :: 0 <= k < i && SettlesNow(items[k].verdict, growth)
    {
      if SettlesNow(items[i].verdict, growth) { any := true; }
    }
  }

  /** The reward recorded for a submission found on chain. */
  function Reward(c: OpenClaim, v: Snapshot): nat {
    if c.submission.Some? then c.submission.value.reward else if v.info.Some? then v.info.value.reward else 0
  }

  lemma NewestStays(rs: seq<Record>, r: Record, room: nat)
    requires !r.settled
    ensures r in KeepNewest(rs + [r], room)
  {
    assert (rs + [r])[..|rs|] == rs;
    assert KeepNewest(rs + [r], room) == KeepNewest(rs, room) + [r];
  }
}
