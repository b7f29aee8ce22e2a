/**
 The worker's write-ahead log as a protocol: every durable write and every outside effect is an event,
 allowed only in certain durable states and on certain evidence. A process may die between any two
 events, so everything it only remembers is dropped by a restart.
 */
module WorkerProtocol {
  import opened Wrappers
  import opened WorkerState

  /** Transactions are ambiguous for this long, in milliseconds. */
  const GRACE := 120_000

  // ---------------------------------------------------------------- what the chain shows

  datatype TaskStatus = Open | InProgress | PendingValidation | Completed | Cancelled | Disputed | RejectFrozen

  datatype TaskInfo = TaskInfo(
    status: TaskStatus, currentWorkers: nat, reward: nat, paysSol: bool, collaborative: bool)

  /** Chain times are in seconds. */
  datatype Claim = Claim(
    claimedAt: int, completedAt: int, isCompleted: bool, isValidated: bool, expiresAt: int, rewardPaid: nat)

  datatype SubmissionStatus = Idle | Submitted | Accepted | Rejected

  datatype Submission = Submission(status: SubmissionStatus, proofHash: Hash, count: int, submittedAt: int)

  /** The SDK's verdict on a broadcast: landed, definitely not landed, or unknown. */
  datatype Report = Landed | Failed | Unknown

  predicate IsLanded(s: Submission) { s.status.Submitted? || s.status.Accepted? }

  predicate MatchesIntent(s: Submission, intent: Intent, revision: Option<int>) {
    s.proofHash == intent.hash && (revision.Some? ==> s.count > revision.value)
  }

  predicate LooksLive(c: Claim, now: int) {
    c.claimedAt > 0 && c.completedAt == 0 && !c.isCompleted && !c.isValidated && c.expiresAt >= now / 1000
  }

  /** A rejected submission on a task and claim that are still engaged asks for another round. */
  predicate RevisionRequested(info: TaskInfo, claim: Claim, s: Submission, now: int) {
    && s.status.Rejected?
    && (info.status.InProgress? || info.status.PendingValidation?)
    && info.currentWorkers != 0 && LooksLive(claim, now)
  }

  // ---------------------------------------------------------------- events

  datatype Act =
    | Restart
    | Register(agentId: nat)
    | ReadClaim(claim: Option<Claim>)
    | ReadTask(seen: Option<TaskInfo>)
    | ReadSubmission(submission: Option<Submission>)
    | StartClaim(task: Address)
    | SendClaim
    | HearClaim(report: Report)
    | NoteClaim(signature: Signature)
    | ConfirmClaim
    | AbandonClaim
    | Run
    | Persist(bytes: Bytes, reward: nat)
    | Upload
    | Prepare(uri: Uri)
    | Stamp
    | SendResult(hash: Hash)
    | NoteResult(signature: Signature)
    | Commit(record: Record)
    | Retire
    | Revise(requested: Claim, info: TaskInfo, rejected: Submission, checkedAt: int, claimedAt: int)
    | Reconcile(next: WorkerState, observed: Option<nat>, sol: set<Address>)

  datatype Event = Event(at: int, act: Act)

  /** What the running process knows beyond the disk. */
  datatype Memory = Nothing | ClaimStarted | ClaimSent | Heard(report: Report) | Prepared | Stamped

  datatype Seen<T> = Seen(at: int, value: Option<T>)

  datatype Monitor = Monitor(
    disk: WorkerState, now: int, memory: Memory,
    claim: Option<Seen<Claim>>, info: Option<Seen<TaskInfo>>, submission: Option<Seen<Submission>>)

  const START := Monitor(EMPTY, 0, Nothing, None, None, None)

  predicate InPhase(d: WorkerState, p: Phase) {
    d.openClaim.Some? && d.openClaim.value.phase == p
  }

  predicate SeesClaim(m: Monitor, present: bool) {
    m.claim.Some? && m.claim.value.value.Some? == present
  }

  predicate SeesSubmission(m: Monitor, present: bool) {
    m.submission.Some? && m.submission.value.value.Some? == present
  }

  /** The task is open to others again, or over. */
  predicate IsOver(info: TaskInfo) { info.status.Open? || info.status.Completed? || info.status.Cancelled? }

  predicate SeesOver(m: Monitor) {
    m.info.Some? && m.info.value.value.Some? && IsOver(m.info.value.value.value)
  }

  /** The submission was delivered, or rejected with its task open again or over. */
  predicate SeesOutcome(m: Monitor) {
    SeesSubmission(m, true) &&
    var s := m.submission.value.value.value;
    IsLanded(s) || (s.status.Rejected? && SeesOver(m))
  }

  /** The time from which the ambiguity of a prepared or sent result is measured. */
  function ReconciliationAt(i: Intent): int {
    if i.lastBroadcastAt.Some? then i.lastBroadcastAt.value else i.preparedAt
  }

  /** An unsettled ledger record, without any terminal field. */
  predicate Bare(r: Record) { !r.settled && !r.straggling && RecordOk(r) }

  /** The hash a ledgered submission may carry: the prepared one, or that of a submission read to have an outcome. */
  predicate HashKnown(m: Monitor, hash: Hash) {
    || (InPhase(m.disk, Submitting) && m.disk.openClaim.value.submission.Some?
        && m.disk.openClaim.value.submission.value.hash == hash)
    || (SeesOutcome(m) && m.submission.value.value.value.proofHash == hash)
  }

  /** A result may be sent again only after the grace, and after a read that does not show it landed. */
  predicate MaySendAgain(m: Monitor, at: int, c: OpenClaim)
    requires c.submission.Some?
  {
    && at >= ReconciliationAt(c.submission.value) + GRACE
    && m.submission.Some?
    && (m.submission.value.value.Some? ==> !IsLanded(m.submission.value.value.value))
  }

  predicate Allowed(m: Monitor, e: Event) {
    e.at >= m.now &&
    match e.act
    case Restart => true
    case Register(_) => m.disk.agentId.None?
    case ReadClaim(_) => m.disk.openClaim.Some?
    case ReadTask(_) => m.disk.openClaim.Some?
    case ReadSubmission(_) => m.disk.openClaim.Some?
    case StartClaim(task) => m.disk.openClaim.None? && !HasTask(m.disk.submissions, task)
    case SendClaim => InPhase(m.disk, Claiming) && m.memory.ClaimStarted?
    case HearClaim(_) => InPhase(m.disk, Claiming) && m.memory.ClaimSent?
    case NoteClaim(_) => InPhase(m.disk, Claiming)
    case ConfirmClaim => InPhase(m.disk, Claiming) && (m.memory == Heard(Landed) || SeesClaim(m, true))
    case AbandonClaim => InPhase(m.disk, Claiming) && m.memory == Heard(Failed) && SeesClaim(m, false)
    case Run => InPhase(m.disk, Claimed)
    case Persist(_, _) => InPhase(m.disk, Claimed)
    case Upload => m.disk.openClaim.Some? && ResultPhase(m.disk.openClaim.value.phase)
    case Prepare(_) =>
      m.disk.openClaim.Some? && ResultPhase(m.disk.openClaim.value.phase) && m.disk.openClaim.value.execution.Some?
    case Stamp =>
      && InPhase(m.disk, Submitting) && m.disk.openClaim.value.submission.Some?
      && (m.memory.Prepared? || MaySendAgain(m, e.at, m.disk.openClaim.value))
    case SendResult(hash) =>
      && InPhase(m.disk, Submitting) && m.memory.Stamped?
      && m.disk.openClaim.value.submission.Some? && hash == m.disk.openClaim.value.submission.value.hash
    case NoteResult(_) => InPhase(m.disk, Submitting) && m.disk.openClaim.value.submission.Some?
    case Commit(r) =>
      && m.disk.openClaim.Some? && r.task == m.disk.openClaim.value.task && Bare(r)
      && |Unsettled(m.disk.submissions)| < MAX_UNSETTLED
      && HashKnown(m, r.hash)
      && (InPhase(m.disk, Claiming) ==> m.claim.Some?)
    case Retire =>
      && m.disk.openClaim.Some? && SeesClaim(m, false) && SeesSubmission(m, false)
      && (InPhase(m.disk, Claiming) ==> e.at >= m.disk.openClaim.value.claimedAt + GRACE)
    case Revise(claim, info, s, checkedAt, _) =>
      && m.disk.openClaim.Some? && checkedAt <= e.at && RevisionRequested(info, claim, s, checkedAt)
      && SeesClaim(m, true) && m.claim.value.value == Some(claim)
      && SeesSubmission(m, true) && m.submission.value.value == Some(s)
      && m.disk.openClaim.value.revision != Some(s.count) && 1 <= s.count <= 65535
    case Reconcile(next, observed, sol) => Reconciles(m.disk, next, observed, sol)
  }

  // ---------------------------------------------------------------- settlement

  /** A record is left alone, is marked or unmarked as a straggler, or is settled once. */
  predicate RecordMoves(r: Record, q: Record) {
    && q.task == r.task && q.signature == r.signature && q.uri == r.uri && q.hash == r.hash
    && q.reward == r.reward && q.submittedAt == r.submittedAt
    && (r.settled ==> q == r)
    && RecordOk(q)
  }

  predicate NewlySettled(r: Record, q: Record) { !r.settled && q.settled }

  predicate SolAccepted(r: Record, q: Record, sol: set<Address>) {
    NewlySettled(r, q) && q.outcome == Some(Outcome.Accepted) && r.task in sol
  }

  /** Lamports attributed to one record by a reconciliation. */
  function Gain(r: Record, q: Record): nat {
    if NewlySettled(r, q) && q.earned.Some? && q.earned.value.Some? then q.earned.value.value else 0
  }

  function Gains(rs: seq<Record>, qs: seq<Record>): nat
    requires |rs| == |qs|
  {
    if rs == [] then 0 else Gains(rs[..|rs| - 1], qs[..|qs| - 1]) + Gain(rs[|rs| - 1], qs[|qs| - 1])
  }

  function Without(rs: seq<Record>, task: Address): seq<Record> {
    if rs == [] then []
    else Without(rs[..|rs| - 1], task) + (if rs[|rs| - 1].task == task then [] else [rs[|rs| - 1]])
  }

  /** The records that remain when a revision round takes its task out of the ledger. */
  function Remaining(d: WorkerState, next: WorkerState): seq<Record> {
    if d.openClaim.None? && next.openClaim.Some? then Without(d.submissions, next.openClaim.value.task)
    else d.submissions
  }

  /** A marker that opens a revision round for an unsettled ledger record. */
  predicate Reopens(d: WorkerState, c: OpenClaim) {
    && d.openClaim.None? && c.phase.Claimed? && c.execution.None? && c.submission.None?
    && c.revision.Some? && 1 <= c.revision.value <= 65535
    && exists i :: 0 <= i < |d.submissions| && d.submissions[i].task == c.task && !d.submissions[i].settled
  }

  predicate Reconciles(d: WorkerState, next: WorkerState, observed: Option<nat>, sol: set<Address>) {
    var rs, qs := Remaining(d, next), next.submissions;
    && next.agentId == d.agentId
    && (next.openClaim == d.openClaim || (next.openClaim.Some? && Reopens(d, next.openClaim.value)))
    && |qs| == |rs| && (forall i :: 0 <= i < |rs| ==> RecordMoves(rs[i], qs[i]))
    && (if observed.Some? then next.baseline == observed.value && next.baseline > d.baseline else next.baseline == d.baseline)
    && Gains(rs, qs) <= next.baseline - d.baseline
    && (forall i :: 0 <= i < |rs| && SolAccepted(rs[i], qs[i], sol) ==> observed.Some?)
  }

  // ---------------------------------------------------------------- effects

  function WithClaim(d: WorkerState, c: OpenClaim): WorkerState { d.(openClaim := Some(c)) }

  /** The state handed to `saveState` by an event; events that write nothing hand over the disk itself. */
  function Draft(sha: Hasher, m: Monitor, e: Event): WorkerState
    requires Allowed(m, e)
  {
    var d := m.disk;
    match e.act
    case Register(id) => d.(agentId := Some(id))
    case StartClaim(task) => WithClaim(d, OpenClaim(task, e.at, Claiming, None, None, None, None))
    case NoteClaim(sig) => WithClaim(d, d.openClaim.value.(claimSignature := Some(sig)))
    case ConfirmClaim => WithClaim(d, d.openClaim.value.(phase := Claimed))
    case AbandonClaim => d.(openClaim := None)
    case Persist(bytes, reward) =>
      WithClaim(d, d.openClaim.value.(phase := Phase.Executed, execution := Some(Execution(bytes, sha(bytes), reward, e.at))))
    case Upload => WithClaim(d, d.openClaim.value.(phase := Uploading))
    case Prepare(uri) =>
      var c := d.openClaim.value;
      var x := c.execution.value;
      WithClaim(d, c.(phase := Submitting, execution := None,
                      submission := Some(Intent(uri, x.hash, x.reward, e.at, None, None))))
    case Stamp =>
      var c := d.openClaim.value;
      WithClaim(d, c.(submission := Some(c.submission.value.(lastBroadcastAt := Some(e.at)))))
    case NoteResult(sig) =>
      var c := d.openClaim.value;
      WithClaim(d, c.(submission := Some(c.submission.value.(signature := Some(sig)))))
    case Commit(r) => d.(openClaim := None, submissions := d.submissions + [r])
    case Retire => d.(openClaim := None)
    case Revise(_, _, s, _, claimedAt) =>
      var c := d.openClaim.value;
      d.(openClaim := Some(OpenClaim(c.task, claimedAt, Claimed, c.claimSignature, Some(s.count), None, None)))
    case Reconcile(next, _, _) => next
    case _ => d
  }

  /** `saveState` prunes what it writes; an event that writes nothing leaves the disk alone. */
  predicate Writes(a: Act) {
    || a.Register? || a.StartClaim? || a.NoteClaim? || a.ConfirmClaim? || a.AbandonClaim? || a.Persist? || a.Upload?
    || a.Prepare? || a.Stamp? || a.NoteResult? || a.Commit? || a.Retire? || a.Revise? || a.Reconcile?
  }

  function Remembered(m: Memory, a: Act): Memory {
    match a
    case Restart => Nothing
    case StartClaim(_) => ClaimStarted
    case SendClaim => ClaimSent
    case HearClaim(r) => Heard(r)
    case Prepare(_) => Prepared
    case Stamp => Stamped
    case ConfirmClaim | AbandonClaim | SendResult(_) | Commit(_) | Retire | Reconcile(_, _, _) => Nothing
    case ReadClaim(_) | ReadTask(_) | ReadSubmission(_) => if m.Prepared? || m.Stamped? then Nothing else m
    case _ => m
  }

  function ClaimSeen(before: Option<Seen<Claim>>, e: Event): Option<Seen<Claim>> {
    match e.act
    case ReadClaim(c) => Some(Seen(e.at, c))
    case Restart | StartClaim(_) | ConfirmClaim | AbandonClaim | Commit(_) | Retire | Reconcile(_, _, _) => None
    case _ => before
  }

  function InfoSeen(before: Option<Seen<TaskInfo>>, e: Event): Option<Seen<TaskInfo>> {
    match e.act
    case ReadTask(info) => Some(Seen(e.at, info))
    case Restart | StartClaim(_) | ConfirmClaim | AbandonClaim | Commit(_) | Retire | Reconcile(_, _, _) => None
    case _ => before
  }

  function SubmissionSeen(before: Option<Seen<Submission>>, e: Event): Option<Seen<Submission>> {
    match e.act
    case ReadSubmission(s) => Some(Seen(e.at, s))
    case Restart | StartClaim(_) | AbandonClaim | Prepare(_) | SendResult(_) | Commit(_) | Retire | Reconcile(_, _, _) => None
    case _ => before
  }

  function Apply(sha: Hasher, m: Monitor, e: Event): Monitor
    requires Allowed(m, e)
  {
    Monitor(if Writes(e.act) then Pruned(Draft(sha, m, e)) else m.disk, e.at, Remembered(m.memory, e.act),
            ClaimSeen(m.claim, e), InfoSeen(m.info, e), SubmissionSeen(m.submission, e))
  }

  /** The monitor after a history that starts with no state file, or nothing if the history is not allowed. */
  function Play(sha: Hasher, t: seq<Event>): Option<Monitor>
    decreases |t|
  {
    if t == [] then Some(START)
    else
      match Play(sha, t[..|t| - 1])
      case None => None
      case Some(m) => if Allowed(m, t[|t| - 1]) then Some(Apply(sha, m, t[|t| - 1])) else None
  }

  ghost predicate IsHistory(sha: Hasher, t: seq<Event>) { Play(sha, t).Some? }

  lemma {:induction false} PrefixIsHistory(sha: Hasher, t: seq<Event>, i: nat)
    requires IsHistory(sha, t) && i <= |t|
    ensures IsHistory(sha, t[..i])
    decreases |t| - i
  {
    if i < |t| {
      PrefixIsHistory(sha, t, i + 1);
      assert t[..i + 1][..i] == t[..i];
    } else {
      assert t[..i] == t;
    }
  }

  /** The monitor before event `i`. */
  ghost function At(sha: Hasher, t: seq<Event>, i: nat): Monitor
    requires IsHistory(sha, t) && i <= |t|
  {
    PrefixIsHistory(sha, t, i);
    Play(sha, t[..i]).value
  }

  lemma AtStart(sha: Hasher, t: seq<Event>)
    requires IsHistory(sha, t)
    ensures At(sha, t, 0) == START
  {
    assert t[..0] == [];
  }

  lemma StepAt(sha: Hasher, t: seq<Event>, i: nat)
    requires IsHistory(sha, t) && i < |t|
    ensures Allowed(At(sha, t, i), t[i]) && At(sha, t, i + 1) == Apply(sha, At(sha, t, i), t[i])
  {
    hide Allowed, Apply;
    PrefixIsHistory(sha, t, i + 1);
    assert t[..i + 1][..i] == t[..i];
  }

  // ---------------------------------------------------------------- every save is accepted

  /** Valid, and pruned: the shape of every state on disk. */
  predicate Sound(sha: Hasher, d: WorkerState) {
    Valid(sha, d) && |Settled(d.submissions)| <= RETENTION
  }

  lemma SoundIsSmall(sha: Hasher, d: WorkerState)
    requires Sound(sha, d)
    ensures |d.submissions| <= MAX_UNSETTLED + RETENTION && Pruned(d) == d
  {
    SplitCount(d.submissions);
    KeepNewestAll(d.submissions, RETENTION);
  }

  lemma PrunedSound(sha: Hasher, d: WorkerState)
    requires Valid(sha, d)
    ensures Sound(sha, Pruned(d))
  {
    PrunedValid(sha, d);
    KeepNewestKeeps(d.submissions, RETENTION);
  }

  lemma CommitValid(sha: Hasher, d: WorkerState, r: Record)
    requires Sound(sha, d) && d.openClaim.Some? && r.task == d.openClaim.value.task && Bare(r)
    requires |Unsettled(d.submissions)| < MAX_UNSETTLED
    ensures Valid(sha, d.(openClaim := None, submissions := d.submissions + [r]))
  {
    SoundIsSmall(sha, d);
    SettledOfOne(d.submissions, r);
    hide ClaimOk, RecordOk, Settled, Unsettled, KeepNewest;
  }

  lemma {:induction false} WithoutTask(rs: seq<Record>, task: Address)
    requires UniqueTasks(rs)
    ensures UniqueTasks(Without(rs, task)) && !HasTask(Without(rs, task), task)
    ensures forall r :: r in Without(rs, task) <==> r in rs && r.task != task
    ensures |Without(rs, task)| <= |rs|
  {
    if rs != [] {
      var older, r := rs[..|rs| - 1], rs[|rs| - 1];
      WithoutTask(older, task);
      var kept := Without(older, task);
      assert forall i :: 0 <= i < |kept| ==> kept[i] in older;
      assert forall x :: x in rs <==> x in older || x == r;
    }
  }

  lemma {:induction false} WithoutCounts(rs: seq<Record>, task: Address)
    ensures |Unsettled(Without(rs, task))| <= |Unsettled(rs)|
    ensures |Settled(Without(rs, task))| <= |Settled(rs)|
  {
    if rs != [] {
      var older, r := rs[..|rs| - 1], rs[|rs| - 1];
      WithoutCounts(older, task);
      if r.task != task {
        var kept := Without(older, task);
        assert (kept + [r])[..|kept|] == kept;
      } else {
        assert Without(rs, task) == Without(older, task);
      }
    }
  }

  lemma {:induction false} MovesUnsettled(rs: seq<Record>, qs: seq<Record>)
    requires |rs| == |qs| && forall i :: 0 <= i < |rs| ==> RecordMoves(rs[i], qs[i])
    ensures |Unsettled(qs)| <= |Unsettled(rs)|
  {
    if rs != [] { MovesUnsettled(rs[..|rs| - 1], qs[..|qs| - 1]); }
  }

  /** The records left by a reopened round, before anything is settled. */
  lemma RemainingSound(sha: Hasher, d: WorkerState, next: WorkerState)
    requires Sound(sha, d)
    ensures |Remaining(d, next)| <= MAX_PARSED && |Unsettled(Remaining(d, next))| <= MAX_UNSETTLED
    ensures UniqueTasks(Remaining(d, next))
    ensures d.openClaim.None? && next.openClaim.Some? ==> !HasTask(Remaining(d, next), next.openClaim.value.task)
  {
    hide Settled, Unsettled, RecordOk, ClaimOk, HasTask, UniqueTasks;
    if d.openClaim.None? && next.openClaim.Some? {
      WithoutTask(d.submissions, next.openClaim.value.task);
      WithoutCounts(d.submissions, next.openClaim.value.task);
    }
  }

  lemma MovesKeepTasks(rs: seq<Record>, qs: seq<Record>)
    requires |rs| == |qs| && forall i :: 0 <= i < |rs| ==> RecordMoves(rs[i], qs[i])
    ensures UniqueTasks(rs) ==> UniqueTasks(qs)
    ensures forall task :: HasTask(rs, task) <==> HasTask(qs, task)
    ensures forall i :: 0 <= i < |qs| ==> RecordOk(qs[i])
  {
    assert forall i :: 0 <= i < |rs| ==> rs[i].task == qs[i].task && RecordOk(qs[i]);
    hide RecordMoves, RecordOk;
  }

  lemma ReconcileValid(sha: Hasher, d: WorkerState, next: WorkerState, observed: Option<nat>, sol: set<Address>)
    requires Sound(sha, d) && Reconciles(d, next, observed, sol)
    ensures Valid(sha, next)
  {
    RemainingSound(sha, d, next);
    MovesUnsettled(Remaining(d, next), next.submissions);
    MovesKeepTasks(Remaining(d, next), next.submissions);
    RemainingSame(d, next);
    hide Settled, Unsettled, Gains, Remaining, RecordMoves, RecordOk, HasTask, UniqueTasks, SolAccepted;
  }

  lemma RemainingSame(d: WorkerState, next: WorkerState)
    ensures d.openClaim.Some? ==> Remaining(d, next) == d.submissions
  {
  }

  /** Whatever an allowed event hands to `saveState` passes the validator. */
  lemma DraftValid(sha: Hasher, m: Monitor, e: Event)
    requires Sound(sha, m.disk) && Allowed(m, e)
    ensures Valid(sha, Draft(sha, m, e))
  {
    if e.act.Commit? {
      CommitValid(sha, m.disk, e.act.record);
    } else if e.act.Reconcile? {
      ReconcileValid(sha, m.disk, e.act.next, e.act.observed, e.act.sol);
    } else {
      hide Settled, Unsettled, UniqueTasks, Reconciles;
    }
  }

  lemma {:induction false} DiskSound(sha: Hasher, t: seq<Event>)
    requires IsHistory(sha, t)
    ensures Sound(sha, Play(sha, t).value.disk)
    decreases |t|
  {
    if t != [] {
      DiskSound(sha, t[..|t| - 1]);
      var m, e := Play(sha, t[..|t| - 1]).value, t[|t| - 1];
      DraftValid(sha, m, e);
      PrunedSound(sha, Draft(sha, m, e));
    }
  }

  /**
   In every history, with crashes anywhere, each state handed to `saveState` is one the validator accepts,
   and the disk never holds more than 11,000 records.
   */
  lemma EverySaveIsAccepted(sha: Hasher, t: seq<Event>, i: nat)
    requires IsHistory(sha, t) && i < |t|
    ensures Allowed(At(sha, t, i), t[i])
    ensures Valid(sha, Draft(sha, At(sha, t, i), t[i]))
    ensures |At(sha, t, i).disk.submissions| <= MAX_UNSETTLED + RETENTION
  {
    StepAt(sha, t, i);
    PrefixIsHistory(sha, t, i);
    DiskSound(sha, t[..i]);
    SoundIsSmall(sha, At(sha, t, i).disk);
    DraftValid(sha, At(sha, t, i), t[i]);
  }
}
