/** The durable worker state, what the validator accepts of it, and the pruning every load and save applies. */
module WorkerState {
  import opened Wrappers

  type Address = nat
  type Hash = nat
  type Signature = nat
  type Uri = nat
  type Bytes = seq<bv8>

  /** The digest of executor output. */
  type Hasher = Bytes -> Hash

  const MAX_UNSETTLED := 10_000
  const RETENTION := 1_000
  const MAX_PARSED := 50_000
  const MAX_SAFE_INTEGER := 9_007_199_254_740_991

  /** Executor output persisted after a successful execution. */
  datatype Execution = Execution(bytes: Bytes, hash: Hash, reward: nat, at: int)

  /** Result metadata persisted before the submission is sent. */
  datatype Intent = Intent(
    uri: Uri, hash: Hash, reward: nat, preparedAt: int,
    lastBroadcastAt: Option<int>, signature: Option<Signature>)

  datatype Phase = Claiming | Claimed | Executed | Uploading | Submitting

  datatype OpenClaim = OpenClaim(
    task: Address, claimedAt: int, phase: Phase, claimSignature: Option<Signature>,
    revision: Option<int>, execution: Option<Execution>, submission: Option<Intent>)

  datatype Outcome = Accepted | Rejected | Cancelled | Closed | Straggler

  /** `earned` and `settlement` distinguish an absent field from a null one. */
  datatype Record = Record(
    task: Address, signature: Option<Signature>, uri: Uri, hash: Hash, reward: nat, submittedAt: int,
    settled: bool, outcome: Option<Outcome>, straggling: bool,
    earned: Option<Option<nat>>, settlement: Option<Option<Signature>>, settledAt: Option<int>)

  datatype WorkerState = WorkerState(
    agentId: Option<nat>, openClaim: Option<OpenClaim>, baseline: nat, submissions: seq<Record>)

  const EMPTY := WorkerState(None, None, 0, [])

  // ---------------------------------------------------------------- the validator

  predicate ResultPhase(p: Phase) { p.Executed? || p.Uploading? }

  predicate ClaimOk(sha: Hasher, c: OpenClaim) {
    && (ResultPhase(c.phase) <==> c.execution.Some?)
    && (c.phase.Submitting? <==> c.submission.Some?)
    && (c.execution.Some? ==> c.execution.value.hash == sha(c.execution.value.bytes))
    && (c.revision.Some? ==> 1 <= c.revision.value <= 65535)
  }

  predicate RecordOk(r: Record) {
    if r.settled then r.outcome.Some? && r.settledAt.Some? && r.earned.Some? && r.settlement.Some?
    else r.outcome.None? && r.settledAt.None? && r.earned.None? && r.settlement.None?
  }

  function Unsettled(rs: seq<Record>): seq<Record> {
    if rs == [] then []
    else Unsettled(rs[..|rs| - 1]) + (if rs[|rs| - 1].settled then [] else [rs[|rs| - 1]])
  }

  function Settled(rs: seq<Record>): seq<Record> {
    if rs == [] then []
    else Settled(rs[..|rs| - 1]) + (if rs[|rs| - 1].settled then [rs[|rs| - 1]] else [])
  }

  predicate HasTask(rs: seq<Record>, task: Address) {
    exists i :: 0 <= i < |rs| && rs[i].task == task
  }

  predicate UniqueTasks(rs: seq<Record>) {
    forall i, j :: 0 <= i < j < |rs| ==> rs[i].task != rs[j].task
  }

  /** `currentState`: what a state must satisfy to be loaded or saved. */
  predicate Valid(sha: Hasher, s: WorkerState) {
    && |s.submissions| <= MAX_PARSED
    && |Unsettled(s.submissions)| <= MAX_UNSETTLED
    && UniqueTasks(s.submissions)
    && (forall i :: 0 <= i < |s.submissions| ==> RecordOk(s.submissions[i]))
    && (s.openClaim.Some? ==> ClaimOk(sha, s.openClaim.value) && !HasTask(s.submissions, s.openClaim.value.task))
  }

  /** The unversioned v0.1.1 form, whose marker had only a task and a time. */
  datatype LegacyState = LegacyState(
    agentId: Option<nat>, openClaim: Option<(Address, int)>, baseline: nat, submissions: seq<Record>)

  function Migrate(legacy: LegacyState): WorkerState {
    WorkerState(legacy.agentId,
                match legacy.openClaim
                case None => None
                case Some((task, at)) => Some(OpenClaim(task, at, Claimed, None, None, None, None)),
                legacy.baseline, legacy.submissions)
  }

  /** Migration is accepted exactly when the ledger is, and the marker's task is not already in it. */
  lemma MigrationAccepted(sha: Hasher, legacy: LegacyState)
    ensures Valid(sha, Migrate(legacy)) <==>
              Valid(sha, WorkerState(None, None, 0, legacy.submissions)) &&
              (legacy.openClaim.Some? ==> !HasTask(legacy.submissions, legacy.openClaim.value.0))
  {
  }

  // ---------------------------------------------------------------- pruning

  /** All unsettled records, and the newest `room` settled ones, in ledger order (oldest first). */
  function KeepNewest(rs: seq<Record>, room: nat): seq<Record> {
    if rs == [] then []
    else
      var older, r := rs[..|rs| - 1], rs[|rs| - 1];
      if !r.settled then KeepNewest(older, room) + [r]
      else if room == 0 then KeepNewest(older, 0)
      else KeepNewest(older, room - 1) + [r]
  }

  lemma {:induction false} SplitCount(rs: seq<Record>)
    ensures |rs| == |Settled(rs)| + |Unsettled(rs)|
  {
    if rs != [] { SplitCount(rs[..|rs| - 1]); }
  }

  lemma SettledOfOne(rs: seq<Record>, r: Record)
    ensures Settled(rs + [r]) == if r.settled then Settled(rs) + [r] else Settled(rs)
    ensures Unsettled(rs + [r]) == if r.settled then Unsettled(rs) else Unsettled(rs) + [r]
  {
    assert (rs + [r])[..|rs|] == rs;
  }

  /** The last `n` elements, or all of them. */
  function Last<T>(s: seq<T>, n: nat): seq<T> {
    if |s| <= n then s else s[|s| - n..]
  }

  lemma LastOfMore<T>(s: seq<T>, x: T, n: nat)
    ensures Last(s + [x], n + 1) == Last(s, n) + [x]
    ensures Last(s, 0) == []
  {
  }

  lemma KeepNewestOfOne(rs: seq<Record>, r: Record, room: nat)
    ensures !r.settled ==> KeepNewest(rs + [r], room) == KeepNewest(rs, room) + [r]
    ensures r.settled && room == 0 ==> KeepNewest(rs + [r], room) == KeepNewest(rs, 0)
    ensures r.settled && room > 0 ==> KeepNewest(rs + [r], room) == KeepNewest(rs, room - 1) + [r]
  {
    assert (rs + [r])[..|rs|] == rs;
  }

  ghost predicate KeptWell(rs: seq<Record>, room: nat) {
    && Unsettled(KeepNewest(rs, room)) == Unsettled(rs)
    && Settled(KeepNewest(rs, room)) == Last(Settled(rs), room)
  }

  lemma KeptWellStep(older: seq<Record>, r: Record, room: nat)
    requires KeptWell(older, if !r.settled || room == 0 then room else room - 1)
    ensures KeptWell(older + [r], room)
  {
    var less: nat := if !r.settled || room == 0 then room else room - 1;
    KeepNewestOfOne(older, r, room);
    SettledOfOne(older, r);
    SettledOfOne(KeepNewest(older, less), r);
    LastOfMore(Settled(older), r, less);
    LastOfMore(Settled(older + [r]), r, 0);
    hide KeepNewest, Settled, Unsettled, Last;
  }

  /** Pruning never drops or reorders unsettled work, and keeps the newest settled records. */
  lemma {:induction false} KeepNewestKeeps(rs: seq<Record>, room: nat)
    ensures Unsettled(KeepNewest(rs, room)) == Unsettled(rs)
    ensures Settled(KeepNewest(rs, room)) == Last(Settled(rs), room)
  {
    if rs != [] {
      var older, r := rs[..|rs| - 1], rs[|rs| - 1];
      KeepNewestKeeps(older, if !r.settled || room == 0 then room else room - 1);
      KeptWellStep(older, r, room);
      assert older + [r] == rs;
    }
  }

  /** With room for every settled record nothing is dropped. */
  lemma {:induction false} KeepNewestAll(rs: seq<Record>, room: nat)
    requires |Settled(rs)| <= room
    ensures KeepNewest(rs, room) == rs
  {
    if rs != [] {
      var older, r := rs[..|rs| - 1], rs[|rs| - 1];
      KeepNewestAll(older, if r.settled then room - 1 else room);
      assert rs == older + [r];
    }
  }

  lemma {:induction false} KeepNewestSubset(rs: seq<Record>, room: nat)
    requires UniqueTasks(rs)
    ensures forall r :: r in KeepNewest(rs, room) ==> r in rs
    ensures UniqueTasks(KeepNewest(rs, room))
  {
    if rs != [] {
      var older, r := rs[..|rs| - 1], rs[|rs| - 1];
      var less := if !r.settled || room == 0 then room else room - 1;
      KeepNewestSubset(older, less);
      var kept := KeepNewest(older, less);
      forall i | 0 <= i < |kept|
        ensures kept[i].task != r.task
      {
        assert kept[i] in older;
      }
    }
  }

  /**
   `pruneSettledSubmissions`: drop the oldest settled records beyond the retention, counting down while
   scanning from the oldest. The retention must be a non-negative safe integer.
   */
  method PruneSettled(rs: seq<Record>, retention: int) returns (r: Option<(seq<Record>, nat)>)
    ensures r.None? <==> retention < 0 || retention > MAX_SAFE_INTEGER
    ensures r.Some? ==> r.value.0 == KeepNewest(rs, retention) && r.value.1 == |rs| - |r.value.0|
  {
    hide KeepNewest, Settled, Unsettled;
    if retention < 0 || retention > MAX_SAFE_INTEGER { return None; }
    NothingKept(retention);
    var count: nat := 0;
    for i := 0 to |rs|
      invariant count == |Settled(rs[..i])|
    {
      assert rs[..i + 1] == rs[..i] + [rs[i]];
      SettledOfOne(rs[..i], rs[i]);
      if rs[i].settled { count := count + 1; }
    }
    assert rs[..|rs|] == rs;
    var toRemove: nat := if count > retention then count - retention else 0;
    if toRemove == 0 {
      KeepNewestAll(rs, retention);
      return Some((rs, 0));
    }
    var kept: seq<Record> := [];
    ghost var excess: nat := toRemove;
    for i := 0 to |rs|
      invariant toRemove == Beyond(excess, |Settled(rs[..i])|)
      invariant kept == KeepNewest(rs[..i], Beyond(|Settled(rs[..i])|, excess))
      invariant |kept| <= i
    {
      assert rs[..i + 1] == rs[..i] + [rs[i]];
      SettledOfOne(rs[..i], rs[i]);
      KeepNewestOfOne(rs[..i], rs[i], Beyond(|Settled(rs[..i + 1])|, excess));
      if !rs[i].settled || toRemove == 0 {
        kept := kept + [rs[i]];
      } else {
        toRemove := toRemove - 1;
      }
    }
    return Some((kept, |rs| - |kept|));
  }

  /** How far `a` exceeds `b`. */
  function Beyond(a: nat, b: nat): nat { if a > b then a - b else 0 }

  lemma NothingKept(room: nat)
    ensures Settled([]) == [] && forall n: nat :: KeepNewest([], n) == []
  {
  }

  /** What `saveState` writes. */
  function Pruned(s: WorkerState): WorkerState {
    s.(submissions := KeepNewest(s.submissions, RETENTION))
  }

  /** A pruned valid state is valid, and stays far below the size the validator allows. */
  lemma PrunedValid(sha: Hasher, s: WorkerState)
    requires Valid(sha, s)
    ensures Valid(sha, Pruned(s))
    ensures |Pruned(s).submissions| <= MAX_UNSETTLED + RETENTION
    ensures Unsettled(Pruned(s).submissions) == Unsettled(s.submissions)
    ensures forall r :: r in Pruned(s).submissions ==> r in s.submissions
  {
    hide KeepNewest, Settled, Unsettled, RecordOk, ClaimOk;
    var kept := KeepNewest(s.submissions, RETENTION);
    KeepNewestSubset(s.submissions, RETENTION);
    KeepNewestKeeps(s.submissions, RETENTION);
    SplitCount(kept);
    forall i | 0 <= i < |kept|
      ensures RecordOk(kept[i]) && (s.openClaim.Some? ==> kept[i].task != s.openClaim.value.task)
    {
      assert kept[i] in s.submissions;
    }
  }
}
