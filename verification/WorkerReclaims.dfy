/**
 Why a ledgered task must not be claimed again with its claim left open: a history in which a task's settled record is
 pruned, the task is claimed a second time, its old claim is taken for the new one, and two claims overlap.
 */
module WorkerReclaims {
  import opened Wrappers
  import opened WorkerState
  import opened WorkerProtocol
  import opened WorkerClaims

  /** One more task than the ledger retains once settled. */
  const N := 1001
  const LATER := 2 * N

  const HELD := Claim(1, 0, false, false, 1, 0)
  const DELIVERED := Submission(SubmissionStatus.Submitted, 0, 1, 0)

  function Rec(task: Address): Record {
    Record(task, None, 0, 0, 0, 0, false, None, false, None, None, None)
  }

  function SettledRec(task: Address): Record {
    Record(task, None, 0, 0, 0, 0, true, Some(Outcome.Rejected), false, Some(Some(0)), Some(None), Some(0))
  }

  function Recs(n: nat): seq<Record> { seq(n, r requires 0 <= r < n => Rec(r)) }

  function SettledRecs(first: nat, n: nat): seq<Record>
    requires first <= n
  {
    seq(n - first, r requires 0 <= r < n - first => SettledRec(first + r))
  }

  const SETTLED := EMPTY.(submissions := SettledRecs(0, N))

  /** A claim, read back; a submission, read back; the ledger. */
  function RoundEvent(task: Address, sent: int, read: int, j: nat): Event
    requires j < 5
  {
    match j
    case 0 => Event(sent, StartClaim(task))
    case 1 => Event(sent, SendClaim)
    case 2 => Event(read, ReadClaim(Some(HELD)))
    case 3 => Event(read, ReadSubmission(Some(DELIVERED)))
    case 4 => Event(read, Act.Commit(Rec(task)))
  }

  function Round(task: Address, sent: int, read: int): seq<Event> {
    seq(5, j requires 0 <= j < 5 => RoundEvent(task, sent, read, j))
  }

  /** `N` tasks are worked and settled; the first record is pruned; the first task is worked again; then another. */
  function EventAt(i: nat): Event {
    if i < 5 * N then RoundEvent(i / 5, 2 * (i / 5), 2 * (i / 5) + 1, i % 5)
    else if i == 5 * N then Event(LATER, Reconcile(SETTLED, None, {}))
    else if i < 5 * N + 6 then RoundEvent(0, LATER, LATER, i - 5 * N - 1)
    else if i == 5 * N + 6 then Event(LATER, StartClaim(N))
    else Event(LATER, SendClaim)
  }

  const HISTORY: seq<Event> := seq(5 * N + 8, i requires 0 <= i < 5 * N + 8 => EventAt(i))

  /** Each first claim lands at once and stays open; the second claim of task 0 lands late. */
  const WORLD := Chain(
    k => if k < 5 * N && k % 5 == 1 then Some(2 * (k / 5) + 1) else if k == 5 * N + 2 then Some(LATER + 50) else None,
    (task, at) => task < N && at >= 2 * task + 1, 100, 20_000)

  // ---------------------------------------------------------------- it is a history

  lemma Extend(sha: Hasher, t: seq<Event>, m: Monitor, e: Event)
    requires Play(sha, t) == Some(m) && Allowed(m, e)
    ensures Play(sha, t + [e]) == Some(Apply(sha, m, e))
  {
    hide Allowed, Apply;
    assert (t + [e])[..|t|] == t;
  }

  function Idle(d: WorkerState, now: int): Monitor { Monitor(d, now, Nothing, None, None, None) }

  function Claiming1(d: WorkerState, task: Address, sent: int): WorkerState {
    d.(openClaim := Some(OpenClaim(task, sent, Claiming, None, None, None, None)))
  }

  /** The first half of a round: the claim is sent. */
  lemma ClaimPlays(sha: Hasher, t: seq<Event>, d: WorkerState, now: int, task: Address, sent: int, read: int)
    requires Play(sha, t) == Some(Idle(d, now)) && d.openClaim.None? && !HasTask(d.submissions, task)
    requires |Settled(d.submissions)| <= RETENTION && now <= sent <= read
    ensures Play(sha, t + [RoundEvent(task, sent, read, 0)] + [RoundEvent(task, sent, read, 1)]) ==
              Some(Monitor(Claiming1(d, task, sent), sent, ClaimSent, None, None, None))
  {
    hide Play, Unsettled, Settled, KeepNewest, HasTask;
    KeepNewestAll(d.submissions, RETENTION);
    assert Pruned(Claiming1(d, task, sent)) == Claiming1(d, task, sent);
    Extend(sha, t, Idle(d, now), RoundEvent(task, sent, read, 0));
    Extend(sha, t + [RoundEvent(task, sent, read, 0)], Monitor(Claiming1(d, task, sent), sent, ClaimStarted, None, None, None),
           RoundEvent(task, sent, read, 1));
  }

  /** The second half: the claim and the submission are read, and the ledger takes the task. */
  lemma DeliveryPlays(sha: Hasher, t: seq<Event>, d: WorkerState, task: Address, sent: int, read: int)
    requires Play(sha, t) == Some(Monitor(Claiming1(d, task, sent), sent, ClaimSent, None, None, None))
    requires d.openClaim.None? && |Settled(d.submissions)| <= RETENTION && |Unsettled(d.submissions)| < MAX_UNSETTLED && sent <= read
    ensures Play(sha, t + [RoundEvent(task, sent, read, 2)] + [RoundEvent(task, sent, read, 3)] + [RoundEvent(task, sent, read, 4)]) ==
              Some(Idle(d.(submissions := d.submissions + [Rec(task)]), read))
  {
    hide Play, Unsettled, Settled, KeepNewest, HasTask, RecordOk;
    var claimed := Claiming1(d, task, sent);
    Extend(sha, t, Monitor(claimed, sent, ClaimSent, None, None, None), RoundEvent(task, sent, read, 2));
    var t1 := t + [RoundEvent(task, sent, read, 2)];
    Extend(sha, t1, Monitor(claimed, read, ClaimSent, Some(Seen(read, Some(HELD))), None, None), RoundEvent(task, sent, read, 3));
    var m := Monitor(claimed, read, ClaimSent, Some(Seen(read, Some(HELD))), None, Some(Seen(read, Some(DELIVERED))));
    BareRecord(task);
    Extend(sha, t1 + [RoundEvent(task, sent, read, 3)], m, RoundEvent(task, sent, read, 4));
    SettledOfOne(d.submissions, Rec(task));
    KeepNewestAll(d.submissions + [Rec(task)], RETENTION);
  }

  /** One round, on a ledger that does not have the task. */
  lemma RoundPlays(sha: Hasher, t: seq<Event>, d: WorkerState, now: int, task: Address, sent: int, read: int)
    requires Play(sha, t) == Some(Idle(d, now)) && d.openClaim.None? && !HasTask(d.submissions, task)
    requires |Settled(d.submissions)| <= RETENTION && |Unsettled(d.submissions)| < MAX_UNSETTLED && now <= sent <= read
    ensures Play(sha, t + Round(task, sent, read)) ==
              Some(Idle(d.(submissions := d.submissions + [Rec(task)]), read))
  {
    hide Play, Unsettled, Settled, HasTask;
    ClaimPlays(sha, t, d, now, task, sent, read);
    var half := t + [RoundEvent(task, sent, read, 0)] + [RoundEvent(task, sent, read, 1)];
    DeliveryPlays(sha, half, d, task, sent, read);
    assert half + [RoundEvent(task, sent, read, 2)] + [RoundEvent(task, sent, read, 3)] + [RoundEvent(task, sent, read, 4)]
           == t + Round(task, sent, read);
  }

  lemma BareRecord(task: Address)
    ensures RecordOk(Rec(task)) && RecordOk(SettledRec(task))
  {
  }

  lemma {:induction false} CountBare(rs: seq<Record>)
    requires forall i :: 0 <= i < |rs| ==> !rs[i].settled
    ensures Settled(rs) == [] && Unsettled(rs) == rs
  {
    if rs != [] {
      CountBare(rs[..|rs| - 1]);
      assert rs == rs[..|rs| - 1] + [rs[|rs| - 1]];
    }
  }

  lemma CountRecs(n: nat)
    ensures Settled(Recs(n)) == [] && Unsettled(Recs(n)) == Recs(n)
  {
    hide Settled, Unsettled;
    CountBare(Recs(n));
  }

  lemma TasksOfRecs(n: nat)
    ensures forall task: Address :: HasTask(Recs(n), task) <==> task < n
  {
    forall task: Address
      ensures HasTask(Recs(n), task) <==> task < n
    {
      if task < n { assert Recs(n)[task].task == task; }
    }
  }

  /** The worker after `n` rounds. */
  function AfterRounds(n: nat): Monitor {
    Idle(EMPTY.(submissions := Recs(n)), if n == 0 then 0 else 2 * n - 1)
  }

  lemma {:induction false} RoundsPlay(sha: Hasher, n: nat)
    requires n <= N
    ensures Play(sha, HISTORY[..5 * n]) == Some(AfterRounds(n))
  {
    HistoryLength();
    hide Play, HISTORY, Round, AfterRounds;
    if n == 0 {
      NothingPlayed(sha);
    } else {
      RoundsPlay(sha, n - 1);
      NextRoundPlays(sha, HISTORY[..5 * (n - 1)], n - 1);
      RoundIsNext(n - 1);
    }
  }

  lemma HistoryLength()
    ensures |HISTORY| == 5 * N + 8
  {
  }

  lemma NothingPlayed(sha: Hasher)
    ensures Play(sha, HISTORY[..0]) == Some(AfterRounds(0))
  {
    assert HISTORY[..0] == [] && Recs(0) == [];
  }

  lemma NextRoundPlays(sha: Hasher, t: seq<Event>, n: nat)
    requires n < N && Play(sha, t) == Some(AfterRounds(n))
    ensures Play(sha, t + Round(n, 2 * n, 2 * n + 1)) == Some(AfterRounds(n + 1))
  {
    hide Play, HasTask, Settled, Unsettled, Round;
    CountRecs(n);
    TasksOfRecs(n);
    RoundPlays(sha, t, EMPTY.(submissions := Recs(n)), if n == 0 then 0 else 2 * n - 1, n, 2 * n, 2 * n + 1);
    assert Recs(n) + [Rec(n)] == Recs(n + 1);
  }

  lemma RoundIsNext(r: nat)
    requires r < N
    ensures HISTORY[..5 * r] + Round(r, 2 * r, 2 * r + 1) == HISTORY[..5 * (r + 1)]
  {
    var round := Round(r, 2 * r, 2 * r + 1);
    forall j: nat | j < 5
      ensures HISTORY[5 * r + j] == round[j]
    {
      assert (5 * r + j) / 5 == r && (5 * r + j) % 5 == j;
    }
  }

  // the ledger is settled, and the first record pruned

  lemma {:induction false} NothingGained(rs: seq<Record>, qs: seq<Record>)
    requires |rs| == |qs| && forall i :: 0 <= i < |rs| ==> Gain(rs[i], qs[i]) == 0
    ensures Gains(rs, qs) == 0
  {
    if rs != [] { NothingGained(rs[..|rs| - 1], qs[..|qs| - 1]); }
  }

  lemma SettlingAllowed()
    ensures Reconciles(EMPTY.(submissions := Recs(N)), SETTLED, None, {})
  {
    var rs, qs := Recs(N), SettledRecs(0, N);
    assert forall i :: 0 <= i < N ==> rs[i] == Rec(i) && qs[i] == SettledRec(i) && Gain(rs[i], qs[i]) == 0;
    NothingGained(rs, qs);
    hide Gains;
  }

  lemma KeepOneSettled(older: seq<Record>, r: Record, room: nat)
    requires r.settled && KeepNewest(older, if room == 0 then 0 else room - 1) == Last(older, if room == 0 then 0 else room - 1)
    requires Settled(older) == older && Unsettled(older) == []
    ensures KeepNewest(older + [r], room) == Last(older + [r], room)
    ensures Settled(older + [r]) == older + [r] && Unsettled(older + [r]) == []
  {
    KeepNewestOfOne(older, r, room);
    SettledOfOne(older, r);
    if room == 0 { LastOfMore(older + [r], r, 0); } else { LastOfMore(older, r, room - 1); }
    LastOfMore(older, r, 0);
    hide KeepNewest, Settled, Unsettled, Last;
  }

  lemma {:induction false} KeepSettled(rs: seq<Record>, room: nat)
    requires forall i :: 0 <= i < |rs| ==> rs[i].settled
    ensures KeepNewest(rs, room) == Last(rs, room) && Settled(rs) == rs && Unsettled(rs) == []
  {
    if rs != [] {
      hide KeepNewest, Settled, Unsettled, Last;
      var older, r := rs[..|rs| - 1], rs[|rs| - 1];
      KeepSettled(older, if room == 0 then 0 else room - 1);
      KeepOneSettled(older, r, room);
      assert rs == older + [r];
    }
  }

  /** What is left of the ledger. */
  const LEFT := EMPTY.(submissions := SettledRecs(1, N))

  lemma FirstIsPruned()
    ensures Pruned(SETTLED) == LEFT && !HasTask(LEFT.submissions, 0) && !HasTask(LEFT.submissions, N)
    ensures |Settled(LEFT.submissions)| <= RETENTION && Unsettled(LEFT.submissions) == []
  {
    var rs := SettledRecs(0, N);
    assert forall i :: 0 <= i < |rs| ==> rs[i] == SettledRec(i) && rs[i].settled;
    KeepSettled(rs, RETENTION);
    assert forall i :: 0 <= i < |SettledRecs(1, N)| ==> SettledRecs(1, N)[i] == SettledRec(1 + i) && SettledRecs(1, N)[i].settled;
    assert Last(rs, RETENTION) == SettledRecs(1, N);
    KeepSettled(SettledRecs(1, N), RETENTION);
    assert forall i :: 0 <= i < |SettledRecs(1, N)| ==> SettledRecs(1, N)[i].task == 1 + i;
    hide KeepNewest, Settled, Unsettled;
  }

  lemma LastEvents()
    ensures HISTORY[..5 * N] + [Event(LATER, Reconcile(SETTLED, None, {}))] == HISTORY[..5 * N + 1]
    ensures HISTORY[..5 * N + 1] + Round(0, LATER, LATER) == HISTORY[..5 * N + 6]
    ensures HISTORY[..5 * N + 6] + [Event(LATER, StartClaim(N))] == HISTORY[..5 * N + 7]
    ensures HISTORY[..5 * N + 7] + [Event(LATER, SendClaim)] == HISTORY
  {
  }

  lemma SettlingPlays(sha: Hasher)
    ensures Play(sha, HISTORY[..5 * N + 1]) == Some(Idle(LEFT, LATER))
  {
    HistoryLength();
    hide Play, SettledRecs, HISTORY, Reconciles, KeepNewest, Settled, Unsettled, HasTask, Recs;
    RoundsPlay(sha, N);
    SettlingAllowed();
    FirstIsPruned();
    LastEvents();
    Extend(sha, HISTORY[..5 * N], AfterRounds(N), Event(LATER, Reconcile(SETTLED, None, {})));
  }

  /** The ledger once task 0 has been worked again. */
  const AGAIN := LEFT.(submissions := LEFT.submissions + [Rec(0)])

  lemma AgainPlays(sha: Hasher)
    ensures Play(sha, HISTORY[..5 * N + 6]) == Some(Idle(AGAIN, LATER))
  {
    HistoryLength();
    hide Play, SettledRecs, HISTORY, KeepNewest, Settled, Unsettled, HasTask, Round;
    SettlingPlays(sha);
    FirstIsPruned();
    LastEvents();
    RoundPlays(sha, HISTORY[..5 * N + 1], LEFT, LATER, 0, LATER, LATER);
  }

  lemma NextTaskIsNew()
    ensures !HasTask(AGAIN.submissions, N)
  {
    FirstIsPruned();
    hide SettledRecs, LEFT;
  }

  lemma IsItAHistory(sha: Hasher)
    ensures IsHistory(sha, HISTORY) && Play(sha, HISTORY).value.now == LATER
  {
    HistoryLength();
    hide Play, SettledRecs, HISTORY, KeepNewest, HasTask, Round;
    AgainPlays(sha);
    LastEvents();
    NextTaskIsNew();
    var e, f := Event(LATER, StartClaim(N)), Event(LATER, SendClaim);
    Extend(sha, HISTORY[..5 * N + 6], Idle(AGAIN, LATER), e);
    Extend(sha, HISTORY[..5 * N + 7], Apply(sha, Idle(AGAIN, LATER), e), f);
  }

  // ---------------------------------------------------------------- it is believable, and two claims overlap

  lemma EventsAt()
    ensures forall i :: 0 <= i < |HISTORY| ==> HISTORY[i] == EventAt(i)
  {
  }

  lemma SendIsSecond(task: Address, sent: int, read: int, j: nat)
    requires j < 5
    ensures RoundEvent(task, sent, read, j).act.SendClaim? ==> j == 1
  {
  }

  /** Where the broadcasts are, and what starts them. */
  lemma SendsAt(k: nat)
    requires k < |HISTORY| && HISTORY[k].act.SendClaim?
    ensures k > 0 && HISTORY[k - 1].act.StartClaim? && HISTORY[k - 1].at == HISTORY[k].at
    ensures k < 5 * N ==> k % 5 == 1 && HISTORY[k - 1].act.task == k / 5 && HISTORY[k].at == 2 * (k / 5)
    ensures k >= 5 * N ==> HISTORY[k].at == LATER && (k == 5 * N + 2 || k == 5 * N + 7)
  {
    EventsAt();
    HistoryLength();
    hide HISTORY;
    if k < 5 * N {
      assert k % 5 == 1;
      assert (k - 1) / 5 == k / 5 && (k - 1) % 5 == 0;
      assert HISTORY[k - 1] == EventAt(k - 1);
    } else {
      assert k != 5 * N;
      if k < 5 * N + 6 { SendIsSecond(0, LATER, LATER, k - 5 * N - 1); }
      assert k == 5 * N + 2 || k == 5 * N + 7;
      assert HISTORY[k - 1] == EventAt(k - 1);
    }
  }

  /** Where the claim reads are, and what is then open. */
  lemma ReadsAt(k: nat)
    requires k < |HISTORY| && HISTORY[k].act.ReadClaim?
    ensures k > 1 && HISTORY[k].act.claim == Some(HELD) && HISTORY[k - 2].act.StartClaim? && HISTORY[k - 1].act.SendClaim?
    ensures WORLD.open(HISTORY[k - 2].act.task, HISTORY[k].at)
  {
    EventsAt();
    hide HISTORY;
    if k < 5 * N { assert (k - 2) / 5 == k / 5 && (k - 2) % 5 == 0 && (k - 1) / 5 == k / 5 && (k - 1) % 5 == 1; }
  }

  lemma NothingElse(k: nat)
    requires k < |HISTORY|
    ensures !HISTORY[k].act.HearClaim? && !HISTORY[k].act.Retire?
  {
    EventsAt();
    hide HISTORY;
  }

  /** The marker a claim writes is there when it is sent, and when it is read. */
  lemma MarkerAt(sha: Hasher, k: nat)
    requires IsHistory(sha, HISTORY) && k < |HISTORY| && HISTORY[k].act.SendClaim?
    ensures var m := At(sha, HISTORY, k);
            InPhase(m.disk, Claiming) && m.disk.openClaim.value.claimedAt == HISTORY[k].at
            && m.disk.openClaim.value.task == HISTORY[k - 1].act.task
  {
    SendsAt(k);
    hide Allowed, Draft, Pruned, HISTORY, EventAt, Play;
    StepAt(sha, HISTORY, k - 1);
    StartedIsFresh(sha, At(sha, HISTORY, k - 1), HISTORY[k - 1]);
  }

  lemma MarkerRead(sha: Hasher, k: nat)
    requires IsHistory(sha, HISTORY) && k < |HISTORY| && HISTORY[k].act.ReadClaim?
    ensures MarkerIs(At(sha, HISTORY, k).disk, HISTORY[k - 2].act.task) && k > 1
  {
    ReadsAt(k);
    MarkerAt(sha, k - 1);
    hide Allowed, Draft, Pruned, HISTORY, EventAt, Play;
    StepAt(sha, HISTORY, k - 1);
    ClaimingStep(sha, At(sha, HISTORY, k - 1), HISTORY[k - 1]);
  }

  lemma LandsAndReports(sha: Hasher)
    requires IsHistory(sha, HISTORY)
    ensures LandsInTime(sha, HISTORY, WORLD) && ReportsTrue(HISTORY, WORLD)
    ensures ReadsTrue(sha, HISTORY, WORLD) && PromptReads(sha, HISTORY, WORLD)
  {
    hide HISTORY, EventAt, Play;
    forall k | 0 <= k < |HISTORY| && HISTORY[k].act.SendClaim? && WORLD.fate(k).Some?
      ensures At(sha, HISTORY, k).disk.openClaim.Some?
      ensures HISTORY[k].at < WORLD.fate(k).value <= At(sha, HISTORY, k).disk.openClaim.value.claimedAt + WORLD.landing
    {
      SendsAt(k);
      MarkerAt(sha, k);
    }
    forall j | 0 <= j < |HISTORY| && HISTORY[j].act.ReadClaim? && At(sha, HISTORY, j).disk.openClaim.Some?
      ensures HISTORY[j].act.claim.Some? <==> WORLD.open(At(sha, HISTORY, j).disk.openClaim.value.task, HISTORY[j].at)
    {
      ReadsAt(j);
      MarkerRead(sha, j);
    }
    forall j | 0 <= j < |HISTORY|
      ensures !HISTORY[j].act.HearClaim? && !HISTORY[j].act.Retire?
    {
      NothingElse(j);
    }
  }

  lemma OpensByLanding(sha: Hasher)
    requires IsHistory(sha, HISTORY)
    ensures OpenedByLanding(sha, HISTORY, WORLD)
  {
    forall task: Address, u: int, v: int | u < v && !WORLD.open(task, u) && WORLD.open(task, v)
      ensures LandsIn(sha, HISTORY, WORLD, task, u, v)
    {
      var k := 5 * task + 1;
      assert k / 5 == task && k % 5 == 1;
      FirstSend(task);
      hide HISTORY, EventAt, Play;
      MarkerAt(sha, k);
      SendsAt(k);
      assert Sends(sha, HISTORY, k, task);
    }
  }

  lemma FirstSend(task: Address)
    requires task < N
    ensures 5 * task + 1 < |HISTORY| && HISTORY[5 * task + 1].act.SendClaim?
  {
    EventsAt();
    assert (5 * task + 1) / 5 == task && (5 * task + 1) % 5 == 1;
  }

  /** No read ever shows an absent claim. */
  lemma NeverAbsent(sha: Hasher)
    requires IsHistory(sha, HISTORY)
    ensures NoLeftovers(sha, HISTORY)
  {
    hide HISTORY, EventAt, Play;
    forall i: nat | i <= |HISTORY|
      ensures !SeesClaim(At(sha, HISTORY, i), false)
    {
      ClaimEvidenceHolds(sha, HISTORY, i);
      var m := At(sha, HISTORY, i);
      if m.claim.Some? {
        var j: nat :| ReadFor(sha, HISTORY, i, j, m.claim.value, m.disk.openClaim.value.task);
        ReadsAt(j);
      }
    }
  }

  lemma TaskZeroReclaimed(sha: Hasher)
    requires IsHistory(sha, HISTORY)
    ensures !CleanReclaims(sha, HISTORY, WORLD)
    ensures HISTORY[5 * N + 2].act.SendClaim? && HISTORY[5 * N + 7] == Event(LATER, SendClaim)
  {
    EventsAt();
    assert HISTORY[4].act == Act.Commit(Rec(0)) && HISTORY[5 * N + 1] == Event(LATER, StartClaim(0));
    assert EverLedgered(HISTORY, 5 * N + 1, 0);
    hide HISTORY, EventAt, Play, EverLedgered;
    assert WORLD.open(0, LATER);
  }

  /**
   A believable history without leftovers in which task 0 is claimed again after its record was pruned: the claim left
   open from the first time is read as the new one, the task is ledgered, and another claim is broadcast while the
   second claim of task 0 can still land.
   */
  lemma ReclaimOverlaps(sha: Hasher)
    ensures IsHistory(sha, HISTORY) && Believable(sha, HISTORY, WORLD) && NoLeftovers(sha, HISTORY)
    ensures !CleanReclaims(sha, HISTORY, WORLD)
    ensures HISTORY[5 * N + 2].act.SendClaim? && HISTORY[5 * N + 7].act.SendClaim?
    ensures !Done(WORLD, 5 * N + 2, HISTORY[5 * N + 7].at)
  {
    IsItAHistory(sha);
    hide HISTORY, EventAt, Play, LandsInTime, ReportsTrue, ReadsTrue, PromptReads, OpenedByLanding, CleanReclaims, NoLeftovers;
    HistoryLength();
    LandsAndReports(sha);
    OpensByLanding(sha);
    NeverAbsent(sha);
    TaskZeroReclaimed(sha);
  }
}
