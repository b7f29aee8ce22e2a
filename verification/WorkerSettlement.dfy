/** Reconciling the ledger with the chain: judging each unsettled record, then settling what is resolved. */
module WorkerSettlement {
  import opened Wrappers
  import opened WorkerState
  import opened WorkerProtocol

  /** The canonical accounts behind one ledger record. */
  datatype RecordView = RecordView(info: Option<TaskInfo>, claim: Option<Claim>, submission: Option<Submission>)

  datatype Judgement =
    | Wait
    | Reopen(claim: Claim, count: int)
    | Straggles
    | Resolve(outcome: Outcome, sol: bool, forget: bool)

  predicate NoLiveClaim(v: RecordView, now: int) { v.claim.None? || !LooksLive(v.claim.value, now) }

  predicate RejectedView(v: RecordView) { v.submission.Some? && v.submission.value.status.Rejected? }

  /** A completed task: only this worker's own accounts say what became of its submission. */
  function JudgeCompleted(r: Record, v: RecordView): Judgement
    requires v.info.Some?
  {
    var sol := v.info.value.paysSol;
    var status := if v.submission.Some? then v.submission.value.status else SubmissionStatus.Idle;
    match status
    case Accepted => Resolve(Outcome.Accepted, sol, true)
    case Rejected => Resolve(Outcome.Rejected, false, true)
    case Submitted => if v.info.value.collaborative then Straggles else Wait
    case Idle =>
      if v.claim.Some? && v.claim.value.isCompleted && v.claim.value.isValidated && v.claim.value.rewardPaid > 0
      then Resolve(Outcome.Accepted, sol, true)
      else if v.claim.None? && r.straggling then Resolve(Straggler, false, false)
      else if v.claim.None? && sol then Resolve(Outcome.Accepted, true, false)
      else Wait
  }

  /** What one record's accounts say at one moment. */
  function Judge(r: Record, v: RecordView, now: int, mayReopen: bool): Judgement {
    var inGrace := now - r.submittedAt < GRACE;
    if v.info.None? then
      if !inGrace && RejectedView(v) && NoLiveClaim(v, now) then Resolve(Outcome.Rejected, false, false) else Wait
    else if !inGrace && mayReopen && (v.info.value.status.InProgress? || v.info.value.status.PendingValidation?) then
      if v.claim.Some? && v.submission.Some? && RevisionRequested(v.info.value, v.claim.value, v.submission.value, now)
      then Reopen(v.claim.value, v.submission.value.count) else Wait
    else if v.info.value.status.Completed? then JudgeCompleted(r, v)
    else if v.info.value.status.Open? then
      if !inGrace && v.info.value.currentWorkers == 0 && RejectedView(v) && NoLiveClaim(v, now)
      then Resolve(Outcome.Rejected, false, false) else Wait
    else if v.info.value.status.Cancelled? then Resolve(Outcome.Cancelled, false, false)
    else Wait
  }

  const MAX_DATE := 8_640_000_000_000_000

  /** `submissionTimestamp`: chain seconds as a date in milliseconds, or the fallback when out of range. */
  function Timestamp(seconds: int, fallback: int): int {
    if -MAX_DATE <= seconds * 1000 <= MAX_DATE then seconds * 1000 else fallback
  }

  /** A record still in the ledger, and what was found about it. */
  datatype Item = Item(record: Record, verdict: Judgement)

  /** Straggler evidence is kept while it is pending and forgotten once the child accounts answer. */
  function Marked(r: Record, g: Judgement): Record {
    match g
    case Straggles => r.(straggling := true)
    case Resolve(_, _, true) => r.(straggling := false)
    case _ => r
  }

  /** The judgement was reached at some moment of the sweep. */
  ghost predicate JudgedAs(r: Record, v: RecordView, g: Judgement, start: int, end: int, mayReopen: bool) {
    exists now, may :: start <= now <= end && (may ==> mayReopen) && Judge(r, v, now, may) == g
  }

  ghost predicate Examined(r: Record, x: Item, v: RecordView, start: int, end: int, mayReopen: bool) {
    if r.settled then x == Item(r, Wait)
    else JudgedAs(r, v, x.verdict, start, end, mayReopen) && !x.verdict.Reopen? && x.record == Marked(r, x.verdict)
  }

  /** The marker a revision round opens for a record. */
  function Reopening(r: Record, claim: Claim, count: int): OpenClaim {
    OpenClaim(r.task, Timestamp(claim.claimedAt, r.submittedAt), Claimed, None, Some(count), None, None)
  }

  ghost predicate ReopenedFrom(
    r: Record, c: OpenClaim, v: RecordView, start: int, end: int, mayReopen: bool)
  {
    && mayReopen && !r.settled
    && exists claim, count ::
         JudgedAs(r, v, Reopen(claim, count), start, end, mayReopen) && c == Reopening(r, claim, count)
  }

  function Left(rs: seq<Record>, reopened: Option<OpenClaim>): seq<Record> {
    if reopened.Some? then Without(rs, reopened.value.task) else rs
  }

  ghost predicate SweptTo(
    rs: seq<Record>, view: Address -> RecordView, items: seq<Item>, reopened: Option<OpenClaim>,
    start: int, end: int, mayReopen: bool)
  {
    && start <= end
    && (reopened.Some? ==>
          exists i :: 0 <= i < |rs| && ReopenedFrom(rs[i], reopened.value, view(rs[i].task), start, end, mayReopen))
    && var left := Left(rs, reopened);
    && |items| == |left|
    && forall i :: 0 <= i < |left| ==> Examined(left[i], items[i], view(left[i].task), start, end, mayReopen)
  }

  lemma WithoutOfOne(rs: seq<Record>, r: Record, task: Address)
    ensures Without(rs + [r], task) == if r.task == task then Without(rs, task) else Without(rs, task) + [r]
  {
    assert (rs + [r])[..|rs|] == rs;
  }

  lemma WithoutAbsent(rs: seq<Record>, task: Address)
    requires !HasTask(rs, task)
    ensures Without(rs, task) == rs
  {
    if rs != [] {
      var older := rs[..|rs| - 1];
      assert !HasTask(older, task);
      WithoutAbsent(older, task);
      assert rs == older + [rs[|rs| - 1]];
    }
  }

  lemma LaterIsFine(
      r: Record, x: Item, v: RecordView, start: int, end: int, later: int, mayReopen: bool)
    requires end <= later && Examined(r, x, v, start, end, mayReopen)
    ensures Examined(r, x, v, start, later, mayReopen)
  {
  }

  /** One more record is examined. */
  lemma SweepOne(
      rs: seq<Record>, r: Record, view: Address -> RecordView, items: seq<Item>, reopened: Option<OpenClaim>,
      start: int, end: int, later: int, mayReopen: bool, x: Item)
    requires SweptTo(rs, view, items, reopened, start, end, mayReopen) && end <= later
    requires !HasTask(rs, r.task)
    requires Examined(r, x, view(r.task), start, later, mayReopen)
    ensures SweptTo(rs + [r], view, items + [x], reopened, start, later, mayReopen)
  {
    var left := Left(rs, reopened);
    if reopened.Some? {
      var i :| 0 <= i < |rs| && ReopenedFrom(rs[i], reopened.value, view(rs[i].task), start, end, mayReopen);
      assert (rs + [r])[i] == rs[i];
      assert ReopenedFrom((rs + [r])[i], reopened.value, view(rs[i].task), start, later, mayReopen);
      WithoutOfOne(rs, r, reopened.value.task);
    }
    assert Left(rs + [r], reopened) == left + [r];
    forall i | 0 <= i < |left|
      ensures Examined(left[i], items[i], view(left[i].task), start, later, mayReopen)
    {
      LaterIsFine(left[i], items[i], view(left[i].task), start, end, later, mayReopen);
    }
  }

  /** One record is taken out of the ledger for a new round. */
  lemma SweepReopened(
      rs: seq<Record>, r: Record, view: Address -> RecordView, items: seq<Item>,
      start: int, end: int, later: int, mayReopen: bool, c: OpenClaim)
    requires SweptTo(rs, view, items, None, start, end, mayReopen) && end <= later
    requires !HasTask(rs, r.task) && c.task == r.task
    requires ReopenedFrom(r, c, view(r.task), start, later, mayReopen)
    ensures SweptTo(rs + [r], view, items, Some(c), start, later, mayReopen)
  {
    assert (rs + [r])[|rs|] == r;
    WithoutOfOne(rs, r, r.task);
    WithoutAbsent(rs, r.task);
    assert Left(rs + [r], Some(c)) == rs;
    forall i | 0 <= i < |rs|
      ensures Examined(rs[i], items[i], view(rs[i].task), start, later, mayReopen)
    {
      LaterIsFine(rs[i], items[i], view(rs[i].task), start, end, later, mayReopen);
    }
  }

  /** The first half of `checkSettlements`: every unsettled record is looked at once, oldest first. */
  method SweepLedger(rs: seq<Record>, view: Address -> RecordView, start: int, mayReopen: bool)
    returns (items: seq<Item>, reopened: Option<OpenClaim>, changed: bool, end: int)
    requires UniqueTasks(rs)
    ensures SweptTo(rs, view, items, reopened, start, end, mayReopen)
    ensures reopened.Some? ==> changed
    ensures start <= end
  {
    hide Judge, Without, Left, SweptTo, Examined, ReopenedFrom;
    items, reopened, changed, end := [], None, false, start;
    assert SweptTo([], view, items, reopened, start, end, mayReopen) by { NothingSwept(view, start, mayReopen); }
    for i := 0 to |rs|
      invariant SweptTo(rs[..i], view, items, reopened, start, end, mayReopen)
      invariant start <= end
      invariant reopened.Some? ==> changed
    {
      var r := rs[i];
      assert rs[..i + 1] == rs[..i] + [r];
      assert !HasTask(rs[..i], r.task);
      var delay: int :| delay >= 0;
      ghost var before := end;
      end := end + delay;
      if r.settled {
        assert Examined(r, Item(r, Wait), view(r.task), start, end, mayReopen) by { SettledIsExamined(r, view(r.task), start, end, mayReopen); }
        SweepOne(rs[..i], r, view, items, reopened, start, before, end, mayReopen, Item(r, Wait));
        items := items + [Item(r, Wait)];
      } else {
        var g := Judge(r, view(r.task), end, mayReopen && reopened.None?);
        JudgedNow(r, view(r.task), end, mayReopen && reopened.None?, start, mayReopen);
        match g {
          case Reopen(claim, count) =>
            OnlyOneReopened(r, view(r.task), end, mayReopen && reopened.None?);
            var c := Reopening(r, claim, count);
            SweepReopened(rs[..i], r, view, items, start, before, end, mayReopen, c);
            reopened, changed := Some(c), true;
          case _ =>
            if g.Straggles? && !r.straggling { changed := true; }
            SweepOne(rs[..i], r, view, items, reopened, start, before, end, mayReopen, Item(Marked(r, g), g));
            items := items + [Item(Marked(r, g), g)];
        }
      }
    }
    assert rs[..|rs|] == rs;
  }

  lemma NothingSwept(view: Address -> RecordView, start: int, mayReopen: bool)
    ensures SweptTo([], view, [], None, start, start, mayReopen)
  {
  }

  lemma SettledIsExamined(r: Record, v: RecordView, start: int, end: int, mayReopen: bool)
    requires r.settled
    ensures Examined(r, Item(r, Wait), v, start, end, mayReopen)
  {
  }

  lemma JudgedNow(r: Record, v: RecordView, now: int, may: bool, start: int, mayReopen: bool)
    requires start <= now && (may ==> mayReopen) && !r.settled
    ensures var g := Judge(r, v, now, may);
            && (g.Reopen? ==> mayReopen && ReopenedFrom(r, Reopening(r, g.claim, g.count), v, start, now, mayReopen))
            && (!g.Reopen? ==> Examined(r, Item(Marked(r, g), g), v, start, now, mayReopen))
  {
    var g := Judge(r, v, now, may);
    assert JudgedAs(r, v, g, start, now, mayReopen);
  }

  lemma OnlyOneReopened(r: Record, v: RecordView, now: int, may: bool)
    ensures Judge(r, v, now, may).Reopen? ==> may
  {
  }

  // ---------------------------------------------------------------- settling what is resolved

  predicate IsPaid(g: Judgement) { g.Resolve? && g.sol && (g.outcome.Accepted? || g.outcome.Closed?) }

  function PaidCount(items: seq<Item>): nat {
    if items == [] then 0
    else PaidCount(items[..|items| - 1]) + (if IsPaid(items[|items| - 1].verdict) then 1 else 0)
  }

  /**
   Lamports recorded for a settlement: nothing for unpaid outcomes, the whole growth when it is the only SOL
   payment of the reconciliation, unknown otherwise.
   */
  function Lamports(g: Judgement, growth: nat, paid: nat): Option<nat>
    requires g.Resolve?
  {
    if !(g.outcome.Accepted? || g.outcome.Closed?) then Some(0)
    else if g.sol && paid == 1 then Some(growth)
    else None
  }

  /** Is the item settled now? SOL payments wait until the earnings have visibly grown. */
  predicate SettlesNow(g: Judgement, growth: Option<nat>) { g.Resolve? && (IsPaid(g) ==> growth.Some?) }

  predicate SettledAs(x: Item, q: Record, growth: Option<nat>, paid: nat, at: int) {
    if !SettlesNow(x.verdict, growth) then q == x.record
    else
      && q.settled && q.outcome == Some(x.verdict.outcome) && q.settledAt == Some(at)
      && q.earned == Some(Lamports(x.verdict, if growth.Some? then growth.value else 0, paid))
      && q.settlement.Some?
      && q == x.record.(settled := true, outcome := q.outcome, earned := q.earned, settlement := q.settlement,
                        settledAt := q.settledAt)
  }

  ghost predicate AllSettledAs(items: seq<Item>, qs: seq<Record>, growth: Option<nat>, paid: nat, at: int) {
    |qs| == |items| && forall i :: 0 <= i < |items| ==> SettledAs(items[i], qs[i], growth, paid, at)
  }

  /** Growth of the worker's on-chain earnings that lets SOL payments be settled. */
  function Growth(paid: nat, observed: Option<nat>, baseline: nat): Option<nat> {
    if paid > 0 && observed.Some? && observed.value > baseline then Some(observed.value - baseline) else None
  }

  method CountPaid(items: seq<Item>) returns (paid: nat)
    ensures paid == PaidCount(items)
  {
    paid := 0;
    for i := 0 to |items|
      invariant paid == PaidCount(items[..i])
    {
      assert items[..i + 1][..i] == items[..i];
      if IsPaid(items[i].verdict) { paid := paid + 1; }
    }
    assert items[..|items|] == items;
  }

  /** The second half of `checkSettlements`: resolved records get their terminal fields. */
  method SettleItems(
    items: seq<Item>, growth: Option<nat>, paid: nat, signatures: Address -> Option<Signature>, at: int)
    returns (qs: seq<Record>)
    ensures AllSettledAs(items, qs, growth, paid, at)
  {
    qs := [];
    for i := 0 to |items|
      invariant |qs| == i && forall k :: 0 <= k < i ==> SettledAs(items[k], qs[k], growth, paid, at)
    {
      var x := items[i];
      if SettlesNow(x.verdict, growth) {
        var earned := Lamports(x.verdict, if growth.Some? then growth.value else 0, paid);
        var signature := if x.verdict.outcome.Accepted? || x.verdict.outcome.Closed? then signatures(x.record.task) else None;
        qs := qs + [x.record.(settled := true, outcome := Some(x.verdict.outcome), earned := Some(earned),
                              settlement := Some(signature), settledAt := Some(at))];
      } else {
        qs := qs + [x.record];
      }
    }
  }

  /** The lamports attributed never exceed the growth, because only a lone SOL payment is attributed any. */
  lemma {:induction false} GainsWithinGrowth(
      left: seq<Record>, items: seq<Item>, qs: seq<Record>, growth: Option<nat>, paid: nat, at: int)
    requires |left| == |items| && AllSettledAs(items, qs, growth, paid, at)
    requires forall i :: 0 <= i < |left| ==> left[i].settled == items[i].record.settled
    requires PaidCount(items) <= paid
    ensures Gains(left, qs) <= if growth.Some? && paid == 1 && PaidCount(items) == 1 then growth.value else 0
  {
    if left != [] {
      var n := |left| - 1;
      GainsWithinGrowth(left[..n], items[..n], qs[..n], growth, paid, at);
      assert SettledAs(items[n], qs[n], growth, paid, at);
    }
  }

  /** A record the sweep left in the ledger, before and after. */
  lemma ExaminedMoves(r: Record, x: Item, v: RecordView, start: int, end: int, mayReopen: bool,
                      q: Record, growth: Option<nat>, paid: nat, at: int)
    requires Examined(r, x, v, start, end, mayReopen) && RecordOk(r) && SettledAs(x, q, growth, paid, at)
    ensures RecordMoves(r, q) && x.record.settled == r.settled && x.record.task == r.task
    ensures NewlySettled(r, q) <==> !r.settled && SettlesNow(x.verdict, growth)
  {
    hide Judge;
  }

  /** What the whole reconciliation did to the durable state. */
  ghost predicate Checked(
    d: WorkerState, d': WorkerState, view: Address -> RecordView, observed: Option<nat>, start: int, end: int)
  {
    exists items, reopened, qs, last, at ::
      CheckedBy(d, d', view, observed, start, end, items, reopened, qs, last, at)
  }

  ghost predicate CheckedBy(
    d: WorkerState, d': WorkerState, view: Address -> RecordView, observed: Option<nat>, start: int, end: int,
    items: seq<Item>, reopened: Option<OpenClaim>, qs: seq<Record>, last: int, at: int)
  {
    var growth := Growth(PaidCount(items), observed, d.baseline);
    && SweptTo(d.submissions, view, items, reopened, start, last, d.openClaim.None?)
    && last <= at <= end
    && AllSettledAs(items, qs, growth, PaidCount(items), at)
    && (d' == Pruned(Reconciled(d, reopened, qs, growth))
        || (d' == d && reopened.None? && forall i :: 0 <= i < |items| ==> !SettlesNow(items[i].verdict, growth)))
  }

  /** The task's reward is in SOL. */
  predicate PaysSol(v: RecordView) { v.info.Some? && v.info.value.paysSol }

  /** The ledger tasks whose reward is in SOL, as read in one sweep. */
  function SolLedger(rs: seq<Record>, view: Address -> RecordView): set<Address> {
    set i | 0 <= i < |rs| && PaysSol(view(rs[i].task)) :: rs[i].task
  }

  ghost predicate ViewsInRange(view: Address -> RecordView) {
    forall a :: view(a).submission.Some? ==> 1 <= view(a).submission.value.count <= 65535
  }

  /** The marker of a reopened round is one the protocol allows. */
  lemma ReopenedIsAllowed(d: WorkerState, view: Address -> RecordView, c: OpenClaim, i: nat, start: int, end: int)
    requires ViewsInRange(view) && i < |d.submissions|
    requires ReopenedFrom(d.submissions[i], c, view(d.submissions[i].task), start, end, d.openClaim.None?)
    ensures Reopens(d, c) && c.task == d.submissions[i].task
  {
    var r := d.submissions[i];
    var claim, count :| JudgedAs(r, view(r.task), Reopen(claim, count), start, end, d.openClaim.None?)
                        && c == Reopening(r, claim, count);
  }

  ghost predicate AllMove(left: seq<Record>, items: seq<Item>, qs: seq<Record>, growth: Option<nat>) {
    && |left| == |items| == |qs|
    && forall i :: 0 <= i < |left| ==>
         && RecordMoves(left[i], qs[i]) && items[i].record.settled == left[i].settled
         && items[i].record.task == left[i].task
         && (NewlySettled(left[i], qs[i]) <==> !left[i].settled && SettlesNow(items[i].verdict, growth))
  }

  lemma SweptMoves(
      rs: seq<Record>, view: Address -> RecordView, items: seq<Item>, reopened: Option<OpenClaim>,
      qs: seq<Record>, growth: Option<nat>, paid: nat, start: int, end: int, mayReopen: bool, at: int)
    requires SweptTo(rs, view, items, reopened, start, end, mayReopen)
    requires AllSettledAs(items, qs, growth, paid, at)
    requires forall i :: 0 <= i < |Left(rs, reopened)| ==> RecordOk(Left(rs, reopened)[i])
    ensures AllMove(Left(rs, reopened), items, qs, growth)
  {
    hide Judge, Left, RecordOk, ReopenedFrom, Examined, SettledAs, RecordMoves, NewlySettled, SettlesNow;
    var left := Left(rs, reopened);
    forall i | 0 <= i < |left|
      ensures RecordMoves(left[i], qs[i]) && items[i].record.settled == left[i].settled
      ensures items[i].record.task == left[i].task
      ensures NewlySettled(left[i], qs[i]) <==> !left[i].settled && SettlesNow(items[i].verdict, growth)
    {
      ExaminedMoves(left[i], items[i], view(left[i].task), start, end, mayReopen, qs[i], growth, paid, at);
    }
  }

  /** An accepted verdict says whether the task's reward is in SOL. */
  lemma AcceptedKnowsSol(r: Record, v: RecordView, now: int, may: bool)
    ensures var g := Judge(r, v, now, may);
            g.Resolve? && g.outcome.Accepted? ==> v.info.Some? && g.sol == v.info.value.paysSol
  {
  }

  lemma AcceptedSolIsPaid(r: Record, x: Item, v: RecordView, start: int, end: int, mayReopen: bool)
    requires Examined(r, x, v, start, end, mayReopen) && !r.settled && PaysSol(v)
    requires x.verdict.Resolve? && x.verdict.outcome.Accepted?
    ensures IsPaid(x.verdict)
  {
    var now, may :| start <= now <= end && (may ==> mayReopen) && Judge(r, v, now, may) == x.verdict;
    AcceptedKnowsSol(r, v, now, may);
  }

  /** The record is settled as accepted, for a task that pays in SOL. */
  predicate AcceptsSol(r: Record, q: Record, view: Address -> RecordView) {
    NewlySettled(r, q) && q.outcome == Some(Outcome.Accepted) && PaysSol(view(r.task))
  }

  /**
   A task whose reward mint is SOL becomes accepted only in a reconciliation whose observed earnings strictly
   exceed the baseline.
   */
  lemma AcceptedSolNeedsGrowth(
      rs: seq<Record>, view: Address -> RecordView, items: seq<Item>, reopened: Option<OpenClaim>, qs: seq<Record>,
      observed: Option<nat>, baseline: nat, start: int, end: int, mayReopen: bool, at: int)
    requires SweptTo(rs, view, items, reopened, start, end, mayReopen)
    requires AllSettledAs(items, qs, Growth(PaidCount(items), observed, baseline), PaidCount(items), at)
    ensures var left := Left(rs, reopened);
            forall i :: 0 <= i < |left| && AcceptsSol(left[i], qs[i], view) ==> observed.Some? && observed.value > baseline
  {
    hide Judge, Left, PaidCount, ReopenedFrom, RecordOk;
    var left := Left(rs, reopened);
    forall i | 0 <= i < |left| && AcceptsSol(left[i], qs[i], view)
      ensures observed.Some? && observed.value > baseline
    {
      assert Examined(left[i], items[i], view(left[i].task), start, end, mayReopen);
      assert SettledAs(items[i], qs[i], Growth(PaidCount(items), observed, baseline), PaidCount(items), at);
      SettlingAccepts(left[i], items[i], view(left[i].task), start, end, mayReopen, qs[i],
                      Growth(PaidCount(items), observed, baseline), PaidCount(items), at);
    }
  }

  lemma SettlingAccepts(
      r: Record, x: Item, v: RecordView, start: int, end: int, mayReopen: bool, q: Record, growth: Option<nat>, paid: nat, at: int)
    requires Examined(r, x, v, start, end, mayReopen) && SettledAs(x, q, growth, paid, at)
    requires NewlySettled(r, q) && q.outcome == Some(Outcome.Accepted) && PaysSol(v)
    ensures growth.Some?
  {
    hide Judge, JudgedAs;
    assert x.record.settled == r.settled;
    AcceptedSolIsPaid(r, x, v, start, end, mayReopen);
  }

  /** The state a sweep and its settlement produce. */
  function Reconciled(
    d: WorkerState, reopened: Option<OpenClaim>, qs: seq<Record>, growth: Option<nat>): WorkerState
  {
    d.(openClaim := if reopened.Some? then reopened else d.openClaim, submissions := qs,
       baseline := if growth.Some? then d.baseline + growth.value else d.baseline)
  }

  lemma ReopenedOrKept(
      d: WorkerState, view: Address -> RecordView, items: seq<Item>, reopened: Option<OpenClaim>,
      qs: seq<Record>, growth: Option<nat>, start: int, end: int)
    requires ViewsInRange(view) && SweptTo(d.submissions, view, items, reopened, start, end, d.openClaim.None?)
    ensures reopened.Some? ==> Reopens(d, reopened.value)
    ensures Remaining(d, Reconciled(d, reopened, qs, growth)) == Left(d.submissions, reopened)
  {
    hide Without, Judge, Examined, Reopens;
    if reopened.Some? {
      var i :| 0 <= i < |d.submissions| && ReopenedFrom(d.submissions[i], reopened.value, view(d.submissions[i].task), start, end, d.openClaim.None?);
      ReopenedIsAllowed(d, view, reopened.value, i, start, end);
      assert d.openClaim.None?;
    }
  }

  /** A sweep and its settlement are one reconciliation step of the protocol. */
  lemma ReconcilesHolds(
      sha: Hasher, d: WorkerState, view: Address -> RecordView, items: seq<Item>, reopened: Option<OpenClaim>,
      qs: seq<Record>, observed: Option<nat>, start: int, end: int, at: int)
    requires Sound(sha, d) && ViewsInRange(view)
    requires SweptTo(d.submissions, view, items, reopened, start, end, d.openClaim.None?)
    requires AllSettledAs(items, qs, Growth(PaidCount(items), observed, d.baseline), PaidCount(items), at)
    ensures var growth := Growth(PaidCount(items), observed, d.baseline);
            Reconciles(d, Reconciled(d, reopened, qs, growth), if growth.Some? then observed else None,
                       SolLedger(d.submissions, view))
  {
    var growth := Growth(PaidCount(items), observed, d.baseline);
    SolAcceptedInLedger(d, view, items, reopened, qs, observed, start, end, at);
    var left := Left(d.submissions, reopened);
    LeftRecords(sha, d, reopened);
    ReopenedOrKept(d, view, items, reopened, qs, growth, start, end);
    SweptMoves(d.submissions, view, items, reopened, qs, growth, PaidCount(items), start, end, d.openClaim.None?, at);
    hide Sound, Judge, Without, RecordOk, ReopenedFrom, Examined, SettledAs, HasTask, RecordMoves, NewlySettled, SettlesNow, SolAccepted, SolLedger, PaysSol, Reopens, Gains, SweptTo, Left, Remaining, UniqueTasks;
    GainsWithinGrowth(left, items, qs, growth, PaidCount(items), at);
  }

  lemma SolAcceptedInLedger(
      d: WorkerState, view: Address -> RecordView, items: seq<Item>, reopened: Option<OpenClaim>, qs: seq<Record>,
      observed: Option<nat>, start: int, end: int, at: int)
    requires SweptTo(d.submissions, view, items, reopened, start, end, d.openClaim.None?)
    requires AllSettledAs(items, qs, Growth(PaidCount(items), observed, d.baseline), PaidCount(items), at)
    ensures var left := Left(d.submissions, reopened);
            forall i :: 0 <= i < |left| && SolAccepted(left[i], qs[i], SolLedger(d.submissions, view)) ==>
              Growth(PaidCount(items), observed, d.baseline).Some?
  {
    var left := Left(d.submissions, reopened);
    forall i | 0 <= i < |left| && SolAccepted(left[i], qs[i], SolLedger(d.submissions, view))
      ensures Growth(PaidCount(items), observed, d.baseline).Some?
    {
      assert AcceptsSol(left[i], qs[i], view);
      hide Judge, Left, PaidCount, ReopenedFrom, RecordOk;
      assert Examined(left[i], items[i], view(left[i].task), start, end, d.openClaim.None?);
      SettlingAccepts(left[i], items[i], view(left[i].task), start, end, d.openClaim.None?, qs[i],
                      Growth(PaidCount(items), observed, d.baseline), PaidCount(items), at);
    }
  }

  lemma LeftRecords(sha: Hasher, d: WorkerState, reopened: Option<OpenClaim>)
    requires Sound(sha, d)
    ensures UniqueTasks(Left(d.submissions, reopened))
    ensures forall i :: 0 <= i < |Left(d.submissions, reopened)| ==> RecordOk(Left(d.submissions, reopened)[i])
  {
    hide RecordOk, ClaimOk, Settled, Unsettled, HasTask;
    var left := Left(d.submissions, reopened);
    if reopened.Some? { WithoutTask(d.submissions, reopened.value.task); }
    forall i | 0 <= i < |left|
      ensures RecordOk(left[i])
    {
      assert left[i] in left;
    }
  }
}
