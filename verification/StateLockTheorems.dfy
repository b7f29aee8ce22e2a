/** What the state-directory lock promises over whole runs. */
module StateLockTheorems {
  import opened Wrappers
  import opened StateLock
  import opened StateLockSafety

  lemma ActionKeepsInv(s: State, a: Action)
    requires Inv(s) && Enabled(s, a) && !Misfire(s, a)
    ensures Inv(Next(s, a))
  {
    match a
    case Start(_) => ProcessTableKeepsInv(s, a);
    case Die(_) => ProcessTableKeepsInv(s, a);
    case Begin(p, n) => BeginKeepsInv(s, p, n);
    case Release(n) => ReleaseKeepsInv(s, n);
    case Step(n, c) => SessionStepKeepsInv(s, n, c);
  }

  lemma ReleaseKeepsInv(s: State, n: Nonce)
    requires Inv(s) && Enabled(s, Release(n))
    ensures Inv(Next(s, Release(n)))
  {
    hide Turn, FilesOk, MinterDead;
    var t' := s.sessions[n].(pc := RelRead);
    assert SessionOk(s, n);
    assert ViewAfter(s, NoFs, n, t') == ViewOf(s, n);
    EffectKeepsInv(s, n, NoFs, t', Lock);
  }

  lemma InitEstablishesInv(s: State)
    requires Init(s)
    ensures Inv(s)
  {
  }

  /** A condition on every position of a run holds of its prefixes. */
  lemma PrefixRun(s: State, run: seq<Action>)
    requires IsRun(s, run) && run != []
    ensures IsRun(s, run[..|run| - 1])
    ensures Enabled(After(s, run[..|run| - 1]), run[|run| - 1])
    ensures NoMisfire(s, run) ==> NoMisfire(s, run[..|run| - 1]) && !Misfire(After(s, run[..|run| - 1]), run[|run| - 1])
    ensures NoReaperDies(s, run) ==> NoReaperDies(s, run[..|run| - 1]) && !ReaperDeath(After(s, run[..|run| - 1]), run[|run| - 1])
  {
    var p := run[..|run| - 1];
    assert forall i :: 0 <= i < |p| ==> p[..i] == run[..i];
  }

  lemma {:induction false} InvOverRuns(s: State, run: seq<Action>)
    requires Init(s) && IsRun(s, run) && NoMisfire(s, run)
    ensures Inv(After(s, run))
    decreases |run|
  {
    if run == [] {
      InitEstablishesInv(s);
    } else {
      PrefixRun(s, run);
      InvOverRuns(s, run[..|run| - 1]);
      ActionKeepsInv(After(s, run[..|run| - 1]), run[|run| - 1]);
    }
  }

  /** Whatever happened, misfires included, the files that are left are authentic. */
  lemma {:induction false} GroundedOverRuns(s: State, run: seq<Action>)
    requires Init(s) && IsRun(s, run)
    ensures Grounded(After(s, run))
    decreases |run|
  {
    hide Enabled, Next, Grounded;
    if run == [] {
      assert Grounded(s) by { InitEstablishesInv(s); }
    } else {
      PrefixRun(s, run);
      GroundedOverRuns(s, run[..|run| - 1]);
      ActionKeepsGround(After(s, run[..|run| - 1]), run[|run| - 1]);
    }
  }

  /**
   Mutual exclusion. In every interleaving of single system calls, with processes starting and dying
   anywhere, two running sessions that both believe they hold the lock are the same session, as long
   as no session has unlinked a marker other than the one it inspected.
   */
  lemma MutualExclusion(s: State, run: seq<Action>, n: Nonce, m: Nonce)
    requires Init(s) && IsRun(s, run) && NoMisfire(s, run)
    requires Holds(After(s, run), n) && Holds(After(s, run), m)
    ensures n == m
  {
    InvOverRuns(s, run);
    assert SessionOk(After(s, run), n) && SessionOk(After(s, run), m);
  }

  /** The process that wrote the published lock is running. */
  ghost predicate LockOwnerRuns(s: State) {
    && Entry(s, Lock).Some?
    && var n := Entry(s, Lock).value.content.owner.nonce;
    && n in s.sessions && s.sessions[n].proc in s.alive
  }

  /** A lock whose owner runs is unlinked, or replaced, only by that owner's own session. */
  lemma OnlyTheOwnerRemovesALiveLock(s: State, run: seq<Action>, a: Action)
    requires Init(s) && IsRun(s, run) && NoMisfire(s, run)
    requires Enabled(After(s, run), a)
    requires LockOwnerRuns(After(s, run))
    requires Entry(Next(After(s, run), a), Lock) != Entry(After(s, run), Lock)
    ensures a.Step? && a.session == Entry(After(s, run), Lock).value.content.owner.nonce
  {
    InvOverRuns(s, run);
    var s1 := After(s, run);
    if a.Step? {
      LockChanges(s1, a.session, a.choice);
    }
  }

  lemma LockChanges(s: State, n: Nonce, c: Choice)
    requires Inv(s) && Enabled(s, Step(n, c)) && LockOwnerRuns(s)
    requires Entry(Next(s, Step(n, c)), Lock) != Entry(s, Lock)
    ensures n == Entry(s, Lock).value.content.owner.nonce
  {
    StepChangesEntries(s, n, c);
    LockOperations(n, s.sessions[n], c, Look(s, n, s.sessions[n]));
    RemoverOwnsOrReclaims(s, n);
  }

  /** The only steps that touch the lock name. */
  lemma LockOperations(n: Nonce, t: Session, c: Choice, v: Sees)
    requires v.lock.Some?
    requires var fs := Turn(n, t, c, v).0;
             (fs.Unlink? && fs.name == Lock) || (fs.Link? && fs.to == Lock) || (fs.Write? && fs.name == Lock)
    ensures t.pc.RemoveLock? || t.pc.CleanUnlink? || t.pc.RelUnlink?
  {
  }

  lemma RemoverOwnsOrReclaims(s: State, n: Nonce)
    requires Inv(s) && n in s.sessions && s.sessions[n].proc in s.alive && LockOwnerRuns(s)
    requires s.sessions[n].pc.RemoveLock? || s.sessions[n].pc.CleanUnlink? || s.sessions[n].pc.RelUnlink?
    ensures n == Entry(s, Lock).value.content.owner.nonce
  {
    hide Authentic, UniquePids;
    assert SessionOk(s, n);
    var x := Entry(s, Lock).value.content.owner.nonce;
    assert Authentic(s, Entry(s, Lock).value.content);
    assert s.minted[x] == x && !MinterDead(s, x);
  }

  /**
   A session that is about to clear a marker has inspected one whose owner is dead; if the step is no misfire, that
   is the marker it unlinks.
   */
  lemma ClearedMarkerIsDead(s: State, run: seq<Action>, n: Nonce)
    requires Init(s) && IsRun(s, run) && NoMisfire(s, run)
    requires n in After(s, run).sessions && After(s, run).sessions[n].proc in After(s, run).alive
    requires After(s, run).sessions[n].pc.RemoveMark?
    ensures var s1 := After(s, run);
            var v := Look(s1, n, s1.sessions[n]);
            && v.markObs.Some? && MinterDead(s1, v.markObs.value.content.owner.nonce)
            && forall c: Choice :: !c.fault && v.mark.Some? && !Misfire(s1, Step(n, c)) ==>
                 MinterDead(s1, v.mark.value.content.owner.nonce)
                 && Entry(Next(s1, Step(n, c)), Mark(s1.sessions[n].existing.nonce)).None?
  {
    InvOverRuns(s, run);
    var s1 := After(s, run);
    InspectedIsDead(s1, n);
    hide After, IsRun, NoMisfire, Inv, MinterDead, Next, Entry;
    forall c: Choice | !c.fault && Look(s1, n, s1.sessions[n]).mark.Some?
      ensures Entry(Next(s1, Step(n, c)), Mark(s1.sessions[n].existing.nonce)).None?
    {
      ClearingUnlinks(s1, n, c);
    }
  }

  lemma InspectedIsDead(s: State, n: Nonce)
    requires Inv(s) && n in s.sessions && s.sessions[n].proc in s.alive && s.sessions[n].pc.RemoveMark?
    ensures var v := Look(s, n, s.sessions[n]); v.markObs.Some? && MinterDead(s, v.markObs.value.content.owner.nonce)
  {
    assert SessionOk(s, n);
  }

  lemma ClearingUnlinks(s: State, n: Nonce, c: Choice)
    requires n in s.sessions && s.sessions[n].pc.RemoveMark? && !c.fault && Look(s, n, s.sessions[n]).mark.Some?
    ensures Entry(Next(s, Step(n, c)), Mark(s.sessions[n].existing.nonce)).None?
  {
  }

  // ---------------------------------------------------------------- when there is no misfire

  /** Every linked marker was written by a running process, so nobody gets to clear one. */
  ghost predicate MarkersLive(s: State) {
    && (forall target :: Entry(s, Mark(target)).Some? ==>
          !MinterDead(s, Entry(s, Mark(target)).value.content.owner.nonce))
    && (forall n :: n in s.sessions && s.sessions[n].proc in s.alive ==> NotClearing(s, n))
  }

  ghost predicate NotClearing(s: State, n: Nonce)
    requires n in s.sessions
  {
    var t := s.sessions[n];
    var obs := Entry(s, MarkObs(n, t.existing.nonce, t.attempt));
    && !t.pc.RemoveMark?
    && (t.pc.CompareMark? ==> obs.Some? && t.stat != Some(obs.value.ino))
  }

  lemma MarkerOutlives(s: State, a: Action, target: Nonce)
    requires Inv(s) && MarkersLive(s) && Enabled(s, a) && !a.Step? && !ReaperDeath(s, a)
    requires Entry(Next(s, a), Mark(target)).Some?
    ensures !MinterDead(Next(s, a), Entry(Next(s, a), Mark(target)).value.content.owner.nonce)
  {
    hide Turn, Fits, ViewOf;
    assert Entry(Next(s, a), Mark(target)) == Entry(s, Mark(target));
    assert Authentic(s, Entry(s, Mark(target)).value.content);
    if a.Die? { assert !MarkedBy(s, target, a.proc); }
  }

  lemma ProcessesKeepMarkersLive(s: State, a: Action)
    requires Inv(s) && MarkersLive(s) && Enabled(s, a) && !a.Step? && !ReaperDeath(s, a)
    ensures MarkersLive(Next(s, a))
  {
    hide Turn, Fits, ViewOf, Authentic, Do;
    var s' := Next(s, a);
    forall target | Entry(s', Mark(target)).Some?
      ensures !MinterDead(s', Entry(s', Mark(target)).value.content.owner.nonce)
    {
      MarkerOutlives(s, a, target);
    }
    forall n | n in s'.sessions && s'.sessions[n].proc in s'.alive
      ensures NotClearing(s', n)
    {
      if n in s.sessions && s.sessions[n].proc in s.alive { assert NotClearing(s, n); }
    }
  }

  /** The only step that publishes a marker, and what it publishes. */
  lemma MarkPublications(n: Nonce, t: Session, c: Choice, v: Sees, target: Nonce)
    requires var fs := Turn(n, t, c, v).0;
             (fs.Link? && fs.to == Mark(target)) || (fs.Write? && fs.name == Mark(target))
    ensures t.pc.LinkMark? && Turn(n, t, c, v).0 == Link(MarkPub(n, t.existing.nonce, t.attempt), Mark(target))
    ensures target == t.existing.nonce
  {
  }

  /** The marker of one generation, after a step of one session. */
  lemma MarkStaysOwned(s: State, n: Nonce, c: Choice, target: Nonce, fs: Fs, s': State)
    requires Inv(s) && MarkersLive(s) && n in s.sessions && s.sessions[n].proc in s.alive
    requires fs == Turn(n, s.sessions[n], c, Look(s, n, s.sessions[n])).0
    requires Entry(s', Mark(target)) == EntryAfter(s, fs, Mark(target))
    requires forall x :: x in s.minted ==> (MinterDead(s, x) <==> MinterDead(s', x))
    requires Entry(s', Mark(target)).Some?
    ensures !MinterDead(s', Entry(s', Mark(target)).value.content.owner.nonce)
  {
    var t := s.sessions[n];
    if (fs.Link? && fs.to == Mark(target)) || (fs.Write? && fs.name == Mark(target)) {
      MarkPublications(n, t, c, Look(s, n, t), target);
      hide Turn;
      assert SessionOk(s, n);
      assert s.minted[t.markNonce] == n;
    } else {
      hide Turn, Fits;
      assert Entry(s', Mark(target)) == Entry(s, Mark(target));
      assert Authentic(s, Entry(s, Mark(target)).value.content);
    }
  }

  lemma StepKeepsMarksOwned(s: State, n: Nonce, c: Choice)
    requires Inv(s) && MarkersLive(s) && Enabled(s, Step(n, c))
    ensures var s' := Next(s, Step(n, c));
            forall target :: Entry(s', Mark(target)).Some? ==>
              !MinterDead(s', Entry(s', Mark(target)).value.content.owner.nonce)
  {
    hide Turn, CurrentFs, Next, StepEnabled, UniquePids, Inv, MarkersLive, Entry, MinterDead;
    var s' := Next(s, Step(n, c));
    var fs := Turn(n, s.sessions[n], c, Look(s, n, s.sessions[n])).0;
    StepChangesEntries(s, n, c);
    forall target | Entry(s', Mark(target)).Some?
      ensures !MinterDead(s', Entry(s', Mark(target)).value.content.owner.nonce)
    {
      MarkStaysOwned(s, n, c, target, fs, s');
    }
  }

  lemma PublishNeverClears(n: Nonce, t: Session, c: Choice, v: Sees)
    requires StageOf(t.pc) == Publishing
    ensures StageOf(PublishTurn(n, t, c, v).1.pc) != Marking
  {
  }

  lemma ObserveNeverClears(n: Nonce, t: Session, c: Choice, v: Sees)
    requires StageOf(t.pc) == Observing
    ensures StageOf(ObserveTurn(n, t, c, v).1.pc) != Marking || ObserveTurn(n, t, c, v).1.pc.CreateMark?
  {
  }

  lemma ReclaimNeverClears(n: Nonce, t: Session, c: Choice, v: Sees)
    requires StageOf(t.pc) == Reclaiming
    ensures StageOf(ReclaimTurn(n, t, c, v).1.pc) != Marking || ReclaimTurn(n, t, c, v).1.pc.DropMarkPub?
  {
  }

  lemma MarkClears(n: Nonce, t: Session, c: Choice, v: Sees)
    requires StageOf(t.pc) == Marking
    ensures var t' := MarkTurn(n, t, c, v).1;
            && (t'.pc.RemoveMark? ==> t.pc.CompareMark? && v.markObs.Some? && t.stat == Some(v.markObs.value.ino))
            && (t'.pc.CompareMark? ==> t.pc.StatMark? && v.mark.Some? && t'.stat == Some(v.mark.value.ino)
                                       && t'.existing == t.existing && t'.attempt == t.attempt)
  {
  }

  /** A session reaches the clearing branch only when the marker's name and its observation lead to one inode. */
  lemma ClearingReadsOneInode(n: Nonce, t: Session, c: Choice, v: Sees)
    requires t.pc.StatMark? ==> v.markObs.Some?
    requires t.pc.StatMark? && v.mark.Some? ==> v.mark.value.ino != v.markObs.value.ino
    requires !t.pc.RemoveMark?
    requires t.pc.CompareMark? ==> v.markObs.Some? && t.stat != Some(v.markObs.value.ino)
    ensures var t' := Turn(n, t, c, v).1;
            && !t'.pc.RemoveMark?
            && (t'.pc.CompareMark? ==> t.pc.StatMark? && t'.stat != Some(v.markObs.value.ino)
                                       && t'.existing == t.existing && t'.attempt == t.attempt)
  {
    hide PublishTurn, ObserveTurn, MarkTurn, ReclaimTurn;
    match StageOf(t.pc)
    case Publishing => PublishNeverClears(n, t, c, v);
    case Observing => ObserveNeverClears(n, t, c, v);
    case Marking => MarkClears(n, t, c, v);
    case Reclaiming => ReclaimNeverClears(n, t, c, v);
    case Idle =>
  }

  lemma OwnStepNotClearing(s: State, n: Nonce, c: Choice)
    requires Inv(s) && MarkersLive(s) && Enabled(s, Step(n, c))
    ensures NotClearing(Next(s, Step(n, c)), n)
  {
    var t := s.sessions[n];
    var v := Look(s, n, t);
    assert SessionOk(s, n) && NotClearing(s, n);
    ClearingReadsOneInode(n, t, c, v);
    StepChangesEntries(s, n, c);
    StatIsSilent(n, t, c, v);
  }

  lemma StatIsSilent(n: Nonce, t: Session, c: Choice, v: Sees)
    ensures t.pc.StatMark? ==> Turn(n, t, c, v).0 == NoFs
  {
  }

  /** Another session's private files are out of reach. */
  lemma ForeignEntry(s: State, fs: Fs, n: Nonce, t: Session, m: Nonce, name: Name)
    requires CurrentFs(n, t, fs) && PrivateTo(name, m) && m != n
    ensures EntryAfter(s, fs, name) == Entry(s, name)
  {
  }

  lemma OthersNotClearing(s: State, n: Nonce, fs: Fs, t: Session, m: Nonce, s': State)
    requires n in s.sessions && CurrentFs(n, s.sessions[n], fs)
    requires s'.sessions == s.sessions[n := t]
    requires forall name :: Entry(s', name) == EntryAfter(s, fs, name)
    requires m in s.sessions && m != n && NotClearing(s, m)
    ensures NotClearing(s', m)
  {
    var name := MarkObs(m, s.sessions[m].existing.nonce, s.sessions[m].attempt);
    ForeignEntry(s, fs, n, s.sessions[n], m, name);
    assert Entry(s', name) == EntryAfter(s, fs, name);
  }

  lemma StepTouchesOneSession(s: State, n: Nonce, c: Choice)
    requires n in s.sessions
    ensures var s' := Next(s, Step(n, c));
            s'.sessions == s.sessions[n := Turn(n, s.sessions[n], c, Look(s, n, s.sessions[n])).1] && s'.alive == s.alive
  {
  }

  lemma StepKeepsMarkersLive(s: State, n: Nonce, c: Choice)
    requires Inv(s) && MarkersLive(s) && Enabled(s, Step(n, c))
    ensures MarkersLive(Next(s, Step(n, c)))
  {
    var turn := Turn(n, s.sessions[n], c, Look(s, n, s.sessions[n]));
    var s' := Next(s, Step(n, c));
    StepKeepsMarksOwned(s, n, c);
    OwnStepNotClearing(s, n, c);
    StepTouchesOneSession(s, n, c);
    StepChangesEntries(s, n, c);
    SessionsNotClearing(s, n, turn.0, turn.1, s');
  }

  lemma SessionsNotClearing(s: State, n: Nonce, fs: Fs, t: Session, s': State)
    requires MarkersLive(s) && n in s.sessions && CurrentFs(n, s.sessions[n], fs)
    requires s'.sessions == s.sessions[n := t] && s'.alive == s.alive
    requires forall name :: Entry(s', name) == EntryAfter(s, fs, name)
    requires NotClearing(s', n)
    ensures forall m :: m in s'.sessions && s'.sessions[m].proc in s'.alive ==> NotClearing(s', m)
  {
    forall m | m in s'.sessions && s'.sessions[m].proc in s'.alive
      ensures NotClearing(s', m)
    {
      if m != n { OthersNotClearing(s, n, fs, t, m, s'); }
    }
  }

  lemma NobodyMisfires(s: State, a: Action)
    requires MarkersLive(s) && Enabled(s, a)
    ensures !Misfire(s, a)
  {
    hide StepEnabled;
    if a.Step? { assert NotClearing(s, a.session); }
  }

  lemma NoMisfireExtends(s: State, run: seq<Action>)
    requires run != [] && NoMisfire(s, run[..|run| - 1])
    requires !Misfire(After(s, run[..|run| - 1]), run[|run| - 1])
    ensures NoMisfire(s, run)
  {
    hide Misfire, Next;
    var prefix := run[..|run| - 1];
    assert forall i :: 0 <= i < |prefix| ==> run[..i] == prefix[..i] && run[i] == prefix[i];
  }

  lemma {:induction false} MarkersLiveOverRuns(s: State, run: seq<Action>)
    requires Init(s) && IsRun(s, run) && NoReaperDies(s, run)
    ensures Inv(After(s, run)) && MarkersLive(After(s, run))
    ensures NoMisfire(s, run)
    decreases |run|
  {
    hide Enabled, Inv, Misfire, Next;
    if run == [] {
      InitEstablishesInv(s);
      assert MarkersLive(s);
    } else {
      PrefixRun(s, run);
      MarkersLiveOverRuns(s, run[..|run| - 1]);
      var s1, a := After(s, run[..|run| - 1]), run[|run| - 1];
      NobodyMisfires(s1, a);
      NoMisfireExtends(s, run);
      ActionKeepsInv(s1, a);
      if a.Step? { StepKeepsMarkersLive(s1, a.session, a.choice); } else { ProcessesKeepMarkersLive(s1, a); }
    }
  }

  /** If no process dies while a marker it published is linked, the lock excludes without further condition. */
  lemma ExclusionWithoutReaperDeaths(s: State, run: seq<Action>, n: Nonce, m: Nonce)
    requires Init(s) && IsRun(s, run) && NoReaperDies(s, run)
    requires Holds(After(s, run), n) && Holds(After(s, run), m)
    ensures n == m
  {
    MarkersLiveOverRuns(s, run);
    MutualExclusion(s, run, n, m);
  }

  // ---------------------------------------------------------------- runs, piece by piece

  /** An empty directory, and no process yet. */
  const NOTHING := State(map[], map[], map[], map[], {}, {})

  ghost predicate Leads(s: State, t: State) {
    exists run :: IsRun(s, run) && After(s, run) == t
  }

  lemma LeadsNowhere(s: State)
    ensures Leads(s, s)
  {
    assert IsRun(s, []) && After(s, []) == s;
  }

  lemma LongerRun(s: State, run: seq<Action>, a: Action)
    requires IsRun(s, run) && Enabled(After(s, run), a)
    ensures IsRun(s, run + [a])
  {
    hide Enabled, After;
    var longer := run + [a];
    forall i | 0 <= i < |longer|
      ensures Enabled(After(s, longer[..i]), longer[i])
    {
      assert longer[..i] == run[..i];
      assert run[..|run|] == run;
    }
  }

  lemma LastOfRun(s: State, run: seq<Action>, a: Action)
    ensures After(s, run + [a]) == Next(After(s, run), a)
  {
    hide Next;
    assert (run + [a])[..|run|] == run;
  }

  lemma LeadsOn(s: State, t: State, a: Action)
    requires Leads(s, t) && Enabled(t, a)
    ensures Leads(s, Next(t, a))
  {
    hide Enabled, Next, After, IsRun;
    var run :| IsRun(s, run) && After(s, run) == t;
    LongerRun(s, run, a);
    LastOfRun(s, run, a);
  }

  /** The system makes one move. */
  lemma Move(s0: State, s: State, a: Action) returns (t: State)
    requires Leads(s0, s) && Enabled(s, a)
    ensures t == Next(s, a) && Leads(s0, t)
  {
    LeadsOn(s0, s, a);
    t := Next(s, a);
  }
}
