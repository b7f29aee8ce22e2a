/**
 Why no reaper may die with its marker linked: a concrete run in which one does, and two running
 sessions end up holding the lock.
 */
module StateLockMisfire {
  import opened Wrappers
  import opened StateLock
  import opened StateLockSafety
  import opened StateLockTheorems
  import StateLockRecovery

  // ---------------------------------------------------------------- one step of a session

  /** No running process has this pid. */
  ghost predicate Gone(s: State, pid: nat) { forall p :: p in s.alive ==> p.pid != pid }

  /** An uneventful answer about a pid that is gone. */
  predicate Plain(c: Choice) { !c.fault && !c.pidExists && c.observed.None? }

  /** What a session needs for its next call to succeed, when every pid it asks about is gone. */
  ghost predicate Able(s: State, n: Nonce)
    requires n in s.sessions
  {
    var t := s.sessions[n];
    var v := Look(s, n, t);
    && t.proc in s.alive && StageOf(t.pc) != Idle
    && (t.pc.LinkLock? ==> v.pub.Some?)
    && (t.pc.ReadObs? || t.pc.CompareLock? ==> v.obs.Some?)
    && (t.pc.Probe? ==> Gone(s, t.existing.pid))
    && (t.pc.LinkMark? ==> v.markPub.Some?)
    && (t.pc.ProbeMark? || t.pc.CompareMark? ==> v.markObs.Some?)
    && (t.pc.ProbeMark? ==> Gone(s, v.markObs.value.content.owner.pid))
  }

  lemma FreshChoice(s: State) returns (c: Choice)
    ensures Plain(c) && c.ino !in s.dir.Values && c.nonce !in s.minted
  {
    var ino := StateLockRecovery.Outside(s.dir.Values);
    var nonce := StateLockRecovery.Outside(s.minted.Keys);
    c := Choice(ino, nonce, true, false, false, None);
  }

  lemma PlainIsEnabled(s: State, n: Nonce, c: Choice)
    requires n in s.sessions && Able(s, n) && Plain(c) && c.ino !in s.dir.Values && c.nonce !in s.minted
    ensures Enabled(s, Step(n, c))
  {
  }

  lemma TurnLinks(n: Nonce, t: Session, c: Choice, v: Sees)
    ensures var fs := Turn(n, t, c, v).0;
            && (fs.Link? ==> (fs.from == Lock && v.lock.Some?) || (fs.from == Pub(n, t.attempt) && t.pc.LinkLock?)
                             || (fs.from == Mark(t.existing.nonce) && v.mark.Some?)
                             || (fs.from == MarkPub(n, t.existing.nonce, t.attempt) && t.pc.LinkMark?))
            && (fs.Write? ==> fs.ino == c.ino)
  {
  }

  lemma EntriesMove(s: State, fs: Fs)
    requires fs.Write? ==> fs.ino !in s.dir.Values
    requires fs.Link? ==> Entry(s, fs.from).Some?
    ensures forall name :: Entry(Do(s, fs), name) == EntryAfter(s, fs, name)
  {
  }

  /** What a step of `n` changes of the names it looks at. */
  ghost predicate Seeing(s: State, t: State, n: Nonce, me: Session, fs: Fs, u: Session) {
    var after := SeesAfter(Look(s, n, me), fs, n, me);
    && (u.existing == me.existing && u.attempt == me.attempt ==> Look(t, n, u) == after)
    && Entry(t, Lock) == after.lock && Entry(t, Mark(me.existing.nonce)) == after.mark
    && Entry(t, Obs(n, me.attempt)) == after.obs
    && (forall x :: x != me.existing.nonce || fs.NoFs? ==> Entry(t, Mark(x)) == Entry(s, Mark(x)))
  }

  lemma SeesTheStep(s: State, t: State, n: Nonce, me: Session, fs: Fs, u: Session)
    requires forall name :: Entry(t, name) == EntryAfter(s, fs, name)
    requires CurrentFs(n, me, fs) && (fs.Link? ==> Entry(s, fs.from).Some?)
    ensures Seeing(s, t, n, me, fs, u)
  {
    assert fs.Link? ==> fs.from in s.dir;
    hide Entry;
    SeesOwnNames(s, fs, n, me);
  }

  lemma SeesOwnNames(s: State, fs: Fs, n: Nonce, me: Session)
    requires CurrentFs(n, me, fs) && (fs.Link? ==> fs.from in s.dir)
    ensures LookAfter(s, fs, n, me) == SeesAfter(Look(s, n, me), fs, n, me)
  {
    hide Entry;
  }

  lemma StepMoves(s: State, n: Nonce, c: Choice)
    requires n in s.sessions && Able(s, n) && Plain(c) && c.ino !in s.dir.Values && c.nonce !in s.minted
    ensures var me := s.sessions[n];
            var (fs, u) := Turn(n, me, c, Look(s, n, me));
            var t := Next(s, Step(n, c));
            && (forall name :: Entry(t, name) == EntryAfter(s, fs, name))
            && t.sessions == s.sessions[n := u] && t.alive == s.alive
            && t.minted == Mint(s, n, c).minted
            && (fs.Link? ==> Entry(s, fs.from).Some?)
  {
    var me := s.sessions[n];
    var (fs, u) := Turn(n, me, c, Look(s, n, me));
    TurnLinks(n, me, c, Look(s, n, me));
    hide Turn;
    var m := Mint(s, n, c);
    assert forall name :: Entry(m, name) == Entry(s, name);
    EntriesMove(m, fs);
    var t := Next(s, Step(n, c));
    assert t == With(Do(m, fs), n, u);
    assert forall name :: Entry(t, name) == Entry(Do(m, fs), name);
  }

  /** The session makes its next call, and nothing goes wrong. */
  lemma Go(s0: State, s: State, n: Nonce) returns (t: State, c: Choice)
    requires Leads(s0, s) && n in s.sessions && Able(s, n)
    ensures Leads(s0, t) && Plain(c)
    ensures t.alive == s.alive && s.minted.Keys <= t.minted.Keys
    ensures s.sessions[n].pc.CreateMark? ==> c.nonce !in s.minted && c.nonce in t.minted
    ensures var (fs, u) := Turn(n, s.sessions[n], c, Look(s, n, s.sessions[n]));
            t.sessions == s.sessions[n := u] && Seeing(s, t, n, s.sessions[n], fs, u)
  {
    c := FreshChoice(s);
    PlainIsEnabled(s, n, c);
    TurnShape(n, s.sessions[n], c, Look(s, n, s.sessions[n]));
    StepMoves(s, n, c);
    hide Turn, Next, Entry, Look, EntryAfter, SeesAfter;
    t := Move(s0, s, Step(n, c));
    var (fs, u) := Turn(n, s.sessions[n], c, Look(s, n, s.sessions[n]));
    SeesTheStep(s, t, n, s.sessions[n], fs, u);
  }

  // ---------------------------------------------------------------- what one session does while the others stand still

  predicate Only(s: State, t: State, n: Nonce) {
    && n in s.sessions && n in t.sessions && t.sessions == s.sessions[n := t.sessions[n]]
    && t.sessions[n].proc == s.sessions[n].proc && t.alive == s.alive && s.minted.Keys <= t.minted.Keys
  }

  /** The session is on its way, has no marker and meets no error. */
  predicate Ahead(s: State, n: Nonce, pc: Pc) {
    && n in s.sessions && s.sessions[n].proc in s.alive && s.sessions[n].pc == pc
    && !s.sessions[n].failing && !s.sessions[n].held
  }

  /** It finds the lock's name taken. */
  lemma FindsLock(s0: State, s: State, n: Nonce) returns (t: State)
    requires Leads(s0, s) && Ahead(s, n, CreatePub) && Entry(s, Lock).Some?
    ensures Leads(s0, t) && Only(s, t, n) && Ahead(t, n, DropPubExists)
    ensures t.sessions[n].attempt == s.sessions[n].attempt
    ensures Entry(t, Lock) == Entry(s, Lock) && forall x :: Entry(t, Mark(x)) == Entry(s, Mark(x))
  {
    hide Entry, Leads, ObserveTurn, MarkTurn, ReclaimTurn;
    var c: Choice;
    t, c := Go(s0, s, n);
    t, c := Go(s0, t, n);
  }

  lemma LinksLock(s0: State, s: State, n: Nonce) returns (t: State)
    requires Leads(s0, s) && Ahead(s, n, LinkObs) && Entry(s, Lock).Some?
    ensures Leads(s0, t) && Only(s, t, n) && t.sessions[n] == s.sessions[n].(pc := ReadObs)
    ensures Entry(t, Lock) == Entry(s, Lock) && Entry(t, Obs(n, s.sessions[n].attempt)) == Entry(s, Lock)
    ensures forall x :: Entry(t, Mark(x)) == Entry(s, Mark(x))
  {
    hide Entry, Leads, PublishTurn, MarkTurn, ReclaimTurn;
    var c: Choice;
    t, c := Go(s0, s, n);
  }

  /** It links the published lock to a name of its own. */
  lemma ObservesLock(s0: State, s: State, n: Nonce, f: File) returns (t: State)
    requires Leads(s0, s) && Ahead(s, n, CreatePub) && Entry(s, Lock) == Some(f)
    ensures Leads(s0, t) && Only(s, t, n) && Ahead(t, n, ReadObs)
    ensures t.sessions[n].attempt == s.sessions[n].attempt
    ensures Entry(t, Lock) == Some(f) && Entry(t, Obs(n, s.sessions[n].attempt)) == Some(f)
    ensures forall x :: Entry(t, Mark(x)) == Entry(s, Mark(x))
  {
    hide Entry, Leads, PublishTurn, MarkTurn, ReclaimTurn;
    var c: Choice;
    t := FindsLock(s0, s, n);
    t, c := Go(s0, t, n);
    assert Ahead(t, n, LinkObs);
    t := LinksLock(s0, t, n);
  }

  /** It takes the published lock for stale. */
  lemma FindsStale(s0: State, s: State, n: Nonce, f: File) returns (t: State)
    requires Leads(s0, s) && Ahead(s, n, CreatePub) && Entry(s, Lock) == Some(f) && Gone(s, f.content.owner.pid)
    ensures Leads(s0, t) && Only(s, t, n) && Ahead(t, n, CreateMark)
    ensures t.sessions[n].attempt == s.sessions[n].attempt && t.sessions[n].existing == f.content.owner
    ensures Entry(t, Lock) == Some(f) && Entry(t, Obs(n, s.sessions[n].attempt)) == Some(f)
    ensures forall x :: Entry(t, Mark(x)) == Entry(s, Mark(x))
  {
    hide Entry, Leads, PublishTurn, MarkTurn, ReclaimTurn;
    var c: Choice;
    t := ObservesLock(s0, s, n, f);
    t, c := Go(s0, t, n);
    t, c := Go(s0, t, n);
  }

  /** It finds the marker's name taken. */
  lemma FindsMarker(s0: State, s: State, n: Nonce) returns (t: State)
    requires Leads(s0, s) && Ahead(s, n, CreateMark) && Entry(s, Mark(s.sessions[n].existing.nonce)).Some?
    ensures Leads(s0, t) && Only(s, t, n) && Ahead(t, n, LinkMarkObs)
    ensures t.sessions[n].attempt == s.sessions[n].attempt && t.sessions[n].existing == s.sessions[n].existing
    ensures Entry(t, Lock) == Entry(s, Lock) && forall x :: Entry(t, Mark(x)) == Entry(s, Mark(x))
  {
    hide Entry, Leads, PublishTurn, ObserveTurn, ReclaimTurn;
    var c: Choice;
    t, c := Go(s0, s, n);
    t, c := Go(s0, t, n);
  }

  lemma LinksMarker(s0: State, s: State, n: Nonce) returns (t: State)
    requires Leads(s0, s) && Ahead(s, n, LinkMarkObs) && Entry(s, Mark(s.sessions[n].existing.nonce)).Some?
    ensures Leads(s0, t) && Only(s, t, n) && t.sessions[n] == s.sessions[n].(pc := ProbeMark)
    ensures Entry(t, Lock) == Entry(s, Lock)
    ensures Look(t, n, t.sessions[n]).markObs == Entry(s, Mark(s.sessions[n].existing.nonce))
    ensures forall x :: Entry(t, Mark(x)) == Entry(s, Mark(x))
  {
    hide Entry, Leads, PublishTurn, ObserveTurn, ReclaimTurn;
    var c: Choice;
    t, c := Go(s0, s, n);
  }

  /** It links the marker it found to a name of its own. */
  lemma ObservesMarker(s0: State, s: State, n: Nonce, g: File) returns (t: State)
    requires Leads(s0, s) && Ahead(s, n, CreateMark) && Entry(s, Mark(s.sessions[n].existing.nonce)) == Some(g)
    ensures Leads(s0, t) && Only(s, t, n) && Ahead(t, n, ProbeMark)
    ensures t.sessions[n].attempt == s.sessions[n].attempt && t.sessions[n].existing == s.sessions[n].existing
    ensures Entry(t, Lock) == Entry(s, Lock) && Look(t, n, t.sessions[n]).markObs == Some(g)
    ensures forall x :: Entry(t, Mark(x)) == Entry(s, Mark(x))
  {
    hide Entry, Leads, PublishTurn, ObserveTurn, ReclaimTurn;
    t := FindsMarker(s0, s, n);
    t := LinksMarker(s0, t, n);
  }

  lemma ComparesMarker(s0: State, s: State, n: Nonce, g: File) returns (t: State)
    requires Leads(s0, s) && Ahead(s, n, StatMark)
    requires Look(s, n, s.sessions[n]).mark == Some(g) && Look(s, n, s.sessions[n]).markObs == Some(g)
    ensures Leads(s0, t) && Only(s, t, n) && t.sessions[n] == s.sessions[n].(pc := RemoveMark, stat := Some(g.ino))
    ensures Entry(t, Lock) == Entry(s, Lock) && forall x :: Entry(t, Mark(x)) == Entry(s, Mark(x))
  {
    hide Entry, Leads, PublishTurn, ObserveTurn, ReclaimTurn;
    var c: Choice;
    t, c := Go(s0, s, n);
    t, c := Go(s0, t, n);
  }

  /** It finds a dead reaper's marker, and is about to unlink the name. */
  lemma FindsDeadMarker(s0: State, s: State, n: Nonce, g: File) returns (t: State)
    requires Leads(s0, s) && Ahead(s, n, CreateMark)
    requires Entry(s, Mark(s.sessions[n].existing.nonce)) == Some(g) && Gone(s, g.content.owner.pid)
    ensures Leads(s0, t) && Only(s, t, n) && Ahead(t, n, RemoveMark)
    ensures t.sessions[n].attempt == s.sessions[n].attempt && t.sessions[n].existing == s.sessions[n].existing
    ensures Entry(t, Lock) == Entry(s, Lock)
    ensures forall x :: Entry(t, Mark(x)) == Entry(s, Mark(x))
  {
    hide Entry, Leads, PublishTurn, ObserveTurn, ReclaimTurn;
    var c: Choice;
    t := ObservesMarker(s0, s, n, g);
    t, c := Go(s0, t, n);
    assert Ahead(t, n, StatMark);
    t := ComparesMarker(s0, t, n, g);
  }

  /** It drops its two files for the marker. */
  lemma LeavesMarker(s0: State, s: State, n: Nonce) returns (t: State)
    requires Leads(s0, s) && Ahead(s, n, DropMarkObs)
    ensures Leads(s0, t) && Only(s, t, n) && t.sessions[n] == s.sessions[n].(pc := DropObs)
    ensures Entry(t, Lock) == Entry(s, Lock)
    ensures Entry(t, Mark(s.sessions[n].existing.nonce)) == Entry(s, Mark(s.sessions[n].existing.nonce))
  {
    hide Entry, Leads, PublishTurn, ObserveTurn, ReclaimTurn;
    var c: Choice;
    t, c := Go(s0, s, n);
    t, c := Go(s0, t, n);
  }

  /** It unlinks whatever marker is there now, and starts over. */
  lemma UnlinksMarker(s0: State, s: State, n: Nonce) returns (t: State)
    requires Leads(s0, s) && Ahead(s, n, RemoveMark) && s.sessions[n].attempt + 1 < MAX_ATTEMPTS
    requires Entry(s, Mark(s.sessions[n].existing.nonce)).Some?
    ensures Leads(s0, t) && Only(s, t, n) && Ahead(t, n, CreatePub)
    ensures t.sessions[n].attempt == s.sessions[n].attempt + 1
    ensures Entry(t, Lock) == Entry(s, Lock) && Entry(t, Mark(s.sessions[n].existing.nonce)).None?
  {
    hide Entry, Leads, PublishTurn, ObserveTurn, ReclaimTurn;
    var c: Choice;
    t, c := Go(s0, s, n);
    assert Ahead(t, n, DropMarkObs);
    t := LeavesMarker(s0, t, n);
    t := StartsOver(s0, t, n);
  }

  /** It publishes a marker of its own. */
  lemma PublishesMarker(s0: State, s: State, n: Nonce) returns (t: State)
    requires Leads(s0, s) && Ahead(s, n, CreateMark) && Entry(s, Mark(s.sessions[n].existing.nonce)).None?
    ensures Leads(s0, t) && Only(s, t, n) && t.sessions[n].pc.SyncMark? && !t.sessions[n].failing && t.sessions[n].held
    ensures t.sessions[n].attempt == s.sessions[n].attempt && t.sessions[n].existing == s.sessions[n].existing
    ensures Entry(t, Lock) == Entry(s, Lock) && Look(t, n, t.sessions[n]).obs == Entry(s, Obs(n, s.sessions[n].attempt))
    ensures var mark := Entry(t, Mark(s.sessions[n].existing.nonce));
            && mark.Some? && mark.value.content.owner.pid == s.sessions[n].proc.pid
            && mark.value.content.owner.nonce == t.sessions[n].markNonce
    ensures t.sessions[n].markNonce !in s.minted && t.sessions[n].markNonce in t.minted
  {
    hide Entry, Leads, PublishTurn, ObserveTurn, ReclaimTurn;
    var c: Choice;
    t, c := Go(s0, s, n);
    t, c := Go(s0, t, n);
  }

  /** With its marker in place, it drops the marker's publication file. */
  lemma KeepsMarker(s0: State, s: State, n: Nonce) returns (t: State)
    requires Leads(s0, s) && n in s.sessions && s.sessions[n].proc in s.alive
    requires s.sessions[n].pc.SyncMark? && s.sessions[n].held
    ensures Leads(s0, t) && Only(s, t, n) && t.sessions[n] == s.sessions[n].(pc := StatLock)
    ensures Look(t, n, t.sessions[n]).lock == Look(s, n, s.sessions[n]).lock
    ensures Look(t, n, t.sessions[n]).obs == Look(s, n, s.sessions[n]).obs
    ensures Look(t, n, t.sessions[n]).mark == Look(s, n, s.sessions[n]).mark
  {
    hide Entry, Leads, PublishTurn, ObserveTurn, ReclaimTurn;
    var c: Choice;
    t, c := Go(s0, s, n);
    t, c := Go(s0, t, n);
  }

  /** It publishes its marker, and is about to unlink the stale lock. */
  lemma ClaimsReclamation(s0: State, s: State, n: Nonce, f: File) returns (t: State)
    requires Leads(s0, s) && Ahead(s, n, CreateMark) && Entry(s, Mark(s.sessions[n].existing.nonce)).None?
    requires Entry(s, Lock) == Some(f) && Entry(s, Obs(n, s.sessions[n].attempt)) == Some(f)
    ensures Leads(s0, t) && Only(s, t, n) && t.sessions[n].pc.RemoveLock? && !t.sessions[n].failing
    ensures t.sessions[n].attempt == s.sessions[n].attempt && t.sessions[n].existing == s.sessions[n].existing
    ensures Entry(t, Lock) == Some(f) && Carrying(Entry(t, Mark(s.sessions[n].existing.nonce)), t.sessions[n].markNonce)
    ensures t.sessions[n].markNonce !in s.minted && t.sessions[n].markNonce in t.minted
  {
    hide Entry, Leads;
    t := PublishesMarker(s0, s, n);
    t := KeepsMarker(s0, t, n);
    t := ComparesLock(s0, t, n, f);
  }

  lemma ComparesLock(s0: State, s: State, n: Nonce, f: File) returns (t: State)
    requires Leads(s0, s) && n in s.sessions && s.sessions[n].proc in s.alive && s.sessions[n].pc.StatLock?
    requires Look(s, n, s.sessions[n]).lock == Some(f) && Look(s, n, s.sessions[n]).obs == Some(f)
    ensures Leads(s0, t) && Only(s, t, n)
    ensures t.sessions[n] == s.sessions[n].(pc := RemoveLock, stat := Some(f.ino))
    ensures Entry(t, Lock) == Some(f) && Entry(t, Mark(s.sessions[n].existing.nonce)) == Entry(s, Mark(s.sessions[n].existing.nonce))
  {
    hide Entry, Leads, PublishTurn, ObserveTurn, MarkTurn;
    var c: Choice;
    t, c := Go(s0, s, n);
    t, c := Go(s0, t, n);
  }

  /** It unlinks whatever lock is there now. */
  lemma UnlinksLock(s0: State, s: State, n: Nonce) returns (t: State)
    requires Leads(s0, s) && n in s.sessions && s.sessions[n].proc in s.alive
    requires s.sessions[n].pc.RemoveLock? && !s.sessions[n].failing
    ensures Leads(s0, t) && Only(s, t, n) && t.sessions[n] == s.sessions[n].(pc := RelMarkRead) && Entry(t, Lock).None?
    ensures Entry(t, Mark(s.sessions[n].existing.nonce)) == Entry(s, Mark(s.sessions[n].existing.nonce))
  {
    hide Entry, Leads, PublishTurn, ObserveTurn, MarkTurn;
    var c: Choice;
    t, c := Go(s0, s, n);
  }

  /** It lets go of its marker, if the marker is still its own. */
  lemma LetsGo(s0: State, s: State, n: Nonce) returns (t: State)
    requires Leads(s0, s) && n in s.sessions && s.sessions[n].proc in s.alive
    requires s.sessions[n].pc.RelMarkRead? && !s.sessions[n].failing
    requires Entry(s, Mark(s.sessions[n].existing.nonce)).Some?
    ensures Leads(s0, t) && Only(s, t, n) && t.sessions[n] == s.sessions[n].(pc := DropObs, held := false)
    ensures Entry(t, Lock) == Entry(s, Lock)
    ensures !Carrying(Entry(s, Mark(s.sessions[n].existing.nonce)), s.sessions[n].markNonce) ==>
              Entry(t, Mark(s.sessions[n].existing.nonce)) == Entry(s, Mark(s.sessions[n].existing.nonce))
  {
    hide Entry, Leads, PublishTurn, ObserveTurn, MarkTurn;
    var c: Choice;
    t, c := Go(s0, s, n);
    if t.sessions[n].pc.RelMarkUnlink? { t, c := Go(s0, t, n); }
  }

  /** The retry loop goes around. */
  lemma StartsOver(s0: State, s: State, n: Nonce) returns (t: State)
    requires Leads(s0, s) && n in s.sessions && s.sessions[n].proc in s.alive
    requires s.sessions[n].pc.DropObs? && !s.sessions[n].failing && s.sessions[n].attempt + 1 < MAX_ATTEMPTS
    ensures Leads(s0, t) && Only(s, t, n) && Ahead(t, n, CreatePub) && t.sessions[n].attempt == s.sessions[n].attempt + 1
    ensures Entry(t, Lock) == Entry(s, Lock)
    ensures Entry(t, Mark(s.sessions[n].existing.nonce)) == Entry(s, Mark(s.sessions[n].existing.nonce))
  {
    hide Entry, Leads, PublishTurn, ObserveTurn, MarkTurn;
    var c: Choice;
    t, c := Go(s0, s, n);
  }

  /** It publishes its own lock under a free name. */
  lemma PublishesLock(s0: State, s: State, n: Nonce) returns (t: State)
    requires Leads(s0, s) && n in s.sessions && s.sessions[n].proc in s.alive && s.sessions[n].pc.CreatePub?
    requires Entry(s, Lock).None?
    ensures Leads(s0, t) && Only(s, t, n) && t.sessions[n].pc.DropPub?
    ensures Entry(t, Lock).Some? && Entry(t, Lock).value.content.owner.pid == s.sessions[n].proc.pid
    ensures Entry(t, Lock).value.content.owner.nonce == n
    ensures forall x :: Entry(t, Mark(x)) == Entry(s, Mark(x))
  {
    hide Entry, Leads, ObserveTurn, MarkTurn, ReclaimTurn;
    var c: Choice;
    t, c := Go(s0, s, n);
    t, c := Go(s0, t, n);
  }

  /** It unlinks whatever lock is there now, and takes the lock. */
  lemma TakesOver(s0: State, s: State, n: Nonce) returns (t: State)
    requires Leads(s0, s) && n in s.sessions && s.sessions[n].proc in s.alive
    requires s.sessions[n].pc.RemoveLock? && !s.sessions[n].failing && s.sessions[n].attempt + 1 < MAX_ATTEMPTS
    requires Entry(s, Mark(s.sessions[n].existing.nonce)).Some?
    ensures Leads(s0, t) && Only(s, t, n) && t.sessions[n].pc.Holding?
    ensures !Carrying(Entry(s, Mark(s.sessions[n].existing.nonce)), s.sessions[n].markNonce) ==>
              Entry(t, Mark(s.sessions[n].existing.nonce)) == Entry(s, Mark(s.sessions[n].existing.nonce))
  {
    hide Entry, Leads;
    t := UnlinksLock(s0, s, n);
    t := LetsGo(s0, t, n);
    t := StartsOver(s0, t, n);
    t := PublishesLock(s0, t, n);
    t := EntersLock(s0, t, n);
  }

  lemma EntersLock(s0: State, s: State, n: Nonce) returns (t: State)
    requires Leads(s0, s) && n in s.sessions && s.sessions[n].proc in s.alive && s.sessions[n].pc.DropPub?
    ensures Leads(s0, t) && Only(s, t, n) && t.sessions[n].pc.Holding?
    ensures forall x :: Entry(t, Mark(x)) == Entry(s, Mark(x))
  {
    hide Entry, Leads, ObserveTurn, MarkTurn, ReclaimTurn;
    var c: Choice;
    t, c := Go(s0, s, n);
    t, c := Go(s0, t, n);
  }

  // ---------------------------------------------------------------- the run

  const IDENTITY := ProcessIdentity(0, 0)
  const A := Proc(1, IDENTITY)
  const B := Proc(2, IDENTITY)
  const C := Proc(3, IDENTITY)
  const D := Proc(4, IDENTITY)

  lemma FourProcesses() returns (s: State)
    ensures Leads(NOTHING, s) && s == NOTHING.(alive := {A, B, C, D}, seen := {A, B, C, D})
  {
    LeadsNowhere(NOTHING);
    hide Leads;
    s := Move(NOTHING, NOTHING, Start(A));
    s := Move(NOTHING, s, Start(B));
    s := Move(NOTHING, s, Start(C));
    s := Move(NOTHING, s, Start(D));
  }

  /** Four processes start a session each. */
  lemma FourContenders() returns (s: State)
    ensures Leads(NOTHING, s) && s.alive == {A, B, C, D}
    ensures s.sessions == map[0 := FreshSession(A), 1 := FreshSession(B), 2 := FreshSession(C), 3 := FreshSession(D)]
    ensures forall name :: Entry(s, name).None?
  {
    hide Leads;
    s := FourProcesses();
    s := Move(NOTHING, s, Begin(A, 0));
    s := Move(NOTHING, s, Begin(B, 1));
    s := Move(NOTHING, s, Begin(C, 2));
    s := Move(NOTHING, s, Begin(D, 3));
  }

  lemma Dies(s0: State, s: State, p: Proc) returns (t: State)
    requires Leads(s0, s) && p in s.alive
    ensures Leads(s0, t) && t.sessions == s.sessions && t.alive == s.alive - {p}
    ensures forall name :: Entry(t, name) == Entry(s, name)
  {
    t := Move(s0, s, Die(p));
  }

  /** A dies holding the lock, and B dies reclaiming it, with its marker linked. */
  lemma TwoDeaths() returns (s: State, f: File, g: File)
    ensures Leads(NOTHING, s) && s.alive == {C, D}
    ensures 2 in s.sessions && s.sessions[2] == FreshSession(C) && 3 in s.sessions && s.sessions[3] == FreshSession(D)
    ensures Entry(s, Lock) == Some(f) && f.content.owner.pid == 1 && f.content.owner.nonce == 0
    ensures Entry(s, Mark(0)) == Some(g) && g.content.owner.pid == 2
  {
    hide Entry, Leads, Look;
    s := FourContenders();
    s := PublishesLock(NOTHING, s, 0);
    f := Entry(s, Lock).value;
    s := Dies(NOTHING, s, A);
    s := FindsStale(NOTHING, s, 1, f);
    s := PublishesMarker(NOTHING, s, 1);
    g := Entry(s, Mark(0)).value;
    s := Dies(NOTHING, s, B);
  }

  /** C and D both find B's marker; D clears it and publishes its own, which C then unlinks by name. */
  lemma TwoReapers() returns (s: State)
    ensures Leads(NOTHING, s) && s.alive == {C, D} && 2 in s.sessions && 3 in s.sessions
    ensures s.sessions[2].proc == C && s.sessions[3].proc == D
    ensures Ready(s, 2) && Ready(s, 3)
    ensures Carrying(Entry(s, Mark(0)), s.sessions[2].markNonce) && s.sessions[2].markNonce != s.sessions[3].markNonce
  {
    hide Entry, Leads, Look;
    var f, g;
    s, f, g := TwoDeaths();
    s := FindsStale(NOTHING, s, 2, f);
    s := FindsDeadMarker(NOTHING, s, 2, g);
    s := FindsStale(NOTHING, s, 3, f);
    s := FindsDeadMarker(NOTHING, s, 3, g);
    s := UnlinksMarker(NOTHING, s, 3);
    s := FindsStale(NOTHING, s, 3, f);
    s := ClaimsReclamation(NOTHING, s, 3, f);
    s := UnlinksMarker(NOTHING, s, 2);
    s := FindsStale(NOTHING, s, 2, f);
    s := ClaimsReclamation(NOTHING, s, 2, f);
  }

  /** About to unlink the lock, for the generation A left behind. */
  predicate Ready(s: State, n: Nonce) {
    && n in s.sessions && s.sessions[n].pc.RemoveLock? && !s.sessions[n].failing && s.sessions[n].attempt == 1
    && s.sessions[n].existing.nonce == 0
  }

  /** D unlinks A's lock and publishes its own; then C unlinks D's by name. */
  lemma BothTakeOver(s: State) returns (t: State)
    requires Leads(NOTHING, s) && s.alive == {C, D} && Ready(s, 2) && Ready(s, 3)
    requires s.sessions[2].proc == C && s.sessions[3].proc == D
    requires Carrying(Entry(s, Mark(0)), s.sessions[2].markNonce) && s.sessions[2].markNonce != s.sessions[3].markNonce
    ensures Leads(NOTHING, t) && Holds(t, 2) && Holds(t, 3)
  {
    hide Entry, Leads, Look;
    t := TakesOver(NOTHING, s, 3);
    t := TakesOver(NOTHING, t, 2);
  }

  /** Exclusion fails: a reaper dies with its marker linked, and in the end two running sessions hold the lock. */
  lemma ReaperDeathBreaksExclusion() returns (s: State, run: seq<Action>, n: Nonce, m: Nonce)
    ensures Init(s) && IsRun(s, run) && n != m
    ensures Holds(After(s, run), n) && Holds(After(s, run), m)
    ensures !NoMisfire(s, run) && !NoReaperDies(s, run)
  {
    hide Entry, Look, IsRun, Holds, After;
    var t := TwoReapers();
    t := BothTakeOver(t);
    s, n, m := NOTHING, 2, 3;
    run :| IsRun(s, run) && After(s, run) == t;
    if NoMisfire(s, run) { MutualExclusion(s, run, n, m); }
    if NoReaperDies(s, run) { ExclusionWithoutReaperDeaths(s, run, n, m); }
  }
}
