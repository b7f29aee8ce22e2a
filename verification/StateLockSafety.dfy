/** Mutual exclusion of the state-directory lock, over every interleaving. */
module StateLockSafety {
  import opened Wrappers
  import opened StateLock

  // ---------------------------------------------------------------- the invariant

  predicate OwnsLock(pc: Pc) {
    pc.DropPub? || pc.SyncLock? || pc.CleanUnlink? || pc.Holding? || pc.RelUnlink?
  }

  predicate HoldsMark(t: Session) {
    || t.pc.SyncMark? || t.pc.StatLock? || t.pc.CompareLock? || t.pc.RemoveLock? || t.pc.RelMarkRead? || t.pc.RelMarkUnlink?
    || (t.pc.DropMarkPub? && t.held)
  }

  predicate InMarkObs(pc: Pc) {
    pc.ProbeMark? || pc.StatMark? || pc.CompareMark? || pc.RemoveMark? || pc.DropMarkObs?
  }

  /** The session is past the probe that found the observed generation's owner dead. */
  predicate Reclaims(t: Session) {
    HoldsMark(t) || InMarkObs(t.pc) || t.pc.CreateMark? || t.pc.LinkMark? || t.pc.LinkMarkObs?
  }

  predicate HasObs(pc: Pc) {
    pc.ReadObs? || pc.Probe? || StageOf(pc) == Marking || StageOf(pc) == Reclaiming
  }

  predicate Typed(name: Name, content: Content) {
    match name
    case Lock => content.LockFile?
    case Mark(target) => content.MarkFile? && content.target == target
    case Pub(n, _) => content.LockFile? && content.owner.nonce == n
    case Obs(_, _) => content.LockFile?
    case MarkPub(_, target, _) => content.MarkFile? && content.target == target
    case MarkObs(_, target, _) => content.MarkFile? && content.target == target
  }

  ghost predicate MinterDead(s: State, nonce: Nonce) {
    nonce in s.minted && s.minted[nonce] in s.sessions && s.sessions[s.minted[nonce]].proc !in s.alive
  }

  /** Every body carries a minted nonce and describes the process that minted it. */
  ghost predicate Authentic(s: State, content: Content) {
    var n := content.owner.nonce;
    && n in s.minted && s.minted[n] in s.sessions
    && WrittenBy(content.owner, s.sessions[s.minted[n]].proc)
    && (content.LockFile? ==> s.minted[n] == n)
  }

  ghost predicate FilesOk(s: State) {
    forall name :: name in s.dir ==>
      s.dir[name] in s.data && Typed(name, s.data[s.dir[name]]) && Authentic(s, s.data[s.dir[name]])
  }

  /** The part of the system one session's safety depends on. */
  datatype View = View(sees: Sees, targetDead: bool, rivalDead: bool, markMine: bool)

  ghost function ViewOf(s: State, n: Nonce): View
    requires n in s.sessions
  {
    var t := s.sessions[n];
    var sees := Look(s, n, t);
    View(sees, MinterDead(s, t.existing.nonce),
         sees.markObs.Some? && MinterDead(s, sees.markObs.value.content.owner.nonce),
         t.markNonce in s.minted && s.minted[t.markNonce] == n)
  }

  /** What the local state of a running session guarantees about its view. */
  predicate Fits(n: Nonce, t: Session, v: View) {
    && (t.held ==> HoldsMark(t) || t.pc.DropMarkPub? || t.pc.Failed?)
    && (OwnsLock(t.pc) ==> Carrying(v.sees.lock, n))
    && (HasObs(t.pc) ==> v.sees.obs.Some?)
    && (HasObs(t.pc) && !t.pc.ReadObs? && !(t.pc.DropObs? && t.failing) ==> v.sees.obs.value.content.owner == t.existing)
    && (Reclaims(t) ==> v.targetDead)
    && (t.pc.LinkMark? ==> Carrying(v.sees.markPub, t.markNonce) && v.markMine)
    && (HoldsMark(t) ==> Carrying(v.sees.mark, t.markNonce) && v.markMine)
    && (InMarkObs(t.pc) ==> v.sees.markObs.Some?)
    && (t.pc.StatMark? || t.pc.CompareMark? || t.pc.RemoveMark? ==> v.rivalDead)
    && (t.pc.CompareLock? && t.stat == Some(v.sees.obs.value.ino) ==> v.sees.lock == v.sees.obs)
    && (t.pc.RemoveLock? ==> v.sees.lock == v.sees.obs)
  }

  ghost predicate SessionOk(s: State, n: Nonce) {
    n in s.sessions && Fits(n, s.sessions[n], ViewOf(s, n))
  }

  /** What holds of processes, nonces and files whatever the sessions are doing. */
  ghost predicate Grounded(s: State) {
    && s.alive <= s.seen
    && UniquePids(s.alive)
    && (forall n :: n in s.sessions ==> n in s.minted && s.minted[n] == n && s.sessions[n].proc in s.seen)
    && (forall x :: x in s.minted ==> s.minted[x] in s.sessions)
    && FilesOk(s)
  }

  ghost predicate Inv(s: State) {
    && Grounded(s)
    && (forall n :: n in s.sessions && s.sessions[n].proc in s.alive ==> SessionOk(s, n))
  }

  // ---------------------------------------------------------------- preservation

  /** `Fits` looks at the lock only in some states, at the marker only in others. */
  lemma FitsAgain(m: Nonce, t: Session, v: View, v': View)
    requires Fits(m, t, v)
    requires v'.sees.obs == v.sees.obs && v'.sees.markPub == v.sees.markPub && v'.sees.markObs == v.sees.markObs
    requires v.targetDead ==> v'.targetDead
    requires v.rivalDead ==> v'.rivalDead
    requires v.markMine ==> v'.markMine
    requires v'.sees.lock == v.sees.lock || (!OwnsLock(t.pc) && !t.pc.RemoveLock? &&
             !(t.pc.CompareLock? && t.stat == Some(v.sees.obs.value.ino)))
    requires v'.sees.mark == v.sees.mark || !HoldsMark(t)
    ensures Fits(m, t, v')
  {
  }

  /** A session that is not touched, in a system where no file changed. */
  lemma SameFilesKept(s: State, s': State, m: Nonce)
    requires SessionOk(s, m) && m in s'.sessions && s'.sessions[m] == s.sessions[m]
    requires s'.dir == s.dir && s'.data == s.data
    requires forall x :: MinterDead(s, x) ==> MinterDead(s', x)
    requires forall x :: x in s.minted ==> x in s'.minted && s'.minted[x] == s.minted[x]
    ensures SessionOk(s', m)
  {
    FitsAgain(m, s.sessions[m], ViewOf(s, m), ViewOf(s', m));
  }

  /** Deaths and starts: the directory and the sessions stay, nobody dead comes back. */
  lemma ProcessTableKeepsInv(s: State, a: Action)
    requires Inv(s) && Enabled(s, a) && (a.Start? || a.Die?)
    ensures Inv(Next(s, a))
  {
    var s' := Next(s, a);
    assert FilesOk(s');
    forall m | m in s'.sessions && s'.sessions[m].proc in s'.alive
      ensures SessionOk(s', m)
    {
      assert SessionOk(s, m);
      SameFilesKept(s, s', m);
    }
  }

  lemma BeginKeepsGround(s: State, p: Proc, n: Nonce)
    requires Grounded(s) && Enabled(s, Begin(p, n))
    ensures Grounded(Next(s, Begin(p, n)))
  {
    var s' := Next(s, Begin(p, n));
    hide UniquePids;
    forall name | name in s'.dir
      ensures Authentic(s', s'.data[s'.dir[name]])
    {
      assert Authentic(s, s.data[s.dir[name]]);
    }
  }

  lemma BeginKeepsInv(s: State, p: Proc, n: Nonce)
    requires Inv(s) && Enabled(s, Begin(p, n))
    ensures Inv(Next(s, Begin(p, n)))
  {
    var s' := Next(s, Begin(p, n));
    BeginKeepsGround(s, p, n);
    assert forall x :: MinterDead(s, x) ==> MinterDead(s', x);
    FreshFits(s', n, p);
    hide Grounded, Fits, ViewOf;
    forall m | m in s'.sessions && s'.sessions[m].proc in s'.alive
      ensures SessionOk(s', m)
    {
      if m != n { SameFilesKept(s, s', m); }
    }
  }

  lemma FreshFits(s: State, n: Nonce, p: Proc)
    requires n in s.sessions && s.sessions[n] == FreshSession(p)
    ensures SessionOk(s, n)
  {
    hide Entry, MinterDead;
  }

  /** Names of one session's private files. */
  predicate PrivateTo(name: Name, n: Nonce) {
    match name
    case Lock => false
    case Mark(_) => false
    case Pub(m, _) => m == n
    case Obs(m, _) => m == n
    case MarkPub(m, _, _) => m == n
    case MarkObs(m, _, _) => m == n
  }

  /** A step leaves the process table alone, touches one session and at most one shared name. */
  ghost predicate Touches(s: State, s': State, n: Nonce, shared: Name) {
    && n in s.sessions && s'.sessions.Keys == s.sessions.Keys
    && (forall m :: m in s.sessions && m != n ==> s'.sessions[m] == s.sessions[m])
    && s'.sessions[n].proc == s.sessions[n].proc
    && s'.alive == s.alive && s'.seen == s.seen
    && (forall x :: x in s.minted ==> x in s'.minted && s'.minted[x] == s.minted[x])
    && (forall x :: x in s'.minted && x !in s.minted ==> s'.minted[x] == n)
    && (forall name :: name != shared && !PrivateTo(name, n) ==> Entry(s', name) == Entry(s, name))
  }

  /** Does a running session rely on a shared name? */
  ghost predicate ReliesOn(s: State, m: Nonce, shared: Name)
    requires m in s.sessions
  {
    var t := s.sessions[m];
    var obs := Entry(s, Obs(m, t.attempt));
    match shared
    case Lock => OwnsLock(t.pc) || t.pc.RemoveLock? || (t.pc.CompareLock? && obs.Some? && t.stat == Some(obs.value.ino))
    case Mark(target) => HoldsMark(t) && t.existing.nonce == target
    case _ => false
  }

  lemma OtherSessionKept(s: State, s': State, n: Nonce, m: Nonce, shared: Name)
    requires Inv(s) && Touches(s, s', n, shared)
    requires shared.Lock? || shared.Mark?
    requires m in s.sessions && m != n && s.sessions[m].proc in s.alive
    requires ReliesOn(s, m, shared) ==> Entry(s', shared) == Entry(s, shared)
    ensures SessionOk(s', m)
  {
    hide FilesOk, Entry;
    assert SessionOk(s, m);
    var t := s.sessions[m];
    var v, v' := ViewOf(s, m), ViewOf(s', m);
    assert v'.sees.obs == v.sees.obs && v'.sees.markPub == v.sees.markPub && v'.sees.markObs == v.sees.markObs;
    assert v.targetDead ==> v'.targetDead;
    assert v.rivalDead ==> v'.rivalDead;
    assert v.markMine ==> v'.markMine;
    assert shared != Lock ==> v'.sees.lock == v.sees.lock;
    assert shared != Mark(t.existing.nonce) ==> v'.sees.mark == v.sees.mark;
    FitsAgain(m, t, v, v');
  }

  lemma StepKeepsInv(s: State, s': State, n: Nonce, shared: Name)
    requires Inv(s) && FilesOk(s') && Touches(s, s', n, shared)
    requires shared.Lock? || shared.Mark?
    requires forall m :: m in s.sessions && m != n && s.sessions[m].proc in s.alive && ReliesOn(s, m, shared)
                         ==> Entry(s', shared) == Entry(s, shared)
    requires SessionOk(s', n)
    ensures Inv(s')
  {
    hide FilesOk, Fits, ViewOf, Entry;
    forall m | m in s'.sessions && s'.sessions[m].proc in s'.alive
      ensures SessionOk(s', m)
    {
      if m != n { OtherSessionKept(s, s', n, m, shared); }
    }
  }

  // ---------------------------------------------------------------- directory operations

  /** What a name leads to after one directory operation. */
  function EntryAfter(s: State, fs: Fs, name: Name): Option<File> {
    match fs
    case NoFs => Entry(s, name)
    case Unlink(gone) => if name == gone then None else Entry(s, name)
    case Link(from, to) => if name == to && from in s.dir then Entry(s, from) else Entry(s, name)
    case Write(to, ino, content) => if name == to then Some(File(ino, content)) else Entry(s, name)
  }

  ghost predicate FsOk(s: State, fs: Fs) {
    match fs
    case NoFs => true
    case Unlink(_) => true
    case Link(from, to) => from in s.dir && s.dir[from] in s.data && Typed(to, s.data[s.dir[from]])
    case Write(name, ino, content) => ino !in s.dir.Values && Typed(name, content) && Authentic(s, content)
  }

  /** Writing on an unlinked inode number leaves every linked file as it was. */
  lemma FsEffect(s: State, fs: Fs)
    requires FilesOk(s) && FsOk(s, fs)
    ensures FilesOk(Do(s, fs))
    ensures forall name :: Entry(Do(s, fs), name) == EntryAfter(s, fs, name)
  {
  }

  // ---------------------------------------------------------------- steps of a session

  /** Drawing a nonce changes no file and no session. */
  lemma MintKeepsInv(s: State, n: Nonce, c: Choice)
    requires Inv(s) && n in s.sessions && (s.sessions[n].pc.CreateMark? ==> c.nonce !in s.minted)
    ensures Inv(Mint(s, n, c))
  {
    var s' := Mint(s, n, c);
    forall name | name in s.dir
      ensures Authentic(s', s.data[s.dir[name]])
    {
      assert Authentic(s, s.data[s.dir[name]]);
    }
    forall m | m in s'.sessions && s'.sessions[m].proc in s'.alive
      ensures SessionOk(s', m)
    {
      SameFilesKept(s, s', m);
    }
  }

  lemma WithKeepsFiles(s: State, n: Nonce, t: Session)
    requires FilesOk(s) && n in s.sessions && t.proc == s.sessions[n].proc
    ensures FilesOk(With(s, n, t))
  {
    forall name | name in s.dir
      ensures Authentic(With(s, n, t), s.data[s.dir[name]])
    {
      assert Authentic(s, s.data[s.dir[name]]);
    }
  }

  /** The directory operations of a session reach its own files and one shared name. */
  predicate Within(fs: Fs, n: Nonce, shared: Name) {
    match fs
    case NoFs => true
    case Unlink(name) => name == shared || PrivateTo(name, n)
    case Link(_, to) => to == shared || PrivateTo(to, n)
    case Write(name, _, _) => PrivateTo(name, n)
  }

  /** If the operation changes the shared name, no other running session relies on that name. */
  ghost predicate Unrelied(s: State, n: Nonce, fs: Fs, shared: Name) {
    EntryAfter(s, fs, shared) == Entry(s, shared) ||
    forall m :: m in s.sessions && m != n && s.sessions[m].proc in s.alive ==> !ReliesOn(s, m, shared)
  }

  /** What a session sees of its names after a directory operation. */
  function LookAfter(s: State, fs: Fs, n: Nonce, t: Session): Sees {
    var target := t.existing.nonce;
    Sees(EntryAfter(s, fs, Lock), EntryAfter(s, fs, Pub(n, t.attempt)), EntryAfter(s, fs, Obs(n, t.attempt)),
         EntryAfter(s, fs, Mark(target)),
         EntryAfter(s, fs, MarkPub(n, target, t.attempt)), EntryAfter(s, fs, MarkObs(n, target, t.attempt)))
  }

  ghost function ViewAfter(s: State, fs: Fs, n: Nonce, t: Session): View {
    var sees := LookAfter(s, fs, n, t);
    View(sees, MinterDead(s, t.existing.nonce),
         sees.markObs.Some? && MinterDead(s, sees.markObs.value.content.owner.nonce),
         t.markNonce in s.minted && s.minted[t.markNonce] == n)
  }

  /** One step of a session, given what its system call did and its local variables afterwards. */
  lemma StepEntries(s: State, n: Nonce, fs: Fs, t: Session)
    requires FilesOk(s) && n in s.sessions && t.proc == s.sessions[n].proc && FsOk(s, fs)
    ensures var s' := With(Do(s, fs), n, t);
            && FilesOk(s')
            && (forall name :: Entry(s', name) == EntryAfter(s, fs, name))
            && (forall x :: MinterDead(s, x) <==> MinterDead(s', x))
            && ViewOf(s', n) == ViewAfter(s, fs, n, t)
  {
    hide FilesOk, Authentic;
    var s' := With(Do(s, fs), n, t);
    FsEffect(s, fs);
    assert n in Do(s, fs).sessions;
    WithKeepsFiles(Do(s, fs), n, t);
    assert forall name :: Entry(s', name) == Entry(Do(s, fs), name);
    assert Look(s', n, t) == LookAfter(s, fs, n, t);
  }

  lemma EffectTouches(s: State, n: Nonce, fs: Fs, t: Session, shared: Name)
    requires Inv(s) && n in s.sessions && t.proc == s.sessions[n].proc
    requires FsOk(s, fs) && Within(fs, n, shared)
    ensures Touches(s, With(Do(s, fs), n, t), n, shared)
  {
    hide FilesOk, ViewOf, Entry, Authentic, Typed, LookAfter, WrittenBy, UniquePids;
    StepEntries(s, n, fs, t);
    assert forall name :: name != shared && !PrivateTo(name, n) ==> EntryAfter(s, fs, name) == Entry(s, name);
  }

  lemma EffectKeepsInv(s: State, n: Nonce, fs: Fs, t: Session, shared: Name)
    requires Inv(s) && n in s.sessions && s.sessions[n].proc in s.alive && t.proc == s.sessions[n].proc
    requires shared.Lock? || shared.Mark?
    requires FsOk(s, fs) && Within(fs, n, shared) && Unrelied(s, n, fs, shared)
    requires Fits(n, t, ViewAfter(s, fs, n, t))
    ensures Inv(With(Do(s, fs), n, t))
  {
    StepEntries(s, n, fs, t);
    EffectTouches(s, n, fs, t, shared);
    StepKeepsInv(s, With(Do(s, fs), n, t), n, shared);
  }

  /** The shared name a session's next system call may change. */
  function SharedName(t: Session): Name {
    if StageOf(t.pc) == Marking || t.pc.RelMarkUnlink? then Mark(t.existing.nonce) else Lock
  }

  /** An owner that the liveness test calls stale has died. */
  lemma CondemnedIsDead(s: State, name: Name, c: Choice)
    requires UniquePids(s.alive) && FilesOk(s) && Entry(s, name).Some?
    requires Truthful(s.alive, Entry(s, name).value.content.owner.pid, c.pidExists, c.observed)
    requires !StillOwns(Entry(s, name).value.content.owner, c.pidExists, c.observed)
    ensures MinterDead(s, Entry(s, name).value.content.owner.nonce)
  {
    var owner := Entry(s, name).value.content.owner;
    assert Authentic(s, Entry(s, name).value.content);
    var writer := s.sessions[s.minted[owner.nonce]].proc;
    if writer in s.alive {
      LivenessNeverCondemnsARunningOwner(s.alive, writer, owner, c.pidExists, c.observed);
    }
  }

  /** What a session saw under a name. */
  function Seen(v: Sees, n: Nonce, t: Session, name: Name): Option<File> {
    match name
    case Lock => v.lock
    case Pub(_, _) => v.pub
    case Obs(_, _) => v.obs
    case Mark(_) => v.mark
    case MarkPub(_, _, _) => v.markPub
    case MarkObs(_, _, _) => v.markObs
  }

  predicate Current(n: Nonce, t: Session, name: Name) {
    var target := t.existing.nonce;
    match name
    case Lock => true
    case Pub(m, k) => m == n && k == t.attempt
    case Obs(m, k) => m == n && k == t.attempt
    case Mark(x) => x == target
    case MarkPub(m, x, k) => m == n && x == target && k == t.attempt
    case MarkObs(m, x, k) => m == n && x == target && k == t.attempt
  }

  function Written(name: Name, v: Sees, file: Option<File>): Sees {
    match name
    case Lock => v.(lock := file)
    case Pub(_, _) => v.(pub := file)
    case Obs(_, _) => v.(obs := file)
    case Mark(_) => v.(mark := file)
    case MarkPub(_, _, _) => v.(markPub := file)
    case MarkObs(_, _, _) => v.(markObs := file)
  }

  /** The effect of a directory operation on the names a session looks at. */
  function SeesAfter(v: Sees, fs: Fs, n: Nonce, t: Session): Sees {
    match fs
    case NoFs => v
    case Unlink(name) => Written(name, v, None)
    case Link(from, to) => Written(to, v, Seen(v, n, t, from))
    case Write(name, ino, content) => Written(name, v, Some(File(ino, content)))
  }

  predicate CurrentFs(n: Nonce, t: Session, fs: Fs) {
    match fs
    case NoFs => true
    case Unlink(name) => Current(n, t, name)
    case Link(from, to) => Current(n, t, from) && Current(n, t, to)
    case Write(name, _, _) => Current(n, t, name)
  }

  lemma LookAfterIsSeesAfter(s: State, fs: Fs, n: Nonce, t: Session, t': Session)
    requires FilesOk(s) && FsOk(s, fs) && CurrentFs(n, t, fs)
    ensures t'.existing == t.existing && t'.attempt == t.attempt ==>
              LookAfter(s, fs, n, t') == SeesAfter(Look(s, n, t), fs, n, t)
    ensures fs.NoFs? && t'.attempt == t.attempt ==> LookAfter(s, fs, n, t').obs == Look(s, n, t).obs
  {
    hide FilesOk, Entry, Authentic;
  }

  /** A link is made from a file that is there, a body describes its writer. */
  predicate FsSound(n: Nonce, t: Session, c: Choice, v: Sees, fs: Fs) {
    match fs
    case NoFs => true
    case Unlink(_) => true
    case Link(from, to) => Seen(v, n, t, from).Some? && Typed(to, Seen(v, n, t, from).value.content)
    case Write(name, ino, content) =>
      ino == c.ino && Typed(name, content) &&
      content.owner == BodyOf(t.proc, if content.LockFile? then n else c.nonce, c.withIdentity) &&
      (content.MarkFile? ==> t.pc.CreateMark?)
  }

  /** The files a session sees have the kind their names promise. */
  predicate SeesTyped(n: Nonce, t: Session, v: Sees) {
    var target := t.existing.nonce;
    && (v.lock.Some? ==> Typed(Lock, v.lock.value.content))
    && (v.pub.Some? ==> Typed(Pub(n, t.attempt), v.pub.value.content))
    && (v.obs.Some? ==> Typed(Obs(n, t.attempt), v.obs.value.content))
    && (v.mark.Some? ==> Typed(Mark(target), v.mark.value.content))
    && (v.markPub.Some? ==> Typed(MarkPub(n, target, t.attempt), v.markPub.value.content))
    && (v.markObs.Some? ==> Typed(MarkObs(n, target, t.attempt), v.markObs.value.content))
    && (v.lock.Some? && v.obs.Some? && v.lock.value.ino == v.obs.value.ino ==> v.lock == v.obs)
  }

  predicate Condemned(file: Option<File>, c: Choice) {
    file.Some? && !StillOwns(file.value.content.owner, c.pidExists, c.observed)
  }

  /** `v` is what the session sees before its step and `w` what it sees afterwards. */
  predicate StepsTo(n: Nonce, t: Session, c: Choice, v: View, fs: Fs, t': Session, w: View) {
    && (t'.existing == t.existing && t'.attempt == t.attempt ==> w.sees == SeesAfter(v.sees, fs, n, t))
    && (t.pc.ReadObs? ==> w.sees.obs == v.sees.obs)
    && (v.targetDead && t'.existing == t.existing ==> w.targetDead)
    && (v.rivalDead && t'.existing == t.existing && w.sees.markObs == v.sees.markObs ==> w.rivalDead)
    && (v.markMine && t'.markNonce == t.markNonce ==> w.markMine)
    && (t.pc.CreateMark? ==> w.markMine)
    && (t.pc.Probe? && !StillOwns(t.existing, c.pidExists, c.observed) ==> w.targetDead)
    && (t.pc.ProbeMark? && Condemned(v.sees.markObs, c) ==> w.rivalDead)
    && (t.pc.LinkLock? ==> v.sees.pub.Some?)
    && (t.pc.ReadObs? ==> v.sees.obs.Some?)
    && (t.pc.LinkMark? ==> v.sees.markPub.Some?)
  }

  /** A step reaches its own files and at most one shared name. */
  lemma TurnWithin(n: Nonce, t: Session, c: Choice, v: Sees)
    requires StageOf(t.pc) != Idle
    ensures Within(Turn(n, t, c, v).0, n, SharedName(t))
  {
  }

  lemma AcquireTurnFits(n: Nonce, t: Session, c: Choice, v: View, fs: Fs, t': Session, w: View)
    requires Fits(n, t, v) && SeesTyped(n, t, v.sees) && PublishTurn(n, t, c, v.sees) == (fs, t') && StepsTo(n, t, c, v, fs, t', w)
    requires t.pc.CreatePub? || t.pc.LinkLock?
    ensures Fits(n, t', w)
  {
  }

  lemma EnterTurnFits(n: Nonce, t: Session, c: Choice, v: View, fs: Fs, t': Session, w: View)
    requires Fits(n, t, v) && SeesTyped(n, t, v.sees) && PublishTurn(n, t, c, v.sees) == (fs, t') && StepsTo(n, t, c, v, fs, t', w)
    requires t.pc.DropPub? || t.pc.SyncLock?
    ensures Fits(n, t', w)
  {
  }

  lemma ReleaseTurnFits(n: Nonce, t: Session, c: Choice, v: View, fs: Fs, t': Session, w: View)
    requires Fits(n, t, v) && SeesTyped(n, t, v.sees) && PublishTurn(n, t, c, v.sees) == (fs, t') && StepsTo(n, t, c, v, fs, t', w)
    requires t.pc.RelRead? || t.pc.RelUnlink?
    ensures Fits(n, t', w)
  {
  }

  lemma CleanTurnFits(n: Nonce, t: Session, c: Choice, v: View, fs: Fs, t': Session, w: View)
    requires Fits(n, t, v) && SeesTyped(n, t, v.sees) && PublishTurn(n, t, c, v.sees) == (fs, t') && StepsTo(n, t, c, v, fs, t', w)
    requires t.pc.CleanRead? || t.pc.CleanUnlink?
    ensures Fits(n, t', w)
  {
  }

  lemma PublishTurnFits(n: Nonce, t: Session, c: Choice, v: View, fs: Fs, t': Session, w: View)
    requires Fits(n, t, v) && SeesTyped(n, t, v.sees) && PublishTurn(n, t, c, v.sees) == (fs, t') && StepsTo(n, t, c, v, fs, t', w)
    requires StageOf(t.pc) == Publishing
    ensures Fits(n, t', w)
  {
    hide PublishTurn, Fits, StepsTo, SeesTyped;
    match t.pc
    case CreatePub | LinkLock => AcquireTurnFits(n, t, c, v, fs, t', w);
    case DropPub | SyncLock => EnterTurnFits(n, t, c, v, fs, t', w);
    case CleanRead | CleanUnlink => CleanTurnFits(n, t, c, v, fs, t', w);
    case RelRead | RelUnlink => ReleaseTurnFits(n, t, c, v, fs, t', w);
  }

  lemma ObserveTurnFits(n: Nonce, t: Session, c: Choice, v: View, fs: Fs, t': Session, w: View)
    requires Fits(n, t, v) && SeesTyped(n, t, v.sees) && ObserveTurn(n, t, c, v.sees) == (fs, t') && StepsTo(n, t, c, v, fs, t', w)
    requires StageOf(t.pc) == Observing
    ensures Fits(n, t', w)
  {
    hide ObserveTurn, Fits, StepsTo, SeesTyped;
    match t.pc
    case DropPubExists | LinkObs => LinkObsTurnFits(n, t, c, v, fs, t', w);
    case ReadObs | Probe => ReadObsTurnFits(n, t, c, v, fs, t', w);
  }

  lemma LinkObsTurnFits(n: Nonce, t: Session, c: Choice, v: View, fs: Fs, t': Session, w: View)
    requires Fits(n, t, v) && SeesTyped(n, t, v.sees) && ObserveTurn(n, t, c, v.sees) == (fs, t') && StepsTo(n, t, c, v, fs, t', w)
    requires t.pc.DropPubExists? || t.pc.LinkObs?
    ensures Fits(n, t', w)
  {
  }

  lemma ReadObsTurnFits(n: Nonce, t: Session, c: Choice, v: View, fs: Fs, t': Session, w: View)
    requires Fits(n, t, v) && SeesTyped(n, t, v.sees) && ObserveTurn(n, t, c, v.sees) == (fs, t') && StepsTo(n, t, c, v, fs, t', w)
    requires t.pc.ReadObs? || t.pc.Probe?
    ensures Fits(n, t', w)
  {
  }

  lemma LinkMarkTurnFits(n: Nonce, t: Session, c: Choice, v: View, fs: Fs, t': Session, w: View)
    requires Fits(n, t, v) && SeesTyped(n, t, v.sees) && MarkTurn(n, t, c, v.sees) == (fs, t') && StepsTo(n, t, c, v, fs, t', w)
    requires t.pc.CreateMark? || t.pc.LinkMark?
    ensures Fits(n, t', w)
  {
  }

  lemma SyncMarkTurnFits(n: Nonce, t: Session, c: Choice, v: View, fs: Fs, t': Session, w: View)
    requires Fits(n, t, v) && SeesTyped(n, t, v.sees) && MarkTurn(n, t, c, v.sees) == (fs, t') && StepsTo(n, t, c, v, fs, t', w)
    requires t.pc.SyncMark? || t.pc.DropMarkPub?
    ensures Fits(n, t', w)
  {
  }

  lemma InspectMarkTurnFits(n: Nonce, t: Session, c: Choice, v: View, fs: Fs, t': Session, w: View)
    requires Fits(n, t, v) && SeesTyped(n, t, v.sees) && MarkTurn(n, t, c, v.sees) == (fs, t') && StepsTo(n, t, c, v, fs, t', w)
    requires t.pc.LinkMarkObs? || t.pc.ProbeMark? || t.pc.StatMark?
    ensures Fits(n, t', w)
  {
  }

  lemma ClearMarkTurnFits(n: Nonce, t: Session, c: Choice, v: View, fs: Fs, t': Session, w: View)
    requires Fits(n, t, v) && SeesTyped(n, t, v.sees) && MarkTurn(n, t, c, v.sees) == (fs, t') && StepsTo(n, t, c, v, fs, t', w)
    requires t.pc.CompareMark? || t.pc.RemoveMark? || t.pc.DropMarkObs?
    ensures Fits(n, t', w)
  {
  }

  lemma MarkTurnFits(n: Nonce, t: Session, c: Choice, v: View, fs: Fs, t': Session, w: View)
    requires Fits(n, t, v) && SeesTyped(n, t, v.sees) && MarkTurn(n, t, c, v.sees) == (fs, t') && StepsTo(n, t, c, v, fs, t', w)
    requires StageOf(t.pc) == Marking
    ensures Fits(n, t', w)
  {
    hide MarkTurn, Fits, StepsTo, SeesTyped;
    match t.pc
    case CreateMark | LinkMark => LinkMarkTurnFits(n, t, c, v, fs, t', w);
    case SyncMark | DropMarkPub => SyncMarkTurnFits(n, t, c, v, fs, t', w);
    case LinkMarkObs | ProbeMark | StatMark => InspectMarkTurnFits(n, t, c, v, fs, t', w);
    case CompareMark | RemoveMark | DropMarkObs => ClearMarkTurnFits(n, t, c, v, fs, t', w);
  }

  lemma RemoveLockTurnFits(n: Nonce, t: Session, c: Choice, v: View, fs: Fs, t': Session, w: View)
    requires Fits(n, t, v) && SeesTyped(n, t, v.sees) && ReclaimTurn(n, t, c, v.sees) == (fs, t') && StepsTo(n, t, c, v, fs, t', w)
    requires t.pc.StatLock? || t.pc.CompareLock? || t.pc.RemoveLock?
    ensures Fits(n, t', w)
  {
  }

  lemma LetGoTurnFits(n: Nonce, t: Session, c: Choice, v: View, fs: Fs, t': Session, w: View)
    requires Fits(n, t, v) && SeesTyped(n, t, v.sees) && ReclaimTurn(n, t, c, v.sees) == (fs, t') && StepsTo(n, t, c, v, fs, t', w)
    requires t.pc.RelMarkRead? || t.pc.RelMarkUnlink?
    ensures Fits(n, t', w)
  {
  }

  lemma RetryTurnFits(n: Nonce, t: Session, c: Choice, v: View, fs: Fs, t': Session, w: View)
    requires Fits(n, t, v) && SeesTyped(n, t, v.sees) && ReclaimTurn(n, t, c, v.sees) == (fs, t') && StepsTo(n, t, c, v, fs, t', w)
    requires t.pc.DropObs?
    ensures Fits(n, t', w)
  {
  }

  lemma ReclaimTurnFits(n: Nonce, t: Session, c: Choice, v: View, fs: Fs, t': Session, w: View)
    requires Fits(n, t, v) && SeesTyped(n, t, v.sees) && ReclaimTurn(n, t, c, v.sees) == (fs, t') && StepsTo(n, t, c, v, fs, t', w)
    requires StageOf(t.pc) == Reclaiming
    ensures Fits(n, t', w)
  {
    hide ReclaimTurn, Fits, StepsTo, SeesTyped;
    if t.pc.StatLock? || t.pc.CompareLock? || t.pc.RemoveLock? {
      RemoveLockTurnFits(n, t, c, v, fs, t', w);
    } else if t.pc.DropObs? {
      RetryTurnFits(n, t, c, v, fs, t', w);
    } else {
      LetGoTurnFits(n, t, c, v, fs, t', w);
    }
  }

  // ---------------------------------------------------------------- nobody pulls the rug

  /** Two running sessions never hold the marker of one generation. */
  lemma OneMarkHolder(s: State, n: Nonce, m: Nonce)
    requires Inv(s) && n in s.sessions && m in s.sessions
    requires s.sessions[n].proc in s.alive && s.sessions[m].proc in s.alive
    requires HoldsMark(s.sessions[n]) && HoldsMark(s.sessions[m])
    requires s.sessions[n].existing.nonce == s.sessions[m].existing.nonce
    ensures n == m
  {
    assert SessionOk(s, n) && SessionOk(s, m);
  }

  /** While the lock is absent, or carries the nonce of a running session, no other session relies on it. */
  lemma NobodyElseReliesOnLock(s: State, n: Nonce)
    requires Inv(s) && n in s.sessions && s.sessions[n].proc in s.alive
    requires Entry(s, Lock).None? || Carrying(Entry(s, Lock), n)
    ensures forall m :: m in s.sessions && m != n && s.sessions[m].proc in s.alive ==> !ReliesOn(s, m, Lock)
  {
    hide FilesOk, Entry;
    forall m | m in s.sessions && m != n && s.sessions[m].proc in s.alive
      ensures !ReliesOn(s, m, Lock)
    {
      assert SessionOk(s, m);
    }
  }

  /** A session about to remove a generation and one that relies on it cannot both run. */
  lemma StaleLockHasOneRemover(s: State, n: Nonce, m: Nonce)
    requires SessionOk(s, n) && SessionOk(s, m)
    requires s.sessions[n].pc.RemoveLock? && ReliesOn(s, m, Lock)
    ensures MinterDead(s, m) || (HoldsMark(s.sessions[m]) && s.sessions[m].existing == s.sessions[n].existing)
  {
    if OwnsLock(s.sessions[m].pc) {
      assert Carrying(Entry(s, Lock), m);
    }
  }

  lemma NobodyElseReliesOnStaleLock(s: State, n: Nonce)
    requires Inv(s) && n in s.sessions && s.sessions[n].proc in s.alive && s.sessions[n].pc.RemoveLock?
    ensures forall m :: m in s.sessions && m != n && s.sessions[m].proc in s.alive ==> !ReliesOn(s, m, Lock)
  {
    forall m | m in s.sessions && m != n && s.sessions[m].proc in s.alive
      ensures !ReliesOn(s, m, Lock)
    {
      if ReliesOn(s, m, Lock) {
        StaleLockHasOneRemover(s, n, m);
        assert s.minted[m] == m;
        OneMarkHolder(s, n, m);
      }
    }
  }

  lemma NobodyElseReliesOnMark(s: State, n: Nonce, target: Nonce)
    requires Inv(s) && n in s.sessions && s.sessions[n].proc in s.alive
    requires Entry(s, Mark(target)).None? || MinterDead(s, Entry(s, Mark(target)).value.content.owner.nonce)
             || (HoldsMark(s.sessions[n]) && s.sessions[n].existing.nonce == target)
    ensures forall m :: m in s.sessions && m != n && s.sessions[m].proc in s.alive ==> !ReliesOn(s, m, Mark(target))
  {
    forall m | m in s.sessions && m != n && s.sessions[m].proc in s.alive
      ensures !ReliesOn(s, m, Mark(target))
    {
      assert SessionOk(s, m);
      if ReliesOn(s, m, Mark(target)) && HoldsMark(s.sessions[n]) && s.sessions[n].existing.nonce == target {
        OneMarkHolder(s, n, m);
      }
    }
  }

  lemma LockUnrelied(s: State, n: Nonce, c: Choice)
    requires Inv(s) && n in s.sessions && s.sessions[n].proc in s.alive
    requires StageOf(s.sessions[n].pc) != Marking && !s.sessions[n].pc.RelMarkUnlink?
    ensures Unrelied(s, n, Turn(n, s.sessions[n], c, Look(s, n, s.sessions[n])).0, Lock)
  {
    hide FilesOk, Entry, MinterDead, Authentic, ReliesOn;
    var t := s.sessions[n];
    assert SessionOk(s, n);
    if t.pc.RemoveLock? {
      NobodyElseReliesOnStaleLock(s, n);
    } else if (t.pc.LinkLock? && Entry(s, Lock).None?) || t.pc.CleanUnlink? || t.pc.RelUnlink? {
      NobodyElseReliesOnLock(s, n);
    }
  }

  lemma MarkUnrelied(s: State, n: Nonce, c: Choice)
    requires Inv(s) && n in s.sessions && s.sessions[n].proc in s.alive
    requires StageOf(s.sessions[n].pc) == Marking || s.sessions[n].pc.RelMarkUnlink?
    requires !Misfire(s, Step(n, c))
    ensures Unrelied(s, n, Turn(n, s.sessions[n], c, Look(s, n, s.sessions[n])).0, Mark(s.sessions[n].existing.nonce))
  {
    hide FilesOk, ObserveTurn, Entry, MinterDead, Authentic;
    var t := s.sessions[n];
    var target := t.existing.nonce;
    assert SessionOk(s, n);
    if (t.pc.LinkMark? && Entry(s, Mark(target)).None?) || t.pc.RelMarkUnlink? {
      NobodyElseReliesOnMark(s, n, target);
    } else if t.pc.RemoveMark? && !c.fault && Entry(s, Mark(target)).Some? {
      NobodyElseReliesOnMark(s, n, target);
    }
  }

  // ---------------------------------------------------------------- every action, every run

  lemma LookIsTyped(s: State, n: Nonce, t: Session)
    requires FilesOk(s)
    ensures SeesTyped(n, t, Look(s, n, t))
  {
  }

  lemma ProbeFindsTheDead(s: State, n: Nonce, c: Choice)
    requires UniquePids(s.alive) && FilesOk(s) && SessionOk(s, n)
    requires StepEnabled(s, n, c) && s.sessions[n].pc.Probe?
    requires !StillOwns(s.sessions[n].existing, c.pidExists, c.observed)
    ensures MinterDead(s, s.sessions[n].existing.nonce)
  {
    CondemnedIsDead(s, Obs(n, s.sessions[n].attempt), c);
  }

  lemma MarkProbeFindsTheDead(s: State, n: Nonce, c: Choice)
    requires UniquePids(s.alive) && FilesOk(s) && SessionOk(s, n)
    requires StepEnabled(s, n, c) && s.sessions[n].pc.ProbeMark?
    requires Condemned(Look(s, n, s.sessions[n]).markObs, c)
    ensures MinterDead(s, Look(s, n, s.sessions[n]).markObs.value.content.owner.nonce)
  {
    var t := s.sessions[n];
    CondemnedIsDead(s, MarkObs(n, t.existing.nonce, t.attempt), c);
  }

  lemma TurnFitsByStage(n: Nonce, t: Session, c: Choice, v: View, fs: Fs, t': Session, w: View)
    requires Fits(n, t, v) && SeesTyped(n, t, v.sees) && Turn(n, t, c, v.sees) == (fs, t') && StepsTo(n, t, c, v, fs, t', w)
    requires StageOf(t.pc) != Idle
    ensures Fits(n, t', w)
  {
    match StageOf(t.pc)
    case Publishing => PublishTurnFits(n, t, c, v, fs, t', w);
    case Observing => ObserveTurnFits(n, t, c, v, fs, t', w);
    case Marking => MarkTurnFits(n, t, c, v, fs, t', w);
    case Reclaiming => ReclaimTurnFits(n, t, c, v, fs, t', w);
  }

  /** What a probe concludes about its two subjects. */
  ghost predicate ProbesSound(s: State, n: Nonce, c: Choice)
    requires n in s.sessions
  {
    var t := s.sessions[n];
    var v := Look(s, n, t);
    && (t.pc.LinkLock? ==> v.pub.Some?)
    && (t.pc.ReadObs? ==> v.obs.Some?)
    && (t.pc.LinkMark? ==> v.markPub.Some?)
    && (t.pc.CreateMark? ==> c.nonce in s.minted && s.minted[c.nonce] == n)
    && (t.pc.Probe? && !StillOwns(t.existing, c.pidExists, c.observed) ==> MinterDead(s, t.existing.nonce))
    && (t.pc.ProbeMark? && Condemned(v.markObs, c) ==> MinterDead(s, v.markObs.value.content.owner.nonce))
  }

  lemma EnabledProbesSound(s: State, n: Nonce, c: Choice)
    requires Inv(s) && Enabled(s, Step(n, c))
    ensures ProbesSound(Mint(s, n, c), n, c)
  {
    var t := s.sessions[n];
    assert SessionOk(s, n);
    assert Look(Mint(s, n, c), n, t) == Look(s, n, t);
    if t.pc.Probe? && !StillOwns(t.existing, c.pidExists, c.observed) { ProbeFindsTheDead(s, n, c); }
    if t.pc.ProbeMark? && Condemned(Look(s, n, t).markObs, c) { MarkProbeFindsTheDead(s, n, c); }
  }

  /** The step of one session as a move between two views. */
  lemma StepMovesView(s: State, n: Nonce, c: Choice, fs: Fs, t': Session)
    requires FilesOk(s) && n in s.sessions && ProbesSound(s, n, c)
    requires FsOk(s, fs) && CurrentFs(n, s.sessions[n], fs)
    requires s.sessions[n].pc.CreateMark? ==> t'.markNonce == c.nonce
    requires s.sessions[n].pc.ReadObs? ==> fs.NoFs? && t'.attempt == s.sessions[n].attempt
    requires s.sessions[n].pc.Probe? ==> t'.existing == s.sessions[n].existing
    requires s.sessions[n].pc.ProbeMark? ==>
               fs.NoFs? && t'.existing == s.sessions[n].existing && t'.attempt == s.sessions[n].attempt
    ensures StepsTo(n, s.sessions[n], c, ViewOf(s, n), fs, t', ViewAfter(s, fs, n, t'))
  {
    LookAfterIsSeesAfter(s, fs, n, s.sessions[n], t');
  }

  /** Where each step of the code reaches, before anything is known about the files. */
  lemma TurnShape(n: Nonce, t: Session, c: Choice, v: Sees)
    requires StageOf(t.pc) != Idle
    ensures var (fs, t') := Turn(n, t, c, v);
            && t'.proc == t.proc
            && CurrentFs(n, t, fs)
            && (t.pc.CreateMark? ==> t'.markNonce == c.nonce)
            && (t.pc.ReadObs? ==> fs.NoFs? && t'.attempt == t.attempt)
            && (t.pc.Probe? ==> t'.existing == t.existing)
            && (t.pc.ProbeMark? ==> fs.NoFs? && t'.existing == t.existing && t'.attempt == t.attempt)
  {
  }

  /** A sound operation on the session's own names is a legal directory operation. */
  lemma SoundIsOk(s: State, n: Nonce, c: Choice, fs: Fs)
    requires FilesOk(s) && n in s.sessions && n in s.minted && s.minted[n] == n
    requires fs.Write? ==> c.ino !in s.dir.Values
    requires s.sessions[n].pc.CreateMark? ==> c.nonce in s.minted && s.minted[c.nonce] == n
    requires CurrentFs(n, s.sessions[n], fs)
    requires FsSound(n, s.sessions[n], c, Look(s, n, s.sessions[n]), fs)
    ensures FsOk(s, fs)
  {
  }

  lemma TurnSound(n: Nonce, t: Session, c: Choice, v: Sees)
    requires SeesTyped(n, t, v) && StageOf(t.pc) != Idle
    requires t.pc.LinkLock? ==> v.pub.Some?
    requires t.pc.LinkMark? ==> v.markPub.Some?
    ensures FsSound(n, t, c, v, Turn(n, t, c, v).0)
    ensures Turn(n, t, c, v).0.Write? ==> t.pc.CreatePub? || t.pc.CreateMark?
  {
  }

  lemma MintKeepsGround(s: State, n: Nonce, c: Choice)
    requires Grounded(s) && n in s.sessions && (s.sessions[n].pc.CreateMark? ==> c.nonce !in s.minted)
    ensures Grounded(Mint(s, n, c))
  {
    var s' := Mint(s, n, c);
    hide UniquePids;
    forall name | name in s.dir
      ensures Authentic(s', s.data[s.dir[name]])
    {
      assert Authentic(s, s.data[s.dir[name]]);
    }
  }

  /** The directory operation of any enabled step is legal. */
  lemma StepIsLegal(s: State, n: Nonce, c: Choice)
    requires Grounded(s) && Enabled(s, Step(n, c))
    ensures var t, m := s.sessions[n], Mint(s, n, c);
            var (fs, t') := Turn(n, t, c, Look(s, n, t));
            && Grounded(m) && FsOk(m, fs) && CurrentFs(n, t, fs) && t'.proc == t.proc && Look(m, n, t) == Look(s, n, t)
  {
    hide Authentic, UniquePids, Truthful, Typed;
    var m := Mint(s, n, c);
    var t := s.sessions[n];
    MintKeepsGround(s, n, c);
    assert Look(m, n, t) == Look(s, n, t);
    LookIsTyped(m, n, t);
    TurnShape(n, t, c, Look(m, n, t));
    TurnSound(n, t, c, Look(m, n, t));
    hide Turn, FilesOk, SeesTyped, FsSound;
    SoundIsOk(m, n, c, Turn(n, t, c, Look(s, n, t)).0);
  }

  /** After its step, the session's local state again guarantees what it should about its view. */
  lemma SteppedFits(s: State, n: Nonce, c: Choice)
    requires Inv(s) && Enabled(s, Step(n, c))
    ensures var t, m := s.sessions[n], Mint(s, n, c);
            var (fs, t') := Turn(n, t, c, Look(s, n, t));
            Inv(m) && Fits(n, t', ViewAfter(m, fs, n, t')) && Within(fs, n, SharedName(t))
  {
    assert Grounded(s);
    hide FilesOk, Fits, SeesTyped, EntryAfter, MinterDead, Inv, PublishTurn, MarkTurn, ReclaimTurn, HoldsMark, UniquePids, Authentic, Typed;
    var m := Mint(s, n, c);
    var t := s.sessions[n];
    var (fs, t') := Turn(n, t, c, Look(s, n, t));
    MintKeepsInv(s, n, c);
    StepIsLegal(s, n, c);
    EnabledProbesSound(s, n, c);
    LookIsTyped(m, n, t);
    TurnShape(n, t, c, Look(m, n, t));
    TurnWithin(n, t, c, Look(m, n, t));
    StepMovesView(m, n, c, fs, t');
    assert SessionOk(m, n);
    TurnFitsByStage(n, t, c, ViewOf(m, n), fs, t', ViewAfter(m, fs, n, t'));
  }

  lemma SessionStepKeepsInv(s: State, n: Nonce, c: Choice)
    requires Inv(s) && Enabled(s, Step(n, c)) && !Misfire(s, Step(n, c))
    ensures Inv(Next(s, Step(n, c)))
  {
    SteppedFits(s, n, c);
    StepIsLegal(s, n, c);
    var m, t := Mint(s, n, c), s.sessions[n];
    assert !Misfire(m, Step(n, c));
    hide Fits, Inv, Turn, Look, ViewAfter, FsOk, Within, Grounded, StepEnabled, Misfire;
    TurnUnrelied(m, n, c);
    var (fs, t') := Turn(n, t, c, Look(s, n, t));
    EffectKeepsInv(m, n, fs, t', SharedName(t));
  }

  lemma MintChangesNoFile(s: State, n: Nonce, c: Choice, fs: Fs)
    requires n in s.sessions && (s.sessions[n].pc.CreateMark? ==> c.nonce !in s.minted)
    ensures forall name :: EntryAfter(Mint(s, n, c), fs, name) == EntryAfter(s, fs, name)
    ensures forall x :: x in s.minted ==> (MinterDead(s, x) <==> MinterDead(Mint(s, n, c), x))
  {
  }

  /** What every name leads to after one directory operation of a session. */
  lemma EffectChangesEntries(s: State, n: Nonce, c: Choice, fs: Fs, t: Session)
    requires n in s.sessions && FilesOk(Mint(s, n, c)) && t.proc == s.sessions[n].proc
    requires s.sessions[n].pc.CreateMark? ==> c.nonce !in s.minted
    requires FsOk(Mint(s, n, c), fs)
    ensures var s' := With(Do(Mint(s, n, c), fs), n, t);
            && (forall name :: Entry(s', name) == EntryAfter(s, fs, name))
            && (forall x :: x in s.minted ==> (MinterDead(s, x) <==> MinterDead(s', x)))
  {
    StepEntries(Mint(s, n, c), n, fs, t);
    MintChangesNoFile(s, n, c, fs);
  }

  lemma StepChangesEntries(s: State, n: Nonce, c: Choice)
    requires Inv(s) && Enabled(s, Step(n, c))
    ensures var fs := Turn(n, s.sessions[n], c, Look(s, n, s.sessions[n])).0;
            && (forall name :: Entry(Next(s, Step(n, c)), name) == EntryAfter(s, fs, name))
            && (forall x :: x in s.minted ==> (MinterDead(s, x) <==> MinterDead(Next(s, Step(n, c)), x)))
            && CurrentFs(n, s.sessions[n], fs)
  {
    hide FilesOk, Fits, Turn, EntryAfter, MinterDead, Authentic, ViewOf;
    var (fs, t') := Turn(n, s.sessions[n], c, Look(s, n, s.sessions[n]));
    StepIsLegal(s, n, c);
    hide Grounded;
    EffectChangesEntries(s, n, c, fs, t');
  }

  lemma TurnUnrelied(s: State, n: Nonce, c: Choice)
    requires Inv(s) && n in s.sessions && s.sessions[n].proc in s.alive && !Misfire(s, Step(n, c))
    ensures Unrelied(s, n, Turn(n, s.sessions[n], c, Look(s, n, s.sessions[n])).0, SharedName(s.sessions[n]))
  {
    if SharedName(s.sessions[n]).Lock? { LockUnrelied(s, n, c); } else { MarkUnrelied(s, n, c); }
  }

  // ---------------------------------------------------------------- what even a misfire keeps

  /** Every step of a session, even one that misfires, writes and links only authentic files under their own names. */
  lemma StepKeepsGround(s: State, n: Nonce, c: Choice)
    requires Grounded(s) && Enabled(s, Step(n, c))
    ensures Grounded(Next(s, Step(n, c)))
    ensures forall name :: Entry(Next(s, Step(n, c)), name) ==
              EntryAfter(s, Turn(n, s.sessions[n], c, Look(s, n, s.sessions[n])).0, name)
  {
    StepIsLegal(s, n, c);
    hide FilesOk, Turn, EntryAfter, UniquePids, FsOk, StepEnabled, CurrentFs, MinterDead, ViewOf, ViewAfter;
    var m := Mint(s, n, c);
    var (fs, t') := Turn(n, s.sessions[n], c, Look(s, n, s.sessions[n]));
    MintChangesNoFile(s, n, c, fs);
    StepEntries(m, n, fs, t');
    EffectKeepsProcesses(m, n, fs, t');
  }

  lemma EffectKeepsProcesses(s: State, n: Nonce, fs: Fs, t: Session)
    requires Grounded(s) && n in s.sessions && t.proc == s.sessions[n].proc && FilesOk(With(Do(s, fs), n, t))
    ensures Grounded(With(Do(s, fs), n, t))
  {
    hide FilesOk, UniquePids;
  }

  /** Whatever happens, processes, nonces and files stay in order. */
  lemma ActionKeepsGround(s: State, a: Action)
    requires Grounded(s) && Enabled(s, a)
    ensures Grounded(Next(s, a))
  {
    match a
    case Begin(p, n) => BeginKeepsGround(s, p, n);
    case Step(n, c) => StepKeepsGround(s, n, c);
    case _ =>
      forall name | name in s.dir
        ensures Authentic(Next(s, a), s.data[s.dir[name]])
      {
        assert Authentic(s, s.data[s.dir[name]]);
      }
  }
}
