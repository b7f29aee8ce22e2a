/**
 The state-directory lock as an interleaving of single filesystem steps.

 A lock generation is an inode, published by an atomic hard link. Inode numbers may be reused as
 soon as no name links to them, so `CompareLock` (the source's `sameFile`) is only sound because
 the contender's own observation link pins the inode it inspected.
 */
module StateLock {
  import opened Wrappers

  type Nonce = nat
  type Ino = nat

  /** What `/proc` says about one incarnation of a pid. */
  datatype ProcessIdentity = ProcessIdentity(bootId: nat, startTime: nat)

  /** One process incarnation. A pid may be reused, an incarnation never is. */
  datatype Proc = Proc(pid: nat, identity: ProcessIdentity)

  /** The JSON body of a lock or marker file. The identity is absent on platforms that have none. */
  datatype Owner = Owner(pid: nat, nonce: Nonce, identity: Option<ProcessIdentity>)

  datatype Content =
    | LockFile(owner: Owner)
    | MarkFile(owner: Owner, target: Nonce)

  datatype Name =
    | Lock
    | Mark(target: Nonce)
    | Pub(session: Nonce, attempt: nat)
    | Obs(session: Nonce, attempt: nat)
    | MarkPub(session: Nonce, target: Nonce, attempt: nat)
    | MarkObs(session: Nonce, target: Nonce, attempt: nat)

  /** The system call a session performs next. */
  datatype Pc =
    // publication of the lock
    | CreatePub | LinkLock | DropPub | SyncLock | CleanRead | CleanUnlink
    // the holder and its release closure
    | Holding | RelRead | RelUnlink | Done | Failed
    // observation of an incumbent generation
    | DropPubExists | LinkObs | ReadObs | Probe
    // the reaper marker
    | CreateMark | LinkMark | SyncMark | DropMarkPub
    | LinkMarkObs | ProbeMark | StatMark | CompareMark | RemoveMark | DropMarkObs
    // reclamation of the stale generation
    | StatLock | CompareLock | RemoveLock | RelMarkRead | RelMarkUnlink | DropObs

  datatype Stage = Publishing | Observing | Marking | Reclaiming | Idle

  function StageOf(pc: Pc): Stage {
    match pc
    case CreatePub | LinkLock | DropPub | SyncLock | CleanRead | CleanUnlink | RelRead | RelUnlink => Publishing
    case DropPubExists | LinkObs | ReadObs | Probe => Observing
    case CreateMark | LinkMark | SyncMark | DropMarkPub | LinkMarkObs
       | ProbeMark | StatMark | CompareMark | RemoveMark | DropMarkObs => Marking
    case StatLock | CompareLock | RemoveLock | RelMarkRead | RelMarkUnlink | DropObs => Reclaiming
    case Holding | Done | Failed => Idle
  }

  /** The local variables of one call of `acquireStateLock`, and then of its release closure. */
  datatype Session = Session(
    proc: Proc, attempt: nat, pc: Pc,
    existing: Owner, markNonce: Nonce, held: bool, failing: bool, stat: Option<Ino>)

  /** `minted[x]` is the session that generated nonce `x`; a session is named by its lock nonce. */
  datatype State = State(
    dir: map<Name, Ino>, data: map<Ino, Content>,
    sessions: map<Nonce, Session>, minted: map<Nonce, Nonce>,
    alive: set<Proc>, seen: set<Proc>)

  const MAX_ATTEMPTS := 8

  /** The answers the operating system gives to one step. */
  datatype Choice = Choice(
    ino: Ino, nonce: Nonce, withIdentity: bool, fault: bool,
    pidExists: bool, observed: Option<ProcessIdentity>)

  datatype Action =
    | Start(proc: Proc)
    | Die(proc: Proc)
    | Begin(proc: Proc, nonce: Nonce)
    | Release(session: Nonce)
    | Step(session: Nonce, choice: Choice)

  // ---------------------------------------------------------------- liveness

  /** `processStillOwnsLock`: stale only when the pid is gone or is provably another incarnation. */
  predicate StillOwns(owner: Owner, pidExists: bool, observed: Option<ProcessIdentity>) {
    if !pidExists then false
    else if owner.identity.None? then true
    else if observed.None? then true
    else observed.value == owner.identity.value
  }

  /** The kernel answers truthfully about the pid; reading its identity may fail. */
  ghost predicate Truthful(alive: set<Proc>, pid: nat, pidExists: bool, observed: Option<ProcessIdentity>) {
    && (pidExists <==> exists p :: p in alive && p.pid == pid)
    && (observed.Some? ==> Proc(pid, observed.value) in alive)
  }

  /** The body a process writes about itself. */
  ghost predicate WrittenBy(owner: Owner, proc: Proc) {
    && owner.pid == proc.pid
    && (owner.identity.None? || owner.identity.value == proc.identity)
  }

  /** At most one running incarnation per pid. */
  ghost predicate UniquePids(alive: set<Proc>) {
    forall p, q :: p in alive && q in alive && p.pid == q.pid ==> p == q
  }

  /** The liveness test never calls a running owner dead. */
  lemma LivenessNeverCondemnsARunningOwner(
      alive: set<Proc>, proc: Proc, owner: Owner, pidExists: bool, observed: Option<ProcessIdentity>)
    requires UniquePids(alive) && proc in alive
    requires WrittenBy(owner, proc) && Truthful(alive, owner.pid, pidExists, observed)
    ensures StillOwns(owner, pidExists, observed)
  {
    if observed.Some? {
      assert Proc(owner.pid, observed.value) == proc;
    }
  }

  // ---------------------------------------------------------------- steps

  /** What a directory name leads to. */
  datatype File = File(ino: Ino, content: Content)

  function Entry(s: State, name: Name): Option<File> {
    if name in s.dir && s.dir[name] in s.data then Some(File(s.dir[name], s.data[s.dir[name]])) else None
  }

  /** The names one session looks at in its current attempt. */
  datatype Sees = Sees(
    lock: Option<File>, pub: Option<File>, obs: Option<File>,
    mark: Option<File>, markPub: Option<File>, markObs: Option<File>)

  function Look(s: State, n: Nonce, t: Session): Sees {
    var target := t.existing.nonce;
    Sees(Entry(s, Lock), Entry(s, Pub(n, t.attempt)), Entry(s, Obs(n, t.attempt)), Entry(s, Mark(target)),
         Entry(s, MarkPub(n, target, t.attempt)), Entry(s, MarkObs(n, target, t.attempt)))
  }

  /** The effect of one system call on the directory. */
  datatype Fs =
    | NoFs
    | Unlink(name: Name)
    | Link(from: Name, to: Name)
    | Write(name: Name, ino: Ino, content: Content)

  function Do(s: State, fs: Fs): State {
    match fs
    case NoFs => s
    case Unlink(name) => s.(dir := s.dir - {name})
    case Link(from, to) => if from in s.dir then s.(dir := s.dir[to := s.dir[from]]) else s
    case Write(name, ino, content) => s.(dir := s.dir[name := ino], data := s.data[ino := content])
  }

  function BodyOf(proc: Proc, nonce: Nonce, withIdentity: bool): Owner {
    Owner(proc.pid, nonce, if withIdentity then Some(proc.identity) else None)
  }

  function FreshSession(p: Proc): Session {
    Session(p, 0, CreatePub, Owner(0, 0, None), 0, false, false, None)
  }

  /** `continue` in the retry loop. */
  function Retry(t: Session): Session {
    if t.attempt + 1 < MAX_ATTEMPTS
    then t.(pc := CreatePub, attempt := t.attempt + 1, held := false, stat := None)
    else t.(pc := Failed)
  }

  /** After `releaseReaperMarker`: the failing paths still drop the marker's publication file. */
  function AfterMark(t: Session): Session {
    if t.failing then t.(pc := DropMarkPub, held := false) else t.(pc := DropObs, held := false)
  }

  /** Does the file carry this nonce? `readLockOwner` and `readReaperOwner` on an authentic file. */
  predicate Carrying(file: Option<File>, nonce: Nonce) {
    file.Some? && file.value.content.owner.nonce == nonce
  }

  /** What the step needs from the system: files it must be able to read, fresh values, true answers. */
  ghost predicate StepEnabled(s: State, n: Nonce, c: Choice)
    requires n in s.sessions
  {
    var t := s.sessions[n];
    var v := Look(s, n, t);
    match t.pc
    case Holding => false
    case Done => false
    case Failed => false
    case CreatePub => c.ino !in s.dir.Values
    case LinkLock => v.pub.Some?
    case ReadObs => v.obs.Some?
    case Probe => Truthful(s.alive, t.existing.pid, c.pidExists, c.observed)
    case CreateMark => c.ino !in s.dir.Values && c.nonce !in s.minted
    case LinkMark => v.markPub.Some?
    case ProbeMark => v.markObs.Some? && Truthful(s.alive, v.markObs.value.content.owner.pid, c.pidExists, c.observed)
    case CompareMark => v.markObs.Some?
    case CompareLock => v.obs.Some?
    case _ => true
  }

  /** One system call of a session: its directory effect and the local variables afterwards. */
  function Turn(n: Nonce, t: Session, c: Choice, v: Sees): (Fs, Session) {
    match StageOf(t.pc)
    case Publishing => PublishTurn(n, t, c, v)
    case Observing => ObserveTurn(n, t, c, v)
    case Marking => MarkTurn(n, t, c, v)
    case Reclaiming => ReclaimTurn(n, t, c, v)
    case Idle => (NoFs, t)
  }

  function PublishTurn(n: Nonce, t: Session, c: Choice, v: Sees): (Fs, Session) {
    var pub := Pub(n, t.attempt);
    match t.pc
    case CreatePub =>
      if c.fault then (NoFs, t.(pc := Failed))
      else (Write(pub, c.ino, LockFile(BodyOf(t.proc, n, c.withIdentity))), t.(pc := LinkLock))
    case LinkLock =>
      if c.fault then (NoFs, t.(pc := Failed))
      else if v.lock.Some? then (NoFs, t.(pc := DropPubExists))
      else (Link(pub, Lock), t.(pc := DropPub))
    case DropPub =>
      if c.fault then (NoFs, t.(pc := CleanRead)) else (Unlink(pub), t.(pc := SyncLock))
    case SyncLock =>
      (NoFs, t.(pc := if c.fault then CleanRead else Holding))
    case CleanRead =>
      (NoFs, t.(pc := if !c.fault && Carrying(v.lock, n) then CleanUnlink else Failed))
    case CleanUnlink =>
      (if c.fault then NoFs else Unlink(Lock), t.(pc := Failed))
    case RelRead =>
      // An absent or unreadable lock makes the closure throw; a foreign nonce makes it return.
      (NoFs, t.(pc := if c.fault || v.lock.None? then Failed else if Carrying(v.lock, n) then RelUnlink else Done))
    case _ => // RelUnlink
      if c.fault then (NoFs, t.(pc := Failed)) else (Unlink(Lock), t.(pc := Done))
  }

  function ObserveTurn(n: Nonce, t: Session, c: Choice, v: Sees): (Fs, Session) {
    match t.pc
    case DropPubExists =>
      // The failure of this removal is ignored.
      (if c.fault then NoFs else Unlink(Pub(n, t.attempt)), t.(pc := LinkObs))
    case LinkObs =>
      if c.fault then (NoFs, t.(pc := Failed))
      else if v.lock.None? then (NoFs, Retry(t))
      else (Link(Lock, Obs(n, t.attempt)), t.(pc := ReadObs))
    case ReadObs =>
      (NoFs, if c.fault then t.(pc := DropObs, failing := true)
             else if v.obs.Some? then t.(pc := Probe, existing := v.obs.value.content.owner) else t)
    case _ => // Probe
      (NoFs, if StillOwns(t.existing, c.pidExists, c.observed) then t.(pc := DropObs, failing := true)
             else t.(pc := CreateMark))
  }

  function MarkTurn(n: Nonce, t: Session, c: Choice, v: Sees): (Fs, Session) {
    var target := t.existing.nonce;
    var mark := Mark(target);
    var pub := MarkPub(n, target, t.attempt);
    var obs := MarkObs(n, target, t.attempt);
    match t.pc
    case CreateMark =>
      if c.fault then (NoFs, t.(pc := DropObs, failing := true, markNonce := c.nonce))
      else (Write(pub, c.ino, MarkFile(BodyOf(t.proc, c.nonce, c.withIdentity), target)),
            t.(pc := LinkMark, markNonce := c.nonce))
    case LinkMark =>
      if c.fault then (NoFs, t.(pc := DropMarkPub, failing := true))
      else if v.mark.Some? then (NoFs, t.(pc := LinkMarkObs))
      else (Link(pub, mark), t.(pc := SyncMark, held := true))
    case SyncMark =>
      (NoFs, if c.fault then t.(pc := RelMarkRead, failing := true) else t.(pc := DropMarkPub))
    case DropMarkPub =>
      (if c.fault then NoFs else Unlink(pub), t.(pc := if t.held then StatLock else DropObs))
    case LinkMarkObs =>
      if c.fault then (NoFs, t.(pc := DropMarkPub, failing := true))
      else if v.mark.None? then (NoFs, t.(pc := DropMarkPub))
      else (Link(mark, obs), t.(pc := ProbeMark))
    case ProbeMark =>
      (NoFs, if !c.fault && v.markObs.Some? && !StillOwns(v.markObs.value.content.owner, c.pidExists, c.observed)
             then t.(pc := StatMark) else t.(pc := DropMarkObs, failing := true))
    case StatMark =>
      // `sameFile` throws when the marker has just disappeared, and nothing catches it.
      (NoFs, if c.fault || v.mark.None? then t.(pc := DropMarkObs, failing := true)
             else t.(pc := CompareMark, stat := Some(v.mark.value.ino)))
    case CompareMark =>
      (NoFs, if c.fault then t.(pc := DropMarkObs, failing := true)
             else t.(pc := if v.markObs.Some? && t.stat == Some(v.markObs.value.ino) then RemoveMark else DropMarkObs))
    case RemoveMark =>
      if c.fault || v.mark.None? then (NoFs, t.(pc := DropMarkObs, failing := true))
      else (Unlink(mark), t.(pc := DropMarkObs))
    case _ => // DropMarkObs, whose failure is ignored; a fault here is that of the directory sync before it
      (Unlink(obs), t.(pc := DropMarkPub, failing := t.failing || c.fault))
  }

  function ReclaimTurn(n: Nonce, t: Session, c: Choice, v: Sees): (Fs, Session) {
    var mark := Mark(t.existing.nonce);
    match t.pc
    case StatLock =>
      (NoFs, if c.fault then t.(pc := RelMarkRead, failing := true)
             else if v.lock.None? then t.(pc := RelMarkRead)
             else t.(pc := CompareLock, stat := Some(v.lock.value.ino)))
    case CompareLock =>
      (NoFs, if c.fault then t.(pc := RelMarkRead, failing := true)
             else t.(pc := if v.obs.Some? && t.stat == Some(v.obs.value.ino) then RemoveLock else RelMarkRead))
    case RemoveLock =>
      if c.fault then (NoFs, t.(pc := RelMarkRead, failing := true))
      else (Unlink(Lock), t.(pc := RelMarkRead))
    case RelMarkRead =>
      // `readReaperOwner` turns a missing marker into an error without a code, so it is rethrown.
      (NoFs, if c.fault || v.mark.None? then t.(pc := Failed)
             else if Carrying(v.mark, t.markNonce) then t.(pc := RelMarkUnlink)
             else AfterMark(t))
    case RelMarkUnlink =>
      if c.fault then (NoFs, t.(pc := Failed)) else (Unlink(mark), AfterMark(t))
    case _ => // DropObs
      (Unlink(Obs(n, t.attempt)), if t.failing || c.fault then t.(pc := Failed) else Retry(t))
  }

  ghost predicate Enabled(s: State, a: Action) {
    match a
    case Start(p) => p !in s.seen && forall q :: q in s.alive ==> q.pid != p.pid
    case Die(p) => p in s.alive
    case Begin(p, n) => p in s.alive && n !in s.minted
    case Release(n) => n in s.sessions && s.sessions[n].proc in s.alive && s.sessions[n].pc == Holding
    case Step(n, c) => n in s.sessions && s.sessions[n].proc in s.alive && StepEnabled(s, n, c)
  }

  function With(s: State, n: Nonce, t: Session): State {
    s.(sessions := s.sessions[n := t])
  }

  /** Creating a marker draws a fresh nonce. */
  function Mint(s: State, n: Nonce, c: Choice): State
    requires n in s.sessions
  {
    if s.sessions[n].pc.CreateMark? then s.(minted := s.minted[c.nonce := n]) else s
  }

  /** The system after an action that is enabled. */
  function Next(s: State, a: Action): State {
    match a
    case Start(p) => s.(alive := s.alive + {p}, seen := s.seen + {p})
    case Die(p) => s.(alive := s.alive - {p})
    case Begin(p, n) => With(s, n, FreshSession(p)).(minted := s.minted[n := n])
    case Release(n) => if n in s.sessions then With(s, n, s.sessions[n].(pc := RelRead)) else s
    case Step(n, c) =>
      if n !in s.sessions then s
      else
        var t := s.sessions[n];
        var (fs, t') := Turn(n, t, c, Look(s, n, t));
        With(Do(Mint(s, n, c), fs), n, t')
  }

  // ---------------------------------------------------------------- runs

  ghost predicate Init(s: State) {
    && s.dir == map[] && s.sessions == map[] && s.minted == map[]
    && s.alive == {} && s.seen == {}
  }

  ghost function After(s: State, run: seq<Action>): State
    decreases |run|
  {
    if run == [] then s else Next(After(s, run[..|run| - 1]), run[|run| - 1])
  }

  /** A run is a sequence of actions, each enabled where it happens. */
  ghost predicate IsRun(s: State, run: seq<Action>) {
    forall i :: 0 <= i < |run| ==> Enabled(After(s, run[..i]), run[i])
  }

  /**
   The one dangerous step: the branch that clears a dead reaper's marker unlinks the name, and the
   marker behind the name is no longer the one it inspected.
   */
  ghost predicate Misfire(s: State, a: Action) {
    && a.Step? && a.session in s.sessions
    && var t := s.sessions[a.session];
    && var v := Look(s, a.session, t);
    && t.pc.RemoveMark? && !a.choice.fault && v.mark.Some? && v.mark != v.markObs
  }

  /** No step of the run is a misfire. */
  ghost predicate NoMisfire(s: State, run: seq<Action>) {
    forall i :: 0 <= i < |run| ==> !Misfire(After(s, run[..i]), run[i])
  }

  /** No process dies while a marker it published is still linked. */
  ghost predicate NoReaperDies(s: State, run: seq<Action>) {
    forall i :: 0 <= i < |run| ==> !ReaperDeath(After(s, run[..i]), run[i])
  }

  ghost predicate ReaperDeath(s: State, a: Action) {
    a.Die? && exists target :: MarkedBy(s, target, a.proc)
  }

  /** The marker for `target` is linked and was written by `proc`. */
  ghost predicate MarkedBy(s: State, target: Nonce, proc: Proc) {
    Entry(s, Mark(target)).Some? && MintedBy(s, Entry(s, Mark(target)).value.content.owner.nonce, proc)
  }

  /** The process of the session that generated a nonce. */
  ghost predicate MintedBy(s: State, nonce: Nonce, proc: Proc) {
    nonce in s.minted && s.minted[nonce] in s.sessions && s.sessions[s.minted[nonce]].proc == proc
  }

  /** The session's process runs and the session believes it holds the lock. */
  ghost predicate Holds(s: State, n: Nonce) {
    n in s.sessions && s.sessions[n].proc in s.alive && s.sessions[n].pc == Holding
  }
}
