/** A lone contender recovers the lock from whatever crashed processes left behind. */
module StateLockRecovery {
  import opened Wrappers
  import opened StateLock
  import opened StateLockSafety
  import opened StateLockTheorems

  /** The files that matter to a contender whose incumbent generation is `x`. */
  datatype Scene = Scene(
    lock: Option<File>, mark: Option<File>, pub: Option<File>, obs: Option<File>, markObs: Option<File>)

  function SceneOf(s: State, n: Nonce, t: Session, x: Nonce): Scene {
    Scene(Entry(s, Lock), Entry(s, Mark(x)), Entry(s, Pub(n, t.attempt)), Entry(s, Obs(n, t.attempt)),
          Entry(s, MarkObs(n, x, t.attempt)))
  }

  /** How many times the retry loop still has to go around. */
  function Retries(t: Session, v: Scene): nat {
    match t.pc
    case DropPub | SyncLock | Holding => 0
    case RelMarkRead | RelMarkUnlink | SyncMark | StatLock | CompareLock | RemoveLock => 1
    case DropMarkPub => if t.held then 1 else 2
    case DropObs => if v.lock.None? then 1 else 2
    case LinkMarkObs | ProbeMark | StatMark | CompareMark | RemoveMark | DropMarkObs => 2
    case _ => if v.lock.None? then 0 else if v.mark.None? then 1 else 2
  }

  /** The session has read the incumbent generation, and the lock is still that generation. */
  predicate HasRead(t: Session, v: Scene, x: Nonce) {
    Carrying(v.lock, x) && v.obs == v.lock && t.existing == v.lock.value.content.owner
  }

  /** Where a contender that meets no fault and no rival can be. */
  predicate OnTrack(n: Nonce, t: Session, v: Scene, x: Nonce) {
    && n != x && !t.failing && t.attempt + Retries(t, v) <= 2
    && (t.held ==> HoldsMark(t))
    && match t.pc
       case CreatePub => v.lock.None? || Carrying(v.lock, x)
       case LinkLock => (v.lock.None? || Carrying(v.lock, x)) && v.pub.Some?
       case DropPub | SyncLock | Holding => true
       case DropPubExists | LinkObs => Carrying(v.lock, x)
       case ReadObs => Carrying(v.lock, x) && v.obs == v.lock
       case Probe | CreateMark | LinkMark => HasRead(t, v, x)
       case SyncMark => HasRead(t, v, x) && v.mark.Some? && t.held
       case StatLock | RemoveLock => HasRead(t, v, x) && v.mark.Some?
       case CompareLock => HasRead(t, v, x) && v.mark.Some? && t.stat == Some(v.lock.value.ino)
       case RelMarkRead | RelMarkUnlink => t.existing.nonce == x && v.lock.None? && v.mark.Some?
       case DropObs => (v.lock.None? || Carrying(v.lock, x)) && v.mark.None?
       case LinkMarkObs => HasRead(t, v, x) && v.mark.Some?
       case ProbeMark | StatMark | RemoveMark => HasRead(t, v, x) && v.mark.Some? && v.markObs == v.mark
       case CompareMark => HasRead(t, v, x) && v.mark.Some? && v.markObs == v.mark && t.stat == Some(v.mark.value.ino)
       case DropMarkObs => HasRead(t, v, x) && v.mark.None?
       case DropMarkPub => HasRead(t, v, x) && (t.held <==> v.mark.Some?)
       case _ => false
  }

  /** The owner cannot be mistaken for this process: another pid, or the same pid with its identity on record. */
  predicate Recognizable(owner: Owner, proc: Proc) {
    owner.pid != proc.pid || owner.identity.Some?
  }

  /** A file some other session wrote, about an owner that can be told apart from `n`'s process. */
  ghost predicate Stranger(s: State, n: Nonce, file: File)
    requires n in s.sessions
  {
    var owner := file.content.owner;
    && owner.nonce in s.minted && s.minted[owner.nonce] != n
    && Recognizable(owner, s.sessions[n].proc)
  }

  /** Only the contender's process runs, and it runs no other session. */
  ghost predicate Alone(s: State, n: Nonce) {
    && n in s.sessions && s.alive == {s.sessions[n].proc}
    && forall m :: m in s.sessions && m != n ==> s.sessions[m].proc != s.sessions[n].proc
  }

  ghost predicate Solo(s: State, n: Nonce, x: Nonce) {
    && Inv(s) && Alone(s, n)
    && OnTrack(n, s.sessions[n], SceneOf(s, n, s.sessions[n], x), x)
    && (Carrying(Entry(s, Lock), x) ==> Stranger(s, n, Entry(s, Lock).value))
    && (Entry(s, Mark(x)).Some? && !HoldsMark(s.sessions[n]) ==> Stranger(s, n, Entry(s, Mark(x)).value))
  }

  /** No call fails, and the identity of a running pid can be read. */
  predicate Clean(c: Choice) {
    !c.fault && (c.pidExists ==> c.observed.Some?)
  }

  /** On truthful answers, a dead stranger is taken for a running owner exactly when it is not recognizable. */
  lemma StrangerIsStale(s: State, n: Nonce, owner: Owner, c: Choice)
    requires Alone(s, n) && Clean(c) && Truthful(s.alive, owner.pid, c.pidExists, c.observed)
    requires owner.nonce in s.minted && s.minted[owner.nonce] in s.sessions && s.minted[owner.nonce] != n
    requires WrittenBy(owner, s.sessions[s.minted[owner.nonce]].proc)
    ensures StillOwns(owner, c.pidExists, c.observed) <==> !Recognizable(owner, s.sessions[n].proc)
  {
    var p := s.sessions[n].proc;
    if owner.pid == p.pid {
      assert p in s.alive;
      assert c.observed == Some(p.identity);
    }
  }

  /** The order of the calls within one turn of the loop. */
  function Order(pc: Pc): nat
    ensures Order(pc) < 32
  {
    match pc
    case CreatePub => 28 case LinkLock => 27 case DropPub => 26 case SyncLock => 25
    case DropPubExists => 24 case LinkObs => 23 case ReadObs => 22 case Probe => 21
    case CreateMark => 20 case LinkMark => 19 case SyncMark => 18 case LinkMarkObs => 17 case ProbeMark => 16
    case StatMark => 15 case CompareMark => 14 case RemoveMark => 13 case DropMarkObs => 12 case DropMarkPub => 11
    case StatLock => 10 case CompareLock => 9 case RemoveLock => 8 case RelMarkRead => 7 case RelMarkUnlink => 6
    case DropObs => 5
    case _ => 0
  }

  function Rank(t: Session): int {
    32 * (2 - t.attempt) + Order(t.pc)
  }

  /** The scene after a step, as far as the step's own attempt goes. */
  predicate SceneMoves(s: State, fs: Fs, n: Nonce, t: Session, v: Scene, x: Nonce) {
    && v.lock == EntryAfter(s, fs, Lock) && v.mark == EntryAfter(s, fs, Mark(x))
    && v.pub == EntryAfter(s, fs, Pub(n, t.attempt)) && v.obs == EntryAfter(s, fs, Obs(n, t.attempt))
    && v.markObs == EntryAfter(s, fs, MarkObs(n, x, t.attempt))
  }

  predicate Advances(n: Nonce, t: Session, t': Session, v': Scene, x: Nonce) {
    OnTrack(n, t', v', x) && Rank(t') < Rank(t)
  }

  lemma PublishAdvances(s: State, n: Nonce, t: Session, c: Choice, v: Sees, fs: Fs, t': Session, v': Scene, x: Nonce)
    requires v == Look(s, n, t) && PublishTurn(n, t, c, v) == (fs, t') && SceneMoves(s, fs, n, t', v', x)
    requires OnTrack(n, t, SceneOf(s, n, t, x), x) && StageOf(t.pc) == Publishing && !c.fault
    ensures Advances(n, t, t', v', x)
  {
  }

  lemma ObserveAdvances(s: State, n: Nonce, t: Session, c: Choice, v: Sees, fs: Fs, t': Session, v': Scene, x: Nonce)
    requires v == Look(s, n, t) && ObserveTurn(n, t, c, v) == (fs, t') && SceneMoves(s, fs, n, t', v', x)
    requires OnTrack(n, t, SceneOf(s, n, t, x), x) && !c.fault && (t.pc.DropPubExists? || t.pc.LinkObs?)
    ensures Advances(n, t, t', v', x)
  {
  }

  lemma ReadAdvances(s: State, n: Nonce, t: Session, c: Choice, v: Sees, fs: Fs, t': Session, v': Scene, x: Nonce)
    requires v == Look(s, n, t) && ObserveTurn(n, t, c, v) == (fs, t') && SceneMoves(s, fs, n, t', v', x)
    requires OnTrack(n, t, SceneOf(s, n, t, x), x) && !c.fault && (t.pc.ReadObs? || t.pc.Probe?)
    requires t.pc.Probe? ==> !StillOwns(t.existing, c.pidExists, c.observed)
    ensures Advances(n, t, t', v', x)
  {
  }

  lemma PublishMarkAdvances(s: State, n: Nonce, t: Session, c: Choice, v: Sees, fs: Fs, t': Session, v': Scene, x: Nonce)
    requires v == Look(s, n, t) && MarkTurn(n, t, c, v) == (fs, t') && SceneMoves(s, fs, n, t', v', x)
    requires OnTrack(n, t, SceneOf(s, n, t, x), x) && !c.fault && (t.pc.CreateMark? || t.pc.LinkMark?)
    requires t.pc.LinkMark? ==> v.markPub.Some?
    ensures Advances(n, t, t', v', x)
  {
  }

  lemma KeepMarkAdvances(s: State, n: Nonce, t: Session, c: Choice, v: Sees, fs: Fs, t': Session, v': Scene, x: Nonce)
    requires v == Look(s, n, t) && MarkTurn(n, t, c, v) == (fs, t') && SceneMoves(s, fs, n, t', v', x)
    requires OnTrack(n, t, SceneOf(s, n, t, x), x) && !c.fault && (t.pc.SyncMark? || t.pc.DropMarkPub?)
    ensures Advances(n, t, t', v', x)
  {
  }

  lemma InspectMarkAdvances(s: State, n: Nonce, t: Session, c: Choice, v: Sees, fs: Fs, t': Session, v': Scene, x: Nonce)
    requires v == Look(s, n, t) && MarkTurn(n, t, c, v) == (fs, t') && SceneMoves(s, fs, n, t', v', x)
    requires OnTrack(n, t, SceneOf(s, n, t, x), x) && !c.fault && (t.pc.LinkMarkObs? || t.pc.ProbeMark? || t.pc.StatMark?)
    requires t.pc.ProbeMark? ==> !StillOwns(v.mark.value.content.owner, c.pidExists, c.observed)
    ensures Advances(n, t, t', v', x)
  {
  }

  lemma ClearMarkAdvances(s: State, n: Nonce, t: Session, c: Choice, v: Sees, fs: Fs, t': Session, v': Scene, x: Nonce)
    requires v == Look(s, n, t) && MarkTurn(n, t, c, v) == (fs, t') && SceneMoves(s, fs, n, t', v', x)
    requires OnTrack(n, t, SceneOf(s, n, t, x), x) && !c.fault && (t.pc.CompareMark? || t.pc.RemoveMark? || t.pc.DropMarkObs?)
    ensures Advances(n, t, t', v', x)
  {
  }

  lemma ReclaimAdvances(s: State, n: Nonce, t: Session, c: Choice, v: Sees, fs: Fs, t': Session, v': Scene, x: Nonce)
    requires v == Look(s, n, t) && ReclaimTurn(n, t, c, v) == (fs, t') && SceneMoves(s, fs, n, t', v', x)
    requires OnTrack(n, t, SceneOf(s, n, t, x), x) && StageOf(t.pc) == Reclaiming && !c.fault
    requires t.pc.RelMarkRead? ==> Carrying(v.mark, t.markNonce)
    ensures Advances(n, t, t', v', x)
  {
    hide Entry;
  }

  /** What the contender's step needs to know about the world. */
  ghost predicate Prepared(n: Nonce, t: Session, c: Choice, v: Sees) {
    && !c.fault
    && (t.pc.Probe? ==> !StillOwns(t.existing, c.pidExists, c.observed))
    && (t.pc.LinkMark? ==> v.markPub.Some?)
    && (t.pc.ProbeMark? && v.mark.Some? ==> !StillOwns(v.mark.value.content.owner, c.pidExists, c.observed))
    && (t.pc.RelMarkRead? ==> Carrying(v.mark, t.markNonce))
  }

  lemma TurnAdvances(s: State, n: Nonce, t: Session, c: Choice, v: Sees, fs: Fs, t': Session, v': Scene, x: Nonce)
    requires v == Look(s, n, t) && Turn(n, t, c, v) == (fs, t') && SceneMoves(s, fs, n, t', v', x)
    requires OnTrack(n, t, SceneOf(s, n, t, x), x) && StageOf(t.pc) != Idle && Prepared(n, t, c, v)
    ensures Advances(n, t, t', v', x)
  {
    hide PublishTurn, ObserveTurn, MarkTurn, ReclaimTurn, Advances, SceneMoves, Entry;
    match StageOf(t.pc)
    case Publishing => PublishAdvances(s, n, t, c, v, fs, t', v', x);
    case Observing =>
      if t.pc.ReadObs? || t.pc.Probe? {
        ReadAdvances(s, n, t, c, v, fs, t', v', x);
      } else {
        ObserveAdvances(s, n, t, c, v, fs, t', v', x);
      }
    case Marking => {
      match t.pc
      case CreateMark | LinkMark => PublishMarkAdvances(s, n, t, c, v, fs, t', v', x);
      case SyncMark | DropMarkPub => KeepMarkAdvances(s, n, t, c, v, fs, t', v', x);
      case LinkMarkObs | ProbeMark | StatMark => InspectMarkAdvances(s, n, t, c, v, fs, t', v', x);
      case _ => ClearMarkAdvances(s, n, t, c, v, fs, t', v', x);
    }
    case Reclaiming => ReclaimAdvances(s, n, t, c, v, fs, t', v', x);
  }

  lemma ReadOwnerIsStranger(s: State, n: Nonce, x: Nonce)
    requires Solo(s, n, x) && HasRead(s.sessions[n], SceneOf(s, n, s.sessions[n], x), x)
    ensures var owner := s.sessions[n].existing;
            && owner.nonce in s.minted && s.minted[owner.nonce] in s.sessions && s.minted[owner.nonce] != n
            && WrittenBy(owner, s.sessions[s.minted[owner.nonce]].proc)
            && Recognizable(owner, s.sessions[n].proc)
  {
    hide Fits, ViewOf, OnTrack;
    assert Authentic(s, Entry(s, Lock).value.content);
  }

  lemma SoloIsPrepared(s: State, n: Nonce, x: Nonce, c: Choice)
    requires Solo(s, n, x) && Enabled(s, Step(n, c)) && Clean(c)
    ensures Prepared(n, s.sessions[n], c, Look(s, n, s.sessions[n]))
  {
    var t := s.sessions[n];
    SoloFits(s, n, x);
    SoloProbes(s, n, x, c);
    hide OnTrack, Inv, Fits, Truthful, StillOwns, Stranger, Alone;
  }

  lemma SoloFits(s: State, n: Nonce, x: Nonce)
    requires Solo(s, n, x)
    ensures Fits(n, s.sessions[n], ViewOf(s, n))
    ensures s.sessions[n].pc.RelMarkRead? ==> Carrying(Look(s, n, s.sessions[n]).mark, s.sessions[n].markNonce)
  {
    hide OnTrack, Stranger;
    assert SessionOk(s, n);
  }

  lemma SoloProbes(s: State, n: Nonce, x: Nonce, c: Choice)
    requires Solo(s, n, x) && Enabled(s, Step(n, c)) && Clean(c)
    ensures var t, v := s.sessions[n], Look(s, n, s.sessions[n]);
            && (t.pc.Probe? ==> !StillOwns(t.existing, c.pidExists, c.observed))
            && (t.pc.ProbeMark? && v.mark.Some? ==> !StillOwns(v.mark.value.content.owner, c.pidExists, c.observed))
  {
    hide Fits, ViewOf, UniquePids;
    var t := s.sessions[n];
    if t.pc.Probe? {
      ReadOwnerIsStranger(s, n, x);
      StrangerIsStale(s, n, t.existing, c);
    }
    if t.pc.ProbeMark? {
      assert Authentic(s, Entry(s, Mark(x)).value.content);
      StrangerIsStale(s, n, Entry(s, Mark(x)).value.content.owner, c);
    }
  }

  /** What the steps of a session may publish under the two shared names. */
  predicate Publishes(n: Nonce, t: Session, fs: Fs, t': Session) {
    match fs
    case NoFs => true
    case Unlink(_) => true
    case Link(from, to) => (to.Lock? ==> from.Pub? && from.session == n) && (to.Mark? ==> HoldsMark(t'))
    case Write(name, _, _) => !name.Lock? && !name.Mark?
  }

  lemma TurnPublishes(n: Nonce, t: Session, c: Choice, v: Sees)
    requires StageOf(t.pc) != Idle
    ensures var (fs, t') := Turn(n, t, c, v); Publishes(n, t, fs, t')
  {
  }

  lemma MarkLetGo(n: Nonce, t: Session, c: Choice, v: Sees)
    requires HoldsMark(t) && !t.failing && !c.fault && (t.pc.SyncMark? ==> t.held)
    ensures var t' := Turn(n, t, c, v).1;
            HoldsMark(t') || t'.pc.DropObs? || t'.pc.Failed?
  {
    hide PublishTurn, ObserveTurn;
  }

  lemma PublishedFiles(s: State, n: Nonce, x: Nonce, fs: Fs, t: Session, t': Session)
    requires FilesOk(s) && Publishes(n, t, fs, t') && n != x
    ensures Carrying(EntryAfter(s, fs, Lock), x) ==> EntryAfter(s, fs, Lock) == Entry(s, Lock)
    ensures EntryAfter(s, fs, Mark(x)).Some? && !HoldsMark(t') ==> EntryAfter(s, fs, Mark(x)) == Entry(s, Mark(x))
  {
  }

  lemma StrangerAgain(s: State, s': State, n: Nonce, file: File)
    requires n in s.sessions && n in s'.sessions && s'.sessions[n].proc == s.sessions[n].proc
    requires forall y :: y in s.minted ==> y in s'.minted && s'.minted[y] == s.minted[y]
    requires Stranger(s, n, file)
    ensures Stranger(s', n, file)
  {
  }

  lemma StepOfOne(s: State, n: Nonce, c: Choice)
    requires n in s.sessions && StageOf(s.sessions[n].pc) != Idle
    requires s.sessions[n].pc.CreateMark? ==> c.nonce !in s.minted
    ensures var s' := Next(s, Step(n, c));
            && n in s'.sessions && s'.sessions[n] == Turn(n, s.sessions[n], c, Look(s, n, s.sessions[n])).1
            && s'.sessions[n].proc == s.sessions[n].proc
            && s'.sessions == s.sessions[n := s'.sessions[n]] && s'.alive == s.alive
            && (forall y :: y in s.minted ==> y in s'.minted && s'.minted[y] == s.minted[y])
  {
    TurnShape(n, s.sessions[n], c, Look(s, n, s.sessions[n]));
    hide Turn;
  }

  lemma SoloNeverMisfires(s: State, n: Nonce, x: Nonce, c: Choice)
    requires Solo(s, n, x)
    ensures !Misfire(s, Step(n, c))
    ensures StageOf(s.sessions[n].pc) == Idle ==> s.sessions[n].pc.Holding?
  {
    hide Inv, Alone, Stranger;
  }

  /** Files of strangers: the contender publishes none, and holds the marker until it unlinks it. */
  lemma StrangersKept(s: State, s': State, n: Nonce, x: Nonce, fs: Fs)
    requires Inv(s) && n in s.sessions && n in s'.sessions && s'.sessions[n].proc == s.sessions[n].proc && n != x
    requires Carrying(Entry(s, Lock), x) ==> Stranger(s, n, Entry(s, Lock).value)
    requires Entry(s, Mark(x)).Some? && !HoldsMark(s.sessions[n]) ==> Stranger(s, n, Entry(s, Mark(x)).value)
    requires Publishes(n, s.sessions[n], fs, s'.sessions[n])
    requires HoldsMark(s.sessions[n]) && !HoldsMark(s'.sessions[n]) ==> Entry(s', Mark(x)).None?
    requires forall y :: y in s.minted ==> y in s'.minted && s'.minted[y] == s.minted[y]
    requires Entry(s', Lock) == EntryAfter(s, fs, Lock) && Entry(s', Mark(x)) == EntryAfter(s, fs, Mark(x))
    ensures Carrying(Entry(s', Lock), x) ==> Stranger(s', n, Entry(s', Lock).value)
    ensures Entry(s', Mark(x)).Some? && !HoldsMark(s'.sessions[n]) ==> Stranger(s', n, Entry(s', Mark(x)).value)
  {
    PublishedFiles(s, n, x, fs, s.sessions[n], s'.sessions[n]);
    hide EntryAfter, Stranger, Fits, Publishes, Entry, FilesOk, ViewOf, HoldsMark, Inv;
    if Carrying(Entry(s', Lock), x) { StrangerAgain(s, s', n, Entry(s, Lock).value); }
    if Entry(s', Mark(x)).Some? && !HoldsMark(s'.sessions[n]) { StrangerAgain(s, s', n, Entry(s, Mark(x)).value); }
  }

  lemma LetGoOnTrack(n: Nonce, x: Nonce, t: Session, u: Scene, c: Choice, v: Sees, t': Session, v': Scene)
    requires OnTrack(n, t, u, x) && !c.fault && t' == Turn(n, t, c, v).1 && OnTrack(n, t', v', x)
    requires HoldsMark(t) && !HoldsMark(t')
    ensures v'.mark.None?
  {
    MarkLetGo(n, t, c, v);
    hide Turn, Retries, HasRead;
  }

  lemma LoneTurn(s: State, n: Nonce, x: Nonce, c: Choice)
    requires Solo(s, n, x) && Enabled(s, Step(n, c)) && Clean(c)
    requires StageOf(s.sessions[n].pc) != Idle
    ensures var s', fs := Next(s, Step(n, c)), Turn(n, s.sessions[n], c, Look(s, n, s.sessions[n])).0;
            && n in s'.sessions
            && Advances(n, s.sessions[n], s'.sessions[n], SceneOf(s', n, s'.sessions[n], x), x)
            && (forall name :: Entry(s', name) == EntryAfter(s, fs, name))
  {
    hide UniquePids, Alone, FilesOk, SessionOk, Stranger;
    var t := s.sessions[n];
    var v := Look(s, n, t);
    StepOfOne(s, n, c);
    hide Turn, OnTrack, HoldsMark, Rank, Stranger, Fits, Entry, FilesOk, ViewOf, EntryAfter, Next, Prepared, Advances, Truthful,
         MinterDead, Inv, Retries;
    var (fs, t') := Turn(n, t, c, v);
    var s' := Next(s, Step(n, c));
    SoloIsPrepared(s, n, x, c);
    StepChangesEntries(s, n, c);
    TurnAdvances(s, n, t, c, v, fs, t', SceneOf(s', n, t', x), x);
  }

  lemma LoneStrangers(s: State, n: Nonce, x: Nonce, c: Choice)
    requires Solo(s, n, x) && Enabled(s, Step(n, c)) && Clean(c) && StageOf(s.sessions[n].pc) != Idle
    ensures var s' := Next(s, Step(n, c));
            && n in s'.sessions
            && (Carrying(Entry(s', Lock), x) ==> Stranger(s', n, Entry(s', Lock).value))
            && (Entry(s', Mark(x)).Some? && !HoldsMark(s'.sessions[n]) ==> Stranger(s', n, Entry(s', Mark(x)).value))
  {
    var t, v, s' := s.sessions[n], Look(s, n, s.sessions[n]), Next(s, Step(n, c));
    StepOfOne(s, n, c);
    hide Turn, HoldsMark, Rank, Stranger, Fits, Entry, FilesOk, ViewOf, EntryAfter, Next, Truthful, Retries, HasRead, Publishes, UniquePids;
    LoneTurn(s, n, x, c);
    TurnPublishes(n, t, c, v);
    var (fs, t') := Turn(n, t, c, v);
    if HoldsMark(t) && !HoldsMark(t') { LetGoOnTrack(n, x, t, SceneOf(s, n, t, x), c, v, t', SceneOf(s', n, t', x)); }
    StrangersKept(s, s', n, x, fs);
  }

  lemma StillAlone(s: State, s': State, n: Nonce)
    requires Alone(s, n) && n in s'.sessions && s'.alive == s.alive
    requires s'.sessions == s.sessions[n := s'.sessions[n]] && s'.sessions[n].proc == s.sessions[n].proc
    ensures Alone(s', n)
  {
  }

  /** One clean step of a lone contender keeps it on track and brings it closer to the lock. */
  lemma LoneStep(s: State, n: Nonce, x: Nonce, c: Choice)
    requires Solo(s, n, x) && Enabled(s, Step(n, c)) && Clean(c)
    ensures Solo(Next(s, Step(n, c)), n, x)
    ensures Rank(Next(s, Step(n, c)).sessions[n]) < Rank(s.sessions[n])
  {
    SoloNeverMisfires(s, n, x, c);
    assert StageOf(s.sessions[n].pc) != Idle;
    StepOfOne(s, n, c);
    hide Turn, HoldsMark, Rank, Stranger, Entry, EntryAfter, Next, OnTrack, Misfire, Inv, Alone, StepEnabled;
    LoneTurn(s, n, x, c);
    SessionStepKeepsInv(s, n, c);
    LoneStrangers(s, n, x, c);
    StillAlone(s, Next(s, Step(n, c)), n);
  }

  lemma RankBounded(s: State, n: Nonce, x: Nonce)
    requires Solo(s, n, x)
    ensures 0 <= Rank(s.sessions[n])
  {
    hide Inv, Alone, Stranger;
  }

  // ---------------------------------------------------------------- whole runs

  /** Only the contender takes steps, and every call succeeds. */
  ghost predicate CleanRun(s: State, n: Nonce, run: seq<Action>) {
    IsRun(s, run) && forall i :: 0 <= i < |run| ==> run[i].Step? && run[i].session == n && Clean(run[i].choice)
  }

  lemma {:induction false} LoneRun(s: State, n: Nonce, x: Nonce, run: seq<Action>)
    requires Solo(s, n, x) && CleanRun(s, n, run)
    ensures Solo(After(s, run), n, x)
    ensures Rank(After(s, run).sessions[n]) + |run| <= Rank(s.sessions[n])
    decreases |run|
  {
    hide Rank, OnTrack, Inv, Stranger, Enabled, Next;
    if run != [] {
      var prefix, a := run[..|run| - 1], run[|run| - 1];
      assert forall i :: 0 <= i < |prefix| ==> prefix[..i] == run[..i];
      LoneRun(s, n, x, prefix);
      LoneStep(After(s, prefix), n, x, a.choice);
    }
  }

  /** A number outside a finite set. */
  lemma {:induction false} Outside(xs: set<nat>) returns (y: nat)
    ensures forall x :: x in xs ==> x < y
  {
    if xs == {} {
      y := 0;
    } else {
      var x :| x in xs;
      var z := Outside(xs - {x});
      assert forall w :: w in xs ==> w == x || w in xs - {x};
      y := if z > x then z else x + 1;
    }
  }

  /** A truthful answer about a pid that lets a running process be identified. */
  lemma TruthfulAnswer(s: State, n: Nonce, pid: nat, ino: Ino, nonce: Nonce) returns (c: Choice)
    requires Alone(s, n)
    ensures Clean(c) && c.ino == ino && c.nonce == nonce && Truthful(s.alive, pid, c.pidExists, c.observed)
  {
    var p := s.sessions[n].proc;
    var here := pid == p.pid;
    c := Choice(ino, nonce, true, false, here, if here then Some(p.identity) else None);
    assert p in s.alive;
  }

  /** Until it holds the lock, a lone contender always has a next step. */
  lemma LoneNeverStuck(s: State, n: Nonce, x: Nonce) returns (c: Choice)
    requires Solo(s, n, x) && !s.sessions[n].pc.Holding?
    ensures Clean(c) && Enabled(s, Step(n, c))
  {
    var t, v := s.sessions[n], Look(s, n, s.sessions[n]);
    var ino := Outside(s.dir.Values);
    var nonce := Outside(s.minted.Keys);
    var pid := if t.pc.ProbeMark? && v.markObs.Some? then v.markObs.value.content.owner.pid else t.existing.pid;
    c := TruthfulAnswer(s, n, pid, ino, nonce);
    assert SessionOk(s, n);
    hide Truthful, FilesOk, Stranger;
  }

  /**
   Recovery. With no other process running, a contender whose calls succeed stays within three attempts
   and 92 calls, and can always take another step until it holds the lock.
   */
  lemma LoneContenderAcquires(s: State, n: Nonce, x: Nonce, run: seq<Action>)
    requires Solo(s, n, x) && s.sessions[n].pc.CreatePub? && s.sessions[n].attempt == 0
    requires CleanRun(s, n, run)
    ensures |run| <= 92
    ensures var s' := After(s, run);
            n in s'.sessions && s'.sessions[n].attempt <= 2 &&
            (Holds(s', n) || exists c :: Clean(c) && Enabled(s', Step(n, c)))
  {
    LoneRun(s, n, x, run);
    var s' := After(s, run);
    hide Inv, Stranger, Enabled, After;
    if !s'.sessions[n].pc.Holding? { var c := LoneNeverStuck(s', n, x); }
  }

  /** Such a run exists: the contender ends up holding the lock. */
  lemma LoneContenderCompletes(s: State, n: Nonce, x: Nonce) returns (run: seq<Action>)
    requires Solo(s, n, x)
    ensures CleanRun(s, n, run) && Holds(After(s, run), n)
  {
    hide Inv, Stranger, Enabled, Next, OnTrack, Rank;
    run := [];
    while !After(s, run).sessions[n].pc.Holding?
      invariant CleanRun(s, n, run) && Solo(After(s, run), n, x)
      decreases Rank(After(s, run).sessions[n])
    {
      var s1 := After(s, run);
      var c := LoneNeverStuck(s1, n, x);
      LoneStep(s1, n, x, c);
      RankBounded(s1, n, x);
      var longer := run + [Step(n, c)];
      assert longer[..|longer| - 1] == run;
      assert forall i :: 0 <= i < |run| ==> longer[..i] == run[..i];
      run := longer;
    }
  }

  /** Whatever a run left behind once every process is dead, a new process with a new session is a lone contender. */
  lemma CrashLeavesALoneContender(s: State, run: seq<Action>, p: Proc, n: Nonce, x: Nonce)
    requires Init(s) && IsRun(s, run)
    requires After(s, run).alive == {} && p !in After(s, run).seen
    requires n !in After(s, run).minted && n != x
    requires var l := Entry(After(s, run), Lock);
             l.None? || (Carrying(l, x) && Recognizable(l.value.content.owner, p))
    requires var m := Entry(After(s, run), Mark(x)); m.None? || Recognizable(m.value.content.owner, p)
    ensures Enabled(After(s, run), Start(p))
    ensures Enabled(Next(After(s, run), Start(p)), Begin(p, n))
    ensures Solo(Next(Next(After(s, run), Start(p)), Begin(p, n)), n, x)
  {
    GroundedOverRuns(s, run);
    var s0 := After(s, run);
    hide After, IsRun;
    assert Inv(s0);
    NewContender(s0, p, n, x);
  }

  lemma ContenderStarts(s0: State, p: Proc, n: Nonce)
    requires Inv(s0) && s0.alive == {} && p !in s0.seen && n !in s0.minted
    ensures var s2 := Next(Next(s0, Start(p)), Begin(p, n));
            && Inv(s2) && (forall name :: Entry(s2, name) == Entry(s0, name))
            && s2.sessions == s0.sessions[n := FreshSession(p)] && s2.minted == s0.minted[n := n] && s2.alive == {p}
  {
    hide FilesOk, Fits, ViewOf, Authentic;
    ProcessTableKeepsInv(s0, Start(p));
    BeginKeepsInv(Next(s0, Start(p)), p, n);
  }

  lemma FreshSessionIsSolo(s0: State, s2: State, p: Proc, n: Nonce, x: Nonce)
    requires n !in s0.minted && n != x && n !in s0.sessions
    requires Inv(s2) && s2.sessions == s0.sessions[n := FreshSession(p)] && s2.minted == s0.minted[n := n] && s2.alive == {p}
    requires forall name :: Entry(s2, name) == Entry(s0, name)
    requires forall m :: m in s0.sessions ==> s0.sessions[m].proc != p
    requires forall y :: y in s0.minted ==> s0.minted[y] in s0.sessions
    requires Entry(s0, Lock).Some? ==> Entry(s0, Lock).value.content.owner.nonce in s0.minted
                                       && Carrying(Entry(s0, Lock), x) && Recognizable(Entry(s0, Lock).value.content.owner, p)
    requires Entry(s0, Mark(x)).Some? ==> Entry(s0, Mark(x)).value.content.owner.nonce in s0.minted
                                          && Recognizable(Entry(s0, Mark(x)).value.content.owner, p)
    ensures Solo(s2, n, x)
  {
    hide Inv, Entry;
    assert forall m :: m in s2.sessions && m != n ==> s2.sessions[m] == s0.sessions[m];
  }

  lemma NewContender(s0: State, p: Proc, n: Nonce, x: Nonce)
    requires Inv(s0) && s0.alive == {} && p !in s0.seen && n !in s0.minted && n != x
    requires Entry(s0, Lock).None? ||
             (Carrying(Entry(s0, Lock), x) && Recognizable(Entry(s0, Lock).value.content.owner, p))
    requires Entry(s0, Mark(x)).None? || Recognizable(Entry(s0, Mark(x)).value.content.owner, p)
    ensures Solo(Next(Next(s0, Start(p)), Begin(p, n)), n, x)
  {
    ContenderStarts(s0, p, n);
    FilesKnown(s0, Lock);
    FilesKnown(s0, Mark(x));
    hide Inv, Next, Entry;
    FreshSessionIsSolo(s0, Next(Next(s0, Start(p)), Begin(p, n)), p, n, x);
  }

  lemma FilesKnown(s: State, name: Name)
    requires Inv(s)
    ensures Entry(s, name).Some? ==> Entry(s, name).value.content.owner.nonce in s.minted
    ensures forall y :: y in s.minted ==> s.minted[y] in s.sessions
    ensures forall m :: m in s.sessions ==> s.sessions[m].proc in s.seen
    ensures forall m :: m in s.sessions ==> m in s.minted
  {
    if Entry(s, name).Some? { assert Authentic(s, Entry(s, name).value.content); }
  }

  // ---------------------------------------------------------------- exactly when it recovers

  /** The owners of the lock, and of the marker for it, cannot be mistaken for this process. */
  ghost predicate Recoverable(s: State, p: Proc) {
    var lock := Entry(s, Lock);
    lock.None? ||
    (&& Recognizable(lock.value.content.owner, p)
     && var mark := Entry(s, Mark(lock.value.content.owner.nonce));
        mark.None? || Recognizable(mark.value.content.owner, p))
  }

  /** The system once `p` has started and begun session `n`. */
  function Contending(s: State, p: Proc, n: Nonce): State {
    Next(Next(s, Start(p)), Begin(p, n))
  }

  /** A process with this pid runs, so a body without identity is taken for that process's own. */
  lemma MistakenForSelf(alive: set<Proc>, p: Proc, owner: Owner, c: Choice)
    requires p in alive && !Recognizable(owner, p) && Truthful(alive, owner.pid, c.pidExists, c.observed)
    ensures StillOwns(owner, c.pidExists, c.observed)
  {
  }

  /** Where a contender can be that will not get past the lock `f`, or past the marker `g` for it. */
  predicate StuckAt(n: Nonce, t: Session, v: Sees, f: File, g: Option<File>) {
    match t.pc
    case CreatePub | LinkLock => !t.failing && !t.held
    case DropPubExists | LinkObs => !t.failing && !t.held
    case ReadObs => !t.failing && !t.held && v.obs == Some(f)
    case Probe => !t.held && t.existing == f.content.owner
    case CreateMark | LinkMark | LinkMarkObs =>
      !t.held && t.existing == f.content.owner && g.Some? && !Recognizable(g.value.content.owner, t.proc)
    case ProbeMark =>
      && !t.held && t.existing == f.content.owner && g.Some? && !Recognizable(g.value.content.owner, t.proc)
      && v.markObs == g
    case DropMarkObs | DropMarkPub => t.failing && !t.held && t.existing == f.content.owner
    case DropObs => t.failing
    case Failed => true
    case _ => false
  }

  ghost predicate Stuck(s: State, n: Nonce, f: File, g: Option<File>) {
    && Grounded(s) && n in s.sessions && s.sessions[n].proc in s.alive
    && Entry(s, Lock) == Some(f) && Entry(s, Mark(f.content.owner.nonce)) == g
    && (Recognizable(f.content.owner, s.sessions[n].proc) ==>
          g.Some? && !Recognizable(g.value.content.owner, s.sessions[n].proc))
    && StuckAt(n, s.sessions[n], Look(s, n, s.sessions[n]), f, g)
  }

  /** A step that is harmless to the shared names, and the observation it makes. */
  predicate StuckMove(n: Nonce, t: Session, fs: Fs, t': Session) {
    && t'.proc == t.proc && fs != Unlink(Lock) && (fs.Link? ==> !fs.to.Lock? && !fs.to.Mark?)
    && (fs.Unlink? ==> !fs.name.Mark?) && (fs.Write? ==> !fs.name.Lock? && !fs.name.Mark?)
    && (t'.pc.ReadObs? ==> fs == Link(Lock, Obs(n, t.attempt)) && t'.attempt == t.attempt)
    && (t'.pc.ProbeMark? ==> fs == Link(Mark(t.existing.nonce), MarkObs(n, t.existing.nonce, t.attempt))
                             && t'.attempt == t.attempt && t'.existing == t.existing)
  }

  /** The steps of a stuck contender touch neither the lock nor the marker. */
  lemma StuckTurn(n: Nonce, t: Session, c: Choice, v: Sees, f: File, g: Option<File>)
    requires StuckAt(n, t, v, f, g) && !t.pc.Failed?
    requires v.lock == Some(f) && (t.existing == f.content.owner ==> v.mark == g)
    requires t.pc.Probe? ==> (StillOwns(t.existing, c.pidExists, c.observed) || (g.Some? && !Recognizable(g.value.content.owner, t.proc)))
    requires t.pc.ProbeMark? ==> StillOwns(g.value.content.owner, c.pidExists, c.observed)
    requires t.pc.ReadObs? ==> v.obs.Some?
    ensures var (fs, t') := Turn(n, t, c, v);
            && StuckMove(n, t, fs, t')
            && (t'.pc.ProbeMark? ==> g.Some? && t.existing.nonce == f.content.owner.nonce)
            && (forall w: Sees :: (t'.pc.ReadObs? ==> w.obs == Some(f)) && (t'.pc.ProbeMark? ==> w.markObs == g) ==>
                  StuckAt(n, t', w, f, g))
  {
    assert StageOf(t.pc) == Idle ==> t.pc.Failed?;
    assert StageOf(t.pc) == Reclaiming ==> t.pc.DropObs?;
    assert StageOf(t.pc) == Marking && !(t.pc.ProbeMark? || t.pc.DropMarkObs? || t.pc.DropMarkPub?) ==>
             t.pc.CreateMark? || t.pc.LinkMark? || t.pc.LinkMarkObs?;
    hide StuckAt, StuckMove;
    if t.pc.ProbeMark? || t.pc.DropMarkObs? || t.pc.DropMarkPub? || t.pc.DropObs? {
      StuckLateTurn(n, t, c, v, f, g);
    } else if t.pc.CreateMark? || t.pc.LinkMark? || t.pc.LinkMarkObs? {
      StuckMarkTurn(n, t, c, v, f, g);
    } else {
      StuckEarlyTurn(n, t, c, v, f, g);
    }
  }

  lemma StuckEarlyTurn(n: Nonce, t: Session, c: Choice, v: Sees, f: File, g: Option<File>)
    requires StageOf(t.pc) == Publishing || StageOf(t.pc) == Observing
    requires StuckAt(n, t, v, f, g)
    requires v.lock == Some(f) && (t.existing == f.content.owner ==> v.mark == g)
    requires t.pc.Probe? ==> (StillOwns(t.existing, c.pidExists, c.observed) || (g.Some? && !Recognizable(g.value.content.owner, t.proc)))
    requires t.pc.ReadObs? ==> v.obs.Some?
    ensures var (fs, t') := Turn(n, t, c, v);
            && StuckMove(n, t, fs, t')
            && (t'.pc.ProbeMark? ==> g.Some? && t.existing.nonce == f.content.owner.nonce)
            && (forall w: Sees :: (t'.pc.ReadObs? ==> w.obs == Some(f)) && (t'.pc.ProbeMark? ==> w.markObs == g) ==>
                  StuckAt(n, t', w, f, g))
  {
    hide MarkTurn, ReclaimTurn;
  }

  lemma StuckMarkTurn(n: Nonce, t: Session, c: Choice, v: Sees, f: File, g: Option<File>)
    requires t.pc.CreateMark? || t.pc.LinkMark? || t.pc.LinkMarkObs?
    requires StuckAt(n, t, v, f, g)
    requires v.lock == Some(f) && (t.existing == f.content.owner ==> v.mark == g)
    ensures var (fs, t') := Turn(n, t, c, v);
            && StuckMove(n, t, fs, t')
            && (t'.pc.ProbeMark? ==> g.Some? && t.existing.nonce == f.content.owner.nonce)
            && (forall w: Sees :: (t'.pc.ReadObs? ==> w.obs == Some(f)) && (t'.pc.ProbeMark? ==> w.markObs == g) ==>
                  StuckAt(n, t', w, f, g))
  {
    hide PublishTurn, ObserveTurn, ReclaimTurn;
  }

  lemma StuckLateTurn(n: Nonce, t: Session, c: Choice, v: Sees, f: File, g: Option<File>)
    requires t.pc.ProbeMark? || t.pc.DropMarkObs? || t.pc.DropMarkPub? || t.pc.DropObs?
    requires StuckAt(n, t, v, f, g)
    requires v.lock == Some(f) && (t.existing == f.content.owner ==> v.mark == g)
    requires t.pc.ProbeMark? ==> StillOwns(g.value.content.owner, c.pidExists, c.observed)
    ensures var (fs, t') := Turn(n, t, c, v);
            && StuckMove(n, t, fs, t')
            && (t'.pc.ProbeMark? ==> g.Some? && t.existing.nonce == f.content.owner.nonce)
            && (forall w: Sees :: (t'.pc.ReadObs? ==> w.obs == Some(f)) && (t'.pc.ProbeMark? ==> w.markObs == g) ==>
                  StuckAt(n, t', w, f, g))
  {
    hide PublishTurn, ObserveTurn;
  }

  lemma StuckFiles(s: State, s': State, n: Nonce, t: Session, fs: Fs, t': Session, f: File, g: Option<File>)
    requires StuckMove(n, t, fs, t') && Entry(s, Lock) == Some(f) && Entry(s, Mark(f.content.owner.nonce)) == g
    requires forall name :: Entry(s', name) == EntryAfter(s, fs, name)
    requires t'.pc.ProbeMark? ==> g.Some? && t.existing.nonce == f.content.owner.nonce
    ensures Entry(s', Lock) == Some(f) && Entry(s', Mark(f.content.owner.nonce)) == g
    ensures t'.pc.ReadObs? ==> Look(s', n, t').obs == Some(f)
    ensures t'.pc.ProbeMark? ==> Look(s', n, t').markObs == g
  {
  }

  /** What a stuck contender's probes answer. */
  lemma StuckProbes(s: State, n: Nonce, c: Choice, f: File, g: Option<File>)
    requires Stuck(s, n, f, g) && Enabled(s, Step(n, c))
    ensures var t, v := s.sessions[n], Look(s, n, s.sessions[n]);
            && StuckAt(n, t, v, f, g) && !t.pc.Failed?
            && v.lock == Some(f) && (t.existing == f.content.owner ==> v.mark == g)
            && (t.pc.Probe? ==> (StillOwns(t.existing, c.pidExists, c.observed) || (g.Some? && !Recognizable(g.value.content.owner, t.proc))))
            && (t.pc.ProbeMark? ==> g.Some? && StillOwns(g.value.content.owner, c.pidExists, c.observed))
            && (t.pc.ReadObs? ==> v.obs.Some?)
  {
    var t := s.sessions[n];
    if t.pc.Probe? && !Recognizable(t.existing, t.proc) { MistakenForSelf(s.alive, t.proc, t.existing, c); }
    if t.pc.ProbeMark? { MistakenForSelf(s.alive, t.proc, g.value.content.owner, c); }
    hide Truthful, Recognizable, Grounded, Entry;
  }

  lemma StuckStep(s: State, n: Nonce, c: Choice, f: File, g: Option<File>)
    requires Stuck(s, n, f, g) && Enabled(s, Step(n, c))
    ensures Stuck(Next(s, Step(n, c)), n, f, g)
  {
    hide UniquePids, Look, FilesOk;
    var t, v := s.sessions[n], Look(s, n, s.sessions[n]);
    StuckProbes(s, n, c, f, g);
    StuckTurn(n, t, c, v, f, g);
    StepKeepsGround(s, n, c);
    assert StageOf(t.pc) != Idle && (t.pc.CreateMark? ==> c.nonce !in s.minted);
    hide Turn, Grounded, Recognizable, Entry, Next, EntryAfter, StuckMove, StepEnabled, StuckAt;
    StepOfOne(s, n, c);
    var s' := Next(s, Step(n, c));
    StuckFiles(s, s', n, t, Turn(n, t, c, v).0, s'.sessions[n], f, g);
  }

  /** Only the contender takes steps; calls may fail. */
  ghost predicate OwnRun(s: State, n: Nonce, run: seq<Action>) {
    IsRun(s, run) && forall i :: 0 <= i < |run| ==> run[i].Step? && run[i].session == n
  }

  /** A stuck contender never holds the lock, whatever its calls answer. */
  lemma {:induction false} StuckForEver(s: State, n: Nonce, f: File, g: Option<File>, run: seq<Action>)
    requires Stuck(s, n, f, g) && OwnRun(s, n, run)
    ensures Stuck(After(s, run), n, f, g) && !Holds(After(s, run), n)
    decreases |run|
  {
    hide Enabled, Next, Grounded, Entry, Recognizable;
    if run != [] {
      var prefix, a := run[..|run| - 1], run[|run| - 1];
      assert forall i :: 0 <= i < |prefix| ==> prefix[..i] == run[..i];
      StuckForEver(s, n, f, g, prefix);
      assert a == Step(n, a.choice);
      hide Stuck, StuckAt;
      StuckStep(After(s, prefix), n, a.choice, f, g);
    }
    StuckIsNotHolding(After(s, run), n, f, g);
  }

  lemma StuckIsNotHolding(s: State, n: Nonce, f: File, g: Option<File>)
    requires Stuck(s, n, f, g)
    ensures !Holds(s, n)
  {
  }

  /** A contender that meets a lock, or a marker, it cannot recognize as stale is stuck from the start. */
  lemma StuckFromTheStart(s0: State, p: Proc, n: Nonce)
    requires Grounded(s0) && s0.alive == {} && p !in s0.seen && n !in s0.minted && !Recoverable(s0, p)
    ensures exists f, g :: Stuck(Contending(s0, p, n), n, f, g)
  {
    assert Inv(s0);
    ContenderStarts(s0, p, n);
    var f := Entry(s0, Lock).value;
    var g := Entry(s0, Mark(f.content.owner.nonce));
    hide Grounded, Entry;
    assert Stuck(Contending(s0, p, n), n, f, g);
  }

  /** A number no marker is for. */
  lemma UnmarkedTarget(s: State, n: Nonce) returns (x: Nonce)
    ensures x != n && Entry(s, Mark(x)).None?
  {
    var targets := set name | name in s.dir && name.Mark? :: name.target;
    assert forall y :: Mark(y) in s.dir ==> Mark(y).target in targets;
    x := Outside(targets + {n});
    assert x !in targets && n in targets + {n};
  }

  /** From a recoverable crash state, a run to the lock exists. */
  lemma RecoverableRecovers(s0: State, p: Proc, n: Nonce) returns (r: seq<Action>)
    requires Grounded(s0) && s0.alive == {} && p !in s0.seen && n !in s0.minted && Recoverable(s0, p)
    ensures CleanRun(Contending(s0, p, n), n, r) && Holds(After(Contending(s0, p, n), r), n)
  {
    assert Inv(s0);
    FilesKnown(s0, Lock);
    var x;
    if Entry(s0, Lock).Some? { x := Entry(s0, Lock).value.content.owner.nonce; } else { x := UnmarkedTarget(s0, n); }
    hide Inv, Grounded, Entry, Solo, Holds, CleanRun;
    NewContender(s0, p, n, x);
    r := LoneContenderCompletes(Contending(s0, p, n), n, x);
  }

  /**
   Whatever a run left behind once every process is dead, misfires included: a new process with no rival and no
   failing call gets the lock if and only if it cannot be mistaken for the owner of the lock, or of the marker for
   that lock. Otherwise no run of its own calls, failing or not, ever gets it the lock.
   */
  lemma RecoversExactly(s: State, run: seq<Action>, p: Proc, n: Nonce)
    requires Init(s) && IsRun(s, run) && After(s, run).alive == {}
    requires p !in After(s, run).seen && n !in After(s, run).minted
    ensures Recoverable(After(s, run), p) <==>
              exists r :: CleanRun(Contending(After(s, run), p, n), n, r) && Holds(After(Contending(After(s, run), p, n), r), n)
    ensures !Recoverable(After(s, run), p) ==>
              forall r :: OwnRun(Contending(After(s, run), p, n), n, r) ==> !Holds(After(Contending(After(s, run), p, n), r), n)
  {
    GroundedOverRuns(s, run);
    var s0 := After(s, run);
    var s2 := Contending(s0, p, n);
    hide Grounded, After, IsRun, Recoverable, Contending, Holds, Stuck;
    if Recoverable(s0, p) {
      var r := RecoverableRecovers(s0, p, n);
    } else {
      StuckFromTheStart(s0, p, n);
      var f, g :| Stuck(s2, n, f, g);
      forall r | OwnRun(s2, n, r)
        ensures !Holds(After(s2, r), n)
      {
        StuckForEver(s2, n, f, g, r);
      }
    }
  }

  // ---------------------------------------------------------------- a crash it does not recover from

  const DEAD := Proc(1, ProcessIdentity(0, 0))
  const REBORN := Proc(1, ProcessIdentity(0, 1))

  /** A process dies holding a lock on which it could not record its identity; another gets its pid. */
  lemma OwnPidIsNeverRecovered() returns (s: State, run: seq<Action>)
    ensures Init(s) && IsRun(s, run) && After(s, run).alive == {}
    ensures REBORN !in After(s, run).seen && 1 !in After(s, run).minted
    ensures forall r :: OwnRun(Contending(After(s, run), REBORN, 1), 1, r) ==>
              !Holds(After(Contending(After(s, run), REBORN, 1), r), 1)
  {
    s := NOTHING;
    var t := Orphan();
    run :| IsRun(s, run) && After(s, run) == t;
    hide IsRun, After, Contending, Holds, OwnRun;
    RecoversExactly(s, run, REBORN, 1);
  }

  lemma Orphan() returns (t: State)
    ensures Leads(NOTHING, t) && t.alive == {} && REBORN !in t.seen && 1 !in t.minted && !Recoverable(t, REBORN)
  {
    LeadsNowhere(NOTHING);
    hide Leads;
    var c := Choice(0, 0, false, false, false, None);
    t := Move(NOTHING, NOTHING, Start(DEAD));
    t := Move(NOTHING, t, Begin(DEAD, 0));
    t := Move(NOTHING, t, Step(0, c));
    t := Move(NOTHING, t, Step(0, c));
    t := Move(NOTHING, t, Die(DEAD));
    assert Entry(t, Lock) == Some(File(0, LockFile(Owner(1, 0, None))));
  }
}
