/** What a run of the publisher guarantees when others edit the tree at any point of it. */
module InitConcurrency {
  import opened Wrappers
  import opened InitPublish
  import opened InitAtomicity

  /** The tree before event `k`. */
  function At(tree: Tree, log: seq<Event>, k: nat): Tree
    requires k <= |log|
  {
    Replay(tree, log[..k])
  }

  /** Event `k` is an edit by somebody else that changes what the path leads to. */
  predicate EditOf(tree: Tree, log: seq<Event>, k: nat, path: Path)
    requires k < |log|
  {
    log[k].Foreign? && Look(At(tree, log, k + 1), path) != Look(At(tree, log, k), path)
  }

  /** The file published at this path by one of the first `k` events. */
  predicate PublishedBefore(log: seq<Event>, k: nat, file: PlannedFile)
    requires k <= |log|
  {
    exists b :: 0 <= b < k && log[b] == Published(file, true)
  }

  /** Two events before event `k` the rollback looked at the path, and found what this run had published there. */
  predicate FoundOwn(tree: Tree, log: seq<Event>, k: nat, file: PlannedFile)
    requires k < |log|
  {
    && k >= 2 && log[k - 2] == Checked(file.path) && log[k - 1].Foreign?
    && Look(At(tree, log, k - 2), file.path) == Text(file.content)
  }

  lemma AtShift(tree: Tree, first: seq<Event>, rest: seq<Event>, k: nat)
    requires k <= |rest|
    ensures At(tree, first + rest, |first| + k) == At(Replay(tree, first), rest, k)
  {
    assert (first + rest)[..|first| + k] == first + rest[..k];
    ReplayMore(tree, first, rest[..k]);
  }

  lemma AtPrefix(tree: Tree, first: seq<Event>, rest: seq<Event>, k: nat)
    requires k <= |first|
    ensures At(tree, first + rest, k) == At(tree, first, k)
  {
    assert (first + rest)[..k] == first[..k];
  }

  // ---------------------------------------------------------------- the rollback's own log

  lemma FoundOwnShift(tree: Tree, first: seq<Event>, rest: seq<Event>, k: nat, file: PlannedFile)
    requires k < |rest| && FoundOwn(Replay(tree, first), rest, k, file)
    ensures FoundOwn(tree, first + rest, |first| + k, file)
    ensures k >= 2
  {
    hide Replay, At;
    AtShift(tree, first, rest, k - 2);
  }

  predicate Names(published: seq<Prepared>, path: Path) {
    exists i :: 0 <= i < |published| && published[i].file.path == path
  }

  predicate DistinctEntries(published: seq<Prepared>) {
    forall i, j :: 0 <= i < j < |published| ==> published[i].file.path != published[j].file.path
  }

  /** Taking one publication back writes only after finding it unchanged. */
  lemma UndoOneIsCareful(w: World, tree: Tree, entry: Prepared, k: nat, path: Path)
    requires k < |UndoOne(w, tree, entry)|
    ensures UndoOne(w, tree, entry)[k] == Checked(path) || TakesBack(UndoOne(w, tree, entry)[k], path) ==> path == entry.file.path
    ensures TakesBack(UndoOne(w, tree, entry)[k], path) ==> FoundOwn(tree, UndoOne(w, tree, entry), k, entry.file)
    ensures UndoOne(w, tree, entry)[k] == Checked(path) && Look(At(tree, UndoOne(w, tree, entry), k), path) != Text(entry.file.content) ==>
              forall l :: 0 <= l < |UndoOne(w, tree, entry)| ==> !TakesBack(UndoOne(w, tree, entry)[l], path)
  {
    var log := UndoOne(w, tree, entry);
    ReplayNothing(tree);
    ReplayOne(tree, [], log[0]);
    assert log[..1] == [] + [log[0]];
  }

  lemma {:induction false} UndoElsewhere(w: World, tree: Tree, published: seq<Prepared>, path: Path)
    requires !Names(published, path)
    ensures forall k :: 0 <= k < |UndoAll(w, tree, published)| ==>
              UndoAll(w, tree, published)[k] != Checked(path) && !TakesBack(UndoAll(w, tree, published)[k], path)
    decreases |published|
  {
    if published != [] {
      var n := |published| - 1;
      var first := UndoOne(w, tree, published[n]);
      UndoElsewhere(w, Replay(tree, first), published[..n], path);
      forall k | 0 <= k < |first|
        ensures first[k] != Checked(path) && !TakesBack(first[k], path)
      {
        UndoOneIsCareful(w, tree, published[n], k, path);
      }
    }
  }

  lemma CheckedIsNamed(w: World, tree: Tree, published: seq<Prepared>, c: nat, path: Path)
    requires c < |UndoAll(w, tree, published)| && UndoAll(w, tree, published)[c] == Checked(path)
    ensures Names(published, path)
  {
    if !Names(published, path) { UndoElsewhere(w, tree, published, path); }
  }

  /** Rollback writes only where it has just found its own publication. */
  lemma {:induction false} UndoIsCareful(w: World, tree: Tree, published: seq<Prepared>, k: nat, path: Path)
    returns (i: nat)
    requires k < |UndoAll(w, tree, published)| && TakesBack(UndoAll(w, tree, published)[k], path)
    ensures i < |published| && published[i].file.path == path
    ensures FoundOwn(tree, UndoAll(w, tree, published), k, published[i].file)
    decreases |published|
  {
    hide UndoOne, Replay;
    var n := |published| - 1;
    var first := UndoOne(w, tree, published[n]);
    var rest := UndoAll(w, Replay(tree, first), published[..n]);
    if k < |first| {
      i := n;
      UndoOneIsCareful(w, tree, published[n], k, path);
      AtPrefix(tree, first, rest, k - 2);
    } else {
      i := UndoIsCareful(w, Replay(tree, first), published[..n], k - |first|, path);
      FoundOwnShift(tree, first, rest, k - |first|, published[i].file);
    }
  }

  /** A target found with other bytes is not touched by the rollback at all. */
  lemma {:induction false} UndoSpares(w: World, tree: Tree, published: seq<Prepared>, i: nat, c: nat)
    requires DistinctEntries(published) && i < |published| && c < |UndoAll(w, tree, published)|
    requires UndoAll(w, tree, published)[c] == Checked(published[i].file.path)
    requires Look(At(tree, UndoAll(w, tree, published), c), published[i].file.path) != Text(published[i].file.content)
    ensures forall k :: 0 <= k < |UndoAll(w, tree, published)| ==> !TakesBack(UndoAll(w, tree, published)[k], published[i].file.path)
    decreases |published|
  {
    var n := |published| - 1;
    hide UndoOne, Replay;
    var path := published[i].file.path;
    var first := UndoOne(w, tree, published[n]);
    var rest := UndoAll(w, Replay(tree, first), published[..n]);
    if c < |first| {
      AtPrefix(tree, first, rest, c);
      UndoOneIsCareful(w, tree, published[n], c, path);
      assert i == n;
      UndoElsewhere(w, Replay(tree, first), published[..n], path);
    } else {
      CheckedIsNamed(w, Replay(tree, first), published[..n], c - |first|, path);
      AtShift(tree, first, rest, c - |first|);
      UndoSpares(w, Replay(tree, first), published[..n], i, c - |first|);
      forall k | 0 <= k < |first|
        ensures !TakesBack(first[k], path)
      {
        UndoOneIsCareful(w, tree, published[n], k, path);
      }
    }
  }

  // ---------------------------------------------------------------- whole runs

  predicate NoRollback(log: seq<Event>) {
    forall k :: 0 <= k < |log| ==> !log[k].Checked? && !log[k].Restored? && !log[k].Withdrawn?
  }

  predicate PublishedAll(published: seq<Prepared>, log: seq<Event>) {
    forall i :: 0 <= i < |published| ==> Published(published[i].file, true) in log
  }

  predicate InOrder(entries: seq<Prepared>, p: Progress) {
    && p.published <= Writing(entries) && (!p.failed ==> p.published == Writing(entries))
    && NoRollback(p.log) && PublishedAll(p.published, p.log)
  }

  lemma StaysInOrder(w: World, start: Tree, older: seq<Prepared>, entry: Prepared, p: Progress)
    requires InOrder(older, p)
    ensures InOrder(older + [entry], PublishOne(w, start, p, entry))
  {
    WritingOne(older, entry);
    hide Replay, Writing;
  }

  /** Publication goes through the batch in order, and records what it publishes. */
  lemma {:induction false} PublishesInOrder(w: World, start: Tree, entries: seq<Prepared>)
    ensures InOrder(entries, PublishAll(w, start, entries))
  {
    if entries != [] {
      hide Replay, InOrder, PublishOne, Writing;
      var n := |entries| - 1;
      PublishesInOrder(w, start, entries[..n]);
      StaysInOrder(w, start, entries[..n], entries[n], PublishAll(w, start, entries[..n]));
      assert entries[..n] + [entries[n]] == entries;
    }
  }

  lemma {:induction false} CleaningIsNoRollback(w: World, tree: Tree, stale: seq<Report>)
    ensures NoRollback(CleanAll(w, tree, stale).0)
  {
    if stale != [] { CleaningIsNoRollback(w, tree, stale[..|stale| - 1]); }
  }

  /** The entries a failed run takes back come from the batch, each once. */
  lemma {:induction false} TakenBackFromBatch(tree: Tree, planned: seq<PlannedFile>, prepared: seq<Prepared>, published: seq<Prepared>)
    requires DistinctPaths(planned) && |prepared| == |planned| && forall i :: 0 <= i < |planned| ==> prepared[i].file == planned[i]
    requires published <= Writing(prepared)
    ensures DistinctEntries(published)
    ensures forall i :: 0 <= i < |published| ==> published[i].file in planned
  {
    WritingFrom(prepared);
    hide Writing;
    assert forall i, j :: 0 <= i < j < |prepared| ==> prepared[i].file.path != prepared[j].file.path;
    forall i | 0 <= i < |published|
      ensures published[i].file in planned
    {
      assert published[i] == Writing(prepared)[i];
      var k :| 0 <= k < |prepared| && prepared[k] == published[i];
      assert planned[k] == published[i].file;
    }
  }

  /** A run that has rollback events is a failed publication followed by its rollback. */
  lemma RollbackRun(w: World, tree: Tree, planned: seq<PlannedFile>, inventory: seq<Path>, force: bool)
    returns (p: Progress)
    requires DistinctPaths(planned) && !NoRollback(WritePlanned(w, tree, planned, inventory, force).0)
    ensures WritePlanned(w, tree, planned, inventory, force).0 == p.log + UndoAll(w, Replay(tree, p.log), p.published)
    ensures NoRollback(p.log) && PublishedAll(p.published, p.log) && DistinctEntries(p.published)
    ensures forall i :: 0 <= i < |p.published| ==> p.published[i].file in planned
  {
    var prepared := PrepareAll(w, tree, planned, force);
    var stale := Leftovers(w, tree, planned, force, inventory);
    p := PublishAll(w, tree, prepared);
    PublishesInOrder(w, tree, prepared);
    CleaningIsNoRollback(w, Replay(tree, p.log), stale);
    hide PublishAll, UndoAll, CleanAll, Replay, Leftovers, AnyRefused, Writing;
    assert p.failed;
    TakenBackFromBatch(tree, planned, prepared, p.published);
  }

  lemma RollbackIsLater(first: seq<Event>, rest: seq<Event>, k: nat, path: Path)
    requires NoRollback(first) && k < |first + rest|
    requires TakesBack((first + rest)[k], path) || (first + rest)[k] == Checked(path)
    ensures k >= |first| && (first + rest)[k] == rest[k - |first|]
  {
  }

  lemma PublishedInPrefix(first: seq<Event>, rest: seq<Event>, file: PlannedFile, k: nat)
    requires Published(file, true) in first && |first| <= k <= |first + rest|
    ensures PublishedBefore(first + rest, k, file)
  {
    var b :| 0 <= b < |first| && first[b] == Published(file, true);
    assert (first + rest)[b] == Published(file, true);
  }

  /**
   With any edits by others, at any point: each write of the rollback is to a target that this run had published, and
   that the rollback found unchanged two events before, with one moment for others in between.
   */
  lemma RollbackIsCareful(
      w: World, tree: Tree, planned: seq<PlannedFile>, inventory: seq<Path>, force: bool, k: nat, path: Path)
      returns (file: PlannedFile)
    requires DistinctPaths(planned)
    requires var log := WritePlanned(w, tree, planned, inventory, force).0; k < |log| && TakesBack(log[k], path)
    ensures var log := WritePlanned(w, tree, planned, inventory, force).0;
            && file in planned && file.path == path
            && FoundOwn(tree, log, k, file) && PublishedBefore(log, k - 2, file)
  {
    hide WritePlanned, PublishedAll, NoRollback, FoundOwn, PublishedBefore;
    var p := RollbackSeen(w, tree, planned, inventory, force, k, path);
    file := UndoFoundOwn(w, tree, p, k, path);
  }

  /** The run has a rollback event. */
  lemma RollbackSeen(w: World, tree: Tree, planned: seq<PlannedFile>, inventory: seq<Path>, force: bool, k: nat, path: Path)
    returns (p: Progress)
    requires DistinctPaths(planned)
    requires var log := WritePlanned(w, tree, planned, inventory, force).0;
             k < |log| && (TakesBack(log[k], path) || log[k] == Checked(path))
    ensures WritePlanned(w, tree, planned, inventory, force).0 == p.log + UndoAll(w, Replay(tree, p.log), p.published)
    ensures NoRollback(p.log) && PublishedAll(p.published, p.log) && DistinctEntries(p.published)
    ensures forall i :: 0 <= i < |p.published| ==> p.published[i].file in planned
  {
    hide WritePlanned;
    p := RollbackRun(w, tree, planned, inventory, force);
  }

  lemma UndoFoundOwn(w: World, tree: Tree, p: Progress, k: nat, path: Path) returns (file: PlannedFile)
    requires NoRollback(p.log) && PublishedAll(p.published, p.log)
    requires var log := p.log + UndoAll(w, Replay(tree, p.log), p.published); k < |log| && TakesBack(log[k], path)
    ensures var log := p.log + UndoAll(w, Replay(tree, p.log), p.published);
            FoundOwn(tree, log, k, file) && PublishedBefore(log, k - 2, file)
    ensures file.path == path && exists i :: 0 <= i < |p.published| && p.published[i].file == file
  {
    var mid := Replay(tree, p.log);
    var undo := UndoAll(w, mid, p.published);
    RollbackIsLater(p.log, undo, k, path);
    hide UndoAll, Replay, FoundOwn, At, NoRollback, PublishedBefore, PublishedAll, TakesBack;
    var i := UndoIsCareful(w, mid, p.published, k - |p.log|, path);
    file := p.published[i].file;
    FoundInTail(tree, p.log, undo, p.published, i, k);
  }

  lemma FoundInTail(tree: Tree, first: seq<Event>, rest: seq<Event>, published: seq<Prepared>, i: nat, k: nat)
    requires |first| <= k < |first + rest| && i < |published| && PublishedAll(published, first)
    requires FoundOwn(Replay(tree, first), rest, k - |first|, published[i].file)
    ensures FoundOwn(tree, first + rest, k, published[i].file)
    ensures k >= 2 && PublishedBefore(first + rest, k - 2, published[i].file)
  {
    FoundOwnShift(tree, first, rest, k - |first|, published[i].file);
    hide FoundOwn, PublishedBefore, Replay;
    PublishedInPrefix(first, rest, published[i].file, k - 2);
  }

  lemma NoneInEither(first: seq<Event>, rest: seq<Event>, path: Path)
    requires NoRollback(first) && forall k :: 0 <= k < |rest| ==> !TakesBack(rest[k], path)
    ensures forall k :: 0 <= k < |first + rest| ==> !TakesBack((first + rest)[k], path)
  {
  }

  /** The bytes a rollback overwrites are this run's exactly if nobody edited that path between its check and its write. */
  lemma OverwritesItsOwnExactly(
      w: World, tree: Tree, planned: seq<PlannedFile>, inventory: seq<Path>, force: bool, k: nat, path: Path)
    requires DistinctPaths(planned)
    requires var log := WritePlanned(w, tree, planned, inventory, force).0; k < |log| && TakesBack(log[k], path)
    ensures var log := WritePlanned(w, tree, planned, inventory, force).0;
            && k >= 2
            && exists file :: file in planned && file.path == path && PublishedBefore(log, k - 2, file)
                 && (Look(At(tree, log, k), path) == Text(file.content) <==> !EditOf(tree, log, k - 1, path))
  {
    var file := RollbackIsCareful(w, tree, planned, inventory, force, k, path);
    var log := WritePlanned(w, tree, planned, inventory, force).0;
    hide WritePlanned, At;
    CheckChangesNothing(tree, log, k - 2);
  }

  lemma CheckChangesNothing(tree: Tree, log: seq<Event>, c: nat)
    requires c < |log| && log[c].Checked?
    ensures At(tree, log, c + 1) == At(tree, log, c)
  {
    hide Replay;
    ReplayOne(tree, log[..c], log[c]);
    assert log[..c] + [log[c]] == log[..c + 1];
  }

  /** A target whose bytes are not this run's when the rollback checks it is not touched by the rollback. */
  lemma ForeignBytesAreSpared(
      w: World, tree: Tree, planned: seq<PlannedFile>, inventory: seq<Path>, force: bool, c: nat, file: PlannedFile)
    requires DistinctPaths(planned) && file in planned
    requires var log := WritePlanned(w, tree, planned, inventory, force).0;
             c < |log| && log[c] == Checked(file.path) && Look(At(tree, log, c), file.path) != Text(file.content)
    ensures var log := WritePlanned(w, tree, planned, inventory, force).0;
            forall k :: 0 <= k < |log| ==> !TakesBack(log[k], file.path)
  {
    hide WritePlanned, PublishedAll, NoRollback;
    var p := RollbackSeen(w, tree, planned, inventory, force, c, file.path);
    UndoSparesForeign(w, tree, planned, p, c, file);
  }

  lemma UndoSparesForeign(w: World, tree: Tree, planned: seq<PlannedFile>, p: Progress, c: nat, file: PlannedFile)
    requires DistinctPaths(planned) && file in planned && NoRollback(p.log) && DistinctEntries(p.published)
    requires forall i :: 0 <= i < |p.published| ==> p.published[i].file in planned
    requires var log := p.log + UndoAll(w, Replay(tree, p.log), p.published);
             c < |log| && log[c] == Checked(file.path) && Look(At(tree, log, c), file.path) != Text(file.content)
    ensures var log := p.log + UndoAll(w, Replay(tree, p.log), p.published);
            forall k :: 0 <= k < |log| ==> !TakesBack(log[k], file.path)
  {
    var mid := Replay(tree, p.log);
    var undo := UndoAll(w, mid, p.published);
    RollbackIsLater(p.log, undo, c, file.path);
    AtShift(tree, p.log, undo, c - |p.log|);
    hide UndoAll, Replay, At, NoRollback, TakesBack;
    CheckedIsNamed(w, mid, p.published, c - |p.log|, file.path);
    var i :| 0 <= i < |p.published| && p.published[i].file.path == file.path;
    OnePerPath(planned, p.published[i].file, file);
    UndoSpares(w, mid, p.published, i, c - |p.log|);
    NoneInEither(p.log, undo, file.path);
  }

  lemma OnePerPath(planned: seq<PlannedFile>, a: PlannedFile, b: PlannedFile)
    requires DistinctPaths(planned) && a in planned && b in planned && a.path == b.path
    ensures a == b
  {
  }

  // ---------------------------------------------------------------- a run that overwrites somebody else's bytes

  const OURS := PlannedFile(0, "ours")
  const BROKEN := PlannedFile(1, "broken")
  const BATCH := [OURS, BROKEN]
  const THEIRS: Tree := map[0 := Regular("theirs")]

  /** The second publication fails, and while the first is being taken back somebody saves another file over it. */
  const INTRUDED := World(
    _ => true, _ => false, true,
    path => Publication(tree => tree, true, if path == 0 then Done else FailedBefore),
    _ => Undoing(tree => tree, _ => THEIRS, Done),
    _ => Cleaning(tree => tree, Done))

  const NOTHING: Tree := map[]

  /** The first file is published and the second is not. */
  lemma ClobberingPublication()
    ensures PrepareAll(INTRUDED, NOTHING, BATCH, false) == [Prepared(OURS, Missing, Written), Prepared(BROKEN, Missing, Written)]
    ensures var ours: Tree := map[0 := Regular("ours")];
            PublishAll(INTRUDED, NOTHING, PrepareAll(INTRUDED, NOTHING, BATCH, false)) ==
              Progress([Foreign(NOTHING), Published(OURS, true), Foreign(ours)], [Prepared(OURS, Missing, Written)], true)
  {
    var a, b := Prepared(OURS, Missing, Written), Prepared(BROKEN, Missing, Written);
    assert PrepareAll(INTRUDED, NOTHING, BATCH, false) == [a, b];
    ReplayNothing(NOTHING);
    assert [a][..0] == [] && [a, b][..1] == [a];
    var e := Event.Published(OURS, true);
    assert PublishAll(INTRUDED, NOTHING, [a]) == Progress([Foreign(NOTHING), e], [a], false);
    ReplayOne(NOTHING, [], Foreign(NOTHING));
    ReplayOne(NOTHING, [Foreign(NOTHING)], e);
    assert [] + [Foreign(NOTHING)] == [Foreign(NOTHING)] && [Foreign(NOTHING)] + [e] == [Foreign(NOTHING), e];
    assert Replay(NOTHING, [Foreign(NOTHING), e]) == map[0 := Regular("ours")];
  }

  /** The rollback then unlinks bytes this run never wrote. */
  lemma ClobberingRun()
    ensures DistinctPaths(BATCH)
    ensures var log := WritePlanned(INTRUDED, NOTHING, BATCH, [], false).0;
            exists k :: 0 < k < |log| && TakesBack(log[k], 0) && Look(At(NOTHING, log, k), 0) == Text("theirs")
                        && EditOf(NOTHING, log, k - 1, 0)
  {
    ClobberingPublication();
    var ours: Tree := map[0 := Regular("ours")];
    var a := Prepared(OURS, Missing, Written);
    var done := [Foreign(NOTHING), Published(OURS, true), Foreign(ours)];
    ReplayOne(NOTHING, done[..2], done[2]);
    assert done[..2] + [done[2]] == done;
    var undo := [Foreign(ours), Checked(0), Foreign(THEIRS), Withdrawn(0)];
    assert UndoOne(INTRUDED, ours, a) == undo;
    assert UndoAll(INTRUDED, ours, [a]) == undo by { assert [a][..0] == []; }
    var log := done + undo;
    assert WritePlanned(INTRUDED, NOTHING, BATCH, [], false).0 == log;
    ReplayOne(NOTHING, log[..5], log[5]);
    assert log[..5] + [log[5]] == log[..6];
    ReplayOne(NOTHING, log[..4], log[4]);
    assert log[..4] + [log[4]] == log[..5];
    ReplayOne(NOTHING, log[..3], log[3]);
    assert log[..3] + [log[3]] == log[..4];
    assert TakesBack(log[6], 0);
  }
}
