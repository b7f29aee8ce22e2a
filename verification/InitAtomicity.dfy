/** What a run of the publisher guarantees when nobody interferes. */
module InitAtomicity {
  import opened Wrappers
  import opened InitPublish

  /** The tree once the planned content of these entries is in place. */
  function Publish(tree: Tree, entries: seq<Prepared>): Tree {
    if entries == [] then tree
    else Publish(tree, entries[..|entries| - 1])[entries[|entries| - 1].file.path := Regular(entries[|entries| - 1].file.content)]
  }

  /** The entries look at the tree as it was, and name different paths. */
  predicate Faithful(tree: Tree, entries: seq<Prepared>) {
    && (forall i :: 0 <= i < |entries| ==> entries[i].existing == Look(tree, entries[i].file.path) && !entries[i].existing.Unsafe?)
    && (forall i, j :: 0 <= i < j < |entries| ==> entries[i].file.path != entries[j].file.path)
  }

  /** Publication reaches only the paths of its entries. */
  lemma {:induction false} PublishAway(tree: Tree, entries: seq<Prepared>, path: Path)
    requires forall i :: 0 <= i < |entries| ==> entries[i].file.path != path
    ensures path in Publish(tree, entries) <==> path in tree
    ensures path in tree ==> Publish(tree, entries)[path] == tree[path]
  {
    if entries != [] { PublishAway(tree, entries[..|entries| - 1], path); }
  }

  /** And leaves each of them with its content. */
  lemma {:induction false} PublishAt(tree: Tree, entries: seq<Prepared>, i: nat)
    requires Faithful(tree, entries) && i < |entries|
    ensures Look(Publish(tree, entries), entries[i].file.path) == Text(entries[i].file.content)
  {
    var n := |entries| - 1;
    if i < n {
      assert entries[..n][i] == entries[i];
      assert entries[i].file.path != entries[n].file.path;
      PublishAt(tree, entries[..n], i);
    }
  }

  /** Taking the last publication back gives the tree before it. */
  lemma UndoLast(tree: Tree, entries: seq<Prepared>)
    requires entries != [] && Faithful(tree, entries)
    ensures var last := entries[|entries| - 1];
            var before := Publish(tree, entries[..|entries| - 1]);
            && Look(Publish(tree, entries), last.file.path) == Text(last.file.content)
            && (last.existing.Text? ==> Publish(tree, entries)[last.file.path := Regular(last.existing.content)] == before)
            && (last.existing.Missing? ==> Publish(tree, entries) - {last.file.path} == before)
  {
    var last := entries[|entries| - 1];
    PublishAway(tree, entries[..|entries| - 1], last.file.path);
    PublishAt(tree, entries, |entries| - 1);
  }

  /** A late failure at another path does not get in the way of taking the last publication back. */
  lemma UndoUnder(start: Tree, entries: seq<Prepared>, late: Option<PlannedFile>, tree: Tree)
    requires entries != [] && Faithful(start, entries) && tree == WithLate(Publish(start, entries), late)
    requires late.Some? ==> entries[|entries| - 1].file.path != late.value.path
    ensures var last := entries[|entries| - 1];
            && Look(tree, last.file.path) == Text(last.file.content)
            && (last.existing.Text? ==>
                  tree[last.file.path := Regular(last.existing.content)] == WithLate(Publish(start, entries[..|entries| - 1]), late))
            && (last.existing.Missing? ==>
                  tree - {last.file.path} == WithLate(Publish(start, entries[..|entries| - 1]), late))
  {
    UndoLast(start, entries);
  }

  /** The entries that are to be written, in order. */
  function Writing(prepared: seq<Prepared>): seq<Prepared> {
    if prepared == [] then []
    else
      var last := prepared[|prepared| - 1];
      Writing(prepared[..|prepared| - 1]) + (if last.status.Unchanged? then [] else [last])
  }

  /** The tree, with the content of a late failure in place if there was one. */
  function WithLate(tree: Tree, late: Option<PlannedFile>): Tree {
    if late.Some? then tree[late.value.path := Regular(late.value.content)] else tree
  }

  /** No planned file was refused. */
  predicate Succeeded(planned: seq<PlannedFile>, results: seq<Report>) {
    |results| >= |planned| && forall i :: 0 <= i < |planned| ==> !results[i].status.Refused?
  }

  /** Every planned file has its content, and nothing else changed but marker-owned leftovers that are gone. */
  predicate AllPublished(before: Tree, after: Tree, planned: seq<PlannedFile>, inventory: seq<Path>, owned: Content -> bool) {
    && (forall i :: 0 <= i < |planned| ==> Look(after, planned[i].path) == Text(planned[i].content))
    && (forall path :: path in after && !IsPlanned(planned, path) ==> path in before && after[path] == before[path])
    && (forall path :: path in before && path !in after ==>
          path in inventory && Look(before, path).Text? && owned(Look(before, path).content))
  }

  /** What the preflight guarantees about a tree. */
  predicate Judged(tree: Tree, planned: seq<PlannedFile>, prepared: seq<Prepared>, force: bool) {
    && |prepared| == |planned|
    && forall i :: 0 <= i < |planned| ==>
         && prepared[i].file == planned[i]
         && (prepared[i].status.Refused?
             || (prepared[i].existing == Look(tree, planned[i].path)
                 && prepared[i].status == Judge(planned[i], Look(tree, planned[i].path), force)))
  }

  lemma RefusedBeforehand(
      tree: Tree, planned: seq<PlannedFile>, prepared: seq<Prepared>, stale: seq<Report>, force: bool,
      inventory: seq<Path>, owned: Content -> bool)
    requires Judged(tree, planned, prepared, force)
    ensures Succeeded(planned, Refusals(prepared, stale)) ==> AllPublished(tree, tree, planned, inventory, owned)
  {
    var results := Refusals(prepared, stale);
    if Succeeded(planned, results) {
      forall i | 0 <= i < |planned|
        ensures Look(tree, planned[i].path) == Text(planned[i].content)
      {
        assert results[i].status == Refusal(prepared[i].status);
      }
    }
  }

  /** Every entry to be written comes from the batch, in the batch's order. */
  lemma {:induction false} WritingFrom(prepared: seq<Prepared>)
    ensures forall k :: 0 <= k < |Writing(prepared)| ==> Writing(prepared)[k] in prepared && !Writing(prepared)[k].status.Unchanged?
    ensures forall i :: 0 <= i < |prepared| && !prepared[i].status.Unchanged? ==> prepared[i] in Writing(prepared)
    ensures (forall i, j :: 0 <= i < j < |prepared| ==> prepared[i].file.path != prepared[j].file.path) ==>
              forall k, l :: 0 <= k < l < |Writing(prepared)| ==> Writing(prepared)[k].file.path != Writing(prepared)[l].file.path
  {
    if prepared != [] {
      var n := |prepared| - 1;
      WritingFrom(prepared[..n]);
      assert forall x :: x in prepared[..n] ==> x in prepared;
      var w := Writing(prepared[..n]);
      forall k | 0 <= k < |w| && (forall i, j :: 0 <= i < j < |prepared| ==> prepared[i].file.path != prepared[j].file.path)
        ensures w[k].file.path != prepared[n].file.path
      {
        assert w[k] in prepared[..n];
      }
    }
  }

  lemma WritingIsFaithful(tree: Tree, planned: seq<PlannedFile>, prepared: seq<Prepared>, force: bool)
    requires DistinctPaths(planned) && Judged(tree, planned, prepared, force)
    requires forall i :: 0 <= i < |prepared| ==> !prepared[i].status.Refused?
    ensures Faithful(tree, Writing(prepared))
  {
    WritingFrom(prepared);
    hide Writing;
    forall k | 0 <= k < |Writing(prepared)|
      ensures Writing(prepared)[k].existing == Look(tree, Writing(prepared)[k].file.path)
      ensures !Writing(prepared)[k].existing.Unsafe?
    {
      var i :| 0 <= i < |prepared| && prepared[i] == Writing(prepared)[k];
    }
  }

  /** What was published before a failure, and the target at which it failed. */
  lemma PublishedPart(tree: Tree, planned: seq<PlannedFile>, prepared: seq<Prepared>, published: seq<Prepared>)
    requires Faithful(tree, Writing(prepared)) && published <= Writing(prepared) && |published| < |Writing(prepared)|
    requires |prepared| == |planned| && forall i :: 0 <= i < |planned| ==> prepared[i].file == planned[i]
    ensures Faithful(tree, published)
    ensures forall i :: 0 <= i < |published| ==> published[i].file.path != Writing(prepared)[|published|].file.path
    ensures Writing(prepared)[|published|].file in planned
    ensures forall stale :: !Succeeded(planned, Refusals(prepared, stale))
  {
    WritingFrom(prepared);
    hide Writing;
    var next := Writing(prepared)[|published|];
    assert forall i :: 0 <= i < |published| ==> published[i] == Writing(prepared)[i];
    var i :| 0 <= i < |prepared| && prepared[i] == next;
    assert planned[i] == next.file;
    forall stale
      ensures !Succeeded(planned, Refusals(prepared, stale))
    {
      assert Refusals(prepared, stale)[i].status == Refused;
    }
  }

  /** A target that needed no publication is named by no published entry. */
  lemma {:induction false} UnchangedIsElsewhere(planned: seq<PlannedFile>, prepared: seq<Prepared>, i: nat)
    requires DistinctPaths(planned) && |prepared| == |planned| && i < |planned|
    requires forall k :: 0 <= k < |planned| ==> prepared[k].file == planned[k]
    requires prepared[i].status.Unchanged?
    ensures forall k :: 0 <= k < |Writing(prepared)| ==> Writing(prepared)[k].file.path != planned[i].path
  {
    WritingFrom(prepared);
    hide Writing;
    forall k | 0 <= k < |Writing(prepared)|
      ensures Writing(prepared)[k].file.path != planned[i].path
    {
      var l :| 0 <= l < |prepared| && prepared[l] == Writing(prepared)[k];
      assert l != i;
      assert planned[l] == prepared[l].file && planned[l].path != planned[i].path;
    }
  }

  /** A complete publication leaves each target with its content. */
  lemma {:induction false} PublishedTarget(
      before: Tree, planned: seq<PlannedFile>, prepared: seq<Prepared>, force: bool, i: nat)
    requires DistinctPaths(planned) && Judged(before, planned, prepared, force) && i < |planned|
    requires Faithful(before, Writing(prepared)) && !prepared[i].status.Refused?
    ensures Look(Publish(before, Writing(prepared)), planned[i].path) == Text(planned[i].content)
  {
    hide Writing, Publish, Faithful;
    if prepared[i].status.Unchanged? {
      UnchangedIsElsewhere(planned, prepared, i);
      PublishAway(before, Writing(prepared), planned[i].path);
    } else {
      WritingFrom(prepared);
      var k :| 0 <= k < |Writing(prepared)| && Writing(prepared)[k] == prepared[i];
      PublishAt(before, Writing(prepared), k);
    }
  }

  /** Publication reaches nothing that was not planned. */
  lemma PublishedElsewhere(before: Tree, planned: seq<PlannedFile>, prepared: seq<Prepared>, force: bool, path: Path)
    requires Judged(before, planned, prepared, force) && !IsPlanned(planned, path)
    ensures var complete := Publish(before, Writing(prepared));
            (path in complete <==> path in before) && (path in before ==> complete[path] == before[path])
  {
    WritingFrom(prepared);
    hide Writing, Publish;
    var writing := Writing(prepared);
    forall k | 0 <= k < |writing|
      ensures writing[k].file.path != path
    {
      var l :| 0 <= l < |prepared| && prepared[l] == writing[k];
      assert planned[l] == writing[k].file;
    }
    PublishAway(before, writing, path);
  }

  lemma PublishedWhole(
      before: Tree, complete: Tree, after: Tree, planned: seq<PlannedFile>, prepared: seq<Prepared>, force: bool,
      inventory: seq<Path>, stale: seq<Report>, owned: Content -> bool)
    requires DistinctPaths(planned) && Judged(before, planned, prepared, force)
    requires Faithful(before, Writing(prepared)) && complete == Publish(before, Writing(prepared))
    requires forall i :: 0 <= i < |stale| ==> !IsPlanned(planned, stale[i].path) && stale[i].path in inventory
    requires forall path :: path in after ==> path in complete && after[path] == complete[path]
    requires forall path :: path in complete && path !in after ==>
               (exists i :: 0 <= i < |stale| && stale[i].path == path)
               && Look(complete, path).Text? && owned(Look(complete, path).content)
    requires forall i :: 0 <= i < |prepared| ==> !prepared[i].status.Refused?
    ensures AllPublished(before, after, planned, inventory, owned)
  {
    hide Writing, Publish, Faithful, Judged;
    forall i | 0 <= i < |planned|
      ensures Look(complete, planned[i].path) == Text(planned[i].content) && IsPlanned(planned, planned[i].path)
    {
      assert !prepared[i].status.Refused? by { SameLength(before, planned, prepared, force); }
      PublishedTarget(before, planned, prepared, force, i);
    }
    forall path | !IsPlanned(planned, path)
      ensures (path in complete <==> path in before) && (path in before ==> complete[path] == before[path])
    {
      PublishedElsewhere(before, planned, prepared, force, path);
    }
    hide IsPlanned;
  }

  lemma SameLength(tree: Tree, planned: seq<PlannedFile>, prepared: seq<Prepared>, force: bool)
    requires Judged(tree, planned, prepared, force)
    ensures |prepared| == |planned|
  {
  }

  // ---------------------------------------------------------------- quiet runs

  /** The target whose publication failed after its new content was in place, if there is one. */
  function LateOf(log: seq<Event>): Option<PlannedFile> {
    if log == [] then None
    else
      var e := log[|log| - 1];
      if e.Published? && !e.synced then Some(e.file) else LateOf(log[..|log| - 1])
  }

  lemma LateOfMore(log: seq<Event>, e: Event)
    ensures LateOf(log + [e]) == if e.Published? && !e.synced then Some(e.file) else LateOf(log)
  {
    assert (log + [e])[..|log|] == log;
  }

  lemma PublishMore(tree: Tree, entries: seq<Prepared>, entry: Prepared)
    ensures Publish(tree, entries + [entry]) == Publish(tree, entries)[entry.file.path := Regular(entry.file.content)]
  {
    assert (entries + [entry])[..|entries|] == entries;
  }

  /** What a quiet publication has done so far. */
  ghost predicate PublishedSoFar(start: Tree, entries: seq<Prepared>, p: Progress) {
    && Replay(start, p.log) == WithLate(Publish(start, p.published), LateOf(p.log))
    && p.published <= Writing(entries)
    && (!p.failed ==> p.published == Writing(entries) && LateOf(p.log).None?)
    && (p.failed ==> |p.published| < |Writing(entries)|)
    && (LateOf(p.log).Some? ==> p.failed && LateOf(p.log).value == Writing(entries)[|p.published|].file)
  }

  /** A publication that fails before its effect. */
  lemma QuietFailure(start: Tree, older: seq<Prepared>, entry: Prepared, p: Progress)
    requires PublishedSoFar(start, older, p) && !p.failed && !entry.status.Unchanged?
    ensures PublishedSoFar(start, older + [entry], Progress(p.log + [Foreign(Replay(start, p.log))], p.published, true))
  {
    var e := Foreign(Replay(start, p.log));
    WritingOne(older, entry);
    ReplayOne(start, p.log, e);
    LateOfMore(p.log, e);
    hide Replay, LateOf, Writing, Publish;
  }

  /** A publication that takes effect, and may fail after it. */
  lemma QuietWrite(start: Tree, older: seq<Prepared>, entry: Prepared, p: Progress, done: bool)
    requires PublishedSoFar(start, older, p) && !p.failed && !entry.status.Unchanged?
    ensures PublishedSoFar(start, older + [entry],
              Progress(p.log + [Foreign(Replay(start, p.log))] + [Event.Published(entry.file, done)],
                       if done then p.published + [entry] else p.published, !done))
  {
    var e, log := Foreign(Replay(start, p.log)), p.log + [Foreign(Replay(start, p.log))];
    WritingOne(older, entry);
    ReplayOne(start, p.log, e);
    LateOfMore(p.log, e);
    ReplayOne(start, log, Event.Published(entry.file, done));
    LateOfMore(log, Event.Published(entry.file, done));
    PublishMore(start, p.published, entry);
    hide Replay, LateOf, Writing, Publish;
  }

  lemma QuietSkip(start: Tree, older: seq<Prepared>, entry: Prepared, p: Progress)
    requires PublishedSoFar(start, older, p) && (entry.status.Unchanged? || p.failed)
    ensures PublishedSoFar(start, older + [entry], p)
  {
    WritingOne(older, entry);
    hide Replay, LateOf, Writing, Publish;
  }

  lemma QuietStep(w: World, start: Tree, older: seq<Prepared>, entry: Prepared, p: Progress)
    requires Quiet(w) && PublishedSoFar(start, older, p)
    ensures PublishedSoFar(start, older + [entry], PublishOne(w, start, p, entry))
  {
    var here, tree := w.publish(entry.file.path), Replay(start, p.log);
    assert here.edit(tree) == tree;
    hide Quiet, PublishedSoFar, Replay;
    if entry.status.Unchanged? || p.failed {
      QuietSkip(start, older, entry, p);
    } else if !here.ready || here.outcome.FailedBefore? || (!entry.existing.Text? && entry.file.path in tree) {
      QuietFailure(start, older, entry, p);
    } else {
      QuietWrite(start, older, entry, p, here.outcome.Done?);
    }
  }

  lemma WritingOne(older: seq<Prepared>, entry: Prepared)
    ensures Writing(older + [entry]) == Writing(older) + (if entry.status.Unchanged? then [] else [entry])
  {
    assert (older + [entry])[..|older|] == older;
  }

  lemma {:induction false} QuietPublication(w: World, start: Tree, entries: seq<Prepared>)
    requires Quiet(w)
    ensures PublishedSoFar(start, entries, PublishAll(w, start, entries))
  {
    if entries == [] {
    } else {
      hide Quiet, PublishedSoFar, PublishOne;
      var n := |entries| - 1;
      QuietPublication(w, start, entries[..n]);
      QuietStep(w, start, entries[..n], entries[n], PublishAll(w, start, entries[..n]));
      assert entries[..n] + [entries[n]] == entries;
    }
  }

  /** Taking back one publication in a quiet tree. */
  lemma QuietUndo(w: World, tree: Tree, entry: Prepared)
    requires Quiet(w) && UndoWorks(w) && Look(tree, entry.file.path) == Text(entry.file.content) && !entry.existing.Unsafe?
    ensures Replay(tree, UndoOne(w, tree, entry)) ==
              if entry.existing.Text? then tree[entry.file.path := Regular(entry.existing.content)] else tree - {entry.file.path}
  {
    var e := UndoWrite(tree, entry, w.undo(entry.file.path).outcome);
    var path := entry.file.path;
    assert w.undo(path).early(tree) == tree && w.undo(path).between(tree) == tree && !w.undo(path).outcome.FailedBefore?;
    hide Quiet, UndoWorks;
    ReplayNothing(tree);
    ReplayOne(tree, [], Foreign(tree));
    ReplayOne(tree, [Foreign(tree)], Checked(path));
    ReplayOne(tree, [Foreign(tree), Checked(path)], Foreign(tree));
    ReplayOne(tree, [Foreign(tree), Checked(path), Foreign(tree)], e);
    assert [] + [Foreign(tree)] == [Foreign(tree)];
    assert [Foreign(tree)] + [Checked(path)] == [Foreign(tree), Checked(path)];
    assert [Foreign(tree), Checked(path)] + [Foreign(tree)] == [Foreign(tree), Checked(path), Foreign(tree)];
    assert [Foreign(tree), Checked(path), Foreign(tree)] + [e] == UndoOne(w, tree, entry);
  }

  /** Quiet rollback gives back the tree before the run, but for a late failure. */
  lemma {:induction false} QuietRollback(w: World, start: Tree, tree: Tree, published: seq<Prepared>, late: Option<PlannedFile>)
    requires Quiet(w) && UndoWorks(w) && Faithful(start, published) && tree == WithLate(Publish(start, published), late)
    requires late.Some? ==> forall i :: 0 <= i < |published| ==> published[i].file.path != late.value.path
    ensures Replay(tree, UndoAll(w, tree, published)) == WithLate(start, late)
    decreases |published|
  {
    if published != [] {
      var n := |published| - 1;
      UndoUnder(start, published, late, tree);
      QuietUndo(w, tree, published[n]);
      var first := UndoOne(w, tree, published[n]);
      hide UndoOne, Quiet, UndoWorks, Publish;
      QuietRollback(w, start, Replay(tree, first), published[..n], late);
      ReplayMore(tree, first, UndoAll(w, Replay(tree, first), published[..n]));
    }
  }

  /** The tree after cleaning, against the tree before it. */
  predicate Cleans(w: World, before: Tree, after: Tree, stale: seq<Report>) {
    && (forall path :: path in after ==> path in before && after[path] == before[path])
    && (forall path :: path in before && path !in after ==>
          (exists i :: 0 <= i < |stale| && stale[i].path == path)
          && Look(before, path).Text? && w.owned(Look(before, path).content))
  }

  lemma QuietRemoval(w: World, tree: Tree, path: Path)
    requires Quiet(w)
    ensures var after := Replay(tree, CleanOne(w, tree, path).0);
            after == tree || (Look(tree, path).Text? && w.owned(Look(tree, path).content) && after == tree - {path})
  {
    assert w.clean(path).edit(tree) == tree;
    hide Quiet;
    ReplayNothing(tree);
    ReplayOne(tree, [], Foreign(tree));
    ReplayOne(tree, [Foreign(tree)], Cleaned(path));
    assert [] + [Foreign(tree)] == [Foreign(tree)];
    assert [Foreign(tree)] + [Cleaned(path)] == [Foreign(tree), Cleaned(path)];
  }

  lemma CleansMore(w: World, before: Tree, mid: Tree, after: Tree, older: seq<Report>, r: Report)
    requires Cleans(w, before, mid, older)
    requires after == mid || (Look(mid, r.path).Text? && w.owned(Look(mid, r.path).content) && after == mid - {r.path})
    ensures Cleans(w, before, after, older + [r])
  {
    assert forall i :: 0 <= i < |older| ==> (older + [r])[i] == older[i];
    assert (older + [r])[|older|] == r;
  }

  lemma {:induction false} QuietCleaning(w: World, tree: Tree, stale: seq<Report>)
    requires Quiet(w)
    ensures Cleans(w, tree, Replay(tree, CleanAll(w, tree, stale).0), stale)
    ensures |CleanAll(w, tree, stale).1| == |stale|
  {
    if stale == [] {
      ReplayNothing(tree);
    } else {
      hide Quiet, Cleans, Replay, CleanOne;
      var n := |stale| - 1;
      QuietCleaning(w, tree, stale[..n]);
      var log := CleanAll(w, tree, stale[..n]).0;
      var more := CleanOne(w, Replay(tree, log), stale[n].path).0;
      QuietRemoval(w, Replay(tree, log), stale[n].path);
      ReplayMore(tree, log, more);
      CleansMore(w, tree, Replay(tree, log), Replay(tree, log + more), stale[..n], stale[n]);
      assert stale[..n] + [stale[n]] == stale;
    }
  }

  lemma PreparedIsJudged(w: World, tree: Tree, planned: seq<PlannedFile>, force: bool)
    ensures Judged(tree, planned, PrepareAll(w, tree, planned, force), force)
  {
  }

  predicate AreUnplanned(planned: seq<PlannedFile>, inventory: seq<Path>, stale: seq<Report>) {
    forall i :: 0 <= i < |stale| ==> !IsPlanned(planned, stale[i].path) && stale[i].path in inventory
  }

  lemma LeftoversAreUnplanned(w: World, tree: Tree, planned: seq<PlannedFile>, force: bool, inventory: seq<Path>)
    ensures AreUnplanned(planned, inventory, Leftovers(w, tree, planned, force, inventory))
  {
    var stale := Leftovers(w, tree, planned, force, inventory);
    forall i | 0 <= i < |stale|
      ensures !IsPlanned(planned, stale[i].path) && stale[i].path in inventory
    {
      LeftoversExactly(w, tree, planned, force, inventory, stale[i].path, stale[i].status);
      assert stale[i] == Report(stale[i].path, stale[i].status);
    }
  }

  /**
   All or nothing. With distinct planned paths, nobody else writing and a rollback that works: either every planned
   file has its content and only marker-owned leftovers are gone besides, or the tree is as it was, but for a target
   whose publication failed after its new content was in place.
   */
  lemma AllOrNothing(w: World, tree: Tree, planned: seq<PlannedFile>, inventory: seq<Path>, force: bool)
    requires DistinctPaths(planned) && Quiet(w) && UndoWorks(w)
    ensures var (log, results) := WritePlanned(w, tree, planned, inventory, force);
            var after := Replay(tree, log);
            && (Succeeded(planned, results) ==> AllPublished(tree, after, planned, inventory, w.owned))
            && (!Succeeded(planned, results) ==> after == WithLate(tree, LateOf(log)))
            && (LateOf(log).Some? ==> LateOf(log).value in planned && !Succeeded(planned, results))
  {
    var prepared := PrepareAll(w, tree, planned, force);
    var stale := Leftovers(w, tree, planned, force, inventory);
    PreparedIsJudged(w, tree, planned, force);
    ReplayNothing(tree);
    if AnyRefused(prepared, stale) || (!w.ready && exists i :: 0 <= i < |prepared| && prepared[i].status.Written?) {
      RefusedBeforehand(tree, planned, prepared, stale, force, inventory, w.owned);
      hide PrepareAll, Leftovers, AllPublished;
      NothingLate();
    } else {
      var p := PublishAll(w, tree, prepared);
      hide PrepareAll, PublishAll, UndoAll, CleanAll, Writing, Publish, AllPublished, Replay, Quiet, UndoWorks, LateOf;
      QuietPublication(w, tree, prepared);
      WritingIsFaithful(tree, planned, prepared, force);
      SameLength(tree, planned, prepared, force);
      hide Faithful, PublishedSoFar, Succeeded, Refusals, Reports, WithLate, AreUnplanned;
      if p.failed {
        FailedRun(w, tree, planned, prepared, stale, p);
      } else {
        LeftoversAreUnplanned(w, tree, planned, force, inventory);
        hide Leftovers;
        CompleteRun(w, tree, planned, prepared, stale, inventory, force, p);
      }
    }
  }

  lemma NothingLate()
    ensures LateOf([]).None?
  {
  }

  /** Rollback and cleaning publish nothing. */
  lemma {:induction false} NoneLateAfter(log: seq<Event>, more: seq<Event>)
    requires forall i :: 0 <= i < |more| ==> !more[i].Published?
    ensures LateOf(log + more) == LateOf(log)
    decreases |more|
  {
    if more == [] {
      assert log + more == log;
    } else {
      var n := |more| - 1;
      NoneLateAfter(log, more[..n]);
      LateOfMore(log + more[..n], more[n]);
      assert log + more == log + more[..n] + [more[n]];
    }
  }

  lemma {:induction false} UndoingPublishesNothing(w: World, tree: Tree, published: seq<Prepared>)
    ensures forall i :: 0 <= i < |UndoAll(w, tree, published)| ==> !UndoAll(w, tree, published)[i].Published?
    decreases |published|
  {
    if published != [] {
      var first := UndoOne(w, tree, published[|published| - 1]);
      UndoingPublishesNothing(w, Replay(tree, first), published[..|published| - 1]);
    }
  }

  lemma {:induction false} CleaningPublishesNothing(w: World, tree: Tree, stale: seq<Report>)
    ensures forall i :: 0 <= i < |CleanAll(w, tree, stale).0| ==> !CleanAll(w, tree, stale).0[i].Published?
  {
    if stale != [] { CleaningPublishesNothing(w, tree, stale[..|stale| - 1]); }
  }

  lemma FailedRun(
      w: World, tree: Tree, planned: seq<PlannedFile>, prepared: seq<Prepared>, stale: seq<Report>, p: Progress)
    requires Quiet(w) && UndoWorks(w) && PublishedSoFar(tree, prepared, p) && p.failed
    requires Faithful(tree, Writing(prepared))
    requires |prepared| == |planned| && forall i :: 0 <= i < |planned| ==> prepared[i].file == planned[i]
    ensures var log := p.log + UndoAll(w, Replay(tree, p.log), p.published);
            && Replay(tree, log) == WithLate(tree, LateOf(log))
            && !Succeeded(planned, Refusals(prepared, stale))
            && (LateOf(log).Some? ==> LateOf(log).value in planned)
  {
    PublishedPart(tree, planned, prepared, p.published);
    var mid := Replay(tree, p.log);
    var undo := UndoAll(w, mid, p.published);
    hide Writing, Publish, Quiet, UndoWorks, UndoAll, Replay, Succeeded, Refusals;
    QuietRollback(w, tree, mid, p.published, LateOf(p.log));
    ReplayMore(tree, p.log, undo);
    UndoingPublishesNothing(w, mid, p.published);
    NoneLateAfter(p.log, undo);
  }

  lemma CompleteRun(
      w: World, tree: Tree, planned: seq<PlannedFile>, prepared: seq<Prepared>, stale: seq<Report>, inventory: seq<Path>,
      force: bool, p: Progress)
    requires Quiet(w) && PublishedSoFar(tree, prepared, p) && !p.failed && DistinctPaths(planned)
    requires Judged(tree, planned, prepared, force) && Faithful(tree, Writing(prepared))
    requires forall i :: 0 <= i < |prepared| ==> !prepared[i].status.Refused?
    requires AreUnplanned(planned, inventory, stale)
    ensures var (cleaning, reports) := CleanAll(w, Replay(tree, p.log), stale);
            var log := p.log + cleaning;
            && AllPublished(tree, Replay(tree, log), planned, inventory, w.owned)
            && LateOf(log).None? && Succeeded(planned, Reports(prepared) + reports)
  {
    var mid := Replay(tree, p.log);
    var (cleaning, reports) := CleanAll(w, mid, stale);
    SameLength(tree, planned, prepared, force);
    hide Writing, Publish, Quiet, CleanAll, Replay, AllPublished, Judged, Faithful;
    assert Succeeded(planned, Reports(prepared) + reports);
    hide Succeeded, Reports, LateOf;
    QuietCleaning(w, mid, stale);
    ReplayMore(tree, p.log, cleaning);
    CleaningPublishesNothing(w, mid, stale);
    NoneLateAfter(p.log, cleaning);
    PublishedWhole(tree, mid, Replay(tree, p.log + cleaning), planned, prepared, force, inventory, stale, w.owned);
  }
}
