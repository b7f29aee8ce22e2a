/** `writePlanned` as it runs: lists that grow, a flag, and a tree changed step by step. */
module InitProject {
  import opened Wrappers
  import opened InitPublish

  class Project {
    const world: World
    var tree: Tree
    ghost var log: seq<Event>

    constructor (world: World, tree: Tree)
      ensures this.world == world && this.tree == tree && log == []
    {
      this.world, this.tree, log := world, tree, [];
    }

    /** What happened since `log0`, when the tree was `tree0`. */
    ghost predicate Did(tree0: Tree, log0: seq<Event>, more: seq<Event>)
      reads this
    {
      log == log0 + more && tree == Replay(tree0, more)
    }

    /** Other processes act. */
    method Others(edit: Edit)
      modifies this
      ensures tree == edit(old(tree)) && log == old(log) + [Foreign(tree)]
    {
      tree := edit(tree);
      log := log + [Foreign(tree)];
    }

    /** `publishAtomic`: write a temporary file, then rename or link it into place, then sync the directory. */
    method PublishAtomic(path: Path, content: Content, overwrite: bool, fate: Outcome, ghost e: Event) returns (r: Outcome)
      requires Apply(tree, e) == tree[path := Regular(content)]
      modifies this
      ensures r == if !overwrite && path in old(tree) then FailedBefore else fate
      ensures r.FailedBefore? ==> tree == old(tree) && log == old(log)
      ensures !r.FailedBefore? ==> tree == old(tree)[path := Regular(content)] && log == old(log) + [e]
    {
      if fate.FailedBefore? || (!overwrite && path in tree) { return FailedBefore; }
      tree := tree[path := Regular(content)];
      log := log + [e];
      return fate;
    }

    /** `unlinkSync`, then a directory sync that may fail. */
    method Remove(path: Path, fate: Outcome, ghost e: Event) returns (r: Outcome)
      requires Apply(tree, e) == tree - {path}
      modifies this
      ensures r == if path !in old(tree) then FailedBefore else fate
      ensures r.FailedBefore? ==> tree == old(tree) && log == old(log)
      ensures !r.FailedBefore? ==> tree == old(tree) - {path} && log == old(log) + [e]
    {
      if fate.FailedBefore? || path !in tree { return FailedBefore; }
      tree := tree - {path};
      log := log + [e];
      return fate;
    }

    /** The read-only preflight of the planned files. */
    method Preflight(planned: seq<PlannedFile>, force: bool) returns (prepared: seq<Prepared>)
      ensures prepared == PrepareAll(world, tree, planned, force)
    {
      prepared := [];
      for i := 0 to |planned|
        invariant prepared == PrepareAll(world, tree, planned, force)[..i]
      {
        var file := planned[i];
        if world.inspectable(file.path) {
          var target := Look(tree, file.path);
          prepared := prepared + [Prepared(file, target, Judge(file, target, force))];
        } else {
          prepared := prepared + [Prepared(file, Unsafe, Refused)];
        }
      }
    }

    /** Generated files of other layouts: removed with force if they carry the marker, else a reason to refuse. */
    method FindStale(planned: seq<PlannedFile>, inventory: seq<Path>, force: bool) returns (stale: seq<Report>)
      ensures stale == Leftovers(world, tree, planned, force, inventory)
    {
      stale := [];
      for i := 0 to |inventory|
        invariant stale == Leftovers(world, tree, planned, force, inventory[..i])
      {
        assert inventory[..i + 1][..i] == inventory[..i];
        var path := inventory[i];
        if !IsPlanned(planned, path) {
          var target := Look(tree, path);
          if !world.inspectable(path) {
            stale := stale + [Report(path, Refused)];
          } else if !target.Missing? {
            var mine := target.Text? && world.owned(target.content) && force;
            stale := stale + [Report(path, if mine then Removed else Refused)];
          }
        }
      }
      assert inventory[..|inventory|] == inventory;
    }

    /** Publication in order: the first failure stops it, and what came before is remembered. */
    method Publish(prepared: seq<Prepared>) returns (reports: seq<Report>, published: seq<Prepared>, failed: bool)
      modifies this
      ensures var p := InitPublish.PublishAll(world, old(tree), prepared);
              Did(old(tree), old(log), p.log) && published == p.published && failed == p.failed
      ensures !failed ==> reports == Reports(prepared)
    {
      hide Replay;
      reports, published, failed := [], [], false;
      ReplayNothing(tree);
      for i := 0 to |prepared|
        invariant var p := InitPublish.PublishAll(world, old(tree), prepared[..i]);
                  Did(old(tree), old(log), p.log) && published == p.published && failed == p.failed
        invariant !failed ==> reports == Reports(prepared)[..i]
      {
        assert prepared[..i + 1][..i] == prepared[..i];
        var entry := prepared[i];
        ghost var p := InitPublish.PublishAll(world, old(tree), prepared[..i]);
        if entry.status.Unchanged? {
          reports := reports + [Report(entry.file.path, Unchanged)];
        } else if failed {
          reports := reports + [Report(entry.file.path, Refused)];
        } else {
          var here := world.publish(entry.file.path);
          Others(here.edit);
          ReplayOne(old(tree), p.log, Foreign(tree));
          if !here.ready {
            reports, failed := reports + [Report(entry.file.path, Refused)], true;
          } else {
            ghost var e := Event.Published(entry.file, here.outcome.Done?);
            ReplayOne(old(tree), p.log + [Foreign(tree)], e);
            assert p.log + [Foreign(tree)] + [e] == p.log + [Foreign(tree), e];
            var outcome := PublishAtomic(entry.file.path, entry.file.content, entry.existing.Text?, here.outcome, e);
            if outcome.Done? {
              reports, published := reports + [Report(entry.file.path, Written)], published + [entry];
            } else {
              reports, failed := reports + [Report(entry.file.path, Refused)], true;
            }
          }
        }
      }
      assert prepared[..|prepared|] == prepared;
    }

    /** Take one publication back, unless the target no longer holds what was published. */
    method RollBackOne(entry: Prepared)
      modifies this
      ensures Did(old(tree), old(log), UndoOne(world, old(tree), entry))
    {
      var here := world.undo(entry.file.path);
      Others(here.early);
      var current := Look(tree, entry.file.path);
      log := log + [Checked(entry.file.path)];
      if current != Text(entry.file.content) { return; }
      Others(here.between);
      ghost var e := UndoWrite(tree, entry, here.outcome);
      if entry.existing.Text? {
        var outcome := PublishAtomic(entry.file.path, entry.existing.content, true, here.outcome, Restored(entry.file.path, entry.existing.content));
        if outcome.FailedBefore? { log := log + [Stuck(entry.file.path)]; }
      } else {
        var outcome := Remove(entry.file.path, here.outcome, Withdrawn(entry.file.path));
        if outcome.FailedBefore? { log := log + [Stuck(entry.file.path)]; }
      }
    }

    /** Rollback in reverse order. */
    method RollBack(published: seq<Prepared>)
      modifies this
      ensures Did(old(tree), old(log), UndoAll(world, old(tree), published))
    {
      hide UndoOne, Replay, UndoWrite;
      ReplayNothing(tree);
      var i := |published|;
      ghost var done: seq<Event> := [];
      assert published[..i] == published;
      while i > 0
        invariant 0 <= i <= |published|
        invariant Did(old(tree), old(log), done)
        invariant UndoAll(world, old(tree), published) == done + UndoAll(world, tree, published[..i])
      {
        i := i - 1;
        assert published[..i + 1][..i] == published[..i];
        ghost var more := UndoOne(world, tree, published[i]);
        ReplayMore(old(tree), done, more);
        RollBackOne(published[i]);
        done := done + more;
      }
      assert published[..0] == [] && done + [] == done;
    }

    /** After a complete publication: marker-owned leftovers of other layouts go, everything else stays. */
    method RemoveStale(stale: seq<Report>) returns (reports: seq<Report>)
      modifies this
      ensures Did(old(tree), old(log), CleanAll(world, old(tree), stale).0)
      ensures reports == CleanAll(world, old(tree), stale).1
    {
      reports := [];
      for i := 0 to |stale|
        invariant Did(old(tree), old(log), CleanAll(world, old(tree), stale[..i]).0)
        invariant reports == CleanAll(world, old(tree), stale[..i]).1
      {
        assert stale[..i + 1][..i] == stale[..i];
        var path := stale[i].path;
        ghost var done := CleanAll(world, old(tree), stale[..i]).0;
        ReplayMore(old(tree), done, CleanOne(world, tree, path).0);
        var here := world.clean(path);
        Others(here.edit);
        var current := Look(tree, path);
        if !current.Text? || !world.owned(current.content) {
          reports := reports + [Report(path, Refused)];
        } else {
          var outcome := Remove(path, here.outcome, Cleaned(path));
          reports := reports + [Report(path, if outcome.Done? then Removed else Refused)];
        }
      }
      assert stale[..|stale|] == stale;
    }

    /** `writePlanned` */
    method Write(planned: seq<PlannedFile>, inventory: seq<Path>, force: bool) returns (results: seq<Report>)
      modifies this
      ensures var (events, reports) := WritePlanned(world, old(tree), planned, inventory, force);
              Did(old(tree), old(log), events) && results == reports
    {
      hide Replay, InitPublish.PublishAll, UndoAll, CleanAll, PrepareAll, Leftovers, Refusals, Reports, AnyRefused;
      ReplayNothing(tree);
      var prepared := Preflight(planned, force);
      var stale := FindStale(planned, inventory, force);
      if AnyRefused(prepared, stale) { return Refusals(prepared, stale); }
      if !world.ready && exists i :: 0 <= i < |prepared| && prepared[i].status.Written? {
        return Refusals(prepared, stale);
      }
      ghost var p := InitPublish.PublishAll(world, tree, prepared);
      var reports, published, failed := Publish(prepared);
      if failed {
        ReplayMore(old(tree), p.log, UndoAll(world, tree, published));
        RollBack(published);
        return Refusals(prepared, stale);
      }
      ReplayMore(old(tree), p.log, CleanAll(world, tree, stale).0);
      var removed := RemoveStale(stale);
      results := reports + removed;
    }
  }
}
