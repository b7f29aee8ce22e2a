/**
 `agenc init`: one batch of generated files is published as a whole or taken back. What other processes do to the
 tree between two calls, and how each call ends, is the `World`; what a run does is a log of events.
 */
module InitPublish {
  import opened Wrappers

  type Path = nat
  type Content = seq<char>

  /** What a path leads to. `Odd` is anything but a readable regular file. */
  datatype File = Regular(content: Content) | Odd

  type Tree = map<Path, File>

  /** `readRegularFileNoFollow` */
  datatype Target = Missing | Text(content: Content) | Unsafe

  function Look(tree: Tree, path: Path): Target {
    if path !in tree then Missing else if tree[path].Odd? then Unsafe else Text(tree[path].content)
  }

  datatype PlannedFile = PlannedFile(path: Path, content: Content)

  datatype Status = Written | Unchanged | Removed | Refused

  datatype Prepared = Prepared(file: PlannedFile, existing: Target, status: Status)

  datatype Report = Report(path: Path, status: Status)

  predicate DistinctPaths(planned: seq<PlannedFile>) {
    forall i, j :: 0 <= i < j < |planned| ==> planned[i].path != planned[j].path
  }

  predicate IsPlanned(planned: seq<PlannedFile>, path: Path) {
    exists i :: 0 <= i < |planned| && planned[i].path == path
  }

  // ---------------------------------------------------------------- the world around a run

  /** How one atomic operation ends. A failure may come before its effect, or after it, in the directory sync. */
  datatype Outcome = Done | FailedBefore | FailedAfter

  /** What others do to the whole tree before a call. */
  type Edit = Tree -> Tree

  /** Before a target is published; whether its directories are still safe; how the publication ends. */
  datatype Publication = Publication(edit: Edit, ready: bool, outcome: Outcome)

  /** Before the rollback's check of a target, and between that check and its write; how the write ends. */
  datatype Undoing = Undoing(early: Edit, between: Edit, outcome: Outcome)

  datatype Cleaning = Cleaning(edit: Edit, outcome: Outcome)

  /** `inspectable`: a target's directories can be trusted; `owned`: a file carries the generator's marker. */
  datatype World = World(
    inspectable: Path -> bool, owned: Content -> bool, ready: bool,
    publish: Path -> Publication, undo: Path -> Undoing, clean: Path -> Cleaning)

  /** Nobody else writes. */
  ghost predicate Quiet(w: World) {
    forall path, tree ::
      && w.publish(path).edit(tree) == tree && w.undo(path).early(tree) == tree
      && w.undo(path).between(tree) == tree && w.clean(path).edit(tree) == tree
  }

  /** No rollback write fails before its effect. */
  ghost predicate UndoWorks(w: World) {
    forall path :: !w.undo(path).outcome.FailedBefore?
  }

  // ---------------------------------------------------------------- events

  datatype Event =
    | Foreign(after: Tree)
    | Published(file: PlannedFile, synced: bool)
    | Checked(path: Path)
    | Restored(path: Path, content: Content)
    | Withdrawn(path: Path)
    | Stuck(path: Path)
    | Cleaned(path: Path)

  function Apply(tree: Tree, e: Event): Tree {
    match e
    case Foreign(after) => after
    case Published(file, _) => tree[file.path := Regular(file.content)]
    case Restored(path, content) => tree[path := Regular(content)]
    case Withdrawn(path) => tree - {path}
    case Cleaned(path) => tree - {path}
    case _ => tree
  }

  function Replay(tree: Tree, log: seq<Event>): Tree {
    if log == [] then tree else Apply(Replay(tree, log[..|log| - 1]), log[|log| - 1])
  }

  /** The rollback's writes. */
  predicate TakesBack(e: Event, path: Path) {
    (e.Restored? && e.path == path) || (e.Withdrawn? && e.path == path)
  }

  lemma {:induction false} ReplayMore(tree: Tree, log: seq<Event>, more: seq<Event>)
    ensures Replay(tree, log + more) == Replay(Replay(tree, log), more)
    decreases |more|
  {
    if more == [] {
      assert log + more == log;
    } else {
      var n := |more| - 1;
      ReplayMore(tree, log, more[..n]);
      assert (log + more)[..|log| + n] == log + more[..n];
    }
  }

  lemma ReplayNothing(tree: Tree)
    ensures Replay(tree, []) == tree
  {
  }

  lemma ReplayOne(tree: Tree, log: seq<Event>, e: Event)
    ensures Replay(tree, log + [e]) == Apply(Replay(tree, log), e)
  {
    assert (log + [e])[..|log|] == log;
  }

  // ---------------------------------------------------------------- preflight

  /** The preflight verdict on one target. */
  function Judge(file: PlannedFile, target: Target, force: bool): Status {
    if target.Unsafe? then Refused
    else if target == Text(file.content) then Unchanged
    else if target.Text? && !force then Refused
    else Written
  }

  function Prepare(w: World, tree: Tree, file: PlannedFile, force: bool): Prepared {
    if w.inspectable(file.path) then Prepared(file, Look(tree, file.path), Judge(file, Look(tree, file.path), force))
    else Prepared(file, Unsafe, Refused)
  }

  function PrepareAll(w: World, tree: Tree, planned: seq<PlannedFile>, force: bool): seq<Prepared> {
    seq(|planned|, i requires 0 <= i < |planned| => Prepare(w, tree, planned[i], force))
  }

  /** The verdict on one generated file that is not planned: nothing if it does not exist. */
  function Leftover(w: World, tree: Tree, planned: seq<PlannedFile>, force: bool, path: Path): Option<Status> {
    if IsPlanned(planned, path) then None
    else if !w.inspectable(path) then Some(Refused)
    else
      match Look(tree, path)
      case Missing => None
      case Unsafe => Some(Refused)
      case Text(content) => Some(if force && w.owned(content) then Removed else Refused)
  }

  function Leftovers(w: World, tree: Tree, planned: seq<PlannedFile>, force: bool, inventory: seq<Path>): seq<Report> {
    if inventory == [] then []
    else
      var path := inventory[|inventory| - 1];
      var verdict := Leftover(w, tree, planned, force, path);
      Leftovers(w, tree, planned, force, inventory[..|inventory| - 1])
      + (if verdict.Some? then [Report(path, verdict.value)] else [])
  }

  /** Every generated file that exists and is not planned is reported, and nothing else is. */
  lemma {:induction false} LeftoversExactly(
      w: World, tree: Tree, planned: seq<PlannedFile>, force: bool, inventory: seq<Path>, path: Path, status: Status)
    ensures Report(path, status) in Leftovers(w, tree, planned, force, inventory) <==>
              && path in inventory && !IsPlanned(planned, path)
              && (if w.inspectable(path) && Look(tree, path).Text? && force && w.owned(Look(tree, path).content)
                  then status == Removed
                  else status == Refused && (!w.inspectable(path) || path in tree))
  {
    if inventory != [] {
      LeftoversExactly(w, tree, planned, force, inventory[..|inventory| - 1], path, status);
      assert inventory == inventory[..|inventory| - 1] + [inventory[|inventory| - 1]];
    }
  }

  predicate AnyRefused(prepared: seq<Prepared>, stale: seq<Report>) {
    || (exists i :: 0 <= i < |prepared| && prepared[i].status.Refused?)
    || (exists i :: 0 <= i < |stale| && stale[i].status.Refused?)
  }

  function Refusal(s: Status): Status { if s.Unchanged? then Unchanged else Refused }

  /** The refusal of the whole batch: only files that already had their content are not refused. */
  function Refusals(prepared: seq<Prepared>, stale: seq<Report>): seq<Report> {
    seq(|prepared|, i requires 0 <= i < |prepared| => Report(prepared[i].file.path, Refusal(prepared[i].status)))
    + seq(|stale|, i requires 0 <= i < |stale| => Report(stale[i].path, Refused))
  }

  // ---------------------------------------------------------------- publication, rollback, cleaning

  /** How far publication has come. */
  datatype Progress = Progress(log: seq<Event>, published: seq<Prepared>, failed: bool)

  /** One target: revalidated, then written beside its place and moved there. */
  function PublishOne(w: World, start: Tree, p: Progress, entry: Prepared): Progress {
    if entry.status.Unchanged? || p.failed then p
    else
      var here := w.publish(entry.file.path);
      var tree := here.edit(Replay(start, p.log));
      var log := p.log + [Foreign(tree)];
      if !here.ready || here.outcome.FailedBefore? || (!entry.existing.Text? && entry.file.path in tree)
      then Progress(log, p.published, true)
      else
        var done := here.outcome.Done?;
        Progress(log + [Published(entry.file, done)], if done then p.published + [entry] else p.published, !done)
  }

  function PublishAll(w: World, start: Tree, entries: seq<Prepared>): Progress {
    if entries == [] then Progress([], [], false)
    else PublishOne(w, start, PublishAll(w, start, entries[..|entries| - 1]), entries[|entries| - 1])
  }

  /** The rollback's write of one target. */
  function UndoWrite(tree: Tree, entry: Prepared, outcome: Outcome): Event {
    if entry.existing.Text? then
      if outcome.FailedBefore? then Stuck(entry.file.path) else Restored(entry.file.path, entry.existing.content)
    else if outcome.FailedBefore? || entry.file.path !in tree then Stuck(entry.file.path)
    else Withdrawn(entry.file.path)
  }

  /** One publication taken back, unless its target no longer holds what was published. */
  function UndoOne(w: World, tree: Tree, entry: Prepared): seq<Event> {
    var here := w.undo(entry.file.path);
    var t1 := here.early(tree);
    if Look(t1, entry.file.path) != Text(entry.file.content) then [Foreign(t1), Checked(entry.file.path)]
    else
      var t2 := here.between(t1);
      [Foreign(t1), Checked(entry.file.path), Foreign(t2), UndoWrite(t2, entry, here.outcome)]
  }

  /** Rollback in reverse order. */
  function UndoAll(w: World, tree: Tree, published: seq<Prepared>): seq<Event>
    decreases |published|
  {
    if published == [] then []
    else
      var first := UndoOne(w, tree, published[|published| - 1]);
      first + UndoAll(w, Replay(tree, first), published[..|published| - 1])
  }

  /** One leftover: revalidated, then removed. */
  function CleanOne(w: World, tree: Tree, path: Path): (seq<Event>, Status) {
    var here := w.clean(path);
    var t1 := here.edit(tree);
    var target := Look(t1, path);
    if !target.Text? || !w.owned(target.content) || here.outcome.FailedBefore? then ([Foreign(t1)], Refused)
    else ([Foreign(t1), Cleaned(path)], if here.outcome.Done? then Removed else Refused)
  }

  function CleanAll(w: World, tree: Tree, stale: seq<Report>): (seq<Event>, seq<Report>) {
    if stale == [] then ([], [])
    else
      var (log, reports) := CleanAll(w, tree, stale[..|stale| - 1]);
      var path := stale[|stale| - 1].path;
      var (more, status) := CleanOne(w, Replay(tree, log), path);
      (log + more, reports + [Report(path, status)])
  }

  /** `writePlanned`: what a run does and what it reports. */
  function WritePlanned(w: World, tree: Tree, planned: seq<PlannedFile>, inventory: seq<Path>, force: bool)
    : (seq<Event>, seq<Report>)
  {
    var prepared := PrepareAll(w, tree, planned, force);
    var stale := Leftovers(w, tree, planned, force, inventory);
    if AnyRefused(prepared, stale) || (!w.ready && exists i :: 0 <= i < |prepared| && prepared[i].status.Written?)
    then ([], Refusals(prepared, stale))
    else
      var p := PublishAll(w, tree, prepared);
      if p.failed then (p.log + UndoAll(w, Replay(tree, p.log), p.published), Refusals(prepared, stale))
      else
        var (log, reports) := CleanAll(w, Replay(tree, p.log), stale);
        (p.log + log, Reports(prepared) + reports)
  }

  function Reports(prepared: seq<Prepared>): seq<Report> {
    seq(|prepared|, i requires 0 <= i < |prepared| =>
      Report(prepared[i].file.path, if prepared[i].status.Unchanged? then Unchanged else Written))
  }
}
