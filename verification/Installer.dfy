/** Executing an install plan over a file tree, and rolling it back. */
module Installer {
  import opened Prelude

  // ---------------------------------------------------------------- file trees

  /** An absolute path, from the root down; the root itself is the empty path. */
  type Path = seq<string>

  datatype Node = Directory | File(content: string)

  type Tree = map<Path, Node>

  function Parent(p: Path): Path
    requires p != []
  {
    p[..|p| - 1]
  }

  predicate IsDirectory(t: Tree, p: Path) {
    p in t && t[p].Directory?
  }

  /** Everything but the root lies in a directory. */
  ghost predicate IsTree(t: Tree) {
    IsDirectory(t, []) && forall p | p in t && p != [] :: IsDirectory(t, Parent(p))
  }

  predicate IsEmpty(t: Tree, p: Path) {
    forall q | q in t && q != [] :: Parent(q) != p
  }

  /** The directories missing on the way to `p`, deepest first. */
  function Missing(t: Tree, p: Path): seq<Path>
    decreases |p|
  {
    if p in t then [] else if p == [] then [p] else [p] + Missing(t, Parent(p))
  }

  /** The nearest ancestor that exists is a directory, so that the missing ones can be created. */
  predicate CanMake(t: Tree, p: Path)
    decreases |p|
  {
    if p in t then t[p].Directory? else p != [] && CanMake(t, Parent(p))
  }

  /** Adds the last `n` of the paths as directories, the last one first. */
  function Make(t: Tree, deepestFirst: seq<Path>, n: nat): Tree
    requires n <= |deepestFirst|
  {
    if n == 0 then t else Make(t, deepestFirst, n - 1)[deepestFirst[|deepestFirst| - n] := Directory]
  }

  function MakeAll(t: Tree, p: Path): Tree {
    Make(t, Missing(t, p), |Missing(t, p)|)
  }

  // ---------------------------------------------------------------- plans

  datatype Action = CreateDirectory | Download | RunCommand

  datatype InstallStep = InstallStep(action: Action, path: Path, download: Option<Path>, command: Option<Path>)

  /** What the system answers to a step: whether the plan is cancelled before it, how many directories a
      failing creation had already made, what a download fetched or left behind, what a command did. */
  datatype Fetch = Fetched(content: string) | FetchFailed(parentsMade: bool, left: Option<string>)

  datatype Answer = Answer(cancelled: bool, mkdirFailsAfter: Option<nat>, fetch: Fetch, commandOk: bool,
                           commandTree: Tree)

  datatype Change = FileAt(path: Path) | DirectoryAt(path: Path)

  datatype StepStatus = Created | Preserved | Downloaded | Executed

  /** The tree as it is and the changes that can be undone, oldest first. */
  datatype Exec = Exec(tree: Tree, changes: seq<Change>)

  function Least(a: nat, b: nat): nat {
    if a < b then a else b
  }

  function DirectoriesAt(deepestFirst: seq<Path>, n: nat): seq<Change>
    requires n <= |deepestFirst|
  {
    if n == 0 then [] else DirectoriesAt(deepestFirst, n - 1) + [DirectoryAt(deepestFirst[|deepestFirst| - n])]
  }

  /** `execute_directory`. */
  function DoDirectory(e: Exec, step: InstallStep, a: Answer): (Exec, Result<StepStatus>) {
    if step.download.Some? || step.command.Some? then (e, Err(ConfigInvalid))
    else if IsDirectory(e.tree, step.path) then (e, Ok(Preserved))
    else if step.path in e.tree then (e, Err(InstallFailed))
    else
      var missing := Missing(e.tree, step.path);
      if !CanMake(e.tree, step.path) then (e, Err(InstallFailed))
      else if a.mkdirFailsAfter.Some?
        then (e.(tree := Make(e.tree, missing, Least(a.mkdirFailsAfter.value, |missing|))), Err(InstallFailed))
      else (Exec(Make(e.tree, missing, |missing|), e.changes + DirectoriesAt(missing, |missing|)), Ok(Created))
  }

  /** The downloader on the tree: it creates the parent directories before it fetches. */
  function Downloader(t: Tree, p: Path, fetch: Fetch): (Tree, bool)
    requires p != []
  {
    if !CanMake(t, Parent(p)) then (t, false)
    else
      var ready := MakeAll(t, Parent(p));
      match fetch
      case Fetched(content) => (ready[p := File(content)], true)
      case FetchFailed(parentsMade, left) =>
        (if left.Some? then ready[p := File(left.value)] else if parentsMade then ready else t, false)
  }

  /** `execute_download`. */
  function DoDownload(e: Exec, step: InstallStep, a: Answer): (Exec, Result<StepStatus>) {
    if step.download.None? then (e, Err(ConfigInvalid))
    else if step.download.value != step.path then (e, Err(ConfigInvalid))
    else if step.path in e.tree || step.path == [] then (e, Err(InstallFailed))
    else
      var (tree, ok) := Downloader(e.tree, step.path, a.fetch);
      if ok then (Exec(tree, e.changes + [FileAt(step.path)]), Ok(Downloaded))
        else (e.(tree := tree), Err(InstallFailed))
  }

  /** `execute_command`: the command may do anything to the tree. */
  function DoCommand(e: Exec, step: InstallStep, a: Answer): (Exec, Result<StepStatus>) {
    if step.command.None? then (e, Err(ConfigInvalid))
    else if step.command.value != step.path then (e, Err(ConfigInvalid))
    else (e.(tree := a.commandTree), if a.commandOk then Ok(Executed) else Err(InstallFailed))
  }

  function DoStep(e: Exec, step: InstallStep, a: Answer): (Exec, Result<StepStatus>) {
    match step.action
    case CreateDirectory => DoDirectory(e, step, a)
    case Download => DoDownload(e, step, a)
    case RunCommand => DoCommand(e, step, a)
  }

  datatype Ended = Ended(exec: Exec, ok: bool, commandTried: bool)

  /** The step loop from position `i` on. */
  function ExecuteFrom(e: Exec, steps: seq<InstallStep>, answers: nat -> Answer, i: nat, tried: bool): Ended
    requires i <= |steps|
    decreases |steps| - i
  {
    if i == |steps| then Ended(e, true, tried)
    else if answers(i).cancelled then Ended(e, false, tried)
    else
      var (e', r) := DoStep(e, steps[i], answers(i));
      var tried' := tried || steps[i].action.RunCommand?;
      if r.Ok? then ExecuteFrom(e', steps, answers, i + 1, tried') else Ended(e', false, tried')
  }

  // ---------------------------------------------------------------- rollback

  /** Undoing one change: the tree after it and whether it worked. */
  function Undo(t: Tree, c: Change): (Tree, bool) {
    if c.path !in t then (t, true)
    else match c
         case FileAt(p) => if t[p].File? then (t - {p}, true) else (t, false)
         case DirectoryAt(p) => if t[p].Directory? && IsEmpty(t, p) then (t - {p}, true) else (t, false)
  }

  /** Undoing the changes, the newest first: the tree and the paths that could not be undone. */
  function Rollback(t: Tree, changes: seq<Change>): (Tree, seq<Path>) {
    if changes == [] then (t, [])
    else
      var n := |changes| - 1;
      var (t', ok) := Undo(t, changes[n]);
      var (t'', warnings) := Rollback(t', changes[..n]);
      (t'', (if ok then [] else [changes[n].path]) + warnings)
  }

  /** The report of a run. */
  datatype Report = Report(completed: bool, partialState: bool, warnings: seq<Path>)

  const PLAN_SCHEMA := 1

  datatype ExecutionMode = DryRun | Execute

  /** The tree and the report that executing the steps ends with. */
  function Outcome(tree: Tree, steps: seq<InstallStep>, answers: nat -> Answer): (Tree, Report) {
    var ended := ExecuteFrom(Exec(tree, []), steps, answers, 0, false);
    if ended.ok then (ended.exec.tree, Report(true, false, []))
    else
      var (t, warnings) := Rollback(ended.exec.tree, ended.exec.changes);
      (t, Report(false, ended.commandTried || warnings != [], warnings))
  }

  class InstallExecutor {
    var tree: Tree

    constructor (tree: Tree)
      ensures this.tree == tree
    {
      this.tree := tree;
    }

    /** The ancestor walk of `execute_directory`. */
    static method FindMissing(tree: Tree, path: Path) returns (missing: seq<Path>)
      ensures missing == Missing(tree, path)
    {
      missing := [];
      var candidate: Option<Path> := Some(path);
      while candidate.Some?
        invariant Missing(tree, path) == missing + if candidate.Some? then Missing(tree, candidate.value) else []
        decreases if candidate.Some? then |candidate.value| + 1 else 0
      {
        if candidate.value in tree { break; }
        missing := missing + [candidate.value];
        candidate := if candidate.value == [] then None else Some(Parent(candidate.value));
      }
    }

    method ExecuteDirectory(step: InstallStep, a: Answer, changes: seq<Change>) returns (r: Result<StepStatus>,
                            changes': seq<Change>)
      modifies this
      ensures (Exec(tree, changes'), r) == DoDirectory(Exec(old(tree), changes), step, a)
    {
      changes' := changes;
      if step.download.Some? || step.command.Some? { return Err(ConfigInvalid), changes; }
      if IsDirectory(tree, step.path) { return Ok(Preserved), changes; }
      if step.path in tree { return Err(InstallFailed), changes; }
      var missing := FindMissing(tree, step.path);
      if !CanMake(tree, step.path) { return Err(InstallFailed), changes; }
      if a.mkdirFailsAfter.Some? {
        tree := Make(tree, missing, Least(a.mkdirFailsAfter.value, |missing|));
        return Err(InstallFailed), changes;
      }
      tree := Make(tree, missing, |missing|);
      return Ok(Created), changes + DirectoriesAt(missing, |missing|);
    }

    /** `rollback_failure`: pops the changes one by one. */
    method RollbackFailure(changes: seq<Change>, commandTried: bool) returns (report: Report)
      modifies this
      ensures var (t, warnings) := Rollback(old(tree), changes);
              tree == t && report == Report(false, commandTried || warnings != [], warnings)
    {
      var rest, warnings := changes, [];
      while rest != []
        invariant Rollback(old(tree), changes).0 == Rollback(tree, rest).0
        invariant Rollback(old(tree), changes).1 == warnings + Rollback(tree, rest).1
        decreases |rest|
      {
        var change := rest[|rest| - 1];
        rest := rest[..|rest| - 1];
        var (t, ok) := Undo(tree, change);
        tree := t;
        if !ok { warnings := warnings + [change.path]; }
      }
      return Report(false, commandTried || warnings != [], warnings);
    }

    /** `run`: a preview and a plan of another schema touch nothing; any failure or cancellation of an
        execution ends in a rollback. */
    method Run(schema: nat, mode: ExecutionMode, steps: seq<InstallStep>,
               answers: nat -> Answer) returns (report: Report)
      modifies this
      ensures schema != PLAN_SCHEMA || mode.DryRun? ==>
                tree == old(tree) && report == Report(schema == PLAN_SCHEMA, false, [])
      ensures schema == PLAN_SCHEMA && mode.Execute? ==> (tree, report) == Outcome(old(tree), steps, answers)
    {
      if schema != PLAN_SCHEMA { return Report(false, false, []); }
      if mode.DryRun? { return Report(true, false, []); }
      var changes: seq<Change> := [];
      var commandTried := false;
      for i := 0 to |steps|
        invariant ExecuteFrom(Exec(old(tree), []), steps, answers, 0, false) == ExecuteFrom(Exec(tree, changes), steps,
                                                                                            answers, i, commandTried)
      {
        if answers(i).cancelled {
          report := RollbackFailure(changes, commandTried);
          return;
        }
        var r: Result<StepStatus>;
        if steps[i].action.CreateDirectory? {
          r, changes := ExecuteDirectory(steps[i], answers(i), changes);
        } else {
          commandTried := commandTried || steps[i].action.RunCommand?;
          var (e, status) := DoStep(Exec(tree, changes), steps[i], answers(i));
          tree, changes, r := e.tree, e.changes, status;
        }
        if r.Err? {
          report := RollbackFailure(changes, commandTried);
          return;
        }
      }
      return Report(true, false, []);
    }
  }
}
