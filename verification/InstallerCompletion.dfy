/** When a step succeeds, and what a plan that completes has made of the tree. */
module InstallerCompletion {
  import opened Prelude
  import opened Installer
  import opened InstallerRollback
  import opened InstallerPlans

  // ---------------------------------------------------------------- when a step succeeds

  /** Nothing on the way to the path, nor the path itself, is a file. */
  ghost predicate WayIsClear(t: Tree, p: Path) {
    forall q | q in t && q <= p :: t[q].Directory?
  }

  lemma {:induction false} PrefixesOfParent(p: Path, q: Path)
    requires p != []
    ensures q <= p <==> q == p || q <= Parent(p)
  {
    if q <= p && q != p { assert q == p[..|q|] == Parent(p)[..|q|]; }
    if q <= Parent(p) { assert q == Parent(p)[..|q|] == p[..|q|]; }
  }

  /** Whatever lies on the way to a directory is a directory. */
  lemma {:induction false} WayToDirectory(t: Tree, p: Path)
    requires IsTree(t) && IsDirectory(t, p)
    ensures WayIsClear(t, p)
    decreases |p|
  {
    if p != [] {
      WayToDirectory(t, Parent(p));
      forall q | q in t && q <= p ensures t[q].Directory? { PrefixesOfParent(p, q); }
    }
  }

  lemma {:induction false} CanMakeMeansClear(t: Tree, p: Path)
    requires IsTree(t)
    ensures CanMake(t, p) <==> WayIsClear(t, p)
    decreases |p|
  {
    if p in t {
      if t[p].Directory? { WayToDirectory(t, p); }
    } else {
      CanMakeMeansClear(t, Parent(p));
      forall q | q in t ensures q <= p <==> q <= Parent(p) { PrefixesOfParent(p, q); }
    }
  }

  /** A directory step succeeds exactly when it is only that, no file is in the way, and the directory is there already,
      which is answered so, or the system makes the missing ones. */
  lemma {:induction false} DirectoryStepIsExact(e: Exec, step: InstallStep, a: Answer)
    requires IsTree(e.tree)
    ensures var (e', r) := DoDirectory(e, step, a);
            && (r.Ok? <==> && step.download.None? && step.command.None? && WayIsClear(e.tree, step.path)
                           && (step.path in e.tree || a.mkdirFailsAfter.None?))
            && (r == Ok(Preserved) ==> step.path in e.tree && e' == e)
            && (r == Ok(Created) ==> step.path !in e.tree)
            && r != Ok(Downloaded) && r != Ok(Executed)
  {
    hide IsTree, Make, Missing, DirectoriesAt;
    CanMakeMeansClear(e.tree, step.path);
  }

  /** A download succeeds exactly when it is to the step's path, the path is new and below no file, and the content was
      fetched. */
  lemma {:induction false} DownloadStepIsExact(e: Exec, step: InstallStep, a: Answer)
    requires IsTree(e.tree)
    ensures var (e', r) := DoDownload(e, step, a);
            && (r.Ok? <==> && step.download == Some(step.path) && step.path != [] && step.path !in e.tree
                           && WayIsClear(e.tree, Parent(step.path)) && a.fetch.Fetched?)
            && (r.Ok? ==> r.value == Downloaded && e'.changes == e.changes + [FileAt(step.path)])
  {
    hide IsTree, MakeAll;
    if step.path != [] { CanMakeMeansClear(e.tree, Parent(step.path)); }
  }

  // ---------------------------------------------------------------- what a step makes

  function Content(a: Answer): string {
    if a.fetch.Fetched? then a.fetch.content else []
  }

  /** What was there is unchanged. What is new lies on the way to the step's path and is a directory, except the file
      that the step downloads. */
  ghost predicate Installs(t: Tree, t': Tree, step: InstallStep, content: string) {
    && (forall q | q in t :: q in t' && t'[q] == t[q])
    && (forall q | q in t' && q !in t ::
          q <= step.path
          && t'[q] == if step.action.Download? && q == step.path then File(content) else Directory)
    && step.path in t'
    && (step.action.CreateDirectory? ==> t'[step.path].Directory?)
    && (step.action.Download? ==> step.path !in t)
  }

  lemma {:induction false} MadeAreDirectories(t: Tree, p: Path, q: Path)
    requires IsTree(t) && CanMake(t, p)
    requires q in MakeAll(t, p) && q !in t
    ensures q <= p && MakeAll(t, p)[q].Directory?
  {
    hide IsTree, CanMake, Missing;
    var missing := Missing(t, p);
    forall k: nat | 0 < k <= |missing| ensures MadeAt(missing, k) !in t && MadeAt(missing, k) <= p {
      MissingIsChain(t, p, |missing| - k);
      MissingArePrefixes(t, p, |missing| - k);
    }
    MakingAdds(t, missing, |missing|, q);
    MadeIsNew(t, missing, |missing|, q);
  }

  lemma {:induction false} MadeIsNew(t: Tree, missing: seq<Path>, n: nat, q: Path)
    requires n <= |missing| && q in Make(t, missing, n) && q !in t
    ensures Make(t, missing, n)[q].Directory?
  {
    if n > 0 && q != MadeAt(missing, n) { MadeIsNew(t, missing, n - 1, q); }
  }

  lemma {:induction false} DirectoryInstalls(e: Exec, step: InstallStep, a: Answer)
    requires IsTree(e.tree) && step.action.CreateDirectory? && DoDirectory(e, step, a).1.Ok?
    ensures Installs(e.tree, DoDirectory(e, step, a).0.tree, step, Content(a))
  {
    DirectoryGrows(e, step, a);
    PlannedStepExists(e, step, a);
    var t' := DoDirectory(e, step, a).0.tree;
    forall q | q in t' && q !in e.tree ensures q <= step.path && t'[q].Directory? {
      MadeAreDirectories(e.tree, step.path, q);
    }
  }

  lemma {:induction false} DownloadInstalls(e: Exec, step: InstallStep, a: Answer)
    requires IsTree(e.tree) && step.action.Download? && DoDownload(e, step, a).1.Ok?
    ensures Installs(e.tree, DoDownload(e, step, a).0.tree, step, Content(a))
  {
    DownloadGrows(e, step, a);
    ParentsMade(e.tree, step.path);
    var t' := DoDownload(e, step, a).0.tree;
    hide IsTree, MakeAll, CanMake;
    forall q | q in t' && q !in e.tree
      ensures q <= step.path && t'[q] == if q == step.path then File(Content(a)) else Directory
    {
      if q != step.path {
        MadeAreDirectories(e.tree, Parent(step.path), q);
        PrefixesOfParent(step.path, q);
      }
    }
  }

  /** A step that succeeds installs what it is for, and nothing else. */
  lemma {:induction false} StepInstalls(e: Exec, step: InstallStep, a: Answer)
    requires IsTree(e.tree) && !step.action.RunCommand? && DoStep(e, step, a).1.Ok?
    ensures IsTree(DoStep(e, step, a).0.tree) && Installs(e.tree, DoStep(e, step, a).0.tree, step, Content(a))
  {
    StepGrows(e, step, a);
    hide IsTree, Installs, DoDirectory, DoDownload;
    if step.action.CreateDirectory? { DirectoryInstalls(e, step, a); } else { DownloadInstalls(e, step, a); }
  }

  // ---------------------------------------------------------------- what a plan makes

  /** The first `n` steps of the plan are installed over the initial tree: nothing that was there has changed, every
      directory and every file with its content is there, and nothing else but directories on the way to them. */
  ghost predicate IsInstalled(initial: Tree, t: Tree, steps: seq<InstallStep>, answers: nat -> Answer, n: nat)
    requires n <= |steps|
  {
    && (forall q | q in initial :: q in t && t[q] == initial[q])
    && (forall i | 0 <= i < n && steps[i].action.CreateDirectory? :: IsDirectory(t, steps[i].path))
    && (forall i | 0 <= i < n && steps[i].action.Download? :: IsFile(t, steps[i].path, Content(answers(i))))
    && (forall q | q in t && q !in initial :: IsDirectory(t, q) || IsPlannedFile(steps, n, q))
    && (forall q | q in t && q !in initial :: IsOnTheWay(steps, n, q))
  }

  ghost predicate IsFile(t: Tree, p: Path, content: string) {
    p in t && t[p] == File(content)
  }

  ghost predicate IsPlannedFile(steps: seq<InstallStep>, n: nat, q: Path)
    requires n <= |steps|
  {
    exists i | 0 <= i < n :: steps[i].action.Download? && steps[i].path == q
  }

  ghost predicate IsOnTheWay(steps: seq<InstallStep>, n: nat, q: Path)
    requires n <= |steps|
  {
    exists i | 0 <= i < n :: q <= steps[i].path
  }

  /** What was new before the step is planned all the same, and so is what the step adds. */
  lemma {:induction false} StillPlanned(initial: Tree, t: Tree, t': Tree, steps: seq<InstallStep>,
                                        answers: nat -> Answer, n: nat, q: Path)
    requires n < |steps| && IsInstalled(initial, t, steps, answers, n) && Installs(t, t', steps[n], Content(answers(n)))
    requires q in t' && q !in initial
    ensures (IsDirectory(t', q) || IsPlannedFile(steps, n + 1, q)) && IsOnTheWay(steps, n + 1, q)
  {
    if q in t {
      assert IsOnTheWay(steps, n, q) && (IsDirectory(t, q) || IsPlannedFile(steps, n, q));
    } else {
      assert q <= steps[n].path;
    }
  }

  lemma {:induction false} InstalledOn(initial: Tree, t: Tree, t': Tree, steps: seq<InstallStep>,
                                       answers: nat -> Answer, n: nat)
    requires n < |steps| && IsInstalled(initial, t, steps, answers, n) && !steps[n].action.RunCommand?
    requires Installs(t, t', steps[n], Content(answers(n)))
    ensures IsInstalled(initial, t', steps, answers, n + 1)
  {
    forall q | q in t' && q !in initial
      ensures (IsDirectory(t', q) || IsPlannedFile(steps, n + 1, q)) && IsOnTheWay(steps, n + 1, q)
    {
      StillPlanned(initial, t, t', steps, answers, n, q);
    }
    hide IsPlannedFile, IsOnTheWay;
    forall i | 0 <= i < n + 1 && steps[i].action.CreateDirectory? ensures IsDirectory(t', steps[i].path) {
      if i < n { assert IsDirectory(t, steps[i].path); }
    }
    forall i | 0 <= i < n + 1 && steps[i].action.Download? ensures IsFile(t', steps[i].path, Content(answers(i))) {
      if i < n { assert IsFile(t, steps[i].path, Content(answers(i))); }
    }
  }

  lemma {:induction false} InstallsOn(initial: Tree, e: Exec, steps: seq<InstallStep>, answers: nat -> Answer, i: nat,
                                      tried: bool)
    requires i <= |steps| && IsTree(e.tree) && IsInstalled(initial, e.tree, steps, answers, i)
    requires forall k | 0 <= k < |steps| :: !steps[k].action.RunCommand?
    requires ExecuteFrom(e, steps, answers, i, tried).ok
    ensures var t := ExecuteFrom(e, steps, answers, i, tried).exec.tree;
            IsTree(t) && IsInstalled(initial, t, steps, answers, |steps|)
    decreases |steps| - i
  {
    hide IsTree, IsInstalled, DoStep;
    if i < |steps| {
      StepInstalls(e, steps[i], answers(i));
      var e' := DoStep(e, steps[i], answers(i)).0;
      InstalledOn(initial, e.tree, e'.tree, steps, answers, i);
      InstallsOn(initial, e', steps, answers, i + 1, tried || steps[i].action.RunCommand?);
    }
  }

  /** A plan without commands that completes has installed everything in it over the initial tree, and nothing else. */
  lemma {:induction false} CompletedPlanIsInstalled(initial: Tree, steps: seq<InstallStep>, answers: nat -> Answer)
    requires IsTree(initial) && forall k | 0 <= k < |steps| :: !steps[k].action.RunCommand?
    requires Outcome(initial, steps, answers).1.completed
    ensures var (t, report) := Outcome(initial, steps, answers);
            IsTree(t) && IsInstalled(initial, t, steps, answers, |steps|) && report == Report(true, false, [])
  {
    hide IsTree, ExecuteFrom;
    InstallsOn(initial, Exec(initial, []), steps, answers, 0, false);
  }

  // ---------------------------------------------------------------- what a plan reports

  /** A command step succeeds exactly when it is the step's own program and the command does; what it did to the tree
      stays either way, and nothing of it is tracked. */
  lemma {:induction false} CommandStepIsExact(e: Exec, step: InstallStep, a: Answer)
    ensures var (e', r) := DoCommand(e, step, a);
            && (r.Ok? <==> step.command == Some(step.path) && a.commandOk) && (r.Ok? ==> r.value == Executed)
            && e'.changes == e.changes
            && e'.tree == if step.command == Some(step.path) then a.commandTree else e.tree
  {
  }

  /** Where the execution is when the first `n` steps have succeeded, none of them cancelled before. */
  function ExecAt(initial: Tree, steps: seq<InstallStep>, answers: nat -> Answer, n: nat): Option<Exec>
    requires n <= |steps|
  {
    if n == 0 then Some(Exec(initial, []))
    else match ExecAt(initial, steps, answers, n - 1)
         case None => None
         case Some(e) =>
           var (e', r) := DoStep(e, steps[n - 1], answers(n - 1));
           if !answers(n - 1).cancelled && r.Ok? then Some(e') else None
  }

  /** The step was begun. */
  predicate Begins(initial: Tree, steps: seq<InstallStep>, answers: nat -> Answer, i: nat)
    requires i < |steps|
  {
    ExecAt(initial, steps, answers, i).Some? && !answers(i).cancelled
  }

  ghost predicate BeginsCommand(initial: Tree, steps: seq<InstallStep>, answers: nat -> Answer, from: nat) {
    exists i: nat | from <= i < |steps| :: steps[i].action.RunCommand? && Begins(initial, steps, answers, i)
  }

  lemma {:induction false} NothingAfter(initial: Tree, steps: seq<InstallStep>, answers: nat -> Answer, i: nat, n: nat)
    requires i <= n <= |steps| && ExecAt(initial, steps, answers, i).None?
    ensures ExecAt(initial, steps, answers, n).None?
  {
    if i < n { NothingAfter(initial, steps, answers, i, n - 1); }
  }

  lemma {:induction false} EndsWhereItBreaksOff(initial: Tree, steps: seq<InstallStep>, answers: nat -> Answer, i: nat,
                                                tried: bool)
    requires i <= |steps| && ExecAt(initial, steps, answers, i).Some?
    ensures var ended := ExecuteFrom(ExecAt(initial, steps, answers, i).value, steps, answers, i, tried);
            && (ended.ok <==> ExecAt(initial, steps, answers, |steps|).Some?)
            && (ended.commandTried <==> tried || BeginsCommand(initial, steps, answers, i))
            && (ended.ok ==> ended.exec == ExecAt(initial, steps, answers, |steps|).value)
    decreases |steps| - i
  {
    hide DoStep;
    if i < |steps| {
      var next := ExecAt(initial, steps, answers, i + 1);
      var command := steps[i].action.RunCommand?;
      assert BeginsCommand(initial, steps, answers, i) <==>
             (command && Begins(initial, steps, answers, i)) || BeginsCommand(initial, steps, answers, i + 1);
      if next.Some? {
        EndsWhereItBreaksOff(initial, steps, answers, i + 1, tried || command);
      } else {
        NothingAfter(initial, steps, answers, i + 1, |steps|);
        forall k: nat | i + 1 <= k < |steps| ensures !Begins(initial, steps, answers, k) {
          NothingAfter(initial, steps, answers, i + 1, k);
        }
      }
    }
  }

  /** A plan is reported as completed exactly when every step succeeded and none was cancelled before; otherwise partial
      state is admitted exactly when a command was begun or something could not be undone, and only then are there
      warnings. */
  lemma {:induction false} ReportIsExact(initial: Tree, steps: seq<InstallStep>, answers: nat -> Answer)
    ensures var report := Outcome(initial, steps, answers).1;
            && (report.completed <==> ExecAt(initial, steps, answers, |steps|).Some?)
            && (report.completed ==> !report.partialState && report.warnings == [])
            && (!report.completed ==>
                  (report.partialState <==> BeginsCommand(initial, steps, answers, 0) || report.warnings != []))
  {
    EndsWhereItBreaksOff(initial, steps, answers, 0, false);
  }
}
