/** Which plans are rolled back without a trace, whatever goes wrong. */
module InstallerPlans {
  import opened Prelude
  import opened Installer
  import opened InstallerRollback
  import opened InstallerReport

  /** Every failing operation leaves the tree as it was, except that a failed download may leave its parents. */
  ghost predicate FailuresAreClean(answers: nat -> Answer) {
    forall i: nat ::
      && (answers(i).mkdirFailsAfter.Some? ==> answers(i).mkdirFailsAfter.value == 0)
      && (answers(i).fetch.FetchFailed? ==> answers(i).fetch.left.None?)
  }

  /** The execution fails or is cancelled before any command. */
  ghost predicate FailsBeforeCommands(initial: Tree, steps: seq<InstallStep>, answers: nat -> Answer) {
    var ended := ExecuteFrom(Exec(initial, []), steps, answers, 0, false);
    !ended.ok && !ended.commandTried
  }

  // ---------------------------------------------------------------- covered downloads

  ghost predicate CommandBefore(steps: seq<InstallStep>, i: nat)
    requires i <= |steps|
  {
    exists j :: 0 <= j < i && steps[j].action.RunCommand?
  }

  /** The path is on the way to a directory that a step before `i` creates. */
  ghost predicate MadeBefore(steps: seq<InstallStep>, i: nat, p: Path)
    requires i <= |steps|
  {
    exists j :: 0 <= j < i && steps[j].action.CreateDirectory? && p <= steps[j].path
  }

  /** A download before the commands finds its parent in the initial tree, or an earlier step creates it. */
  ghost predicate IsCovered(initial: Tree, steps: seq<InstallStep>, i: nat)
    requires i < |steps|
  {
    steps[i].action.Download? && steps[i].path != [] && !CommandBefore(steps, i) ==>
      Parent(steps[i].path) in initial || MadeBefore(steps, i, Parent(steps[i].path))
  }

  ghost predicate AllCovered(initial: Tree, steps: seq<InstallStep>) {
    forall i | 0 <= i < |steps| :: IsCovered(initial, steps, i)
  }

  /** What the steps before `i` were to create exists. */
  ghost predicate PlannedExist(t: Tree, steps: seq<InstallStep>, i: nat)
    requires i <= |steps|
  {
    forall j | 0 <= j < i && steps[j].action.CreateDirectory? :: steps[j].path in t
  }

  lemma {:induction false} PlannedStepExists(e: Exec, step: InstallStep, a: Answer)
    requires step.action.CreateDirectory? && DoStep(e, step, a).1.Ok?
    ensures step.path in DoStep(e, step, a).0.tree
  {
    if step.path !in e.tree {
      var missing := Missing(e.tree, step.path);
      assert MadeAt(missing, |missing|) == step.path;
    }
  }

  lemma {:induction false} CoveredParentExists(initial: Tree, t: Tree, steps: seq<InstallStep>, i: nat)
    requires i < |steps| && IsTree(t) && (forall q | q in initial :: q in t) && PlannedExist(t, steps, i)
    requires steps[i].action.Download? && steps[i].path != [] && !CommandBefore(steps, i)
             && IsCovered(initial, steps, i)
    ensures Parent(steps[i].path) in t
  {
    var p := Parent(steps[i].path);
    if p !in initial {
      var j :| 0 <= j < i && steps[j].action.CreateDirectory? && p <= steps[j].path;
      AncestorsExist(t, steps[j].path, |p|);
      assert steps[j].path[..|p|] == p;
    }
  }

  /** A step whose parents exist, and that fails cleanly, leaves nothing untracked. */
  lemma {:induction false} CoveredStepIsTracked(initial: Tree, e: Exec, steps: seq<InstallStep>, i: nat, a: Answer)
    requires i < |steps| && Going(initial, e) && PlannedExist(e.tree, steps, i) && !CommandBefore(steps, i)
    requires IsCovered(initial, steps, i)
    requires a.mkdirFailsAfter.Some? ==> a.mkdirFailsAfter.value == 0
    requires a.fetch.FetchFailed? ==> a.fetch.left.None?
    ensures !LeavesUntracked(e.tree, steps[i], a)
  {
    hide IsTree, PlannedExist, CanMake, IsCovered;
    if steps[i].action.Download? && steps[i].path != [] { CoveredParentExists(initial, e.tree, steps, i); }
  }

  lemma {:induction false} CoveredAreTracked(initial: Tree, e: Exec, steps: seq<InstallStep>,
                                             answers: nat -> Answer, i: nat)
    requires i <= |steps| && Going(initial, e) && PlannedExist(e.tree, steps, i) && !CommandBefore(steps, i)
    requires AllCovered(initial, steps) && FailuresAreClean(answers)
    requires !ExecuteFrom(e, steps, answers, i, false).commandTried
    ensures !SomethingUntracked(e, steps, answers, i)
    decreases |steps| - i
  {
    hide IsTree, DoStep, Going, IsCovered, LeavesUntracked;
    if i < |steps| && !answers(i).cancelled {
      CommandIsRemembered(DoStep(e, steps[i], answers(i)).0, steps, answers, i + 1);
      assert !steps[i].action.RunCommand?;
      CoveredStepIsTracked(initial, e, steps, i, answers(i));
      var (e', r) := DoStep(e, steps[i], answers(i));
      if r.Ok? {
        PlannedGoOn(initial, e, steps, answers(i), i);
        CoveredAreTracked(initial, e', steps, answers, i + 1);
      }
    }
  }

  lemma {:induction false} PlannedGoOn(initial: Tree, e: Exec, steps: seq<InstallStep>, a: Answer, i: nat)
    requires i < |steps| && Going(initial, e) && PlannedExist(e.tree, steps, i) && !CommandBefore(steps, i)
    requires !steps[i].action.RunCommand? && DoStep(e, steps[i], a).1.Ok?
    ensures var e' := DoStep(e, steps[i], a).0;
            Going(initial, e') && PlannedExist(e'.tree, steps, i + 1) && !CommandBefore(steps, i + 1)
  {
    hide IsTree, DoStep;
    KeepGoing(initial, e, steps[i], a);
    StepGrows(e, steps[i], a);
    if steps[i].action.CreateDirectory? { PlannedStepExists(e, steps[i], a); }
  }

  /** A plan whose downloads are covered is rolled back without a trace and without a warning, when it fails or
      is cancelled before a command and failing operations leave nothing but parent directories. */
  lemma {:induction false} CoveredRollBack(initial: Tree, steps: seq<InstallStep>, answers: nat -> Answer)
    requires IsTree(initial) && AllCovered(initial, steps) && FailuresAreClean(answers)
    requires FailsBeforeCommands(initial, steps, answers)
    ensures Outcome(initial, steps, answers) == (initial, Report(false, false, []))
  {
    hide IsTree, AllCovered, FailuresAreClean, ExecuteFrom;
    CoveredAreTracked(initial, Exec(initial, []), steps, answers, 0);
    RollbackRestoresExactlyWhenTracked(initial, steps, answers);
  }

  // ---------------------------------------------------------------- an uncovered download is found out

  /** The answer when nothing goes wrong, and the one when a download fails after its parents were made. */
  const SMOOTH := Answer(false, None, Fetched(""), true, map[])
  const BROKEN_OFF := Answer(false, None, FetchFailed(true, None), true, map[])

  /** The steps from `i` up to the first command succeed when nothing goes wrong. */
  predicate Completes(e: Exec, steps: seq<InstallStep>, i: nat)
    requires i <= |steps|
    decreases |steps| - i
  {
    i < |steps| && !steps[i].action.RunCommand? ==>
      var (e', r) := DoStep(e, steps[i], SMOOTH);
      r.Ok? && Completes(e', steps, i + 1)
  }

  function BrokenOffAt(n: nat): nat -> Answer {
    (i: nat) => if i == n then BROKEN_OFF else SMOOTH
  }

  /** Where a path of the tree comes from: the initial tree, a directory created, or a file downloaded. */
  ghost predicate HasOrigin(initial: Tree, t: Tree, steps: seq<InstallStep>, i: nat, p: Path)
    requires i <= |steps|
  {
    p in t ==>
      || p in initial || MadeBefore(steps, i, p)
      || exists j :: 0 <= j < i && steps[j].action.Download? && steps[j].path == p && t[p].File?
  }

  ghost predicate AllHaveOrigin(initial: Tree, t: Tree, steps: seq<InstallStep>, i: nat)
    requires i <= |steps|
  {
    forall p | p in t :: HasOrigin(initial, t, steps, i, p)
  }

  /** What a successful step adds: directories on the way to its path, or the file it downloads. */
  lemma {:induction false} AddedBy(e: Exec, step: InstallStep, p: Path)
    requires IsTree(e.tree) && !step.action.RunCommand? && DoStep(e, step, SMOOTH).1.Ok?
    requires step.action.Download? ==> Parent(step.path) in e.tree
    requires p in DoStep(e, step, SMOOTH).0.tree && p !in e.tree
    ensures step.action.CreateDirectory? ==> p <= step.path
    ensures step.action.Download? ==> p == step.path && DoStep(e, step, SMOOTH).0.tree[p].File?
  {
    if step.action.CreateDirectory? {
      var missing := Missing(e.tree, step.path);
      forall k: nat | 0 < k <= |missing| ensures MadeAt(missing, k) !in e.tree && MadeAt(missing, k) <= step.path {
        MissingIsChain(e.tree, step.path, |missing| - k);
        MissingArePrefixes(e.tree, step.path, |missing| - k);
      }
      MakingAdds(e.tree, missing, |missing|, p);
    } else {
      ParentsMade(e.tree, step.path);
    }
  }

  lemma {:induction false} MissingArePrefixes(t: Tree, p: Path, k: nat)
    requires k < |Missing(t, p)|
    ensures Missing(t, p)[k] <= p
    decreases |p|
  {
    if k > 0 { MissingArePrefixes(t, Parent(p), k - 1); }
  }

  /** What holds before step `i` of a smooth run whose downloads so far are covered. */
  ghost predicate GoesSmoothly(initial: Tree, e: Exec, steps: seq<InstallStep>, i: nat)
    requires i <= |steps|
  {
    && Going(initial, e) && PlannedExist(e.tree, steps, i) && !CommandBefore(steps, i)
    && AllHaveOrigin(initial, e.tree, steps, i) && Completes(e, steps, i)
  }

  lemma {:induction false} OriginsGoOn(initial: Tree, e: Exec, steps: seq<InstallStep>, i: nat, p: Path)
    requires i < |steps| && GoesSmoothly(initial, e, steps, i) && IsCovered(initial, steps, i)
    requires !steps[i].action.RunCommand? && p in DoStep(e, steps[i], SMOOTH).0.tree
    ensures HasOrigin(initial, DoStep(e, steps[i], SMOOTH).0.tree, steps, i + 1, p)
  {
    var t' := DoStep(e, steps[i], SMOOTH).0.tree;
    if steps[i].action.Download? { CoveredParentExists(initial, e.tree, steps, i); }
    StepGrows(e, steps[i], SMOOTH);
    hide IsTree, DoStep, PlannedExist, IsCovered;
    if p in e.tree {
      assert HasOrigin(initial, e.tree, steps, i, p) && t'[p] == e.tree[p];
    } else {
      AddedBy(e, steps[i], p);
    }
  }

  lemma {:induction false} SmoothlyOn(initial: Tree, e: Exec, steps: seq<InstallStep>, i: nat)
    requires i < |steps| && GoesSmoothly(initial, e, steps, i) && IsCovered(initial, steps, i)
    requires !steps[i].action.RunCommand?
    ensures GoesSmoothly(initial, DoStep(e, steps[i], SMOOTH).0, steps, i + 1)
  {
    hide DoStep, Going, PlannedExist, IsCovered, HasOrigin;
    PlannedGoOn(initial, e, steps, SMOOTH, i);
    forall p | p in DoStep(e, steps[i], SMOOTH).0.tree
      ensures HasOrigin(initial, DoStep(e, steps[i], SMOOTH).0.tree, steps, i + 1, p)
    {
      OriginsGoOn(initial, e, steps, i, p);
    }
  }

  /** The parent of an uncovered download is missing, so that the download breaking off leaves it behind. */
  lemma {:induction false} UncoveredLeaves(initial: Tree, e: Exec, steps: seq<InstallStep>, i: nat)
    requires i < |steps| && GoesSmoothly(initial, e, steps, i) && !IsCovered(initial, steps, i)
    ensures LeavesUntracked(e.tree, steps[i], BROKEN_OFF) && DoStep(e, steps[i], BROKEN_OFF).1.Err?
  {
    hide IsTree, PlannedExist, MadeBefore;
    var p := Parent(steps[i].path);
    assert DoStep(e, steps[i], SMOOTH).1.Ok?;
    assert CanMake(e.tree, p);
    assert p in e.tree ==> HasOrigin(initial, e.tree, steps, i, p);
  }

  lemma {:induction false} BreaksOff(initial: Tree, e: Exec, steps: seq<InstallStep>, i: nat, n: nat)
    requires i <= n < |steps| && GoesSmoothly(initial, e, steps, i)
    requires !IsCovered(initial, steps, n) && forall k | i <= k < n :: IsCovered(initial, steps, k)
    ensures var ended := ExecuteFrom(e, steps, BrokenOffAt(n), i, false); !ended.ok && !ended.commandTried
    ensures SomethingUntracked(e, steps, BrokenOffAt(n), i)
    decreases n - i
  {
    assert steps[n].action.Download? && !CommandBefore(steps, n);
    assert !steps[i].action.RunCommand?;
    assert DoStep(e, steps[i], SMOOTH).1.Ok?;
    if i == n {
      UncoveredLeaves(initial, e, steps, i);
    } else {
      hide GoesSmoothly, IsCovered, LeavesUntracked, DoStep;
      SmoothlyOn(initial, e, steps, i);
      BreaksOff(initial, DoStep(e, steps[i], SMOOTH).0, steps, i + 1, n);
    }
  }

  lemma {:induction false} FirstUncovered(initial: Tree, steps: seq<InstallStep>) returns (n: nat)
    requires !AllCovered(initial, steps)
    ensures n < |steps| && !IsCovered(initial, steps, n) && forall k | 0 <= k < n :: IsCovered(initial, steps, k)
  {
    n := 0;
    while IsCovered(initial, steps, n)
      invariant n < |steps| && forall k | 0 <= k < n :: IsCovered(initial, steps, k)
      decreases |steps| - n
    {
      n := n + 1;
    }
  }

  lemma {:induction false} UncoveredIsFoundOut(initial: Tree, steps: seq<InstallStep>) returns (n: nat)
    requires IsTree(initial) && Completes(Exec(initial, []), steps, 0) && !AllCovered(initial, steps)
    ensures FailuresAreClean(BrokenOffAt(n)) && FailsBeforeCommands(initial, steps, BrokenOffAt(n))
    ensures Outcome(initial, steps, BrokenOffAt(n)).0 != initial
  {
    n := FirstUncovered(initial, steps);
    var start := Exec(initial, []);
    assert GoesSmoothly(initial, start, steps, 0);
    hide IsTree, GoesSmoothly, ExecuteFrom, SomethingUntracked;
    BreaksOff(initial, start, steps, 0, n);
    RollbackRestoresExactlyWhenTracked(initial, steps, BrokenOffAt(n));
  }

  /** For a plan that completes when nothing goes wrong: every failure or cancellation before a command leaves
      the initial tree, as far as failing operations are clean, if and only if every download is covered. */
  lemma {:induction false} AlwaysRestoredExactlyWhenCovered(initial: Tree, steps: seq<InstallStep>)
    requires IsTree(initial) && Completes(Exec(initial, []), steps, 0)
    ensures AllCovered(initial, steps) <==>
            forall answers: nat -> Answer | FailuresAreClean(answers) && FailsBeforeCommands(initial, steps, answers) ::
              Outcome(initial, steps, answers).0 == initial
  {
    hide IsTree, Completes, AllCovered, FailuresAreClean, FailsBeforeCommands, Outcome;
    if AllCovered(initial, steps) {
      forall answers: nat -> Answer | FailuresAreClean(answers) && FailsBeforeCommands(initial, steps, answers)
        ensures Outcome(initial, steps, answers).0 == initial
      {
        CoveredRollBack(initial, steps, answers);
      }
    } else {
      var n := UncoveredIsFoundOut(initial, steps);
    }
  }

  // ---------------------------------------------------------------- managed plans

  /** The step creates a directory and nothing else. */
  predicate Creates(step: InstallStep, p: Path) {
    step == DirectoryStep(p)
  }

  /** Before every download there is a step that creates its parent directory. */
  ghost predicate ParentsPlanned(steps: seq<InstallStep>) {
    forall i | 0 <= i < |steps| && steps[i].action.Download? && steps[i].path != [] ::
      exists j :: 0 <= j < i && Creates(steps[j], Parent(steps[i].path))
  }

  /** A plan that creates the parent directory before every download is covered over every tree. */
  lemma {:induction false} PlannedParentsRollBack(initial: Tree, steps: seq<InstallStep>, answers: nat -> Answer)
    requires IsTree(initial) && ParentsPlanned(steps) && FailuresAreClean(answers)
    requires FailsBeforeCommands(initial, steps, answers)
    ensures AllCovered(initial, steps) && Outcome(initial, steps, answers) == (initial, Report(false, false, []))
  {
    hide IsTree, FailuresAreClean, FailsBeforeCommands, Outcome;
    forall i | 0 <= i < |steps| ensures IsCovered(initial, steps, i) {
      if steps[i].action.Download? && steps[i].path != [] {
        var j :| 0 <= j < i && Creates(steps[j], Parent(steps[i].path));
        assert MadeBefore(steps, i, Parent(steps[i].path));
      }
    }
    CoveredRollBack(initial, steps, answers);
  }

  /** The paths of the steps with the action, in order. */
  function PathsOf(steps: seq<InstallStep>, action: Action): seq<Path> {
    if steps == [] then []
    else
      var n := |steps| - 1;
      PathsOf(steps[..n], action) + if steps[n].action == action then [steps[n].path] else []
  }

  lemma {:induction false} OneMorePath(steps: seq<InstallStep>, step: InstallStep, action: Action)
    ensures PathsOf(steps + [step], action)
            == PathsOf(steps, action) + if step.action == action then [step.path] else []
  {
    assert (steps + [step])[..|steps|] == steps;
  }

  function DirectoryStep(p: Path): InstallStep {
    InstallStep(CreateDirectory, p, None, None)
  }

  function DownloadStep(p: Path): InstallStep {
    InstallStep(Download, p, Some(p), None)
  }

  function CommandStep(p: Path): InstallStep {
    InstallStep(RunCommand, p, None, Some(p))
  }

  /** The step carries just what its action takes. */
  predicate IsPlain(step: InstallStep) {
    step in [DirectoryStep(step.path), DownloadStep(step.path), CommandStep(step.path)]
  }

  /** The step creates the parent of the download behind it, and no earlier step does. */
  predicate IsNewParent(steps: seq<InstallStep>, i: nat)
    requires i < |steps|
  {
    && i + 1 < |steps| && steps[i + 1].action.Download? && steps[i + 1].path != []
    && steps[i].path == Parent(steps[i + 1].path) && steps[i] !in steps[..i]
  }

  /** The directories come first; any other directory is a new parent. */
  ghost predicate OnlyParentsAreAdded(steps: seq<InstallStep>, given: nat) {
    forall i | given <= i < |steps| && steps[i].action.CreateDirectory? :: IsNewParent(steps, i)
  }

  lemma {:induction false} ParentsStayNew(steps: seq<InstallStep>, more: seq<InstallStep>, given: nat)
    requires OnlyParentsAreAdded(steps, given)
    requires forall i | 0 <= i < |more| :: !more[i].action.CreateDirectory?
    ensures OnlyParentsAreAdded(steps + more, given)
  {
    var longer := steps + more;
    forall i | given <= i < |longer| && longer[i].action.CreateDirectory? ensures IsNewParent(longer, i) {
      assert i < |steps| && IsNewParent(steps, i) && longer[..i] == steps[..i];
    }
  }

  lemma {:induction false} NewParentIsAdded(steps: seq<InstallStep>, p: Path, given: nat)
    requires OnlyParentsAreAdded(steps, given) && p != [] && DirectoryStep(Parent(p)) !in steps
    ensures OnlyParentsAreAdded(steps + [DirectoryStep(Parent(p)), DownloadStep(p)], given)
  {
    var longer := steps + [DirectoryStep(Parent(p)), DownloadStep(p)];
    forall i | given <= i < |longer| && longer[i].action.CreateDirectory? ensures IsNewParent(longer, i) {
      if i < |steps| {
        assert IsNewParent(steps, i) && longer[..i] == steps[..i];
      } else {
        assert i == |steps| && longer[..i] == steps;
      }
    }
  }

  /** The given directories come first, and nothing runs a command. */
  ghost predicate BeginsWith(steps: seq<InstallStep>, directories: seq<Path>) {
    && |directories| <= |steps| && (forall k | 0 <= k < |directories| :: steps[k] == DirectoryStep(directories[k]))
    && forall i | 0 <= i < |steps| :: IsPlain(steps[i]) && !steps[i].action.RunCommand?
  }

  /** The set holds the directories that are planned. */
  ghost predicate Knows(planned: set<Path>, steps: seq<InstallStep>) {
    forall p :: p in planned <==> DirectoryStep(p) in steps
  }

  /** What is planned after some of the downloads. */
  ghost predicate PlansSoFar(steps: seq<InstallStep>, directories: seq<Path>, downloads: seq<Path>,
                             planned: set<Path>)
  {
    && ParentsPlanned(steps) && OnlyParentsAreAdded(steps, |directories|) && Knows(planned, steps)
    && PathsOf(steps, Download) == downloads && PathsOf(steps, RunCommand) == [] && BeginsWith(steps, directories)
  }

  lemma {:induction false} NoPaths(steps: seq<InstallStep>, action: Action)
    requires forall k | 0 <= k < |steps| :: steps[k].action != action
    ensures PathsOf(steps, action) == []
  {
    if steps != [] { NoPaths(steps[..|steps| - 1], action); }
  }

  lemma {:induction false} PlansDirectories(steps: seq<InstallStep>, directories: seq<Path>, planned: set<Path>)
    requires |steps| == |directories| && forall k | 0 <= k < |steps| :: steps[k] == DirectoryStep(directories[k])
    requires planned == set p | p in directories
    ensures PlansSoFar(steps, directories, [], planned)
  {
    NoPaths(steps, Download);
    NoPaths(steps, RunCommand);
    forall p ensures p in planned <==> DirectoryStep(p) in steps {
      if p in directories {
        var k :| 0 <= k < |directories| && directories[k] == p;
        assert steps[k] == DirectoryStep(p);
      }
    }
  }

  lemma {:induction false} KnowsOneMore(planned: set<Path>, steps: seq<InstallStep>, step: InstallStep)
    requires Knows(planned, steps) && IsPlain(step)
    ensures Knows(if step.action.CreateDirectory? then planned + {step.path} else planned, steps + [step])
  {
    assert forall p :: DirectoryStep(p) in steps + [step] <==> DirectoryStep(p) in steps || DirectoryStep(p) == step;
  }

  lemma {:induction false} BeginsWithOn(steps: seq<InstallStep>, directories: seq<Path>, step: InstallStep)
    requires BeginsWith(steps, directories) && IsPlain(step) && !step.action.RunCommand?
    ensures BeginsWith(steps + [step], directories)
  {
  }

  lemma {:induction false} PlansDownload(steps: seq<InstallStep>, directories: seq<Path>, downloads: seq<Path>,
                                         planned: set<Path>, p: Path)
    requires PlansSoFar(steps, directories, downloads, planned) && (p == [] || Parent(p) in planned)
    ensures PlansSoFar(steps + [DownloadStep(p)], directories, downloads + [p], planned)
  {
    hide ParentsPlanned, OnlyParentsAreAdded, PathsOf, BeginsWith;
    PlanOneMore(steps, DownloadStep(p));
    KnowsOneMore(planned, steps, DownloadStep(p));
    hide Knows;
    ParentsStayNew(steps, [DownloadStep(p)], |directories|);
    OneMorePath(steps, DownloadStep(p), Download);
    OneMorePath(steps, DownloadStep(p), RunCommand);
    BeginsWithOn(steps, directories, DownloadStep(p));
  }

  lemma {:induction false} PlansParent(steps: seq<InstallStep>, directories: seq<Path>, downloads: seq<Path>,
                                       planned: set<Path>, p: Path)
    requires PlansSoFar(steps, directories, downloads, planned) && p != [] && Parent(p) !in planned
    ensures PlansSoFar(steps + [DirectoryStep(Parent(p)), DownloadStep(p)], directories, downloads + [p],
                       planned + {Parent(p)})
  {
    hide ParentsPlanned, OnlyParentsAreAdded, PathsOf, BeginsWith;
    assert DirectoryStep(Parent(p)) !in steps;
    hide Knows;
    var parent, file := DirectoryStep(Parent(p)), DownloadStep(p);
    var once := steps + [parent];
    assert once + [file] == steps + [parent, file] && once[|steps|] == parent;
    PlanOneMore(steps, parent);
    PlanOneMore(once, file);
    NewParentIsAdded(steps, p, |directories|);
    KnowsOneMore(planned, steps, parent);
    KnowsOneMore(planned + {Parent(p)}, once, file);
    OneMorePath(steps, parent, Download);
    OneMorePath(steps, parent, RunCommand);
    OneMorePath(once, file, Download);
    OneMorePath(once, file, RunCommand);
    BeginsWithOn(steps, directories, parent);
    BeginsWithOn(once, directories, file);
  }

  /** What is planned after all downloads and some of the commands. */
  ghost predicate PlansCommands(steps: seq<InstallStep>, prepared: seq<InstallStep>, commands: seq<Path>) {
    && prepared <= steps && |steps| == |prepared| + |commands| && PathsOf(steps, RunCommand) == commands
    && PathsOf(steps, Download) == PathsOf(prepared, Download)
    && forall i | |prepared| <= i < |steps| :: IsPlain(steps[i]) && steps[i].action.RunCommand?
  }

  lemma {:induction false} PlansCommand(steps: seq<InstallStep>, prepared: seq<InstallStep>, commands: seq<Path>,
                                        p: Path, given: nat)
    requires PlansCommands(steps, prepared, commands) && ParentsPlanned(steps) && OnlyParentsAreAdded(steps, given)
    ensures PlansCommands(steps + [CommandStep(p)], prepared, commands + [p])
    ensures ParentsPlanned(steps + [CommandStep(p)]) && OnlyParentsAreAdded(steps + [CommandStep(p)], given)
  {
    hide ParentsPlanned, OnlyParentsAreAdded, PathsOf;
    PlanOneMore(steps, CommandStep(p));
    ParentsStayNew(steps, [CommandStep(p)], given);
    OneMorePath(steps, CommandStep(p), Download);
    OneMorePath(steps, CommandStep(p), RunCommand);
  }

  method AddCommands(prepared: seq<InstallStep>, commands: seq<Path>,
                     ghost given: nat) returns (steps: seq<InstallStep>)
    requires ParentsPlanned(prepared) && OnlyParentsAreAdded(prepared, given) && PathsOf(prepared, RunCommand) == []
    ensures ParentsPlanned(steps) && OnlyParentsAreAdded(steps, given) && PlansCommands(steps, prepared, commands)
  {
    hide ParentsPlanned, OnlyParentsAreAdded, PathsOf;
    steps := prepared;
    for n := 0 to |commands|
      invariant ParentsPlanned(steps) && OnlyParentsAreAdded(steps, given)
      invariant PlansCommands(steps, prepared, commands[..n])
    {
      hide PlansCommands;
      PlansCommand(steps, prepared, commands[..n], commands[n], given);
      assert commands[..n + 1] == commands[..n] + [commands[n]];
      steps := steps + [CommandStep(commands[n])];
    }
    assert commands[..|commands|] == commands;
  }

  /** `managed_runtime_plan`: the platform's directories, then each download after its parent directory unless that is
      planned already, then the commands; all in the order given, and nothing else. */
  method ManagedRuntimePlan(directories: seq<Path>, downloads: seq<Path>,
                            commands: seq<Path>) returns (steps: seq<InstallStep>)
    ensures ParentsPlanned(steps) && OnlyParentsAreAdded(steps, |directories|)
    ensures |directories| <= |steps| && forall k | 0 <= k < |directories| :: steps[k] == DirectoryStep(directories[k])
    ensures PathsOf(steps, Download) == downloads && PathsOf(steps, RunCommand) == commands
    ensures forall i | 0 <= i < |steps| :: IsPlain(steps[i])
    ensures forall i, j | 0 <= i < j < |steps| && steps[i].action.RunCommand? :: steps[j].action.RunCommand?
  {
    hide ParentsPlanned, OnlyParentsAreAdded, PathsOf, Knows, IsPlain;
    steps := seq(|directories|, i requires 0 <= i < |directories| => DirectoryStep(directories[i]));
    var planned := set p | p in directories;
    PlansDirectories(steps, directories, planned);
    for n := 0 to |downloads|
      invariant PlansSoFar(steps, directories, downloads[..n], planned)
    {
      hide PlansSoFar;
      var destination := downloads[n];
      assert downloads[..n + 1] == downloads[..n] + [destination];
      if destination != [] && Parent(destination) !in planned {
        PlansParent(steps, directories, downloads[..n], planned, destination);
        planned := planned + {Parent(destination)};
        steps := steps + [DirectoryStep(Parent(destination)), DownloadStep(destination)];
      } else {
        PlansDownload(steps, directories, downloads[..n], planned, destination);
        steps := steps + [DownloadStep(destination)];
      }
    }
    assert downloads[..|downloads|] == downloads;
    steps := AddCommands(steps, commands, |directories|);
  }

  lemma {:induction false} PlanOneMore(steps: seq<InstallStep>, step: InstallStep)
    requires ParentsPlanned(steps)
    requires step.action.Download? && step.path != [] ==>
               DirectoryStep(Parent(step.path)) in steps
    ensures ParentsPlanned(steps + [step])
  {
    var longer := steps + [step];
    forall i | 0 <= i < |longer| && longer[i].action.Download? && longer[i].path != []
      ensures exists j :: 0 <= j < i && Creates(longer[j], Parent(longer[i].path))
    {
      if i < |steps| {
        var j :| 0 <= j < i && Creates(steps[j], Parent(steps[i].path));
        assert Creates(longer[j], Parent(longer[i].path));
      } else {
        var j :| 0 <= j < |steps| && steps[j] == DirectoryStep(Parent(step.path));
        assert Creates(longer[j], Parent(longer[i].path));
      }
    }
  }
}
