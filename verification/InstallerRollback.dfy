/** When a failed installation leaves exactly the tree it found. */
module InstallerRollback {
  import opened Prelude
  import opened Installer

  // ---------------------------------------------------------------- growing trees

  lemma {:induction false} NothingBelowMissing(t: Tree, p: Path)
    requires IsTree(t) && p !in t
    ensures IsEmpty(t, p)
  {
  }

  lemma {:induction false} AddedLeafKeepsTree(t: Tree, p: Path, node: Node)
    requires IsTree(t) && p !in t && p != [] && IsDirectory(t, Parent(p))
    ensures IsTree(t[p := node]) && IsEmpty(t[p := node], p)
  {
    NothingBelowMissing(t, p);
  }

  /** The missing directories form a chain up to an existing one. */
  lemma {:induction false} MissingIsChain(t: Tree, p: Path, k: nat)
    requires IsTree(t) && k < |Missing(t, p)|
    ensures Missing(t, p)[k] != [] && Missing(t, p)[k] !in t && |Missing(t, p)[k]| == |p| - k
    ensures k + 1 < |Missing(t, p)| ==> Missing(t, p)[k + 1] == Parent(Missing(t, p)[k])
    ensures k + 1 == |Missing(t, p)| ==> Parent(Missing(t, p)[k]) in t
    decreases |p|
  {
    if k > 0 { MissingIsChain(t, Parent(p), k - 1); }
    if p !in t && Parent(p) !in t { MissingIsChain(t, Parent(p), 0); }
  }

  lemma {:induction false} AnchorIsDirectory(t: Tree, p: Path)
    requires IsTree(t) && CanMake(t, p) && p !in t
    ensures Missing(t, p) != []
    ensures var top := Missing(t, p)[|Missing(t, p)| - 1]; top != [] && IsDirectory(t, Parent(top))
    decreases |p|
  {
    MissingIsChain(t, p, |Missing(t, p)| - 1);
    if Parent(p) !in t { AnchorIsDirectory(t, Parent(p)); }
  }

  /** The path that is made `n`-th. */
  function MadeAt(missing: seq<Path>, n: nat): Path
    requires 0 < n <= |missing|
  {
    missing[|missing| - n]
  }

  /** What is new after making `n` directories is among them, and what was there is unchanged. */
  lemma {:induction false} MakingAdds(t: Tree, missing: seq<Path>, n: nat, q: Path)
    requires n <= |missing| && (forall k: nat | 0 < k <= n :: MadeAt(missing, k) !in t)
    ensures q in t ==> q in Make(t, missing, n) && Make(t, missing, n)[q] == t[q]
    ensures q in Make(t, missing, n) && q !in t ==> exists k: nat :: 0 < k <= n && q == MadeAt(missing, k)
  {
    if n > 0 {
      MakingAdds(t, missing, n - 1, q);
      assert Make(t, missing, n) == Make(t, missing, n - 1)[MadeAt(missing, n) := Directory];
    }
  }

  /** The next directory to be made is new, and its parent is there. */
  ghost predicate NextFits(t: Tree, missing: seq<Path>, n: nat)
    requires n < |missing|
  {
    var next := MadeAt(missing, n + 1);
    next != [] && next !in Make(t, missing, n) && IsDirectory(Make(t, missing, n), Parent(next))
  }

  lemma {:induction false} FirstDirectoryFits(t: Tree, p: Path)
    requires IsTree(t) && CanMake(t, p) && Missing(t, p) != []
    ensures NextFits(t, Missing(t, p), 0)
  {
    hide IsTree, Missing, CanMake;
    MissingIsChain(t, p, |Missing(t, p)| - 1);
    MissingMeansAbsent(t, p);
    AnchorIsDirectory(t, p);
  }

  lemma {:induction false} MissingMeansAbsent(t: Tree, p: Path)
    requires Missing(t, p) != []
    ensures p !in t
  {
  }

  lemma {:induction false} NextDirectoryFits(t: Tree, p: Path, n: nat)
    requires IsTree(t) && CanMake(t, p) && n < |Missing(t, p)|
    ensures NextFits(t, Missing(t, p), n)
  {
    var missing := Missing(t, p);
    var next := MadeAt(missing, n + 1);
    if n == 0 { FirstDirectoryFits(t, p); }
    hide IsTree, CanMake, Missing;
    MissingIsChain(t, p, |missing| - n - 1);
    forall k: nat | 0 < k <= n ensures MadeAt(missing, k) !in t && MadeAt(missing, k) != next {
      MissingIsChain(t, p, |missing| - k);
    }
    MakingAdds(t, missing, n, next);
    if n > 0 { assert MadeAt(missing, n) == Parent(next) && Make(t, missing, n)[Parent(next)] == Directory; }
  }

  /** Making directories from the top down gives a tree at every moment and changes nothing that was there. */
  lemma {:induction false} MakingKeepsTree(t: Tree, p: Path, n: nat)
    requires IsTree(t) && CanMake(t, p) && n <= |Missing(t, p)|
    ensures IsTree(Make(t, Missing(t, p), n))
    ensures forall q | q in t :: q in Make(t, Missing(t, p), n) && Make(t, Missing(t, p), n)[q] == t[q]
  {
    hide IsTree, CanMake, Missing;
    var missing := Missing(t, p);
    forall q | q in t ensures q in Make(t, missing, n) && Make(t, missing, n)[q] == t[q] {
      forall k: nat | 0 < k <= n ensures MadeAt(missing, k) !in t { MissingIsChain(t, p, |missing| - k); }
      MakingAdds(t, missing, n, q);
    }
    if n > 0 {
      MakingKeepsTree(t, p, n - 1);
      NextDirectoryFits(t, p, n - 1);
      AddedLeafKeepsTree(Make(t, missing, n - 1), MadeAt(missing, n), Directory);
    }
  }

  // ---------------------------------------------------------------- what can be rolled back

  /** The changes, undone from the newest, lead from the tree back to the initial one without a hitch. */
  ghost predicate Tracks(initial: Tree, t: Tree, changes: seq<Change>) {
    if changes == [] then t == initial
    else
      var c := changes[|changes| - 1];
      && c.path in t && IsEmpty(t, c.path) && (if c.FileAt? then t[c.path].File? else t[c.path].Directory?)
      && Tracks(initial, t - {c.path}, changes[..|changes| - 1])
  }

  lemma {:induction false} TrackedRollsBack(initial: Tree, t: Tree, changes: seq<Change>)
    requires Tracks(initial, t, changes)
    ensures Rollback(t, changes) == (initial, [])
  {
    if changes != [] {
      var n := |changes| - 1;
      TrackedRollsBack(initial, t - {changes[n].path}, changes[..n]);
      assert Undo(t, changes[n]) == (t - {changes[n].path}, true);
      assert Rollback(t, changes).1 == [];
    }
  }

  lemma {:induction false} TrackOneMore(initial: Tree, t: Tree, changes: seq<Change>, c: Change, node: Node)
    requires Tracks(initial, t, changes) && c.path !in t && IsEmpty(t[c.path := node], c.path)
    requires if c.FileAt? then node.File? else node.Directory?
    ensures Tracks(initial, t[c.path := node], changes + [c])
  {
    assert t[c.path := node] - {c.path} == t;
    assert (changes + [c])[..|changes|] == changes;
  }

  /** Directories made on the way to `p` are tracked one by one. */
  lemma {:induction false} TrackDirectories(initial: Tree, t: Tree, changes: seq<Change>, p: Path, n: nat)
    requires IsTree(t) && CanMake(t, p) && Tracks(initial, t, changes) && n <= |Missing(t, p)|
    ensures Tracks(initial, Make(t, Missing(t, p), n), changes + DirectoriesAt(Missing(t, p), n))
  {
    var missing := Missing(t, p);
    if n == 0 {
      assert changes + [] == changes;
    } else {
      TrackDirectories(initial, t, changes, p, n - 1);
      MakingKeepsTree(t, p, n - 1);
      NextDirectoryFits(t, p, n - 1);
      var before, made := Make(t, missing, n - 1), MadeAt(missing, n);
      AddedLeafKeepsTree(before, made, Directory);
      TrackOneMore(initial, before, changes + DirectoriesAt(missing, n - 1), DirectoryAt(made), Directory);
      assert changes + DirectoriesAt(missing, n) == changes + DirectoriesAt(missing, n - 1) + [DirectoryAt(made)];
    }
  }

  // ---------------------------------------------------------------- what is left untracked

  /** The step changes the tree in a way it does not track: a directory creation that fails half-way, a
      download that has to create its own parent directories, or a failed one that leaves its file. */
  predicate LeavesUntracked(t: Tree, step: InstallStep, a: Answer) {
    match step.action
    case CreateDirectory =>
      && step.download.None? && step.command.None? && step.path !in t && CanMake(t, step.path)
      && a.mkdirFailsAfter.Some? && a.mkdirFailsAfter.value > 0
    case Download =>
      && step.download == Some(step.path) && step.path !in t && step.path != [] && CanMake(t, Parent(step.path))
      && (match a.fetch
          case Fetched(_) => Parent(step.path) !in t
          case FetchFailed(parentsMade, left) => left.Some? || (parentsMade && Parent(step.path) !in t))
    case RunCommand => false
  }

  /** Some step that is executed leaves something untracked. */
  predicate SomethingUntracked(e: Exec, steps: seq<InstallStep>, answers: nat -> Answer, i: nat)
    requires i <= |steps|
    decreases |steps| - i
  {
    && i < |steps| && !answers(i).cancelled
    && (|| LeavesUntracked(e.tree, steps[i], answers(i))
        || var (e', r) := DoStep(e, steps[i], answers(i)); r.Ok? && SomethingUntracked(e', steps, answers, i + 1))
  }

  /** A path that is neither of the initial tree nor tracked. */
  ghost predicate IsLeftover(initial: Tree, e: Exec, p: Path) {
    p in e.tree && p !in initial && forall k | 0 <= k < |e.changes| :: e.changes[k].path != p
  }

  lemma {:induction false} LeftoverSurvives(initial: Tree, t: Tree, changes: seq<Change>, p: Path)
    requires IsLeftover(initial, Exec(t, changes), p)
    ensures p in Rollback(t, changes).0
  {
    if changes != [] {
      var n := |changes| - 1;
      assert IsLeftover(initial, Exec(Undo(t, changes[n]).0, changes[..n]), p);
      LeftoverSurvives(initial, Undo(t, changes[n]).0, changes[..n], p);
    }
  }

  lemma {:induction false} DirectoriesAtAre(missing: seq<Path>, n: nat, k: nat)
    requires n <= |missing| && k < n
    ensures |DirectoriesAt(missing, n)| == n && DirectoriesAt(missing, n)[k] == DirectoryAt(MadeAt(missing, k + 1))
  {
    if n > 1 && k < n - 1 { DirectoriesAtAre(missing, n - 1, k); }
    if n > 1 { DirectoriesAtAre(missing, n - 1, 0); }
  }

  /** What the steps can still be relied on for: the tree is a tree, and nothing in it ever goes away. */
  ghost predicate GrowsTo(e: Exec, e': Exec) {
    && IsTree(e'.tree) && (forall q | q in e.tree :: q in e'.tree && e'.tree[q] == e.tree[q])
    && e.changes <= e'.changes && (forall k | |e.changes| <= k < |e'.changes| :: e'.changes[k].path !in e.tree)
  }

  lemma {:induction false} MadeDirectoriesAreNew(t: Tree, p: Path, changes: seq<Change>, k: nat)
    requires IsTree(t) && CanMake(t, p) && |changes| <= k < |changes| + |DirectoriesAt(Missing(t, p), |Missing(t, p)|)|
    ensures var c := (changes + DirectoriesAt(Missing(t, p), |Missing(t, p)|))[k];
            c.path !in t && c.path in Make(t, Missing(t, p), |Missing(t, p)|)
  {
    var missing := Missing(t, p);
    DirectoriesAtLength(missing, |missing|);
    var m := k - |changes|;
    DirectoriesAtAre(missing, |missing|, m);
    DirectoriesExist(t, missing, |missing|, m);
    MissingIsChain(t, p, |missing| - m - 1);
  }

  lemma {:induction false} DirectoriesAtLength(missing: seq<Path>, n: nat)
    requires n <= |missing|
    ensures |DirectoriesAt(missing, n)| == n
  {
    if n > 0 { DirectoriesAtLength(missing, n - 1); }
  }

  lemma {:induction false} DirectoriesExist(t: Tree, missing: seq<Path>, n: nat, k: nat)
    requires n <= |missing| && k < n
    ensures |DirectoriesAt(missing, n)| == n && DirectoriesAt(missing, n)[k].path in Make(t, missing, n)
  {
    DirectoriesAtAre(missing, n, k);
    if k < n - 1 { DirectoriesExist(t, missing, n - 1, k); DirectoriesAtAre(missing, n - 1, k); }
  }

  lemma {:induction false} DirectoryGrows(e: Exec, step: InstallStep, a: Answer)
    requires IsTree(e.tree)
    ensures GrowsTo(e, DoDirectory(e, step, a).0)
  {
    if step.path !in e.tree && CanMake(e.tree, step.path) {
      var e' := DoDirectory(e, step, a).0;
      hide IsTree, CanMake, Missing, Make, DirectoriesAt;
      var missing := Missing(e.tree, step.path);
      MakingKeepsTree(e.tree, step.path, |missing|);
      if a.mkdirFailsAfter.Some? { MakingKeepsTree(e.tree, step.path, Least(a.mkdirFailsAfter.value, |missing|)); }
      forall k: nat | |e.changes| <= k < |e'.changes| ensures e'.changes[k].path !in e.tree {
        MadeDirectoriesAreNew(e.tree, step.path, e.changes, k);
      }
    }
  }

  /** After the parents are made, the parent is a directory and the path itself is still missing. */
  lemma {:induction false} ParentsMade(t: Tree, p: Path)
    requires IsTree(t) && p !in t && p != [] && CanMake(t, Parent(p))
    ensures var ready := MakeAll(t, Parent(p)); IsTree(ready) && p !in ready && IsDirectory(ready, Parent(p))
    ensures forall q | q in t :: q in MakeAll(t, Parent(p)) && MakeAll(t, Parent(p))[q] == t[q]
    ensures Parent(p) in t ==> MakeAll(t, Parent(p)) == t
  {
    var missing := Missing(t, Parent(p));
    MakingKeepsTree(t, Parent(p), |missing|);
    forall k: nat | 0 < k <= |missing| ensures MadeAt(missing, k) !in t && MadeAt(missing, k) != p {
      MissingIsChain(t, Parent(p), |missing| - k);
    }
    MakingAdds(t, missing, |missing|, p);
    if Parent(p) !in t {
      assert missing[0] == Parent(p);
      assert MadeAt(missing, |missing|) == Parent(p);
    }
  }

  lemma {:induction false} DownloadGrows(e: Exec, step: InstallStep, a: Answer)
    requires IsTree(e.tree)
    ensures GrowsTo(e, DoDownload(e, step, a).0)
  {
    if step.download == Some(step.path) && step.path !in e.tree && step.path != []
      && CanMake(e.tree, Parent(step.path)) {
      ParentsMade(e.tree, step.path);
      var ready := MakeAll(e.tree, Parent(step.path));
      if a.fetch.Fetched? { AddedLeafKeepsTree(ready, step.path, File(a.fetch.content)); }
      if a.fetch.FetchFailed? && a.fetch.left.Some? { AddedLeafKeepsTree(ready, step.path, File(a.fetch.left.value)); }
    }
  }

  lemma {:induction false} StepGrows(e: Exec, step: InstallStep, a: Answer)
    requires IsTree(e.tree) && !step.action.RunCommand?
    ensures GrowsTo(e, DoStep(e, step, a).0)
  {
    hide GrowsTo, IsTree;
    if step.action.CreateDirectory? { DirectoryGrows(e, step, a); } else { DownloadGrows(e, step, a); }
  }

  /** A step that leaves nothing untracked keeps the way back. */
  lemma {:induction false} StepTracks(initial: Tree, e: Exec, step: InstallStep, a: Answer)
    requires IsTree(e.tree) && Tracks(initial, e.tree, e.changes) && !step.action.RunCommand?
             && !LeavesUntracked(e.tree, step, a)
    ensures Tracks(initial, DoStep(e, step, a).0.tree, DoStep(e, step, a).0.changes)
  {
    if step.action.CreateDirectory? {
      if step.path !in e.tree && CanMake(e.tree, step.path) {
        TrackDirectories(initial, e.tree, e.changes, step.path, |Missing(e.tree, step.path)|);
      }
    } else if step.download == Some(step.path) && step.path !in e.tree && step.path != []
      && CanMake(e.tree, Parent(step.path)) {
      ParentsMade(e.tree, step.path);
      if a.fetch.Fetched? {
        var file := File(a.fetch.content);
        AddedLeafKeepsTree(e.tree, step.path, file);
        TrackOneMore(initial, e.tree, e.changes, FileAt(step.path), file);
      }
    }
  }

  /** A step that leaves something untracked leaves something behind. */
  lemma {:induction false} UntrackedIsLeftover(initial: Tree, e: Exec, step: InstallStep, a: Answer) returns (p: Path)
    requires IsTree(e.tree) && LeavesUntracked(e.tree, step, a)
    requires forall q | q in initial :: q in e.tree
    requires forall k | 0 <= k < |e.changes| :: e.changes[k].path in e.tree
    ensures IsLeftover(initial, DoStep(e, step, a).0, p)
  {
    if step.action.CreateDirectory? {
      var missing := Missing(e.tree, step.path);
      AnchorIsDirectory(e.tree, step.path);
      p := MadeAt(missing, 1);
      MissingIsChain(e.tree, step.path, |missing| - 1);
      MadeFirst(e.tree, missing, Least(a.mkdirFailsAfter.value, |missing|));
    } else {
      ParentsMade(e.tree, step.path);
      p := if Parent(step.path) in e.tree then step.path else Parent(step.path);
      assert p != step.path ==> p in MakeAll(e.tree, Parent(step.path));
    }
  }

  lemma {:induction false} MadeFirst(t: Tree, missing: seq<Path>, n: nat)
    requires 0 < n <= |missing|
    ensures MadeAt(missing, 1) in Make(t, missing, n)
  {
    if n > 1 { MadeFirst(t, missing, n - 1); }
  }

  // ---------------------------------------------------------------- whole executions

  /** What holds at every step: the initial tree is still there, and what is tracked exists. */
  ghost predicate Going(initial: Tree, e: Exec) {
    && IsTree(e.tree) && (forall q | q in initial :: q in e.tree)
    && (forall k | 0 <= k < |e.changes| :: e.changes[k].path in e.tree)
  }

  lemma {:induction false} KeepGoing(initial: Tree, e: Exec, step: InstallStep, a: Answer)
    requires Going(initial, e) && !step.action.RunCommand?
    ensures Going(initial, DoStep(e, step, a).0)
  {
    StepGrows(e, step, a);
    var e' := DoStep(e, step, a).0;
    hide IsTree, CanMake, Missing, Make, DirectoriesAt;
    if step.action.CreateDirectory? && step.path !in e.tree && CanMake(e.tree, step.path) {
      forall k: nat | |e.changes| <= k < |e'.changes| ensures e'.changes[k].path in e'.tree {
        MadeDirectoriesAreNew(e.tree, step.path, e.changes, k);
      }
    }
  }

  lemma {:induction false} LeftoverStays(initial: Tree, e: Exec, step: InstallStep, a: Answer, p: Path)
    requires Going(initial, e) && !step.action.RunCommand? && IsLeftover(initial, e, p)
    ensures IsLeftover(initial, DoStep(e, step, a).0, p)
  {
    hide IsTree;
    StepGrows(e, step, a);
  }

  lemma {:induction false} CleanExecutionTracks(initial: Tree, e: Exec, steps: seq<InstallStep>,
                                                answers: nat -> Answer, i: nat)
    requires i <= |steps| && Going(initial, e) && Tracks(initial, e.tree, e.changes)
             && !SomethingUntracked(e, steps, answers, i)
    requires !ExecuteFrom(e, steps, answers, i, false).commandTried
    ensures var ended := ExecuteFrom(e, steps, answers, i, false); Tracks(initial, ended.exec.tree, ended.exec.changes)
    decreases |steps| - i
  {
    hide Tracks, IsTree, LeavesUntracked, DoStep;
    if i < |steps| && !answers(i).cancelled {
      CommandIsRemembered(DoStep(e, steps[i], answers(i)).0, steps, answers, i + 1);
      assert !steps[i].action.RunCommand?;
      StepTracks(initial, e, steps[i], answers(i));
      KeepGoing(initial, e, steps[i], answers(i));
      var (e', r) := DoStep(e, steps[i], answers(i));
      if r.Ok? { CleanExecutionTracks(initial, e', steps, answers, i + 1); }
    }
  }

  lemma {:induction false} CommandIsRemembered(e: Exec, steps: seq<InstallStep>, answers: nat -> Answer, i: nat)
    requires i <= |steps|
    ensures ExecuteFrom(e, steps, answers, i, true).commandTried
    decreases |steps| - i
  {
    hide DoStep;
    if i < |steps| && !answers(i).cancelled {
      CommandIsRemembered(DoStep(e, steps[i], answers(i)).0, steps, answers, i + 1);
    }
  }

  lemma {:induction false} LeftoverReachesTheEnd(initial: Tree, e: Exec, steps: seq<InstallStep>,
                                                 answers: nat -> Answer, i: nat, p: Path)
    requires i <= |steps| && Going(initial, e) && IsLeftover(initial, e, p)
    requires !ExecuteFrom(e, steps, answers, i, false).commandTried
    ensures IsLeftover(initial, ExecuteFrom(e, steps, answers, i, false).exec, p)
    decreases |steps| - i
  {
    hide IsLeftover, Going, DoStep;
    if i < |steps| && !answers(i).cancelled {
      CommandIsRemembered(DoStep(e, steps[i], answers(i)).0, steps, answers, i + 1);
      assert !steps[i].action.RunCommand?;
      LeftoverStays(initial, e, steps[i], answers(i), p);
      KeepGoing(initial, e, steps[i], answers(i));
      var (e', r) := DoStep(e, steps[i], answers(i));
      if r.Ok? { LeftoverReachesTheEnd(initial, e', steps, answers, i + 1, p); }
    }
  }

  lemma {:induction false} UntrackedReachesTheEnd(initial: Tree, e: Exec, steps: seq<InstallStep>,
                                                  answers: nat -> Answer, i: nat) returns (p: Path)
    requires i <= |steps| && Going(initial, e) && SomethingUntracked(e, steps, answers, i)
    requires !ExecuteFrom(e, steps, answers, i, false).commandTried
    ensures IsLeftover(initial, ExecuteFrom(e, steps, answers, i, false).exec, p)
    decreases |steps| - i
  {
    hide IsLeftover, IsTree, DoStep, LeavesUntracked;
    CommandIsRemembered(DoStep(e, steps[i], answers(i)).0, steps, answers, i + 1);
    assert !steps[i].action.RunCommand?;
    KeepGoing(initial, e, steps[i], answers(i));
    var (e', r) := DoStep(e, steps[i], answers(i));
    if LeavesUntracked(e.tree, steps[i], answers(i)) {
      p := UntrackedIsLeftover(initial, e, steps[i], answers(i));
      if r.Ok? { LeftoverReachesTheEnd(initial, e', steps, answers, i + 1, p); }
    } else {
      p := UntrackedReachesTheEnd(initial, e', steps, answers, i + 1);
    }
  }

  /** An execution that ends in a rollback before any command leaves exactly the initial tree if and only
      if no step left anything untracked; and then the rollback has no warnings and the report admits no
      partial state. */
  lemma {:induction false} RollbackRestoresExactlyWhenTracked(initial: Tree, steps: seq<InstallStep>,
          answers: nat -> Answer)
    requires IsTree(initial)
    requires var ended := ExecuteFrom(Exec(initial, []), steps, answers, 0, false); !ended.ok && !ended.commandTried
    ensures var (tree, report) := Outcome(initial, steps, answers);
            && (tree == initial <==> !SomethingUntracked(Exec(initial, []), steps, answers, 0))
            && (tree == initial ==> report == Report(false, false, []))
  {
    var start := Exec(initial, []);
    var ended := ExecuteFrom(start, steps, answers, 0, false);
    assert Going(initial, start) && Tracks(initial, initial, []);
    if SomethingUntracked(start, steps, answers, 0) {
      var p := UntrackedReachesTheEnd(initial, start, steps, answers, 0);
      LeftoverSurvives(initial, ended.exec.tree, ended.exec.changes, p);
    } else {
      CleanExecutionTracks(initial, start, steps, answers, 0);
      TrackedRollsBack(initial, ended.exec.tree, ended.exec.changes);
    }
  }

  /** The family is not empty: a download into a directory that no step creates, then a cancellation,
      leaves that directory behind, and the report admits nothing. */
  lemma {:induction false} UnplannedParentStays()
    ensures var initial: Tree := map[[] := Directory];
            var download := InstallStep(Download, ["cache", "tool"], Some(["cache", "tool"]), None);
            var answers := (i: nat) => Answer(i == 1, None, Fetched("bytes"), true, map[]);
            var (tree, report) := Outcome(initial, [download, download], answers);
            IsTree(initial) && tree != initial && report == Report(false, false, [])
  {
    var initial: Tree := map[[] := Directory];
    var p: Path := ["cache", "tool"];
    var download := InstallStep(Download, p, Some(p), None);
    var steps := [download, download];
    var answers := (i: nat) => Answer(i == 1, None, Fetched("bytes"), true, map[]);
    assert Parent(p) == ["cache"] && Parent(["cache"]) == [];
    var start := Exec(initial, []);
    assert CanMake(initial, Parent(p)) && LeavesUntracked(initial, download, answers(0));
    var (e, r) := DoStep(start, steps[0], answers(0));
    assert r.Ok? && ExecuteFrom(e, steps, answers, 1, false) == Ended(e, false, false);
    assert ExecuteFrom(start, steps, answers, 0, false) == Ended(e, false, false);
    assert SomethingUntracked(start, steps, answers, 0);
    RollbackRestoresExactlyWhenTracked(initial, steps, answers);
    assert e.changes == [FileAt(p)] && e.tree[p].File?;
    assert Rollback(e.tree, e.changes).1 == [] + Rollback(e.tree - {p}, []).1;
  }
}
