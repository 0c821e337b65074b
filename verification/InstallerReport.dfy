/** When the report of a failed installation admits that something stayed behind. */
module InstallerReport {
  import opened Installer
  import opened InstallerRollback

  // ---------------------------------------------------------------- tracked changes in order

  /** The change is still there as it was made. */
  predicate IsInPlace(t: Tree, c: Change) {
    c.path != [] && c.path in t && (if c.FileAt? then t[c.path].File? else t[c.path].Directory?)
  }

  /** The later change is of another path, and not of the directory the earlier one is in. */
  predicate InOrder(earlier: Change, later: Change) {
    earlier.path != later.path && (earlier.path != [] ==> Parent(earlier.path) != later.path)
  }

  ghost predicate AreInOrder(changes: seq<Change>) {
    forall i, j | 0 <= i < j < |changes| :: InOrder(changes[i], changes[j])
  }

  ghost predicate AreInPlace(t: Tree, changes: seq<Change>) {
    forall k | 0 <= k < |changes| :: IsInPlace(t, changes[k])
  }

  ghost predicate IsUntracked(t: Tree, changes: seq<Change>, p: Path) {
    p in t && forall k | 0 <= k < |changes| :: changes[k].path != p
  }

  /** The path lies strictly below a directory made by one of the changes. */
  ghost predicate IsBelow(changes: seq<Change>, p: Path) {
    exists k :: 0 <= k < |changes| && changes[k].DirectoryAt? && changes[k].path < p
  }

  /** Something untracked lies strictly below a tracked directory. */
  ghost predicate IsBlocked(t: Tree, changes: seq<Change>) {
    exists p :: IsUntracked(t, changes, p) && IsBelow(changes, p)
  }

  // ---------------------------------------------------------------- rolling back a blocked tree

  lemma {:induction false} AncestorsExist(t: Tree, p: Path, n: nat)
    requires IsTree(t) && p in t && n <= |p|
    ensures p[..n] in t
    decreases |p| - n
  {
    if n < |p| {
      AncestorsExist(t, p, n + 1);
      assert Parent(p[..n + 1]) == p[..n];
    } else {
      assert p[..n] == p;
    }
  }

  lemma {:induction false} NothingBelowEmpty(t: Tree, p: Path, q: Path)
    requires IsTree(t) && IsEmpty(t, p) && q in t
    ensures !(p < q)
  {
    if |p| < |q| {
      AncestorsExist(t, q, |p| + 1);
      assert Parent(q[..|p| + 1]) == q[..|p|];
    }
  }

  lemma {:induction false} RemovedLeafKeepsTree(t: Tree, p: Path)
    requires IsTree(t) && p != [] && IsEmpty(t, p)
    ensures IsTree(t - {p})
  {
  }

  /** Undoing the last change works exactly when its path is a leaf, and removes just that path. */
  lemma {:induction false} UndoNeedsLeaf(t: Tree, c: Change)
    requires IsTree(t) && IsInPlace(t, c)
    ensures Undo(t, c) == if IsEmpty(t, c.path) then (t - {c.path}, true) else (t, false)
    ensures c.FileAt? ==> IsEmpty(t, c.path)
  {
  }

  /** Once the leaf of the last change is gone, the same paths are untracked below the directories left. */
  lemma {:induction false} RestAlike(t: Tree, rest: seq<Change>, c: Change, p: Path)
    requires IsTree(t) && IsEmpty(t, c.path)
    ensures IsUntracked(t - {c.path}, rest, p) <==> IsUntracked(t, rest + [c], p)
    ensures p in t ==> (IsBelow(rest, p) <==> IsBelow(rest + [c], p))
  {
    var changes := rest + [c];
    if p in t { NothingBelowEmpty(t, c.path, p); }
    hide IsTree, IsEmpty;
    assert forall k | 0 <= k < |rest| :: changes[k] == rest[k];
    assert changes[|rest|] == c;
  }

  lemma {:induction false} RestIsBlockedAlike(t: Tree, rest: seq<Change>, c: Change)
    requires IsTree(t) && IsEmpty(t, c.path)
    ensures IsBlocked(t, rest + [c]) <==> IsBlocked(t - {c.path}, rest)
  {
    hide IsTree, IsEmpty, IsBelow;
    if p :| IsUntracked(t, rest + [c], p) && IsBelow(rest + [c], p) { RestAlike(t, rest, c, p); }
    if p :| IsUntracked(t - {c.path}, rest, p) && IsBelow(rest, p) { RestAlike(t, rest, c, p); }
  }

  lemma {:induction false} OccupiedIsBlocked(t: Tree, changes: seq<Change>)
    requires changes != [] && IsTree(t) && AreInOrder(changes) && AreInPlace(t, changes)
    requires var c := changes[|changes| - 1]; !IsEmpty(t, c.path)
    ensures IsBlocked(t, changes)
  {
    var n := |changes| - 1;
    var q :| q in t && q != [] && Parent(q) == changes[n].path;
    UndoNeedsLeaf(t, changes[n]);
    forall k | 0 <= k < |changes| ensures changes[k].path != q {
      if k < n { assert InOrder(changes[k], changes[n]); }
    }
    assert changes[n].path < q && IsUntracked(t, changes, q) && IsBelow(changes, q);
  }

  lemma {:induction false} RestIsInPlace(t: Tree, changes: seq<Change>)
    requires changes != [] && AreInOrder(changes) && AreInPlace(t, changes)
    ensures var n := |changes| - 1; AreInOrder(changes[..n]) && AreInPlace(t - {changes[n].path}, changes[..n])
  {
    var n := |changes| - 1;
    var c, rest := changes[n], changes[..n];
    forall k | 0 <= k < n ensures IsInPlace(t - {c.path}, rest[k]) {
      assert InOrder(changes[k], c) && IsInPlace(t, changes[k]);
    }
    forall i, j | 0 <= i < j < n ensures InOrder(rest[i], rest[j]) { assert InOrder(changes[i], changes[j]); }
  }

  /** A rollback has a warning exactly when something untracked lies below a tracked directory. */
  lemma {:induction false} WarnsExactlyWhenBlocked(t: Tree, changes: seq<Change>)
    requires IsTree(t) && AreInOrder(changes) && AreInPlace(t, changes)
    ensures Rollback(t, changes).1 != [] <==> IsBlocked(t, changes)
    decreases |changes|
  {
    if changes != [] {
      var n := |changes| - 1;
      var c, rest := changes[n], changes[..n];
      hide IsTree, IsBlocked, IsEmpty, AreInOrder;
      assert IsInPlace(t, c) && changes == rest + [c];
      hide AreInPlace;
      UndoNeedsLeaf(t, c);
      if IsEmpty(t, c.path) {
        RemovedLeafKeepsTree(t, c.path);
        RestIsBlockedAlike(t, rest, c);
        RestIsInPlace(t, changes);
        WarnsExactlyWhenBlocked(t - {c.path}, rest);
      } else {
        OccupiedIsBlocked(t, changes);
      }
    } else {
      assert !IsBlocked(t, changes);
    }
  }

  // ---------------------------------------------------------------- executions keep their changes in order

  /** What holds at every step besides `Going`: the changes are new, in place and in order. */
  ghost predicate Orderly(initial: Tree, e: Exec) {
    && Going(initial, e) && AreInPlace(e.tree, e.changes) && AreInOrder(e.changes)
    && forall k | 0 <= k < |e.changes| :: e.changes[k].path !in initial
  }

  /** The changes added to the old ones are in place and in order among themselves. */
  ghost predicate AddsInOrder(e: Exec, e': Exec) {
    && e.changes <= e'.changes
    && (forall k | |e.changes| <= k < |e'.changes| :: IsInPlace(e'.tree, e'.changes[k]))
    && (forall i, j | |e.changes| <= i < j < |e'.changes| :: InOrder(e'.changes[i], e'.changes[j]))
  }

  lemma {:induction false} MadeIsDirectory(t: Tree, missing: seq<Path>, n: nat, k: nat)
    requires k < n <= |missing|
    ensures IsDirectory(Make(t, missing, n), MadeAt(missing, k + 1))
  {
    if k + 1 < n { MadeIsDirectory(t, missing, n - 1, k); }
    assert Make(t, missing, n) == Make(t, missing, n - 1)[MadeAt(missing, n) := Directory];
  }

  lemma {:induction false} DirectoriesInOrder(t: Tree, p: Path, k: nat, m: nat)
    requires IsTree(t) && CanMake(t, p) && k < m <= |Missing(t, p)|
    ensures var missing := Missing(t, p);
            && |DirectoriesAt(missing, |missing|)| == |missing|
            && IsInPlace(Make(t, missing, |missing|), DirectoriesAt(missing, |missing|)[k])
            && (m < |missing| ==>
                  InOrder(DirectoriesAt(missing, |missing|)[k], DirectoriesAt(missing, |missing|)[m]))
  {
    hide IsTree, CanMake, Missing, Make;
    var missing := Missing(t, p);
    DirectoriesAtAre(missing, |missing|, k);
    MadeIsDirectory(t, missing, |missing|, k);
    MissingIsChain(t, p, |missing| - k - 1);
    if m < |missing| {
      DirectoriesAtAre(missing, |missing|, m);
      MissingIsChain(t, p, |missing| - m - 1);
    }
  }

  lemma {:induction false} DirectoryAddsInOrder(e: Exec, step: InstallStep, a: Answer)
    requires IsTree(e.tree)
    ensures AddsInOrder(e, DoDirectory(e, step, a).0)
  {
    var e' := DoDirectory(e, step, a).0;
    hide IsTree, CanMake, Missing, Make, DirectoriesAt;
    if |e.changes| < |e'.changes| {
      var missing := Missing(e.tree, step.path);
      DirectoriesAtLength(missing, |missing|);
      forall k | |e.changes| <= k < |e'.changes| ensures IsInPlace(e'.tree, e'.changes[k]) {
        DirectoriesInOrder(e.tree, step.path, k - |e.changes|, |missing|);
      }
      forall i, j | |e.changes| <= i < j < |e'.changes| ensures InOrder(e'.changes[i], e'.changes[j]) {
        DirectoriesInOrder(e.tree, step.path, i - |e.changes|, j - |e.changes|);
      }
    }
  }

  lemma {:induction false} StepAddsInOrder(e: Exec, step: InstallStep, a: Answer)
    requires IsTree(e.tree) && !step.action.RunCommand?
    ensures AddsInOrder(e, DoStep(e, step, a).0)
  {
    if step.action.CreateDirectory? { DirectoryAddsInOrder(e, step, a); }
  }

  lemma {:induction false} JoinedInOrder(initial: Tree, e: Exec, e': Exec)
    requires Orderly(initial, e) && AddsInOrder(e, e') && GrowsTo(e, e') && Going(initial, e')
    ensures Orderly(initial, e')
  {
    forall k | 0 <= k < |e'.changes| ensures IsInPlace(e'.tree, e'.changes[k]) && e'.changes[k].path !in initial {
      if k < |e.changes| { assert e'.changes[k] == e.changes[k] && IsInPlace(e.tree, e.changes[k]); }
    }
    forall i, j | 0 <= i < j < |e'.changes| ensures InOrder(e'.changes[i], e'.changes[j]) {
      if i < |e.changes| {
        assert e'.changes[i] == e.changes[i] && IsInPlace(e.tree, e.changes[i]);
        if j < |e.changes| { assert e'.changes[j] == e.changes[j] && InOrder(e.changes[i], e.changes[j]); }
      }
    }
  }

  lemma {:induction false} StaysOrderly(initial: Tree, e: Exec, step: InstallStep, a: Answer)
    requires Orderly(initial, e) && !step.action.RunCommand?
    ensures Orderly(initial, DoStep(e, step, a).0)
  {
    hide IsTree, GrowsTo, AddsInOrder, DoStep;
    StepGrows(e, step, a);
    StepAddsInOrder(e, step, a);
    KeepGoing(initial, e, step, a);
    JoinedInOrder(initial, e, DoStep(e, step, a).0);
  }

  lemma {:induction false} EndsOrderly(initial: Tree, e: Exec, steps: seq<InstallStep>, answers: nat -> Answer, i: nat)
    requires i <= |steps| && Orderly(initial, e) && !ExecuteFrom(e, steps, answers, i, false).commandTried
    ensures Orderly(initial, ExecuteFrom(e, steps, answers, i, false).exec)
    decreases |steps| - i
  {
    hide Orderly, DoStep;
    if i < |steps| && !answers(i).cancelled {
      CommandIsRemembered(DoStep(e, steps[i], answers(i)).0, steps, answers, i + 1);
      assert !steps[i].action.RunCommand?;
      StaysOrderly(initial, e, steps[i], answers(i));
      var (e', r) := DoStep(e, steps[i], answers(i));
      if r.Ok? { EndsOrderly(initial, e', steps, answers, i + 1); }
    }
  }

  // ---------------------------------------------------------------- the report

  /** A leftover lies strictly below a directory the rollback has to remove. */
  ghost predicate LeftoverBelowTracked(initial: Tree, e: Exec) {
    exists p :: IsLeftover(initial, e, p) && IsBelow(e.changes, p)
  }

  lemma {:induction false} BelowTrackedIsNew(initial: Tree, e: Exec, p: Path)
    requires IsTree(initial) && Orderly(initial, e) && IsBelow(e.changes, p)
    ensures p !in initial
  {
    hide IsTree, Going, AreInPlace, AreInOrder;
    var k :| 0 <= k < |e.changes| && e.changes[k].DirectoryAt? && e.changes[k].path < p;
    var q := e.changes[k].path;
    assert p[..|q|] == q;
    if p in initial { AncestorsExist(initial, p, |q|); }
  }

  lemma {:induction false} BlockedByLeftover(initial: Tree, e: Exec)
    requires IsTree(initial) && Orderly(initial, e)
    ensures IsBlocked(e.tree, e.changes) <==> LeftoverBelowTracked(initial, e)
  {
    hide IsTree, Orderly, IsBelow;
    if p :| IsUntracked(e.tree, e.changes, p) && IsBelow(e.changes, p) {
      BelowTrackedIsNew(initial, e, p);
      assert IsLeftover(initial, e, p);
    }
    if p :| IsLeftover(initial, e, p) && IsBelow(e.changes, p) { assert IsUntracked(e.tree, e.changes, p); }
  }

  /** An execution that ends in a rollback before any command reports partial state exactly when something it
      does not track lies below a directory it does; so it keeps silent about a tree that was not restored exactly
      when some step left something untracked and nothing of it lies there. */
  lemma {:induction false} PartialStateIsExact(initial: Tree, steps: seq<InstallStep>, answers: nat -> Answer)
    requires IsTree(initial)
    requires var ended := ExecuteFrom(Exec(initial, []), steps, answers, 0, false); !ended.ok && !ended.commandTried
    ensures var ended := ExecuteFrom(Exec(initial, []), steps, answers, 0, false);
            var (tree, report) := Outcome(initial, steps, answers);
            && (report.partialState <==> report.warnings != [])
            && (report.partialState <==> LeftoverBelowTracked(initial, ended.exec))
            && (tree != initial && !report.partialState <==>
                  SomethingUntracked(Exec(initial, []), steps, answers, 0)
                    && !LeftoverBelowTracked(initial, ended.exec))
  {
    hide IsTree, LeftoverBelowTracked, IsBlocked, ExecuteFrom, Rollback, SomethingUntracked;
    var start := Exec(initial, []);
    var ended := ExecuteFrom(start, steps, answers, 0, false);
    assert Orderly(initial, start);
    EndsOrderly(initial, start, steps, answers, 0);
    WarnsExactlyWhenBlocked(ended.exec.tree, ended.exec.changes);
    BlockedByLeftover(initial, ended.exec);
    RollbackRestoresExactlyWhenTracked(initial, steps, answers);
  }
}
