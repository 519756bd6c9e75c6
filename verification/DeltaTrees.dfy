/**
 Plans on a real directory tree, where a path cannot be a file and a directory at once. A directory
 is there exactly as long as some file needs it.
 */
module DeltaTrees {
  import opened Common
  import opened Manifest
  import opened Text
  import opened Deltas

  /** `outer` is a directory on the way to `inner`. */
  predicate IsAbove(outer: string, inner: string) {
    |outer| < |inner| && inner[..|outer|] == outer && inner[|outer|] == '/'
  }

  /** No tree has both as files. */
  predicate Clash(a: string, b: string) {
    IsAbove(a, b) || IsAbove(b, a)
  }

  ghost predicate IsTree(disk: Disk) {
    forall a, b :: a in disk && b in disk ==> !Clash(a, b)
  }

  /** No path of one disk is a directory of the other. */
  ghost predicate Apart(before: Disk, after: Disk) {
    forall a, b :: a in before && b in after ==> !Clash(a, b)
  }

  /** The tree lets the step write where it wants to. */
  ghost predicate Fits(disk: Disk, step: PlanStep) {
    step.Remove? || forall path <- disk :: !Clash(path, step.path)
  }

  ghost predicate AllFit(disk: Disk, steps: seq<PlanStep>) {
    forall k :: 0 <= k < |steps| ==> Fits(PerformAll(disk, steps[..k]), steps[k])
  }

  function WritesOf(delta: BuildDelta): (steps: seq<PlanStep>)
    ensures |steps| == |delta.fetch| && forall k :: 0 <= k < |steps| ==> steps[k] == StepFor(delta.fetch[k])
  {
    seq(|delta.fetch|, k requires 0 <= k < |delta.fetch| => StepFor(delta.fetch[k]))
  }

  function RemovalsOf(delta: BuildDelta): (steps: seq<PlanStep>)
    ensures |steps| == |delta.remove| && forall k :: 0 <= k < |steps| ==> steps[k] == Remove(delta.remove[k])
  {
    seq(|delta.remove|, k requires 0 <= k < |delta.remove| => Remove(delta.remove[k]))
  }

  lemma WritesAndRemovalsAreTheSteps(delta: BuildDelta)
    ensures Carries(WritesOf(delta) + RemovalsOf(delta), delta)
    ensures Carries(RemovalsOf(delta) + WritesOf(delta), delta)
  {
    forall step
      ensures step in WritesOf(delta) || step in RemovalsOf(delta) <==> IsStepOf(delta, step)
    {
      if file :| file in delta.fetch && step == StepFor(file) {
        var k :| 0 <= k < |delta.fetch| && delta.fetch[k] == file;
        assert WritesOf(delta)[k] == step;
      } else if path :| path in delta.remove && step == Remove(path) {
        var k :| 0 <= k < |delta.remove| && delta.remove[k] == path;
        assert RemovalsOf(delta)[k] == step;
      }
    }
  }

  lemma {:induction false} OtherPathsStay(disk: Disk, steps: seq<PlanStep>, path: string)
    requires forall step <- steps :: step.path != path
    ensures ContentAt(PerformAll(disk, steps), path) == ContentAt(disk, path)
  {
    if steps != [] {
      assert steps[|steps| - 1] in steps;
      OtherPathsStay(disk, steps[..|steps| - 1], path);
    }
  }

  /** After any steps of the plan there is nothing but old and new paths. */
  lemma PathsAreOldOrNew(delta: BuildDelta, before: Disk, after: Disk, steps: seq<PlanStep>, path: string)
    requires Settles(delta, before, after) && (forall step <- steps :: IsStepOf(delta, step))
    requires path in PerformAll(before, steps)
    ensures path in before || path in after
    ensures path !in after ==> Remove(path) !in steps
  {
    hide IsStepOf, Independent;
    IndependentStepsSettle(before, after, steps);
    var disk := PerformAll(before, steps);
    assert ContentAt(disk, path).Some?;
    if Remove(path) in steps {
      assert ContentAt(disk, Remove(path).path) == ContentAt(after, path);
    }
  }

  lemma ApartPlansFit(delta: BuildDelta, before: Disk, after: Disk, order: seq<PlanStep>)
    requires Settles(delta, before, after) && IsTree(after) && Apart(before, after) && Carries(order, delta)
    ensures AllFit(before, order)
  {
    hide IsStepOf, PerformAll, Clash;
    forall k | 0 <= k < |order|
      ensures Fits(PerformAll(before, order[..k]), order[k])
    {
      var disk := PerformAll(before, order[..k]);
      assert order[k] in order;
      assert Independent(order[k], before, after);
      forall path | path in disk && !order[k].Remove?
        ensures !Clash(path, order[k].path)
      {
        PathsAreOldOrNew(delta, before, after, order[..k], path);
        assert order[k].path in after;
      }
    }
  }

  /** Once the removals are done only paths of the target are left, so every write fits. */
  lemma RemovalsFirstFit(delta: BuildDelta, before: Disk, after: Disk)
    requires Settles(delta, before, after) && IsTree(after)
    ensures AllFit(before, RemovalsOf(delta) + WritesOf(delta))
  {
    hide PerformAll, Clash, IsStepOf;
    WritesAndRemovalsAreTheSteps(delta);
    var order := RemovalsOf(delta) + WritesOf(delta);
    forall k | 0 <= k < |order|
      ensures Fits(PerformAll(before, order[..k]), order[k])
    {
      var disk := PerformAll(before, order[..k]);
      assert order[k] in order;
      assert Independent(order[k], before, after);
      if !order[k].Remove? {
        assert order[..k] == RemovalsOf(delta) + WritesOf(delta)[..k - |RemovalsOf(delta)|];
        forall path <- disk
          ensures !Clash(path, order[k].path)
        {
          OnlyNewPathsAreLeft(delta, before, after, order[..k], path);
          assert order[k].path in after;
        }
      }
    }
  }

  lemma OnlyNewPathsAreLeft(delta: BuildDelta, before: Disk, after: Disk, steps: seq<PlanStep>, path: string)
    requires Settles(delta, before, after) && (forall step <- steps :: IsStepOf(delta, step))
    requires forall step <- RemovalsOf(delta) :: step in steps
    requires path in PerformAll(before, steps)
    ensures path in after
  {
    hide PerformAll, Settles, RemovalsOf, IsStepOf;
    PathsAreOldOrNew(delta, before, after, steps, path);
    if path !in after {
      RemovedWhenGone(delta, before, after, path);
    }
  }

  lemma RemovedWhenGone(delta: BuildDelta, before: Disk, after: Disk, path: string)
    requires Settles(delta, before, after) && path in before && path !in after
    ensures Remove(path) in RemovalsOf(delta)
  {
    WritesAndRemovalsAreTheSteps(delta);
    assert ContentAt(before, path) != ContentAt(after, path);
    var step :| IsStepOf(delta, step) && step.path == path;
    assert Independent(step, before, after);
    assert step in WritesOf(delta) + RemovalsOf(delta);
  }

  lemma OnlyRemovalsRemove(delta: BuildDelta)
    ensures forall step <- WritesOf(delta) :: !step.Remove?
    ensures forall step <- RemovalsOf(delta) :: step.Remove?
  {
  }

  lemma NoWriteTouchesWhatGoes(delta: BuildDelta, before: Disk, after: Disk, gone: string)
    requires Settles(delta, before, after) && gone !in after
    ensures forall step <- WritesOf(delta) :: step.path != gone
  {
    hide WritesOf, RemovalsOf;
    WritesAndRemovalsAreTheSteps(delta);
    OnlyRemovalsRemove(delta);
    forall step <- WritesOf(delta)
      ensures step.path != gone
    {
      assert step in WritesOf(delta) + RemovalsOf(delta);
      assert Independent(step, before, after);
    }
  }

  lemma NewPathsAreWritten(delta: BuildDelta, before: Disk, after: Disk, path: string) returns (k: nat)
    requires Settles(delta, before, after) && path !in before && path in after
    ensures k < |WritesOf(delta)| && WritesOf(delta)[k].path == path && !WritesOf(delta)[k].Remove?
  {
    hide WritesOf, RemovalsOf;
    WritesAndRemovalsAreTheSteps(delta);
    assert ContentAt(before, path) != ContentAt(after, path);
    var step :| IsStepOf(delta, step) && step.path == path;
    assert Independent(step, before, after);
    OnlyRemovalsRemove(delta);
    assert step in WritesOf(delta) + RemovalsOf(delta);
    k :| 0 <= k < |WritesOf(delta)| && WritesOf(delta)[k] == step;
  }

  /** Written while the clashing old file is still there. */
  lemma ClashStopsTheWrites(delta: BuildDelta, before: Disk, after: Disk, gone: string, written: string)
    requires Settles(delta, before, after) && IsTree(before) && IsTree(after)
    requires gone in before && written in after && Clash(gone, written)
    ensures !AllFit(before, WritesOf(delta) + RemovalsOf(delta))
  {
    hide PerformAll, Clash, Settles, WritesOf, RemovalsOf;
    NoWriteTouchesWhatGoes(delta, before, after, gone);
    var k := NewPathsAreWritten(delta, before, after, written);
    var order := WritesOf(delta) + RemovalsOf(delta);
    assert order[k] == WritesOf(delta)[k] && order[..k] == WritesOf(delta)[..k];
    OtherPathsStay(before, order[..k], gone);
    assert gone in PerformAll(before, order[..k]);
    assert !Fits(PerformAll(before, order[..k]), order[k]);
  }

  /**
   A plan for two trees can be performed in every order exactly when no path of one is a directory of
   the other. Otherwise the writes before the removals already fail; the removals before the writes never do.
   */
  lemma TreesTakeAnyOrderIffApart(delta: BuildDelta, before: Disk, after: Disk)
    requires Settles(delta, before, after) && IsTree(before) && IsTree(after)
    ensures (forall order | Carries(order, delta) :: AllFit(before, order)) <==> Apart(before, after)
    ensures AllFit(before, WritesOf(delta) + RemovalsOf(delta)) <==> Apart(before, after)
    ensures AllFit(before, RemovalsOf(delta) + WritesOf(delta))
  {
    hide Settles, IsTree, AllFit, WritesOf, RemovalsOf, Carries, Clash;
    WritesAndRemovalsAreTheSteps(delta);
    RemovalsFirstFit(delta, before, after);
    if Apart(before, after) {
      forall order | Carries(order, delta)
        ensures AllFit(before, order)
      {
        ApartPlansFit(delta, before, after, order);
      }
    } else {
      var a, b :| a in before && b in after && Clash(a, b);
      ClashStopsTheWrites(delta, before, after, a, b);
    }
  }

  /** So for what the server answers: any order if apart, removals first in any case, and the target each time. */
  lemma PlansFitTrees(delta: BuildDelta, installed: seq<ManifestEntry>, target: seq<ManifestEntry>)
    requires IsPlanFor(delta, installed, target) && UniquePaths(target)
    requires IsTree(ToDisk(installed)) && IsTree(ToDisk(target))
    ensures (forall order | Carries(order, delta) :: AllFit(ToDisk(installed), order))
       <==> Apart(ToDisk(installed), ToDisk(target))
    ensures AllFit(ToDisk(installed), WritesOf(delta) + RemovalsOf(delta)) <==> Apart(ToDisk(installed), ToDisk(target))
    ensures AllFit(ToDisk(installed), RemovalsOf(delta) + WritesOf(delta))
    ensures PerformAll(ToDisk(installed), RemovalsOf(delta) + WritesOf(delta)) == ToDisk(target)
  {
    hide Settles, IsTree, AllFit, WritesOf, RemovalsOf, Carries, Apart, ToDisk, PerformAll, UniquePaths;
    PlanSettles(delta, installed, target);
    TreesTakeAnyOrderIffApart(delta, ToDisk(installed), ToDisk(target));
    WritesAndRemovalsAreTheSteps(delta);
    SettlingPlansUpdate(delta, installed, target);
  }

  // ---------------------------------------------------------------------------
  // Manifests that clash
  // ---------------------------------------------------------------------------

  function FileAt(path: string): ManifestEntry {
    ManifestEntry(path, seq(SHA256_HEX_LENGTH, _ => '0'), 0, false)
  }

  lemma FileAtIsValid()
    ensures IsValidEntry(FileAt("a")) && IsValidEntry(FileAt("a/b"))
    ensures FileAt("a").relativePath == "a" && FileAt("a/b").relativePath == "a/b"
  {
    SplitAlone("a", '/');
    SplitAlone("b", '/');
    SplitOff("a/b", "a", '/', "b");
    assert Split("a", '/') == ["a"] && Split("a/b", '/') == ["a", "b"];
  }

  lemma EntriesAreOnDisk(entries: seq<ManifestEntry>, path: string)
    ensures path in ToDisk(entries) <==> exists k :: 0 <= k < |entries| && entries[k].relativePath == path
  {
    DiskShowsLookup(entries, path);
    LookupFinds(entries, path);
  }

  lemma OneFileIsATree(path: string)
    ensures path in ToDisk([FileAt(path)]) && UniquePaths([FileAt(path)]) && IsTree(ToDisk([FileAt(path)]))
  {
    hide ToDisk;
    assert [FileAt(path)][0].relativePath == path;
    forall other
      ensures other in ToDisk([FileAt(path)]) <==> other == path
    {
      EntriesAreOnDisk([FileAt(path)], other);
    }
  }

  /** Validation accepts a build that no tree can hold. */
  lemma AValidManifestMayBeNoTree()
    ensures var both := [FileAt("a"), FileAt("a/b")];
            IsValidManifest(both, "a") && !IsTree(ToDisk(both))
  {
    hide ToDisk, IsValidEntry;
    FileAtIsValid();
    var both := [FileAt("a"), FileAt("a/b")];
    assert both[0].relativePath == "a" && both[1].relativePath == "a/b";
    EntriesAreOnDisk(both, "a");
    EntriesAreOnDisk(both, "a/b");
    assert Clash("a", "a/b");
  }

  /** Between these valid builds order matters: the file "a" has to go before "a/b" is written. */
  lemma OrderMayMatter(delta: BuildDelta)
    requires IsPlanFor(delta, [FileAt("a")], [FileAt("a/b")])
    ensures IsValidManifest([FileAt("a")], "a") && IsValidManifest([FileAt("a/b")], "a/b")
    ensures !AllFit(ToDisk([FileAt("a")]), WritesOf(delta) + RemovalsOf(delta))
  {
    hide ToDisk, IsValidEntry, IsPlanFor, AllFit, WritesOf, RemovalsOf, UniquePaths, IsTree, FileAt;
    FileAtIsValid();
    OneFileIsATree("a");
    OneFileIsATree("a/b");
    assert [FileAt("a")][0].relativePath == "a" && [FileAt("a/b")][0].relativePath == "a/b";
    assert Clash("a", "a/b");
    PlansFitTrees(delta, [FileAt("a")], [FileAt("a/b")]);
  }
}
