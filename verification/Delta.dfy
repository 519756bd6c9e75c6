/**
 What a client does to move from one build to another (`domain/Delta.cpp`). The plan may be applied
 in any order, because no step touches a file another step copies from; and what it transfers is
 exactly the distinct blobs no unchanged path already holds.
 */
module Deltas {
  import opened Common
  import opened Manifest
  import opened Ordering
  import opened Sums

  datatype DownloadKind = Full | Delta

  /** An empty `copyFrom` means the bytes have to travel. */
  datatype DeltaFile = DeltaFile(entry: ManifestEntry, copyFrom: string)

  datatype BuildDelta = BuildDelta(
    kind: DownloadKind,
    fetch: seq<DeltaFile>,
    kept: seq<ManifestEntry>,
    remove: seq<string>,
    downloadBytes: int,
    totalBytes: int)

  // ---------------------------------------------------------------------------
  // The parts of a plan
  // ---------------------------------------------------------------------------

  /** The first entry at a path. */
  function Lookup(entries: seq<ManifestEntry>, path: string): Option<ManifestEntry> {
    if entries == [] then None
    else
      var last := entries[|entries| - 1];
      match Lookup(entries[..|entries| - 1], path)
      case Some(entry) => Some(entry)
      case None => if last.relativePath == path then Some(last) else None
  }

  /** The install already holds this path with this content. */
  predicate Kept(installed: seq<ManifestEntry>, entry: ManifestEntry) {
    Lookup(installed, entry.relativePath).Some?
    && Lookup(installed, entry.relativePath).value.blobSha256 == entry.blobSha256
  }

  /** The first of `entries` that is kept and has this content. */
  function Survivor(installed: seq<ManifestEntry>, entries: seq<ManifestEntry>, blob: string): Option<string> {
    if entries == [] then None
    else
      var last := entries[|entries| - 1];
      match Survivor(installed, entries[..|entries| - 1], blob)
      case Some(path) => Some(path)
      case None => if Kept(installed, last) && last.blobSha256 == blob then Some(last.relativePath) else None
  }

  function KeptOf(installed: seq<ManifestEntry>, entries: seq<ManifestEntry>): seq<ManifestEntry> {
    if entries == [] then []
    else
      var last := entries[|entries| - 1];
      KeptOf(installed, entries[..|entries| - 1]) + (if Kept(installed, last) then [last] else [])
  }

  function FileFor(installed: seq<ManifestEntry>, target: seq<ManifestEntry>, entry: ManifestEntry): DeltaFile {
    var source := Survivor(installed, target, entry.blobSha256);
    DeltaFile(entry, if source.Some? then source.value else "")
  }

  function FetchOf(installed: seq<ManifestEntry>, target: seq<ManifestEntry>, entries: seq<ManifestEntry>): seq<DeltaFile> {
    if entries == [] then []
    else
      var last := entries[|entries| - 1];
      FetchOf(installed, target, entries[..|entries| - 1])
      + (if Kept(installed, last) then [] else [FileFor(installed, target, last)])
  }

  function FetchAll(entries: seq<ManifestEntry>): (fetch: seq<DeltaFile>)
    ensures |fetch| == |entries| && forall k :: 0 <= k < |entries| ==> fetch[k] == DeltaFile(entries[k], "")
  {
    seq(|entries|, k requires 0 <= k < |entries| => DeltaFile(entries[k], ""))
  }

  function RemovedOf(installed: seq<ManifestEntry>, target: seq<ManifestEntry>): seq<string> {
    if installed == [] then []
    else
      var last := installed[|installed| - 1];
      RemovedOf(installed[..|installed| - 1], target)
      + (if Lookup(target, last.relativePath).None? then [last.relativePath] else [])
  }

  function InstalledSize(entries: seq<ManifestEntry>): int {
    if entries == [] then 0 else InstalledSize(entries[..|entries| - 1]) + entries[|entries| - 1].sizeBytes
  }

  // ---------------------------------------------------------------------------
  // What is in the parts
  // ---------------------------------------------------------------------------

  lemma {:induction false} LookupFinds(entries: seq<ManifestEntry>, path: string)
    ensures var found := Lookup(entries, path);
            && (found.Some? ==> found.value in entries && found.value.relativePath == path)
            && (found.None? ==> forall k :: 0 <= k < |entries| ==> entries[k].relativePath != path)
  {
    if entries != [] {
      LookupFinds(entries[..|entries| - 1], path);
    }
  }

  lemma LookupIsTheEntry(entries: seq<ManifestEntry>, k: nat)
    requires UniquePaths(entries) && k < |entries|
    ensures Lookup(entries, entries[k].relativePath) == Some(entries[k])
  {
    LookupFinds(entries, entries[k].relativePath);
    var found := Lookup(entries, entries[k].relativePath).value;
    var m :| 0 <= m < |entries| && entries[m] == found;
    assert PathOf(entries[m]) == PathOf(entries[k]);
  }

  lemma {:induction false} SurvivorIsKept(installed: seq<ManifestEntry>, entries: seq<ManifestEntry>, blob: string)
    ensures var source := Survivor(installed, entries, blob);
            && (source.Some? ==> exists k :: && 0 <= k < |entries| && Kept(installed, entries[k])
                                             && entries[k].blobSha256 == blob
                                             && entries[k].relativePath == source.value)
            && (source.None? ==>
                 forall k :: 0 <= k < |entries| && Kept(installed, entries[k]) ==> entries[k].blobSha256 != blob)
  {
    if entries != [] {
      var shorter := entries[..|entries| - 1];
      SurvivorIsKept(installed, shorter, blob);
      if Survivor(installed, shorter, blob).Some? {
        var k :| 0 <= k < |shorter| && Kept(installed, shorter[k]) && shorter[k].blobSha256 == blob
                 && shorter[k].relativePath == Survivor(installed, shorter, blob).value;
        assert entries[k] == shorter[k];
      } else {
        assert forall k :: 0 <= k < |shorter| ==> entries[k] == shorter[k];
      }
    }
  }

  lemma {:induction false} FetchHolds(installed: seq<ManifestEntry>, target: seq<ManifestEntry>,
                                      entries: seq<ManifestEntry>, file: DeltaFile)
    ensures file in FetchOf(installed, target, entries)
       <==> file.entry in entries && !Kept(installed, file.entry) && file == FileFor(installed, target, file.entry)
  {
    if entries != [] {
      FetchHolds(installed, target, entries[..|entries| - 1], file);
      assert entries == entries[..|entries| - 1] + [entries[|entries| - 1]];
    }
  }

  lemma {:induction false} RemovedHolds(installed: seq<ManifestEntry>, target: seq<ManifestEntry>, path: string)
    ensures path in RemovedOf(installed, target)
       <==> Lookup(installed, path).Some? && Lookup(target, path).None?
  {
    if installed != [] {
      RemovedHolds(installed[..|installed| - 1], target, path);
    }
  }

  lemma {:induction false} KeptHolds(installed: seq<ManifestEntry>, entries: seq<ManifestEntry>, entry: ManifestEntry)
    ensures entry in KeptOf(installed, entries) <==> entry in entries && Kept(installed, entry)
  {
    if entries != [] {
      KeptHolds(installed, entries[..|entries| - 1], entry);
      assert entries == entries[..|entries| - 1] + [entries[|entries| - 1]];
    }
  }

  // ---------------------------------------------------------------------------
  // Applying a plan
  // ---------------------------------------------------------------------------

  /** What is at each path of an install directory. */
  type Disk = map<string, string>

  ghost function ToDisk(entries: seq<ManifestEntry>): Disk {
    map k: nat | k < |entries| && Lookup(entries, entries[k].relativePath).Some?
      :: entries[k].relativePath := Lookup(entries, entries[k].relativePath).value.blobSha256
  }

  ghost function ContentAt(disk: Disk, path: string): Option<string> {
    if path in disk then Some(disk[path]) else None
  }

  lemma DiskShowsLookup(entries: seq<ManifestEntry>, path: string)
    ensures ContentAt(ToDisk(entries), path)
         == match Lookup(entries, path) case Some(entry) => Some(entry.blobSha256) case None => None
  {
    LookupFinds(entries, path);
    if Lookup(entries, path).Some? {
      var k :| 0 <= k < |entries| && entries[k] == Lookup(entries, path).value;
      assert entries[k].relativePath == path;
    }
  }

  datatype PlanStep =
    | Write(path: string, blob: string)
    | Copy(path: string, source: string)
    | Remove(path: string)

  function StepFor(file: DeltaFile): PlanStep {
    if file.copyFrom == "" then Write(file.entry.relativePath, file.entry.blobSha256)
    else Copy(file.entry.relativePath, file.copyFrom)
  }

  /** Copying from a path that is not there changes nothing. */
  ghost function Perform(disk: Disk, step: PlanStep): Disk {
    match step
    case Write(path, blob) => disk[path := blob]
    case Copy(path, source) => if source in disk then disk[path := disk[source]] else disk
    case Remove(path) => disk - {path}
  }

  ghost function PerformAll(disk: Disk, steps: seq<PlanStep>): Disk {
    if steps == [] then disk else Perform(PerformAll(disk, steps[..|steps| - 1]), steps[|steps| - 1])
  }

  ghost predicate IsStepOf(delta: BuildDelta, step: PlanStep) {
    || (exists file <- delta.fetch :: step == StepFor(file))
    || (exists path <- delta.remove :: step == Remove(path))
  }

  /** `order` performs every step of the plan and nothing else, in whatever order. */
  ghost predicate Carries(order: seq<PlanStep>, delta: BuildDelta) {
    forall step :: step in order <==> IsStepOf(delta, step)
  }

  ghost predicate Updates(delta: BuildDelta, installed: seq<ManifestEntry>, target: seq<ManifestEntry>) {
    forall order :: Carries(order, delta) ==> PerformAll(ToDisk(installed), order) == ToDisk(target)
  }

  /** A step that needs no other step: it writes what the target has, from a source no step touches. */
  ghost predicate Independent(step: PlanStep, before: Disk, after: Disk) {
    match step
    case Write(path, blob) => ContentAt(after, path) == Some(blob)
    case Copy(path, source) =>
      && ContentAt(before, source).Some? && ContentAt(after, source) == ContentAt(before, source)
      && ContentAt(after, path) == ContentAt(before, source)
    case Remove(path) => ContentAt(after, path) == None
  }

  /** After some independent steps every path holds its old or its final content, the written ones the final. */
  ghost predicate Between(disk: Disk, before: Disk, after: Disk, steps: seq<PlanStep>) {
    && (forall path :: ContentAt(disk, path) == ContentAt(before, path) || ContentAt(disk, path) == ContentAt(after, path))
    && (forall step <- steps :: ContentAt(disk, step.path) == ContentAt(after, step.path))
  }

  lemma {:induction false} IndependentStepsSettle(before: Disk, after: Disk, steps: seq<PlanStep>)
    requires forall step <- steps :: Independent(step, before, after)
    ensures Between(PerformAll(before, steps), before, after, steps)
  {
    if steps != [] {
      var shorter, last := steps[..|steps| - 1], steps[|steps| - 1];
      IndependentStepsSettle(before, after, shorter);
      var disk := PerformAll(before, shorter);
      assert steps == shorter + [last];
      assert Independent(last, before, after);
      if last.Copy? {
        assert ContentAt(disk, last.source) == ContentAt(before, last.source);
      }
      assert forall path :: path != last.path ==> ContentAt(Perform(disk, last), path) == ContentAt(disk, path);
      assert ContentAt(Perform(disk, last), last.path) == ContentAt(after, last.path);
    }
  }

  lemma SameContentSameDisk(a: Disk, b: Disk)
    requires forall path :: ContentAt(a, path) == ContentAt(b, path)
    ensures a == b
  {
    forall path
      ensures path in a <==> path in b
      ensures path in a && path in b ==> a[path] == b[path]
    {
      assert ContentAt(a, path) == ContentAt(b, path);
    }
  }

  /** Its steps are independent and cover every difference. */
  ghost predicate Settles(delta: BuildDelta, before: Disk, after: Disk) {
    && (forall step :: IsStepOf(delta, step) ==> Independent(step, before, after))
    && (forall path :: ContentAt(before, path) != ContentAt(after, path) ==>
          exists step :: IsStepOf(delta, step) && step.path == path)
  }

  lemma SettlingPlansUpdate(delta: BuildDelta, installed: seq<ManifestEntry>, target: seq<ManifestEntry>)
    requires Settles(delta, ToDisk(installed), ToDisk(target))
    ensures Updates(delta, installed, target)
  {
    hide ToDisk, IsStepOf, Independent, ContentAt;
    var before, after := ToDisk(installed), ToDisk(target);
    forall order | Carries(order, delta)
      ensures PerformAll(before, order) == after
    {
      IndependentStepsSettle(before, after, order);
      var disk := PerformAll(before, order);
      forall path
        ensures ContentAt(disk, path) == ContentAt(after, path)
      {
        if ContentAt(before, path) != ContentAt(after, path) {
          var step :| IsStepOf(delta, step) && step.path == path;
          assert step in order;
        }
      }
      SameContentSameDisk(disk, after);
    }
  }

  /** The files and removals of a delta, up to order. */
  ghost predicate HasFetch(delta: BuildDelta, fetch: seq<DeltaFile>) {
    multiset(delta.fetch) == multiset(fetch)
  }

  ghost predicate HasRemove(delta: BuildDelta, remove: seq<string>) {
    multiset(delta.remove) == multiset(remove)
  }

  lemma SameItems<T>(a: seq<T>, b: seq<T>)
    requires multiset(a) == multiset(b)
    ensures forall x :: x in a <==> x in b
  {
    forall x
      ensures x in a <==> x in b
    {
      assert x in a <==> x in multiset(a);
      assert x in b <==> x in multiset(b);
    }
  }

  lemma FetchedFileIsIndependent(installed: seq<ManifestEntry>, target: seq<ManifestEntry>, entry: ManifestEntry)
    requires UniquePaths(target) && entry in target
    ensures Independent(StepFor(FileFor(installed, target, entry)), ToDisk(installed), ToDisk(target))
    ensures Independent(StepFor(DeltaFile(entry, "")), ToDisk(installed), ToDisk(target))
  {
    hide ToDisk, Lookup, Survivor, UniquePaths;
    var k :| 0 <= k < |target| && target[k] == entry;
    LookupIsTheEntry(target, k);
    DiskShowsLookup(target, entry.relativePath);
    SurvivorIsKept(installed, target, entry.blobSha256);
    var source := Survivor(installed, target, entry.blobSha256);
    if source.Some? {
      var m :| 0 <= m < |target| && Kept(installed, target[m]) && target[m].blobSha256 == entry.blobSha256
               && target[m].relativePath == source.value;
      LookupIsTheEntry(target, m);
      DiskShowsLookup(target, source.value);
      DiskShowsLookup(installed, source.value);
    }
  }

  lemma RemovalIsIndependent(installed: seq<ManifestEntry>, target: seq<ManifestEntry>, path: string)
    requires path in RemovedOf(installed, target)
    ensures Independent(Remove(path), ToDisk(installed), ToDisk(target))
  {
    hide ToDisk, Lookup;
    RemovedHolds(installed, target, path);
    DiskShowsLookup(target, path);
  }

  /** Where the install and the target differ, either the file is removed or it is not kept. */
  lemma DifferencesAreKnown(installed: seq<ManifestEntry>, target: seq<ManifestEntry>, path: string)
    requires ContentAt(ToDisk(installed), path) != ContentAt(ToDisk(target), path)
    ensures path in RemovedOf(installed, target)
         || exists entry <- target :: entry.relativePath == path && !Kept(installed, entry)
  {
    hide ToDisk, Lookup;
    DiskShowsLookup(installed, path);
    DiskShowsLookup(target, path);
    RemovedHolds(installed, target, path);
    LookupFinds(target, path);
    if Lookup(target, path).Some? {
      var entry := Lookup(target, path).value;
      assert !Kept(installed, entry);
    }
  }

  lemma DeltaSettles(delta: BuildDelta, installed: seq<ManifestEntry>, target: seq<ManifestEntry>)
    requires UniquePaths(target)
    requires HasFetch(delta, FetchOf(installed, target, target)) && HasRemove(delta, RemovedOf(installed, target))
    ensures Settles(delta, ToDisk(installed), ToDisk(target))
  {
    hide ToDisk, Lookup, FileFor, StepFor, Independent, FetchOf, RemovedOf, UniquePaths, ContentAt;
    SameItems(delta.fetch, FetchOf(installed, target, target));
    SameItems(delta.remove, RemovedOf(installed, target));
    var before, after := ToDisk(installed), ToDisk(target);
    forall step | IsStepOf(delta, step)
      ensures Independent(step, before, after)
    {
      if file :| file in delta.fetch && step == StepFor(file) {
        FetchHolds(installed, target, target, file);
        FetchedFileIsIndependent(installed, target, file.entry);
      } else {
        RemovalIsIndependent(installed, target, step.path);
      }
    }
    forall path | ContentAt(before, path) != ContentAt(after, path)
      ensures exists step :: IsStepOf(delta, step) && step.path == path
    {
      DifferencesAreKnown(installed, target, path);
      if path in RemovedOf(installed, target) {
        assert IsStepOf(delta, Remove(path));
      } else {
        var entry :| entry in target && entry.relativePath == path && !Kept(installed, entry);
        FetchedFileHasAStep(delta, installed, target, entry);
      }
    }
  }

  lemma DeltaUpdatesInAnyOrder(delta: BuildDelta, installed: seq<ManifestEntry>, target: seq<ManifestEntry>)
    requires UniquePaths(target)
    requires HasFetch(delta, FetchOf(installed, target, target)) && HasRemove(delta, RemovedOf(installed, target))
    ensures Updates(delta, installed, target)
  {
    DeltaSettles(delta, installed, target);
    SettlingPlansUpdate(delta, installed, target);
  }

  lemma FetchedFileHasAStep(delta: BuildDelta, installed: seq<ManifestEntry>, target: seq<ManifestEntry>,
                            entry: ManifestEntry)
    requires entry in target && !Kept(installed, entry)
    requires forall file :: file in FetchOf(installed, target, target) ==> file in delta.fetch
    ensures exists step :: IsStepOf(delta, step) && step.path == entry.relativePath
  {
    hide Lookup, Survivor;
    var file := FileFor(installed, target, entry);
    FetchHolds(installed, target, target, file);
    assert IsStepOf(delta, StepFor(file));
  }

  lemma FullSettles(delta: BuildDelta, installed: seq<ManifestEntry>, target: seq<ManifestEntry>)
    requires UniquePaths(target)
    requires HasFetch(delta, FetchAll(target)) && HasRemove(delta, RemovedOf(installed, target))
    ensures Settles(delta, ToDisk(installed), ToDisk(target))
  {
    hide ToDisk, Lookup, StepFor, Independent, RemovedOf, UniquePaths, ContentAt;
    SameItems(delta.fetch, FetchAll(target));
    SameItems(delta.remove, RemovedOf(installed, target));
    var before, after := ToDisk(installed), ToDisk(target);
    forall step | IsStepOf(delta, step)
      ensures Independent(step, before, after)
    {
      if file :| file in delta.fetch && step == StepFor(file) {
        FetchedFileIsIndependent(installed, target, file.entry);
      } else {
        RemovalIsIndependent(installed, target, step.path);
      }
    }
    forall path | ContentAt(before, path) != ContentAt(after, path)
      ensures exists step :: IsStepOf(delta, step) && step.path == path
    {
      DifferencesAreKnown(installed, target, path);
      if path in RemovedOf(installed, target) {
        assert IsStepOf(delta, Remove(path));
      } else {
        var entry :| entry in target && entry.relativePath == path && !Kept(installed, entry);
        WrittenFileHasAStep(delta, target, entry);
      }
    }
  }

  lemma FullUpdatesInAnyOrder(delta: BuildDelta, installed: seq<ManifestEntry>, target: seq<ManifestEntry>)
    requires UniquePaths(target)
    requires HasFetch(delta, FetchAll(target)) && HasRemove(delta, RemovedOf(installed, target))
    ensures Updates(delta, installed, target)
  {
    FullSettles(delta, installed, target);
    SettlingPlansUpdate(delta, installed, target);
  }

  lemma WrittenFileHasAStep(delta: BuildDelta, target: seq<ManifestEntry>, entry: ManifestEntry)
    requires entry in target && forall file :: file in FetchAll(target) ==> file in delta.fetch
    ensures exists step :: IsStepOf(delta, step) && step.path == entry.relativePath
  {
    var k :| 0 <= k < |target| && target[k] == entry;
    assert FetchAll(target)[k] == DeltaFile(entry, "");
    assert IsStepOf(delta, StepFor(DeltaFile(entry, "")));
  }

  /** A delta or a full plan between two manifests, up to order. */
  ghost predicate IsPlanFor(delta: BuildDelta, installed: seq<ManifestEntry>, target: seq<ManifestEntry>) {
    && HasRemove(delta, RemovedOf(installed, target))
    && (HasFetch(delta, FetchOf(installed, target, target)) || HasFetch(delta, FetchAll(target)))
  }

  lemma PlanSettles(delta: BuildDelta, installed: seq<ManifestEntry>, target: seq<ManifestEntry>)
    requires IsPlanFor(delta, installed, target) && UniquePaths(target)
    ensures Settles(delta, ToDisk(installed), ToDisk(target))
  {
    hide Settles, HasFetch, HasRemove, ToDisk, RemovedOf, FetchOf, UniquePaths;
    if HasFetch(delta, FetchAll(target)) {
      FullSettles(delta, installed, target);
    } else {
      DeltaSettles(delta, installed, target);
    }
  }

  // ---------------------------------------------------------------------------
  // What a plan transfers
  // ---------------------------------------------------------------------------

  /** Blobs are content addresses, so one blob has one size (`filesFor` joins the sizes from one table). */
  ghost predicate OneSizePerBlob(entries: seq<ManifestEntry>) {
    forall i, j :: 0 <= i < |entries| && 0 <= j < |entries| && entries[i].blobSha256 == entries[j].blobSha256 ==>
      entries[i].sizeBytes == entries[j].sizeBytes
  }

  function BlobSizes(entries: seq<ManifestEntry>): map<string, int> {
    if entries == [] then map[]
    else
      var last := entries[|entries| - 1];
      BlobSizes(entries[..|entries| - 1])[last.blobSha256 := last.sizeBytes]
  }

  /** The entries of a plan whose bytes have to travel. */
  function Travelling(fetch: seq<DeltaFile>): seq<ManifestEntry> {
    if fetch == [] then []
    else
      var last := fetch[|fetch| - 1];
      Travelling(fetch[..|fetch| - 1]) + (if last.copyFrom == "" then [last.entry] else [])
  }

  predicate HeldByKept(installed: seq<ManifestEntry>, target: seq<ManifestEntry>, blob: string) {
    exists k :: 0 <= k < |target| && Kept(installed, target[k]) && target[k].blobSha256 == blob
  }

  /** The distinct blobs of the target that no unchanged path holds, with their sizes. */
  ghost function NeededBlobs(installed: seq<ManifestEntry>, target: seq<ManifestEntry>): map<string, int> {
    map blob | blob in BlobSizes(target) && !HeldByKept(installed, target, blob) :: BlobSizes(target)[blob]
  }

  lemma {:induction false} BlobSizesHold(entries: seq<ManifestEntry>, blob: string)
    requires OneSizePerBlob(entries)
    ensures blob in BlobSizes(entries) <==> exists k :: 0 <= k < |entries| && entries[k].blobSha256 == blob
    ensures forall k :: 0 <= k < |entries| && entries[k].blobSha256 == blob ==>
              blob in BlobSizes(entries) && BlobSizes(entries)[blob] == entries[k].sizeBytes
  {
    if entries != [] {
      var shorter := entries[..|entries| - 1];
      BlobSizesHold(shorter, blob);
      assert forall k :: 0 <= k < |shorter| ==> shorter[k] == entries[k];
      var last := entries[|entries| - 1];
      if blob in BlobSizes(entries) && blob != last.blobSha256 {
        var k :| 0 <= k < |shorter| && shorter[k].blobSha256 == blob;
        assert entries[k].blobSha256 == blob;
      }
    }
  }

  lemma {:induction false} TravellingHolds(fetch: seq<DeltaFile>, entry: ManifestEntry)
    ensures entry in Travelling(fetch) <==> DeltaFile(entry, "") in fetch
  {
    if fetch != [] {
      TravellingHolds(fetch[..|fetch| - 1], entry);
      assert fetch == fetch[..|fetch| - 1] + [fetch[|fetch| - 1]];
    }
  }

  lemma SubsetKeepsOneSize(entries: seq<ManifestEntry>, some: seq<ManifestEntry>)
    requires OneSizePerBlob(entries) && forall entry <- some :: entry in entries
    ensures OneSizePerBlob(some)
  {
    forall i, j | 0 <= i < |some| && 0 <= j < |some| && some[i].blobSha256 == some[j].blobSha256
      ensures some[i].sizeBytes == some[j].sizeBytes
    {
      assert some[i] in entries && some[j] in entries;
    }
  }

  ghost predicate NoEmptyPaths(entries: seq<ManifestEntry>) {
    forall k :: 0 <= k < |entries| ==> entries[k].relativePath != ""
  }

  /** An entry travels exactly when no unchanged path of the target holds its content. */
  lemma TravelsIffNotHeld(installed: seq<ManifestEntry>, target: seq<ManifestEntry>, entry: ManifestEntry)
    requires NoEmptyPaths(target)
    ensures entry in Travelling(FetchOf(installed, target, target))
       <==> entry in target && !HeldByKept(installed, target, entry.blobSha256)
  {
    hide Kept, Survivor, FetchOf, Travelling;
    TravellingHolds(FetchOf(installed, target, target), entry);
    FetchHolds(installed, target, target, DeltaFile(entry, ""));
    SurvivorIsKept(installed, target, entry.blobSha256);
    if entry in target {
      var k :| 0 <= k < |target| && target[k] == entry;
      assert Kept(installed, entry) ==> HeldByKept(installed, target, target[k].blobSha256);
    }
  }

  // In terms of the two disks: what is kept is what is in place, and what travels is what is in place nowhere.

  lemma KeptIsInPlace(installed: seq<ManifestEntry>, entry: ManifestEntry)
    ensures Kept(installed, entry) <==> ContentAt(ToDisk(installed), entry.relativePath) == Some(entry.blobSha256)
  {
    hide ToDisk, Lookup;
    DiskShowsLookup(installed, entry.relativePath);
  }

  /** The path has this content before the update, and keeps it. */
  ghost predicate StaysAt(installed: seq<ManifestEntry>, target: seq<ManifestEntry>, path: string, blob: string) {
    ContentAt(ToDisk(installed), path) == Some(blob) && ContentAt(ToDisk(target), path) == Some(blob)
  }

  /** A blob of the target has to travel exactly when no path has it before and after. */
  lemma NeededIsInPlaceNowhere(installed: seq<ManifestEntry>, target: seq<ManifestEntry>, blob: string)
    requires UniquePaths(target) && OneSizePerBlob(target)
    ensures blob in NeededBlobs(installed, target)
       <==> && (exists path :: ContentAt(ToDisk(target), path) == Some(blob))
            && (forall path :: !StaysAt(installed, target, path, blob))
  {
    hide ToDisk, Lookup, Kept, UniquePaths, OneSizePerBlob, BlobSizes, ContentAt;
    BlobSizesHold(target, blob);
    forall k | 0 <= k < |target| && target[k].blobSha256 == blob
      ensures ContentAt(ToDisk(target), target[k].relativePath) == Some(blob)
      ensures Kept(installed, target[k]) ==> StaysAt(installed, target, target[k].relativePath, blob)
    {
      LookupIsTheEntry(target, k);
      DiskShowsLookup(target, target[k].relativePath);
      KeptIsInPlace(installed, target[k]);
    }
    forall path | ContentAt(ToDisk(target), path) == Some(blob)
      ensures exists k :: 0 <= k < |target| && target[k].blobSha256 == blob
      ensures StaysAt(installed, target, path, blob) ==> HeldByKept(installed, target, blob)
    {
      DiskShowsLookup(target, path);
      LookupFinds(target, path);
      var entry := Lookup(target, path).value;
      var k :| 0 <= k < |target| && target[k] == entry;
      KeptIsInPlace(installed, entry);
    }
  }

  lemma SameSizes(entries: seq<ManifestEntry>, some: seq<ManifestEntry>, sizes: map<string, int>)
    requires OneSizePerBlob(entries) && (forall entry <- some :: entry in entries)
    requires forall blob :: blob in sizes <==> exists entry <- some :: entry.blobSha256 == blob
    requires forall blob <- sizes :: blob in BlobSizes(entries) && sizes[blob] == BlobSizes(entries)[blob]
    ensures BlobSizes(some) == sizes
  {
    hide BlobSizes, OneSizePerBlob;
    SubsetKeepsOneSize(entries, some);
    forall blob
      ensures blob in BlobSizes(some) <==> blob in sizes
      ensures blob in sizes ==> BlobSizes(some)[blob] == sizes[blob]
    {
      BlobSizesHold(some, blob);
      BlobSizesHold(entries, blob);
      if blob in sizes {
        var entry :| entry in some && entry.blobSha256 == blob;
        var j :| 0 <= j < |some| && some[j] == entry;
        var k :| 0 <= k < |entries| && entries[k] == entry;
      }
    }
  }

  lemma TravellingBlobsAreTheNeeded(installed: seq<ManifestEntry>, target: seq<ManifestEntry>)
    requires OneSizePerBlob(target) && NoEmptyPaths(target)
    ensures BlobSizes(Travelling(FetchOf(installed, target, target))) == NeededBlobs(installed, target)
  {
    hide BlobSizes, OneSizePerBlob, FetchOf, Travelling, HeldByKept, NoEmptyPaths;
    var travelling, needed := Travelling(FetchOf(installed, target, target)), NeededBlobs(installed, target);
    forall entry
      ensures entry in travelling <==> entry in target && !HeldByKept(installed, target, entry.blobSha256)
    {
      TravelsIffNotHeld(installed, target, entry);
    }
    forall blob <- needed
      ensures exists entry <- travelling :: entry.blobSha256 == blob
    {
      BlobSizesHold(target, blob);
      var k :| 0 <= k < |target| && target[k].blobSha256 == blob;
      assert target[k] in travelling;
    }
    forall entry <- travelling
      ensures entry.blobSha256 in needed
    {
      BlobSizesHold(target, entry.blobSha256);
      var k :| 0 <= k < |target| && target[k] == entry;
    }
    SameSizes(target, travelling, needed);
  }

  lemma {:induction false} FetchAllTravels(target: seq<ManifestEntry>)
    ensures Travelling(FetchAll(target)) == target
  {
    if target == [] {
    } else {
      var shorter := target[..|target| - 1];
      FetchAllTravels(shorter);
      assert FetchAll(target)[..|target| - 1] == FetchAll(shorter);
      assert target == shorter + [target[|target| - 1]];
    }
  }

  ghost predicate NoNegativeSizes(entries: seq<ManifestEntry>) {
    forall k :: 0 <= k < |entries| ==> entries[k].sizeBytes >= 0
  }

  lemma {:induction false} DistinctBlobsAreAtMostAll(entries: seq<ManifestEntry>)
    requires OneSizePerBlob(entries) && NoNegativeSizes(entries)
    ensures Total(BlobSizes(entries)) <= InstalledSize(entries)
  {
    if entries != [] {
      var shorter, last := entries[..|entries| - 1], entries[|entries| - 1];
      DistinctBlobsAreAtMostAll(shorter);
      TotalPut(BlobSizes(shorter), last.blobSha256, last.sizeBytes);
      BlobSizesHold(shorter, last.blobSha256);
      if last.blobSha256 in BlobSizes(shorter) {
        var k :| 0 <= k < |shorter| && shorter[k].blobSha256 == last.blobSha256;
        assert entries[k].blobSha256 == last.blobSha256;
      }
    }
  }

  /** A delta never transfers more than the full download, and that never more than the build. */
  lemma DeltaIsNeverDearer(installed: seq<ManifestEntry>, target: seq<ManifestEntry>)
    requires OneSizePerBlob(target) && NoNegativeSizes(target)
    ensures Total(NeededBlobs(installed, target)) <= Total(BlobSizes(target)) <= InstalledSize(target)
  {
    hide HeldByKept;
    DistinctBlobsAreAtMostAll(target);
    forall blob <- BlobSizes(target)
      ensures BlobSizes(target)[blob] >= 0
    {
      BlobSizesHold(target, blob);
    }
    TotalIsAtLeast(BlobSizes(target), NeededBlobs(installed, target));
  }

  /** The cost depends on what the manifests hold, not on the order they hold it in. */
  lemma NeededBlobsIgnoreOrder(installedA: seq<ManifestEntry>, installedB: seq<ManifestEntry>,
                               targetA: seq<ManifestEntry>, targetB: seq<ManifestEntry>)
    requires multiset(installedA) == multiset(installedB) && multiset(targetA) == multiset(targetB)
    requires UniquePaths(installedA) && OneSizePerBlob(targetA)
    ensures NeededBlobs(installedA, targetA) == NeededBlobs(installedB, targetB)
  {
    hide BlobSizes, UniquePaths, OneSizePerBlob, Kept;
    SameItems(targetA, targetB);
    SubsetKeepsOneSize(targetA, targetB);
    forall blob
      ensures blob in BlobSizes(targetA) <==> blob in BlobSizes(targetB)
      ensures blob in BlobSizes(targetA) ==> BlobSizes(targetA)[blob] == BlobSizes(targetB)[blob]
      ensures HeldByKept(installedA, targetA, blob) <==> HeldByKept(installedB, targetB, blob)
    {
      SameBlobInBoth(targetA, targetB, blob);
      HeldIgnoresOrder(installedA, installedB, targetA, targetB, blob);
    }
  }

  lemma SameBlobInBoth(a: seq<ManifestEntry>, b: seq<ManifestEntry>, blob: string)
    requires OneSizePerBlob(a) && OneSizePerBlob(b) && forall entry :: entry in a <==> entry in b
    ensures blob in BlobSizes(a) <==> blob in BlobSizes(b)
    ensures blob in BlobSizes(a) ==> BlobSizes(a)[blob] == BlobSizes(b)[blob]
  {
    hide BlobSizes, OneSizePerBlob;
    BlobSizesHold(a, blob);
    BlobSizesHold(b, blob);
    if k :| 0 <= k < |a| && a[k].blobSha256 == blob {
      assert a[k] in b;
    }
    if k :| 0 <= k < |b| && b[k].blobSha256 == blob {
      assert b[k] in a;
    }
  }

  lemma KeptIgnoresOrder(a: seq<ManifestEntry>, b: seq<ManifestEntry>, entry: ManifestEntry)
    requires multiset(a) == multiset(b) && UniquePaths(a)
    ensures Kept(a, entry) <==> Kept(b, entry)
  {
    hide Lookup;
    SameItems(a, b);
    UniqueKeysSurvivePermutation(a, b, PathOf);
    LookupFinds(a, entry.relativePath);
    LookupFinds(b, entry.relativePath);
    if Lookup(a, entry.relativePath).Some? {
      var k :| 0 <= k < |b| && b[k] == Lookup(a, entry.relativePath).value;
      LookupIsTheEntry(b, k);
    }
  }

  lemma HeldIgnoresOrder(installedA: seq<ManifestEntry>, installedB: seq<ManifestEntry>,
                         targetA: seq<ManifestEntry>, targetB: seq<ManifestEntry>, blob: string)
    requires multiset(installedA) == multiset(installedB) && UniquePaths(installedA)
    requires forall entry :: entry in targetA <==> entry in targetB
    ensures HeldByKept(installedA, targetA, blob) <==> HeldByKept(installedB, targetB, blob)
  {
    hide Kept, UniquePaths;
    if k :| 0 <= k < |targetA| && Kept(installedA, targetA[k]) && targetA[k].blobSha256 == blob {
      KeptIgnoresOrder(installedA, installedB, targetA[k]);
      assert targetA[k] in targetB;
      var m :| 0 <= m < |targetB| && targetB[m] == targetA[k];
    }
    if k :| 0 <= k < |targetB| && Kept(installedB, targetB[k]) && targetB[k].blobSha256 == blob {
      KeptIgnoresOrder(installedA, installedB, targetB[k]);
      assert targetB[k] in targetA;
      var m :| 0 <= m < |targetA| && targetA[m] == targetB[k];
    }
  }

  // ---------------------------------------------------------------------------
  // The loops
  // ---------------------------------------------------------------------------

  /** A hash map from paths to entries, as `emplace` fills it: the first entry at a path stays. */
  ghost predicate Indexes(index: map<string, ManifestEntry>, entries: seq<ManifestEntry>) {
    forall path :: Lookup(entries, path) == if path in index then Some(index[path]) else None
  }

  method IndexByPath(entries: seq<ManifestEntry>) returns (index: map<string, ManifestEntry>)
    ensures Indexes(index, entries)
  {
    index := map[];
    var i := 0;
    while i < |entries|
      invariant 0 <= i <= |entries|
      invariant Indexes(index, entries[..i])
    {
      var entry := entries[i];
      assert entries[..i + 1][..i] == entries[..i];
      if entry.relativePath !in index {
        index := index[entry.relativePath := entry];
      }
      i := i + 1;
    }
    assert entries[..i] == entries;
  }

  method SurvivingContent(installed: map<string, ManifestEntry>, target: seq<ManifestEntry>,
                          ghost from: seq<ManifestEntry>)
    returns (byBlob: map<string, string>)
    requires Indexes(installed, from)
    ensures forall blob :: Survivor(from, target, blob) == if blob in byBlob then Some(byBlob[blob]) else None
  {
    byBlob := map[];
    var i := 0;
    while i < |target|
      invariant 0 <= i <= |target|
      invariant forall blob ::
        Survivor(from, target[..i], blob) == if blob in byBlob then Some(byBlob[blob]) else None
    {
      var entry := target[i];
      assert target[..i + 1][..i] == target[..i];
      assert Lookup(from, entry.relativePath)
          == if entry.relativePath in installed then Some(installed[entry.relativePath]) else None;
      if entry.relativePath in installed && installed[entry.relativePath].blobSha256 == entry.blobSha256 {
        if entry.blobSha256 !in byBlob {
          byBlob := byBlob[entry.blobSha256 := entry.relativePath];
        }
      }
      i := i + 1;
    }
    assert target[..i] == target;
  }

  method PathsToRemove(installed: seq<ManifestEntry>, target: map<string, ManifestEntry>, ghost to: seq<ManifestEntry>)
    returns (removed: seq<string>)
    requires Indexes(target, to)
    ensures removed == RemovedOf(installed, to)
  {
    removed := [];
    var i := 0;
    while i < |installed|
      invariant 0 <= i <= |installed|
      invariant removed == RemovedOf(installed[..i], to)
    {
      assert installed[..i + 1][..i] == installed[..i];
      assert Lookup(to, installed[i].relativePath)
          == if installed[i].relativePath in target then Some(target[installed[i].relativePath]) else None;
      if installed[i].relativePath !in target {
        removed := removed + [installed[i].relativePath];
      }
      i := i + 1;
    }
    assert installed[..i] == installed;
  }

  ghost predicate Counted(travelling: seq<ManifestEntry>, counted: set<string>, bytes: int) {
    && counted == BlobSizes(travelling).Keys
    && (OneSizePerBlob(travelling) ==> bytes == Total(BlobSizes(travelling)))
  }

  lemma NothingCounted()
    ensures Counted(Travelling([]), {}, 0)
  {
  }

  lemma CountedIsTheTotal(travelling: seq<ManifestEntry>, counted: set<string>, bytes: int)
    requires Counted(travelling, counted, bytes)
    ensures OneSizePerBlob(travelling) ==> bytes == Total(BlobSizes(travelling))
  {
  }

  method TransferBytes(fetch: seq<DeltaFile>) returns (bytes: int)
    ensures OneSizePerBlob(Travelling(fetch)) ==> bytes == Total(BlobSizes(Travelling(fetch)))
  {
    hide Counted, Travelling, BlobSizes, OneSizePerBlob, Total;
    var counted: set<string> := {};
    bytes := 0;
    NothingCounted();
    assert fetch[..0] == [];
    var i := 0;
    while i < |fetch|
      invariant 0 <= i <= |fetch|
      invariant Counted(Travelling(fetch[..i]), counted, bytes)
    {
      var file := fetch[i];
      TravellingGrows(fetch, i);
      if file.copyFrom == "" {
        CountedOnce(Travelling(fetch[..i]), file.entry, counted, bytes);
        if file.entry.blobSha256 !in counted {
          counted := counted + {file.entry.blobSha256};
          bytes := bytes + file.entry.sizeBytes;
        }
      }
      i := i + 1;
    }
    assert fetch[..i] == fetch;
    CountedIsTheTotal(Travelling(fetch), counted, bytes);
  }

  lemma TravellingGrows(fetch: seq<DeltaFile>, i: nat)
    requires i < |fetch|
    ensures Travelling(fetch[..i + 1])
         == if fetch[i].copyFrom == "" then Travelling(fetch[..i]) + [fetch[i].entry] else Travelling(fetch[..i])
  {
    assert fetch[..i + 1][..i] == fetch[..i];
    assert Travelling(fetch[..i]) + [] == Travelling(fetch[..i]);
  }

  lemma CountedOnce(before: seq<ManifestEntry>, entry: ManifestEntry, counted: set<string>, bytes: int)
    requires Counted(before, counted, bytes)
    ensures if entry.blobSha256 in counted then Counted(before + [entry], counted, bytes)
            else Counted(before + [entry], counted + {entry.blobSha256}, bytes + entry.sizeBytes)
  {
    var after := before + [entry];
    assert after[..|before|] == before;
    TotalPut(BlobSizes(before), entry.blobSha256, entry.sizeBytes);
    if OneSizePerBlob(after) {
      SubsetKeepsOneSize(after, before);
      BlobSizesHold(before, entry.blobSha256);
      if k :| 0 <= k < |before| && before[k].blobSha256 == entry.blobSha256 {
        assert after[k].sizeBytes == after[|before|].sizeBytes;
      }
    }
  }

  method SumOfSizes(target: seq<ManifestEntry>) returns (bytes: int)
    ensures bytes == InstalledSize(target)
  {
    bytes := 0;
    var i := 0;
    while i < |target|
      invariant 0 <= i <= |target|
      invariant bytes == InstalledSize(target[..i])
    {
      assert target[..i + 1][..i] == target[..i];
      bytes := bytes + target[i].sizeBytes;
      i := i + 1;
    }
    assert target[..i] == target;
  }

  function FilePath(file: DeltaFile): string {
    file.entry.relativePath
  }

  function Itself(path: string): string {
    path
  }

  ghost predicate IsSorted(delta: BuildDelta) {
    SortedBy(delta.fetch, FilePath) && SortedBy(delta.kept, PathOf) && SortedBy(delta.remove, Itself)
  }

  method SortPlan(delta: BuildDelta) returns (plan: BuildDelta)
    ensures IsSorted(plan)
    ensures multiset(plan.fetch) == multiset(delta.fetch)
    ensures multiset(plan.kept) == multiset(delta.kept)
    ensures multiset(plan.remove) == multiset(delta.remove)
    ensures plan == delta.(fetch := plan.fetch, kept := plan.kept, remove := plan.remove)
  {
    var fetch := SortBy(delta.fetch, FilePath);
    var kept := SortBy(delta.kept, PathOf);
    var remove := SortBy(delta.remove, Itself);
    plan := delta.(fetch := fetch, kept := kept, remove := remove);
  }

  method FullDownload(installed: seq<ManifestEntry>, target: seq<ManifestEntry>) returns (delta: BuildDelta)
    ensures delta.kind == Full && delta.kept == [] && delta.totalBytes == InstalledSize(target)
    ensures IsSorted(delta) && HasFetch(delta, FetchAll(target)) && HasRemove(delta, RemovedOf(installed, target))
    ensures OneSizePerBlob(target) ==> delta.downloadBytes == Total(BlobSizes(target))
    ensures UniquePaths(target) ==> Updates(delta, installed, target)
  {
    var totalBytes := SumOfSizes(target);
    var fetch: seq<DeltaFile> := [];
    var i := 0;
    while i < |target|
      invariant 0 <= i <= |target|
      invariant fetch == FetchAll(target)[..i]
    {
      fetch := fetch + [DeltaFile(target[i], "")];
      i := i + 1;
    }
    assert fetch == FetchAll(target);
    var targetByPath := IndexByPath(target);
    var remove := PathsToRemove(installed, targetByPath, target);
    FetchAllTravels(target);
    var downloadBytes := TransferBytes(fetch);
    delta := SortPlan(BuildDelta(Full, fetch, [], remove, downloadBytes, totalBytes));
    if UniquePaths(target) {
      FullUpdatesInAnyOrder(delta, installed, target);
    }
  }

  /** The loop that divides the target into what stays and what is fetched. */
  method Divide(installed: seq<ManifestEntry>, target: seq<ManifestEntry>)
    returns (fetch: seq<DeltaFile>, kept: seq<ManifestEntry>)
    ensures fetch == FetchOf(installed, target, target) && kept == KeptOf(installed, target)
  {
    var installedByPath := IndexByPath(installed);
    var reusable := SurvivingContent(installedByPath, target, installed);
    fetch, kept := [], [];
    var i := 0;
    while i < |target|
      invariant 0 <= i <= |target|
      invariant fetch == FetchOf(installed, target, target[..i])
      invariant kept == KeptOf(installed, target[..i])
    {
      var entry := target[i];
      assert target[..i + 1][..i] == target[..i];
      assert Lookup(installed, entry.relativePath)
          == if entry.relativePath in installedByPath then Some(installedByPath[entry.relativePath]) else None;
      if entry.relativePath in installedByPath && installedByPath[entry.relativePath].blobSha256 == entry.blobSha256 {
        kept := kept + [entry];
      } else {
        var file := DeltaFile(entry, "");
        if entry.blobSha256 in reusable {
          file := file.(copyFrom := reusable[entry.blobSha256]);
        }
        fetch := fetch + [file];
      }
      i := i + 1;
    }
    assert target[..i] == target;
  }

  method ComputeDelta(installed: seq<ManifestEntry>, target: seq<ManifestEntry>) returns (delta: BuildDelta)
    ensures delta.kind == Delta && delta.totalBytes == InstalledSize(target) && IsSorted(delta)
    ensures HasFetch(delta, FetchOf(installed, target, target)) && HasRemove(delta, RemovedOf(installed, target))
    ensures multiset(delta.kept) == multiset(KeptOf(installed, target))
    ensures forall entry :: entry in delta.kept <==> entry in target && Kept(installed, entry)
    ensures OneSizePerBlob(target) && NoEmptyPaths(target) ==>
              delta.downloadBytes == Total(NeededBlobs(installed, target))
    ensures UniquePaths(target) ==> Updates(delta, installed, target)
  {
    hide FetchOf, RemovedOf, KeptOf, Kept, BlobSizes, NeededBlobs, Updates, OneSizePerBlob, NoEmptyPaths, UniquePaths;
    var totalBytes := SumOfSizes(target);
    var fetch, kept := Divide(installed, target);
    var targetByPath := IndexByPath(target);
    var remove := PathsToRemove(installed, targetByPath, target);
    var downloadBytes := TransferBytes(fetch);
    delta := SortPlan(BuildDelta(Delta, fetch, kept, remove, downloadBytes, totalBytes));
    SameItems(delta.kept, kept);
    forall entry
      ensures entry in delta.kept <==> entry in target && Kept(installed, entry)
    {
      KeptHolds(installed, target, entry);
    }
    if OneSizePerBlob(target) && NoEmptyPaths(target) {
      forall entry <- Travelling(fetch)
        ensures entry in target
      {
        TravelsIffNotHeld(installed, target, entry);
      }
      SubsetKeepsOneSize(target, Travelling(fetch));
      TravellingBlobsAreTheNeeded(installed, target);
    }
    if UniquePaths(target) {
      DeltaUpdatesInAnyOrder(delta, installed, target);
    }
  }
}
