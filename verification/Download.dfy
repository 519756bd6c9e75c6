/**
 Planning a download and verifying an install (`services/DownloadService.cpp`), after the checks of
 who may see the build: those arrive here as the result of the lookup.
 */
module Downloads {
  import opened Common
  import opened Manifest
  import opened Ordering
  import opened Sums
  import opened BlobStores
  import opened Deltas

  datatype DownloadFile = DownloadFile(entry: ManifestEntry, copyFrom: string, url: string)

  // ---------------------------------------------------------------------------
  // Signing
  // ---------------------------------------------------------------------------

  function Signed(file: DeltaFile, sign: string -> string): DownloadFile {
    DownloadFile(file.entry, file.copyFrom, sign(StorageKeyFor(file.entry.blobSha256)))
  }

  method SignAll(files: seq<DeltaFile>, sign: string -> string) returns (signed: seq<DownloadFile>)
    ensures |signed| == |files| && forall k :: 0 <= k < |files| ==> signed[k] == Signed(files[k], sign)
  {
    signed := [];
    var urls: map<string, string> := map[];
    var i := 0;
    while i < |files|
      invariant 0 <= i <= |files| && |signed| == i
      invariant forall k :: 0 <= k < i ==> signed[k] == Signed(files[k], sign)
      invariant forall blob <- urls :: urls[blob] == sign(StorageKeyFor(blob))
    {
      var blob := files[i].entry.blobSha256;
      if blob !in urls {
        urls := urls[blob := sign(StorageKeyFor(blob))];
      }
      signed := signed + [DownloadFile(files[i].entry, files[i].copyFrom, urls[blob])];
      i := i + 1;
    }
  }

  // ---------------------------------------------------------------------------
  // Planning
  // ---------------------------------------------------------------------------

  /** What is known about the build a client says it has. */
  datatype Source = NotGiven | Unreadable | OfAnotherGame | Readable(files: seq<ManifestEntry>)

  function InstalledFrom(source: Source): seq<ManifestEntry> {
    if source.Readable? then source.files else []
  }

  /** Within the threshold, a delta is worth sending. */
  ghost predicate DeltaIsWorthIt(installed: seq<ManifestEntry>, target: seq<ManifestEntry>, ratio: real) {
    installed != [] && Total(NeededBlobs(installed, target)) as real <= ratio * InstalledSize(target) as real
  }

  ghost predicate FromOneStore(target: seq<ManifestEntry>) {
    UniquePaths(target) && NoEmptyPaths(target) && OneSizePerBlob(target)
  }

  /** Either kind of plan turns what the source manifest says is installed into the target, in any order. */
  method Plan(target: Result<seq<ManifestEntry>>, source: Source, ratio: real) returns (r: Result<BuildDelta>)
    ensures target.Err? ==> r == Err(target.code)
    ensures target.Ok? && source.OfAnotherGame? ==> r == Err(InvalidInput)
    ensures target.Ok? && !source.OfAnotherGame? ==> r.Ok? && r.value.totalBytes == InstalledSize(target.value)
    ensures r.Ok? && FromOneStore(target.value) ==>
              var installed := InstalledFrom(source);
              && IsPlanFor(r.value, installed, target.value) && Updates(r.value, installed, target.value)
              && (r.value.kind == Delta <==> DeltaIsWorthIt(installed, target.value, ratio))
              && r.value.downloadBytes == (if r.value.kind == Delta then Total(NeededBlobs(installed, target.value))
                                           else Total(BlobSizes(target.value)))
  {
    hide Updates, NeededBlobs, BlobSizes, FetchOf, FetchAll, RemovedOf, KeptOf, IsSorted, HasFetch, HasRemove, Total;
    hide UniquePaths, NoEmptyPaths, OneSizePerBlob, InstalledSize;
    if target.Err? {
      return Err(target.code);
    }
    var files := target.value;
    var installed: seq<ManifestEntry> := [];
    match source {
      case NotGiven =>
      case Unreadable =>
      case OfAnotherGame => return Err(InvalidInput);
      case Readable(held) => installed := held;
    }
    var delta;
    if installed == [] {
      delta := FullDownload(installed, files);
    } else {
      delta := ComputeDelta(installed, files);
    }
    if delta.kind == Delta && delta.downloadBytes as real > ratio * delta.totalBytes as real {
      delta := FullDownload(installed, files);
    }
    return Ok(delta);
  }

  /** A threshold of the whole build or more never turns a delta down. */
  lemma GenerousThresholdsTakeTheDelta(installed: seq<ManifestEntry>, target: seq<ManifestEntry>, ratio: real)
    requires installed != [] && OneSizePerBlob(target) && NoNegativeSizes(target) && ratio >= 1.0
    ensures DeltaIsWorthIt(installed, target, ratio)
  {
    hide NeededBlobs, BlobSizes, InstalledSize, OneSizePerBlob, NoNegativeSizes;
    DeltaIsNeverDearer(installed, target);
    DistinctBlobsAreNotNegative(target);
    var size := InstalledSize(target) as real;
    assert ratio * size == size + (ratio - 1.0) * size;
  }

  lemma DistinctBlobsAreNotNegative(entries: seq<ManifestEntry>)
    requires OneSizePerBlob(entries) && NoNegativeSizes(entries)
    ensures InstalledSize(entries) >= 0
  {
    if entries != [] {
      DistinctBlobsAreNotNegative(entries[..|entries| - 1]);
    }
  }

  /** Updating to the build that is installed is a delta of nothing, whatever the threshold. */
  lemma TheSameBuildIsADeltaOfNothing(build: seq<ManifestEntry>, ratio: real)
    requires build != [] && UniquePaths(build) && OneSizePerBlob(build) && NoNegativeSizes(build) && ratio >= 0.0
    ensures Total(NeededBlobs(build, build)) == 0 && DeltaIsWorthIt(build, build, ratio)
  {
    hide NeededBlobs, InstalledSize, OneSizePerBlob, NoNegativeSizes, UniquePaths, StaysAt;
    forall blob
      ensures blob !in NeededBlobs(build, build)
    {
      NeededIsInPlaceNowhere(build, build, blob);
      EverythingStays(build, blob);
    }
    assert NeededBlobs(build, build) == map[];
    DistinctBlobsAreNotNegative(build);
    assert ratio * InstalledSize(build) as real >= 0.0;
  }

  lemma EverythingStays(build: seq<ManifestEntry>, blob: string)
    ensures forall path :: ContentAt(ToDisk(build), path) == Some(blob) ==> StaysAt(build, build, path, blob)
  {
  }

  // ---------------------------------------------------------------------------
  // Verifying an install
  // ---------------------------------------------------------------------------

  datatype InstalledFile = InstalledFile(relativePath: string, sha256: string)

  datatype IntegrityReport = IntegrityReport(
    missing: seq<string>,
    corrupt: seq<string>,
    unexpected: seq<string>,
    repair: seq<DownloadFile>,
    repairBytes: int,
    intact: bool)

  function ReportedPath(file: InstalledFile): string {
    file.relativePath
  }

  predicate IsReportable(file: InstalledFile) {
    0 < |file.relativePath| <= MAX_RELATIVE_PATH_LENGTH && IsSha256Hex(file.sha256)
  }

  ghost predicate AcceptableReport(installed: seq<InstalledFile>) {
    && |installed| <= MAX_MANIFEST_ENTRIES
    && (forall k :: 0 <= k < |installed| ==> IsReportable(installed[k]))
    && UniqueBy(installed, ReportedPath)
  }

  /** What the client said it found at each path. */
  ghost predicate Observes(observed: map<string, string>, installed: seq<InstalledFile>) {
    && (forall path :: path in observed <==> exists k :: 0 <= k < |installed| && installed[k].relativePath == path)
    && (forall k :: 0 <= k < |installed| ==>
         installed[k].relativePath in observed && observed[installed[k].relativePath] == installed[k].sha256)
  }

  predicate Matches(observed: map<string, string>, entry: ManifestEntry) {
    entry.relativePath in observed && observed[entry.relativePath] == entry.blobSha256
  }

  predicate IsMissing(observed: map<string, string>, entry: ManifestEntry) {
    entry.relativePath !in observed
  }

  predicate IsCorrupt(observed: map<string, string>, entry: ManifestEntry) {
    entry.relativePath in observed && observed[entry.relativePath] != entry.blobSha256
  }

  function Where(entries: seq<ManifestEntry>, chosen: ManifestEntry -> bool): seq<ManifestEntry> {
    if entries == [] then []
    else
      var last := entries[|entries| - 1];
      Where(entries[..|entries| - 1], chosen) + (if chosen(last) then [last] else [])
  }

  function PathsOf(entries: seq<ManifestEntry>): (paths: seq<string>)
    ensures |paths| == |entries| && forall k :: 0 <= k < |entries| ==> paths[k] == entries[k].relativePath
  {
    seq(|entries|, k requires 0 <= k < |entries| => entries[k].relativePath)
  }

  lemma {:induction false} WhereHolds(entries: seq<ManifestEntry>, chosen: ManifestEntry -> bool, entry: ManifestEntry)
    ensures entry in Where(entries, chosen) <==> entry in entries && chosen(entry)
  {
    if entries != [] {
      WhereHolds(entries[..|entries| - 1], chosen, entry);
      assert entries == entries[..|entries| - 1] + [entries[|entries| - 1]];
    }
  }

  /** The manifest's answer to an observation, file by file. */
  ghost predicate Reports(report: IntegrityReport, observed: map<string, string>, expected: seq<ManifestEntry>) {
    && report.missing == PathsOf(Where(expected, e => IsMissing(observed, e)))
    && report.corrupt == PathsOf(Where(expected, e => IsCorrupt(observed, e)))
    && |report.repair| == |Where(expected, e => !Matches(observed, e))|
    && (forall k :: 0 <= k < |report.repair| ==>
         && report.repair[k].entry == Where(expected, e => !Matches(observed, e))[k]
         && report.repair[k].copyFrom == "")
    && (report.intact <==> forall k :: 0 <= k < |expected| ==> Matches(observed, expected[k]))
    && (OneSizePerBlob(expected) ==>
         report.repairBytes == Total(BlobSizes(Where(expected, e => !Matches(observed, e)))))
  }

  method DistinctBlobBytes(files: seq<DownloadFile>, ghost entries: seq<ManifestEntry>) returns (bytes: int)
    requires |files| == |entries| && forall k :: 0 <= k < |files| ==> files[k].entry == entries[k]
    ensures OneSizePerBlob(entries) ==> bytes == Total(BlobSizes(entries))
  {
    var counted: set<string> := {};
    bytes := 0;
    var i := 0;
    while i < |files|
      invariant 0 <= i <= |files|
      invariant Counted(entries[..i], counted, bytes)
    {
      hide Counted;
      CountedOnce(entries[..i], files[i].entry, counted, bytes);
      assert entries[..i + 1] == entries[..i] + [files[i].entry];
      if files[i].entry.blobSha256 !in counted {
        counted := counted + {files[i].entry.blobSha256};
        bytes := bytes + files[i].entry.sizeBytes;
      }
      i := i + 1;
    }
    assert entries[..i] == entries;
  }

  method Observe(installed: seq<InstalledFile>) returns (r: Result<map<string, string>>)
    ensures r.Ok? <==> (forall k :: 0 <= k < |installed| ==> IsReportable(installed[k])) && UniqueBy(installed, ReportedPath)
    ensures r.Ok? ==> Observes(r.value, installed)
    ensures r.Err? ==> r.code == InvalidInput || (r.code == Conflict && !UniqueBy(installed, ReportedPath))
  {
    hide IsSha256Hex;
    var observed: map<string, string> := map[];
    var i := 0;
    while i < |installed|
      invariant 0 <= i <= |installed|
      invariant forall k :: 0 <= k < i ==> IsReportable(installed[k])
      invariant UniqueBy(installed[..i], ReportedPath)
      invariant Observes(observed, installed[..i])
    {
      var file := installed[i];
      if file.relativePath == "" || |file.relativePath| > MAX_RELATIVE_PATH_LENGTH {
        return Err(InvalidInput);
      }
      if !IsSha256Hex(file.sha256) {
        return Err(InvalidInput);
      }
      if file.relativePath in observed {
        var k :| 0 <= k < i && installed[..i][k].relativePath == file.relativePath;
        assert ReportedPath(installed[k]) == ReportedPath(installed[i]);
        return Err(Conflict);
      }
      ObservesOneMore(observed, installed, i);
      observed := observed[file.relativePath := file.sha256];
      i := i + 1;
    }
    assert installed[..i] == installed;
    return Ok(observed);
  }

  lemma ObservesOneMore(observed: map<string, string>, installed: seq<InstalledFile>, i: nat)
    requires i < |installed| && Observes(observed, installed[..i]) && installed[i].relativePath !in observed
    requires UniqueBy(installed[..i], ReportedPath)
    ensures Observes(observed[installed[i].relativePath := installed[i].sha256], installed[..i + 1])
    ensures UniqueBy(installed[..i + 1], ReportedPath)
  {
    var longer := installed[..i + 1];
    var after := observed[installed[i].relativePath := installed[i].sha256];
    assert forall k :: 0 <= k < i ==> longer[k] == installed[..i][k];
    forall path
      ensures path in after <==> exists k :: 0 <= k < |longer| && longer[k].relativePath == path
    {
      if path in observed {
        var k :| 0 <= k < i && installed[..i][k].relativePath == path;
        assert longer[k].relativePath == path;
      } else if path == installed[i].relativePath {
        assert longer[i].relativePath == path;
      }
    }
    forall j, k | 0 <= j < k < |longer|
      ensures ReportedPath(longer[j]) != ReportedPath(longer[k])
    {
      if k < i {
        assert ReportedPath(installed[..i][j]) != ReportedPath(installed[..i][k]);
      } else {
        assert longer[j].relativePath == installed[..i][j].relativePath;
      }
    }
  }

  /** The loop that sorts the manifest's files into missing, corrupt and fine. */
  method Classify(observed: map<string, string>, expected: seq<ManifestEntry>)
    returns (missing: seq<string>, corrupt: seq<string>, damaged: seq<DeltaFile>)
    ensures missing == PathsOf(Where(expected, e => IsMissing(observed, e)))
    ensures corrupt == PathsOf(Where(expected, e => IsCorrupt(observed, e)))
    ensures damaged == FetchAll(Where(expected, e => !Matches(observed, e)))
  {
    missing, corrupt, damaged := [], [], [];
    var i := 0;
    while i < |expected|
      invariant 0 <= i <= |expected|
      invariant missing == PathsOf(Where(expected[..i], e => IsMissing(observed, e)))
      invariant corrupt == PathsOf(Where(expected[..i], e => IsCorrupt(observed, e)))
      invariant damaged == FetchAll(Where(expected[..i], e => !Matches(observed, e)))
    {
      var entry := expected[i];
      WhereGrows(expected, i, e => IsMissing(observed, e));
      WhereGrows(expected, i, e => IsCorrupt(observed, e));
      WhereGrows(expected, i, e => !Matches(observed, e));
      if entry.relativePath !in observed {
        missing := missing + [entry.relativePath];
        damaged := damaged + [DeltaFile(entry, "")];
      } else if observed[entry.relativePath] != entry.blobSha256 {
        corrupt := corrupt + [entry.relativePath];
        damaged := damaged + [DeltaFile(entry, "")];
      }
      i := i + 1;
    }
    assert expected[..i] == expected;
  }

  lemma WhereGrows(entries: seq<ManifestEntry>, i: nat, chosen: ManifestEntry -> bool)
    requires i < |entries|
    ensures Where(entries[..i + 1], chosen)
         == if chosen(entries[i]) then Where(entries[..i], chosen) + [entries[i]] else Where(entries[..i], chosen)
    ensures chosen(entries[i]) ==>
              PathsOf(Where(entries[..i + 1], chosen)) == PathsOf(Where(entries[..i], chosen)) + [entries[i].relativePath]
    ensures chosen(entries[i]) ==>
              FetchAll(Where(entries[..i + 1], chosen)) == FetchAll(Where(entries[..i], chosen)) + [DeltaFile(entries[i], "")]
  {
    assert entries[..i + 1][..i] == entries[..i];
    assert Where(entries[..i], chosen) + [] == Where(entries[..i], chosen);
  }

  predicate InManifest(expected: seq<ManifestEntry>, path: string) {
    exists k :: 0 <= k < |expected| && expected[k].relativePath == path
  }

  predicate IsUnexpected(installed: seq<InstalledFile>, expected: seq<ManifestEntry>, path: string) {
    (exists k :: 0 <= k < |installed| && installed[k].relativePath == path) && !InManifest(expected, path)
  }

  /** The files the manifest never mentions, sorted. */
  method FindUnexpected(installed: seq<InstalledFile>, expected: seq<ManifestEntry>) returns (unexpected: seq<string>)
    ensures SortedBy(unexpected, Itself)
    ensures forall path :: path in unexpected <==> IsUnexpected(installed, expected, path)
  {
    var manifestPaths: set<string> := {};
    var i := 0;
    while i < |expected|
      invariant 0 <= i <= |expected|
      invariant forall path :: path in manifestPaths <==> exists k :: 0 <= k < i && expected[k].relativePath == path
    {
      manifestPaths := manifestPaths + {expected[i].relativePath};
      i := i + 1;
    }
    unexpected := [];
    i := 0;
    while i < |installed|
      invariant 0 <= i <= |installed|
      invariant forall path :: path in unexpected
                  <==> exists k :: 0 <= k < i && installed[k].relativePath == path && path !in manifestPaths
    {
      if installed[i].relativePath !in manifestPaths {
        unexpected := unexpected + [installed[i].relativePath];
      }
      i := i + 1;
    }
    var found := unexpected;
    unexpected := SortBy(found, Itself);
    SameItems(unexpected, found);
  }

  /** What `verifyInstall` answers: a report of what was observed, if the client's list is acceptable. */
  ghost predicate Verified(r: Result<IntegrityReport>, expected: seq<ManifestEntry>, installed: seq<InstalledFile>) {
    && (r.Ok? <==> AcceptableReport(installed))
    && (r.Ok? ==> exists observed :: Observes(observed, installed) && Reports(r.value, observed, expected))
  }

  method VerifyInstall(build: Result<seq<ManifestEntry>>, installed: seq<InstalledFile>, sign: string -> string)
    returns (r: Result<IntegrityReport>)
    ensures build.Err? ==> r == Err(build.code)
    ensures build.Ok? ==> Verified(r, build.value, installed)
    ensures build.Ok? && r.Err? ==> r.code == InvalidInput || (r.code == Conflict && !UniqueBy(installed, ReportedPath))
    ensures r.Ok? ==> (forall path :: path in r.value.unexpected <==> IsUnexpected(installed, build.value, path))
  {
    if build.Err? {
      return Err(build.code);
    }
    if |installed| > MAX_MANIFEST_ENTRIES {
      return Err(InvalidInput);
    }
    var observation := Observe(installed);
    if observation.Err? {
      return Err(observation.code);
    }
    var observed, expected := observation.value, build.value;
    var missing, corrupt, damaged := Classify(observed, expected);
    var unexpected := FindUnexpected(installed, expected);
    var repair := SignAll(damaged, sign);
    ghost var unmatched := Where(expected, e => !Matches(observed, e));
    var repairBytes := DistinctBlobBytes(repair, unmatched);
    var report := IntegrityReport(missing, corrupt, unexpected, repair, repairBytes, missing == [] && corrupt == []);
    NothingDamagedIffIntact(observed, expected);
    if OneSizePerBlob(expected) {
      forall entry <- unmatched
        ensures entry in expected
      {
        WhereHolds(expected, e => !Matches(observed, e), entry);
      }
      SubsetKeepsOneSize(expected, unmatched);
    }
    assert Reports(report, observed, expected);
    return Ok(report);
  }

  lemma NothingDamagedIffIntact(observed: map<string, string>, expected: seq<ManifestEntry>)
    ensures (Where(expected, e => IsMissing(observed, e)) == [] && Where(expected, e => IsCorrupt(observed, e)) == [])
       <==> forall k :: 0 <= k < |expected| ==> Matches(observed, expected[k])
  {
    var missing := Where(expected, e => IsMissing(observed, e));
    var corrupt := Where(expected, e => IsCorrupt(observed, e));
    forall k | 0 <= k < |expected|
      ensures IsMissing(observed, expected[k]) <==> expected[k] in missing
      ensures IsCorrupt(observed, expected[k]) <==> expected[k] in corrupt
    {
      WhereHolds(expected, e => IsMissing(observed, e), expected[k]);
      WhereHolds(expected, e => IsCorrupt(observed, e), expected[k]);
    }
    if missing != [] {
      WhereHolds(expected, e => IsMissing(observed, e), missing[0]);
    }
    if corrupt != [] {
      WhereHolds(expected, e => IsCorrupt(observed, e), corrupt[0]);
    }
  }

  // ---------------------------------------------------------------------------
  // What a report means
  // ---------------------------------------------------------------------------

  lemma PathAmong(entries: seq<ManifestEntry>, chosen: ManifestEntry -> bool, k: nat)
    requires UniquePaths(entries) && k < |entries|
    ensures entries[k].relativePath in PathsOf(Where(entries, chosen)) <==> chosen(entries[k])
  {
    var some := Where(entries, chosen);
    WhereHolds(entries, chosen, entries[k]);
    if entries[k].relativePath in PathsOf(some) {
      var m :| 0 <= m < |some| && PathsOf(some)[m] == entries[k].relativePath;
      WhereHolds(entries, chosen, some[m]);
      var n :| 0 <= n < |entries| && entries[n] == some[m];
      assert PathOf(entries[n]) == PathOf(entries[k]);
    }
    if chosen(entries[k]) {
      var m :| 0 <= m < |some| && some[m] == entries[k];
      assert PathsOf(some)[m] == entries[k].relativePath;
    }
  }

  /** Every file of the manifest is missing, corrupt or fine, never two of them; the first two are repaired. */
  lemma ReportsPartitionTheManifest(report: IntegrityReport, observed: map<string, string>,
                                    expected: seq<ManifestEntry>, k: nat)
    requires UniquePaths(expected) && Reports(report, observed, expected) && k < |expected|
    ensures var path := expected[k].relativePath;
            && !(path in report.missing && path in report.corrupt)
            && (Matches(observed, expected[k]) <==> path !in report.missing && path !in report.corrupt)
            && ((exists file <- report.repair :: file.entry == expected[k])
                <==> path in report.missing || path in report.corrupt)
  {
    PathAmong(expected, e => IsMissing(observed, e), k);
    PathAmong(expected, e => IsCorrupt(observed, e), k);
    WhereHolds(expected, e => !Matches(observed, e), expected[k]);
    var unmatched := Where(expected, e => !Matches(observed, e));
    if expected[k] in unmatched {
      var m :| 0 <= m < |unmatched| && unmatched[m] == expected[k];
      assert report.repair[m] in report.repair;
    }
    assert forall file <- report.repair :: file.entry in unmatched;
  }

  /** In terms of the disk: intact is having all of the build in place, and each list is a difference from it. */
  lemma ReportsCompareDisks(report: IntegrityReport, observed: map<string, string>, expected: seq<ManifestEntry>)
    requires UniquePaths(expected) && Reports(report, observed, expected)
    ensures report.intact <==> forall path <- ToDisk(expected) :: ContentAt(observed, path) == ContentAt(ToDisk(expected), path)
    ensures forall path :: path in report.missing <==> path in ToDisk(expected) && path !in observed
    ensures forall path :: path in report.corrupt
                      <==> path in ToDisk(expected) && path in observed && observed[path] != ToDisk(expected)[path]
  {
    hide ToDisk, Where, UniquePaths;
    forall k | 0 <= k < |expected|
      ensures ContentAt(ToDisk(expected), expected[k].relativePath) == Some(expected[k].blobSha256)
    {
      LookupIsTheEntry(expected, k);
      DiskShowsLookup(expected, expected[k].relativePath);
    }
    forall path <- ToDisk(expected)
      ensures exists k :: 0 <= k < |expected| && expected[k].relativePath == path
    {
      DiskShowsLookup(expected, path);
      LookupFinds(expected, path);
    }
    forall path
      ensures path in report.missing <==> path in ToDisk(expected) && path !in observed
      ensures path in report.corrupt
         <==> path in ToDisk(expected) && path in observed && observed[path] != ToDisk(expected)[path]
    {
      ListedPath(expected, e => IsMissing(observed, e), path);
      ListedPath(expected, e => IsCorrupt(observed, e), path);
    }
  }

  lemma ListedPath(entries: seq<ManifestEntry>, chosen: ManifestEntry -> bool, path: string)
    ensures path in PathsOf(Where(entries, chosen))
       <==> exists k :: 0 <= k < |entries| && entries[k].relativePath == path && chosen(entries[k])
  {
    var some := Where(entries, chosen);
    if path in PathsOf(some) {
      var m :| 0 <= m < |some| && PathsOf(some)[m] == path;
      WhereHolds(entries, chosen, some[m]);
      var k :| 0 <= k < |entries| && entries[k] == some[m];
    }
    forall k | 0 <= k < |entries| && entries[k].relativePath == path && chosen(entries[k])
      ensures path in PathsOf(some)
    {
      WhereHolds(entries, chosen, entries[k]);
      var m :| 0 <= m < |some| && some[m] == entries[k];
      assert PathsOf(some)[m] == path;
    }
  }

  function EntriesOf(repair: seq<DownloadFile>): (entries: seq<ManifestEntry>)
    ensures |entries| == |repair| && forall k :: 0 <= k < |repair| ==> entries[k] == repair[k].entry
  {
    seq(|repair|, k requires 0 <= k < |repair| => repair[k].entry)
  }

  /** What is observed once these files have been written. */
  function Repaired(observed: map<string, string>, entries: seq<ManifestEntry>): map<string, string> {
    if entries == [] then observed
    else
      var last := entries[|entries| - 1];
      Repaired(observed, entries[..|entries| - 1])[last.relativePath := last.blobSha256]
  }

  predicate Lists(installed: seq<InstalledFile>, path: string) {
    exists k :: 0 <= k < |installed| && installed[k].relativePath == path
  }

  /** The client's list once it has written a file: its line changes, or a line is added. */
  function WithFile(installed: seq<InstalledFile>, entry: ManifestEntry): seq<InstalledFile> {
    var file := InstalledFile(entry.relativePath, entry.blobSha256);
    seq(|installed|, k requires 0 <= k < |installed| =>
      if installed[k].relativePath == entry.relativePath then file else installed[k])
    + if Lists(installed, entry.relativePath) then [] else [file]
  }

  function Rewritten(installed: seq<InstalledFile>, entries: seq<ManifestEntry>): seq<InstalledFile> {
    if entries == [] then installed
    else WithFile(Rewritten(installed, entries[..|entries| - 1]), entries[|entries| - 1])
  }

  /** How many of the files are new to the install. */
  function NewFiles(observed: map<string, string>, entries: seq<ManifestEntry>): nat {
    if entries == [] then 0
    else NewFiles(observed, entries[..|entries| - 1]) + if entries[|entries| - 1].relativePath in observed then 0 else 1
  }

  /** A list without repeats, well formed, and what it shows. */
  ghost predicate Shows(installed: seq<InstalledFile>, observed: map<string, string>) {
    && Observes(observed, installed) && UniqueBy(installed, ReportedPath)
    && forall k :: 0 <= k < |installed| ==> IsReportable(installed[k])
  }

  ghost predicate AllReportable(entries: seq<ManifestEntry>) {
    forall k :: 0 <= k < |entries| ==> IsReportable(InstalledFile(entries[k].relativePath, entries[k].blobSha256))
  }

  lemma WrittenFileShows(installed: seq<InstalledFile>, observed: map<string, string>, entry: ManifestEntry)
    requires Shows(installed, observed) && IsReportable(InstalledFile(entry.relativePath, entry.blobSha256))
    ensures Shows(WithFile(installed, entry), observed[entry.relativePath := entry.blobSha256])
    ensures |WithFile(installed, entry)| == |installed| + if entry.relativePath in observed then 0 else 1
  {
    hide IsReportable;
    var after, seen := WithFile(installed, entry), observed[entry.relativePath := entry.blobSha256];
    assert forall k :: 0 <= k < |installed| ==> after[k].relativePath == installed[k].relativePath;
    forall path
      ensures path in seen <==> exists k :: 0 <= k < |after| && after[k].relativePath == path
    {
      if path in observed {
        var k :| 0 <= k < |installed| && installed[k].relativePath == path;
        assert after[k].relativePath == path;
      } else if path == entry.relativePath {
        assert after[|installed|].relativePath == path;
      }
    }
    forall j, k | 0 <= j < k < |after|
      ensures ReportedPath(after[j]) != ReportedPath(after[k])
    {
      if k < |installed| {
        assert ReportedPath(installed[j]) != ReportedPath(installed[k]);
      }
    }
  }

  lemma {:induction false} RepairedPaths(observed: map<string, string>, entries: seq<ManifestEntry>, path: string)
    ensures path in Repaired(observed, entries)
       <==> path in observed || exists k :: 0 <= k < |entries| && entries[k].relativePath == path
  {
    if entries != [] {
      RepairedPaths(observed, entries[..|entries| - 1], path);
    }
  }

  lemma {:induction false} RewrittenShows(installed: seq<InstalledFile>, observed: map<string, string>,
                                          entries: seq<ManifestEntry>)
    requires Shows(installed, observed) && AllReportable(entries) && UniquePaths(entries)
    ensures Shows(Rewritten(installed, entries), Repaired(observed, entries))
    ensures |Rewritten(installed, entries)| == |installed| + NewFiles(observed, entries)
  {
    hide Shows, IsReportable, WithFile;
    if entries != [] {
      var shorter, last := entries[..|entries| - 1], entries[|entries| - 1];
      assert forall k :: 0 <= k < |shorter| ==> PathOf(entries[k]) != PathOf(last);
      assert UniquePaths(shorter) by {
        assert forall k :: 0 <= k < |shorter| ==> shorter[k] == entries[k];
      }
      RewrittenShows(installed, observed, shorter);
      RepairedPaths(observed, shorter, last.relativePath);
      WrittenFileShows(Rewritten(installed, shorter), Repaired(observed, shorter), last);
    }
  }

  /** The new files of a repair are the missing ones. */
  lemma {:induction false} NewFilesAreTheMissing(observed: map<string, string>, expected: seq<ManifestEntry>,
                                                 unmatched: ManifestEntry -> bool, missing: ManifestEntry -> bool)
    requires forall e :: unmatched(e) == !Matches(observed, e) && missing(e) == IsMissing(observed, e)
    ensures NewFiles(observed, Where(expected, unmatched)) == |Where(expected, missing)|
  {
    if expected != [] {
      var shorter, last := expected[..|expected| - 1], expected[|expected| - 1];
      NewFilesAreTheMissing(observed, shorter, unmatched, missing);
      var damaged := Where(shorter, unmatched);
      assert damaged + [] == damaged;
      assert (damaged + [last])[..|damaged|] == damaged;
      assert NewFiles(observed, damaged + [last]) == NewFiles(observed, damaged) + if IsMissing(observed, last) then 1 else 0;
    }
  }

  lemma OneObservation(a: map<string, string>, b: map<string, string>, installed: seq<InstalledFile>)
    requires Observes(a, installed) && Observes(b, installed)
    ensures a == b
  {
    assert a.Keys == b.Keys;
  }

  lemma {:induction false} WhereIsUnique(entries: seq<ManifestEntry>, chosen: ManifestEntry -> bool)
    requires UniquePaths(entries)
    ensures UniquePaths(Where(entries, chosen))
  {
    if entries != [] {
      var shorter, last := entries[..|entries| - 1], entries[|entries| - 1];
      assert forall k :: 0 <= k < |shorter| ==> shorter[k] == entries[k];
      WhereIsUnique(shorter, chosen);
      forall k | 0 <= k < |Where(shorter, chosen)|
        ensures PathOf(Where(shorter, chosen)[k]) != PathOf(last)
      {
        WhereHolds(shorter, chosen, Where(shorter, chosen)[k]);
        var m :| 0 <= m < |shorter| && shorter[m] == Where(shorter, chosen)[k];
        assert PathOf(entries[m]) != PathOf(entries[|entries| - 1]);
      }
    }
  }

  lemma {:induction false} RepairWrites(observed: map<string, string>, entries: seq<ManifestEntry>, entry: ManifestEntry)
    requires forall e <- entries :: e.relativePath == entry.relativePath ==> e == entry
    requires Matches(observed, entry) || entry in entries
    ensures Matches(Repaired(observed, entries), entry)
  {
    if entries != [] {
      var shorter, last := entries[..|entries| - 1], entries[|entries| - 1];
      assert entries == shorter + [last];
      if last.relativePath != entry.relativePath {
        RepairWrites(observed, shorter, entry);
      }
    }
  }

  lemma RepairedMatchesEverywhere(observed: map<string, string>, expected: seq<ManifestEntry>)
    requires UniquePaths(expected)
    ensures var after := Repaired(observed, Where(expected, e => !Matches(observed, e)));
            forall k :: 0 <= k < |expected| ==> Matches(after, expected[k])
  {
    var damaged := Where(expected, e => !Matches(observed, e));
    forall k | 0 <= k < |expected|
      ensures Matches(Repaired(observed, damaged), expected[k])
    {
      WhereHolds(expected, e => !Matches(observed, e), expected[k]);
      forall e <- damaged | e.relativePath == expected[k].relativePath
        ensures e == expected[k]
      {
        WhereHolds(expected, e => !Matches(observed, e), e);
        var m :| 0 <= m < |expected| && expected[m] == e;
        assert PathOf(expected[m]) == PathOf(expected[k]);
      }
      RepairWrites(observed, damaged, expected[k]);
    }
  }

  /** The repair list of a report, and the list the client sends after writing it. */
  lemma RepairedListShows(report: IntegrityReport, observed: map<string, string>, installed: seq<InstalledFile>,
                          expected: seq<ManifestEntry>)
    requires Reports(report, observed, expected) && Shows(installed, observed)
    requires UniquePaths(expected) && AllReportable(expected)
    ensures EntriesOf(report.repair) == Where(expected, e => !Matches(observed, e))
    ensures var again := Rewritten(installed, EntriesOf(report.repair));
            && Shows(again, Repaired(observed, EntriesOf(report.repair)))
            && |again| == |installed| + |report.missing|
  {
    hide Shows, IsReportable;
    var damaged := Where(expected, e => !Matches(observed, e));
    assert EntriesOf(report.repair) == damaged;
    WhereIsUnique(expected, e => !Matches(observed, e));
    forall k | 0 <= k < |damaged|
      ensures IsReportable(InstalledFile(damaged[k].relativePath, damaged[k].blobSha256))
    {
      WhereHolds(expected, e => !Matches(observed, e), damaged[k]);
    }
    RewrittenShows(installed, observed, damaged);
    NewFilesAreTheMissing(observed, expected, e => !Matches(observed, e), e => IsMissing(observed, e));
  }

  /**
   A client that writes the repair list and asks again: the second list is accepted exactly when the
   missing files have not made it too long, and then there is nothing left to do.
   */
  lemma RepairMakesTheInstallIntact(first: IntegrityReport, second: Result<IntegrityReport>,
                                    installed: seq<InstalledFile>, expected: seq<ManifestEntry>)
    requires UniquePaths(expected) && AllReportable(expected) && Verified(Ok(first), expected, installed)
    requires Verified(second, expected, Rewritten(installed, EntriesOf(first.repair)))
    ensures second.Ok? <==> |installed| + |first.missing| <= MAX_MANIFEST_ENTRIES
    ensures second.Ok? ==>
              && second.value.intact && second.value.missing == [] && second.value.corrupt == []
              && second.value.repair == []
              && (OneSizePerBlob(expected) ==> second.value.repairBytes == 0)
  {
    hide IsReportable, Reports, Observes, Where, Rewritten, Repaired, UniqueBy, UniquePaths;
    var observed :| Observes(observed, installed) && Reports(first, observed, expected);
    RepairedListShows(first, observed, installed, expected);
    var again, after := Rewritten(installed, EntriesOf(first.repair)), Repaired(observed, EntriesOf(first.repair));
    if second.Ok? {
      var seen :| Observes(seen, again) && Reports(second.value, seen, expected);
      OneObservation(seen, after, again);
      RepairedMatchesEverywhere(observed, expected);
      NothingToReport(second.value, after, expected);
    }
  }

  lemma NothingToReport(report: IntegrityReport, observed: map<string, string>, expected: seq<ManifestEntry>)
    requires Reports(report, observed, expected) && forall k :: 0 <= k < |expected| ==> Matches(observed, expected[k])
    ensures report.intact && report.missing == [] && report.corrupt == [] && report.repair == []
    ensures OneSizePerBlob(expected) ==> report.repairBytes == 0
  {
    NothingIsLeft(observed, expected);
  }

  /** A finalized build's files can all be reported. */
  lemma ManifestsAreReportable(expected: seq<ManifestEntry>, entrypoint: string)
    requires IsValidManifest(expected, entrypoint)
    ensures UniquePaths(expected) && AllReportable(expected)
  {
    hide IsSha256Hex;
    forall k | 0 <= k < |expected|
      ensures IsReportable(InstalledFile(expected[k].relativePath, expected[k].blobSha256))
    {
      assert IsValidEntry(expected[k]);
    }
  }

  /** So for a finalized build, whatever was reported, one round of repair is enough. */
  lemma FinalizedBuildsAreRepairable(first: IntegrityReport, second: Result<IntegrityReport>,
                                     installed: seq<InstalledFile>, expected: seq<ManifestEntry>, entrypoint: string)
    requires IsValidManifest(expected, entrypoint) && Verified(Ok(first), expected, installed)
    requires Verified(second, expected, Rewritten(installed, EntriesOf(first.repair)))
    ensures second.Ok? <==> |installed| + |first.missing| <= MAX_MANIFEST_ENTRIES
    ensures second.Ok? ==> second.value.intact && second.value.repair == []
  {
    hide IsValidManifest, Verified;
    ManifestsAreReportable(expected, entrypoint);
    RepairMakesTheInstallIntact(first, second, installed, expected);
  }

  lemma NothingIsLeft(observed: map<string, string>, expected: seq<ManifestEntry>)
    requires forall k :: 0 <= k < |expected| ==> Matches(observed, expected[k])
    ensures Where(expected, e => IsMissing(observed, e)) == []
    ensures Where(expected, e => IsCorrupt(observed, e)) == []
    ensures Where(expected, e => !Matches(observed, e)) == []
  {
    var unmatched := Where(expected, e => !Matches(observed, e));
    NothingDamagedIffIntact(observed, expected);
    if unmatched != [] {
      WhereHolds(expected, e => !Matches(observed, e), unmatched[0]);
    }
  }

  lemma {:induction false} SameChoiceSameFiles(entries: seq<ManifestEntry>, a: ManifestEntry -> bool, b: ManifestEntry -> bool)
    requires forall k :: 0 <= k < |entries| ==> a(entries[k]) == b(entries[k])
    ensures Where(entries, a) == Where(entries, b)
  {
    if entries != [] {
      SameChoiceSameFiles(entries[..|entries| - 1], a, b);
    }
  }

  /** Saves, logs and anything else outside the manifest change neither the verdict nor the repair. */
  lemma UnexpectedFilesNeverMatter(a: map<string, string>, b: map<string, string>, expected: seq<ManifestEntry>,
                                   reportA: IntegrityReport, reportB: IntegrityReport)
    requires Reports(reportA, a, expected) && Reports(reportB, b, expected)
    requires forall k :: 0 <= k < |expected| ==>
               ContentAt(a, expected[k].relativePath) == ContentAt(b, expected[k].relativePath)
    ensures reportA.missing == reportB.missing && reportA.corrupt == reportB.corrupt
    ensures reportA.intact == reportB.intact
    ensures |reportA.repair| == |reportB.repair|
    ensures forall k :: 0 <= k < |reportA.repair| ==> reportA.repair[k].entry == reportB.repair[k].entry
    ensures OneSizePerBlob(expected) ==> reportA.repairBytes == reportB.repairBytes
  {
    forall k | 0 <= k < |expected|
      ensures Matches(a, expected[k]) == Matches(b, expected[k])
      ensures IsMissing(a, expected[k]) == IsMissing(b, expected[k])
      ensures IsCorrupt(a, expected[k]) == IsCorrupt(b, expected[k])
    {
      assert ContentAt(a, expected[k].relativePath) == ContentAt(b, expected[k].relativePath);
    }
    SameChoiceSameFiles(expected, e => IsMissing(a, e), e => IsMissing(b, e));
    SameChoiceSameFiles(expected, e => IsCorrupt(a, e), e => IsCorrupt(b, e));
    SameChoiceSameFiles(expected, e => !Matches(a, e), e => !Matches(b, e));
  }
}
