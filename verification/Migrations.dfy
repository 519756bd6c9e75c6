/**
 Planning and applying schema migrations (`migrations/MigrationRunner.cpp`). Planning succeeds
 exactly when the recorded history is a prefix of the files, and whatever fails, crashes or runs at
 the same time, the history stays such a prefix and commits every migration once.
 */
module Migrations {
  import opened Common
  import opened Decimal
  import opened Ordering
  import opened Text

  type Version = string

  datatype MigrationFile = MigrationFile(version: Version, name: string, sql: string, checksum: string)

  datatype AppliedMigration = AppliedMigration(version: Version, checksum: string)

  datatype MigrationPlan = MigrationPlan(pending: seq<MigrationFile>, alreadyApplied: nat)

  function VersionOf(file: MigrationFile): string {
    file.version
  }

  function RowVersion(row: AppliedMigration): string {
    row.version
  }

  /** The history row a file leaves behind. */
  function RowOf(file: MigrationFile): AppliedMigration {
    AppliedMigration(file.version, file.checksum)
  }

  // ---------------------------------------------------------------------------
  // Numeric order
  // ---------------------------------------------------------------------------

  /** Among versions of one width, the order of the texts is the order of the numbers. */
  lemma {:induction false} VersionsOfOneWidthCompareAsNumbers(v: Version, w: Version)
    requires AllDigits(v) && AllDigits(w) && |v| == |w|
    ensures Before(v, w) <==> ValueOf(v) < ValueOf(w)
    ensures v == w <==> ValueOf(v) == ValueOf(w)
  {
    if v != [] {
      var a, x := v[..|v| - 1], v[|v| - 1];
      var b, y := w[..|w| - 1], w[|w| - 1];
      assert v == a + [x] && w == b + [y];
      VersionsOfOneWidthCompareAsNumbers(a, b);
      BeforeByTheLast(a, x, b, y);
      BeforeIsTotal(a, b);
    }
  }

  ghost predicate HasWidth(version: Version, width: nat) {
    AllDigits(version) && |version| == width
  }

  ghost predicate InNumericOrder(versions: seq<Version>) {
    && (forall k :: 0 <= k < |versions| ==> AllDigits(versions[k]))
    && forall i, j :: 0 <= i < j < |versions| ==> ValueOf(versions[i]) < ValueOf(versions[j])
  }

  function VersionsOf(files: seq<MigrationFile>): (versions: seq<Version>)
    ensures |versions| == |files| && forall k :: 0 <= k < |files| ==> versions[k] == files[k].version
  {
    seq(|files|, k requires 0 <= k < |files| => files[k].version)
  }

  function RowVersions(rows: seq<AppliedMigration>): (versions: seq<Version>)
    ensures |versions| == |rows| && forall k :: 0 <= k < |rows| ==> versions[k] == rows[k].version
  {
    seq(|rows|, k requires 0 <= k < |rows| => rows[k].version)
  }

  /** Well sorted files of one width come lowest number first, and so does any history they leave. */
  lemma FilesOfOneWidthAreInNumericOrder(files: seq<MigrationFile>, width: nat)
    requires WellSorted(files) && forall file <- files :: HasWidth(file.version, width)
    ensures InNumericOrder(VersionsOf(files))
    ensures forall history :: IsPrefixOf(history, files) ==> InNumericOrder(RowVersions(history))
  {
    forall k | 0 <= k < |files|
      ensures HasWidth(files[k].version, width)
    {
      assert files[k] in files;
    }
    forall i, j | 0 <= i < j < |files|
      ensures ValueOf(files[i].version) < ValueOf(files[j].version)
    {
      assert Before(VersionOf(files[i]), VersionOf(files[j]));
      VersionsOfOneWidthCompareAsNumbers(files[i].version, files[j].version);
    }
    forall history | IsPrefixOf(history, files)
      ensures InNumericOrder(RowVersions(history))
    {
      assert forall k :: 0 <= k < |history| ==> RowVersions(history)[k] == VersionsOf(files)[k];
    }
  }

  /** Of different widths, the text decides: 10 comes before 9. */
  lemma WidthsMatter()
    ensures Before("10", "9") && ValueOf("9") < ValueOf("10")
  {
    assert ValueOf("9") == 9 by {
      assert "9"[..0] == "";
    }
    assert "10"[..1] == "1" && "1"[..0] == "";
  }

  // ---------------------------------------------------------------------------
  // Discovering
  // ---------------------------------------------------------------------------

  /** `NNNN_name`: a non-empty run of digits, an underscore, a non-empty name. */
  ghost predicate Names(stem: string, version: string, name: string) {
    stem == version + "_" + name && version != "" && AllDigits(version) && name != ""
  }

  method ParseFileName(stem: string) returns (ok: bool, version: string, name: string)
    ensures ok ==> Names(stem, version, name)
    ensures !ok ==> forall v, n :: !Names(stem, v, n)
  {
    version, name := "", "";
    var separator := Find(stem, '_', 0);
    if separator == NPOS {
      forall v, n
        ensures !Names(stem, v, n)
      {
        assert (v + "_" + n)[|v|] == '_';
      }
      return false, version, name;
    }
    version, name := stem[..separator], stem[separator + 1..];
    ok := version != "" && AllDigits(version) && name != "";
    assert stem == version + "_" + name;
    if !ok {
      forall v, n
        ensures !Names(stem, v, n)
      {
        if Names(stem, v, n) {
          NamesAtTheFirstUnderscore(stem, v, n, separator);
        }
      }
    }
  }

  lemma NamesAtTheFirstUnderscore(stem: string, v: string, n: string, separator: nat)
    requires Names(stem, v, n) && separator == Find(stem, '_', 0)
    ensures stem[..separator] == v && stem[separator + 1..] == n
  {
    assert forall k :: 0 <= k < |v| ==> stem[k] == v[k] && IsDigit(v[k]);
    assert stem[|v|] == '_';
    assert separator == |v|;
  }

  /** A directory entry: its stem, whether it is a regular `.sql` file, and its content if readable. */
  datatype DirectoryEntry = DirectoryEntry(stem: string, isSql: bool, content: Option<string>)

  ghost predicate IsReadFrom(file: MigrationFile, entry: DirectoryEntry, sha256: string -> string) {
    && entry.isSql && Names(entry.stem, file.version, file.name)
    && entry.content == Some(file.sql) && file.checksum == sha256(file.sql)
  }

  ghost predicate Misnamed(entry: DirectoryEntry) {
    entry.isSql && forall version, name :: !Names(entry.stem, version, name)
  }

  ghost predicate Unreadable(entry: DirectoryEntry) {
    entry.isSql && entry.content.None?
  }

  ghost predicate ShareAVersion(a: DirectoryEntry, b: DirectoryEntry) {
    && a.isSql && b.isSql
    && exists version, nameA, nameB :: Names(a.stem, version, nameA) && Names(b.stem, version, nameB)
  }

  /** The files read from the first entries, in directory order; `origins` says which entry each came from. */
  ghost predicate ReadSoFar(files: seq<MigrationFile>, origins: seq<nat>, entries: seq<DirectoryEntry>, n: nat,
                            sha256: string -> string)
    requires n <= |entries|
  {
    && |origins| == |files|
    && (forall k :: 0 <= k < |files| ==> origins[k] < n && IsReadFrom(files[k], entries[origins[k]], sha256))
    && (forall j, k :: 0 <= j < k < |files| ==> origins[j] < origins[k])
    && (forall m :: 0 <= m < n && entries[m].isSql ==> exists k :: 0 <= k < |files| && origins[k] == m)
  }

  method ReadDirectory(entries: seq<DirectoryEntry>, sha256: string -> string)
    returns (r: Result<seq<MigrationFile>>, ghost origins: seq<nat>)
    ensures match r
            case Ok(files) => ReadSoFar(files, origins, entries, |entries|, sha256)
            case Err(code) =>
              || (code == InvalidInput && exists entry <- entries :: Misnamed(entry))
              || (code == Internal && exists entry <- entries :: Unreadable(entry))
  {
    hide ReadSoFar, Names;
    var files: seq<MigrationFile> := [];
    origins := [];
    NothingRead(entries, sha256);
    var i := 0;
    while i < |entries|
      invariant 0 <= i <= |entries|
      invariant ReadSoFar(files, origins, entries, i, sha256)
    {
      if entries[i].isSql {
        var ok, version, name := ParseFileName(entries[i].stem);
        if !ok {
          assert Misnamed(entries[i]);
          return Err(InvalidInput), origins;
        }
        if entries[i].content.None? {
          assert Unreadable(entries[i]);
          return Err(Internal), origins;
        }
        var sql := entries[i].content.value;
        var file := MigrationFile(version, name, sql, sha256(sql));
        OneMoreRead(files, origins, entries, i, sha256, file);
        files, origins := files + [file], origins + [i];
      } else {
        OneMoreSkipped(files, origins, entries, i, sha256);
      }
      i := i + 1;
    }
    return Ok(files), origins;
  }

  /** Read in directory order and sorted by version; a repeated version is refused. */
  method Discover(entries: seq<DirectoryEntry>, sha256: string -> string) returns (r: Result<seq<MigrationFile>>)
    ensures match r
            case Ok(files) =>
              && WellSorted(files)
              && (forall file <- files :: exists entry <- entries :: IsReadFrom(file, entry, sha256))
              && (forall entry <- entries :: entry.isSql ==> exists file <- files :: IsReadFrom(file, entry, sha256))
            case Err(code) =>
              || (code == InvalidInput && exists entry <- entries :: Misnamed(entry))
              || (code == Internal && exists entry <- entries :: Unreadable(entry))
              || (code == Conflict && exists i, j :: 0 <= i < j < |entries| && ShareAVersion(entries[i], entries[j]))
  {
    hide ReadSoFar, Misnamed, Unreadable, ShareAVersion, IsReadFrom;
    ghost var origins;
    r, origins := ReadDirectory(entries, sha256);
    if r.Err? {
      return;
    }
    var files := r.value;
    var sorted := SortBy(files, VersionOf);
    var i := 1;
    while i < |sorted|
      invariant 1 <= i
      invariant forall k :: 1 <= k < i && k < |sorted| ==> sorted[k].version != sorted[k - 1].version
    {
      if sorted[i].version == sorted[i - 1].version {
        RepeatedVersionIsShared(files, origins, entries, sha256, sorted, i);
        return Err(Conflict);
      }
      i := i + 1;
    }
    NeighboursDecide(sorted);
    AllFilesAreSorted(files, origins, entries, sha256, sorted);
    return Ok(sorted);
  }

  lemma NothingRead(entries: seq<DirectoryEntry>, sha256: string -> string)
    ensures ReadSoFar([], [], entries, 0, sha256)
  {
  }

  lemma OneMoreSkipped(files: seq<MigrationFile>, origins: seq<nat>, entries: seq<DirectoryEntry>, n: nat,
                       sha256: string -> string)
    requires n < |entries| && ReadSoFar(files, origins, entries, n, sha256) && !entries[n].isSql
    ensures ReadSoFar(files, origins, entries, n + 1, sha256)
  {
  }

  lemma OneMoreRead(files: seq<MigrationFile>, origins: seq<nat>, entries: seq<DirectoryEntry>, n: nat,
                    sha256: string -> string, file: MigrationFile)
    requires n < |entries| && ReadSoFar(files, origins, entries, n, sha256) && IsReadFrom(file, entries[n], sha256)
    ensures ReadSoFar(files + [file], origins + [n], entries, n + 1, sha256)
  {
    var longer := origins + [n];
    forall m | 0 <= m < n + 1 && entries[m].isSql
      ensures exists k :: 0 <= k < |longer| && longer[k] == m
    {
      if m < n {
        var k :| 0 <= k < |files| && origins[k] == m;
        assert longer[k] == m;
      } else {
        assert longer[|files|] == m;
      }
    }
  }

  lemma RepeatedVersionIsShared(files: seq<MigrationFile>, origins: seq<nat>, entries: seq<DirectoryEntry>,
                                sha256: string -> string, sorted: seq<MigrationFile>, i: nat)
    requires ReadSoFar(files, origins, entries, |entries|, sha256) && multiset(sorted) == multiset(files)
    requires 1 <= i < |sorted| && sorted[i].version == sorted[i - 1].version
    ensures exists j, k :: 0 <= j < k < |entries| && ShareAVersion(entries[j], entries[k])
  {
    assert VersionOf(sorted[i - 1]) == VersionOf(sorted[i]);
    if UniqueBy(files, VersionOf) {
      UniqueKeysSurvivePermutation(files, sorted, VersionOf);
    }
    var j, k :| 0 <= j < k < |files| && VersionOf(files[j]) == VersionOf(files[k]);
    assert Names(entries[origins[j]].stem, files[j].version, files[j].name);
    assert Names(entries[origins[k]].stem, files[j].version, files[k].name);
    assert ShareAVersion(entries[origins[j]], entries[origins[k]]);
  }

  lemma ReadFilesHaveVersions(file: MigrationFile, entry: DirectoryEntry, sha256: string -> string)
    requires IsReadFrom(file, entry, sha256)
    ensures file.version != ""
  {
  }

  lemma AllFilesAreSorted(files: seq<MigrationFile>, origins: seq<nat>, entries: seq<DirectoryEntry>,
                          sha256: string -> string, sorted: seq<MigrationFile>)
    requires ReadSoFar(files, origins, entries, |entries|, sha256) && multiset(sorted) == multiset(files)
    ensures forall k :: 0 <= k < |sorted| ==> sorted[k].version != ""
    ensures forall file <- sorted :: exists entry <- entries :: IsReadFrom(file, entry, sha256)
    ensures forall entry <- entries :: entry.isSql ==> exists file <- sorted :: IsReadFrom(file, entry, sha256)
  {
    hide IsReadFrom;
    SortedHasTheSameFiles(sorted, files);
    forall file <- sorted
      ensures file.version != "" && exists entry <- entries :: IsReadFrom(file, entry, sha256)
    {
      var k :| 0 <= k < |files| && files[k] == file;
      ReadFilesHaveVersions(file, entries[origins[k]], sha256);
    }
    forall entry <- entries | entry.isSql
      ensures exists file <- sorted :: IsReadFrom(file, entry, sha256)
    {
      var m :| 0 <= m < |entries| && entries[m] == entry;
      var k :| 0 <= k < |files| && origins[k] == m;
      assert files[k] in sorted;
    }
  }

  lemma SortedHasTheSameFiles(a: seq<MigrationFile>, b: seq<MigrationFile>)
    requires multiset(a) == multiset(b)
    ensures forall file :: file in a <==> file in b
  {
    forall file
      ensures file in a <==> file in b
    {
      assert file in a <==> file in multiset(a);
      assert file in b <==> file in multiset(b);
    }
  }

  lemma NeighboursDecide(sorted: seq<MigrationFile>)
    requires SortedBy(sorted, VersionOf)
    requires forall k :: 1 <= k < |sorted| ==> sorted[k].version != sorted[k - 1].version
    ensures StrictlySortedBy(sorted, VersionOf)
  {
    forall i, j | 0 <= i < j < |sorted|
      ensures Before(VersionOf(sorted[i]), VersionOf(sorted[j]))
    {
      NeighboursAreStrict(sorted, i, j);
    }
  }

  lemma {:induction false} NeighboursAreStrict(sorted: seq<MigrationFile>, i: nat, j: nat)
    requires SortedBy(sorted, VersionOf)
    requires forall k :: 1 <= k < |sorted| ==> sorted[k].version != sorted[k - 1].version
    requires i < j < |sorted|
    ensures Before(sorted[i].version, sorted[j].version)
  {
    assert !Before(VersionOf(sorted[j]), VersionOf(sorted[j - 1]));
    BeforeIsTotal(sorted[j - 1].version, sorted[j].version);
    if i < j - 1 {
      NeighboursAreStrict(sorted, i, j - 1);
      BeforeIsTransitive(sorted[i].version, sorted[j - 1].version, sorted[j].version);
    }
  }

  // ---------------------------------------------------------------------------
  // Planning
  // ---------------------------------------------------------------------------

  /** What discovery hands over. */
  ghost predicate WellSorted(files: seq<MigrationFile>) {
    StrictlySortedBy(files, VersionOf) && forall k :: 0 <= k < |files| ==> files[k].version != ""
  }

  ghost predicate UniqueRows(applied: seq<AppliedMigration>) {
    UniqueBy(applied, RowVersion)
  }

  /** The history is exactly what the first files left behind. */
  ghost predicate IsHistoryOf(applied: seq<AppliedMigration>, files: seq<MigrationFile>) {
    && |applied| <= |files|
    && (forall k :: 0 <= k < |applied| ==> RowOf(files[k]) in applied)
    && (forall k :: 0 <= k < |applied| ==> exists j :: 0 <= j < |applied| && RowOf(files[j]) == applied[k])
  }

  function Highest(applied: seq<AppliedMigration>): Version {
    if applied == [] then "" else Later(Highest(applied[..|applied| - 1]), applied[|applied| - 1].version)
  }

  function Checksum(applied: seq<AppliedMigration>, version: Version): Option<string> {
    if applied == [] then None
    else
      match Checksum(applied[..|applied| - 1], version)
      case Some(found) => Some(found)
      case None =>
        if applied[|applied| - 1].version == version then Some(applied[|applied| - 1].checksum) else None
  }

  /** The test the loop makes for one file. */
  predicate Acceptable(file: MigrationFile, applied: seq<AppliedMigration>) {
    match Checksum(applied, file.version)
    case Some(checksum) => checksum == file.checksum
    case None => Highest(applied) == "" || !Before(file.version, Highest(applied))
  }

  function Pending(files: seq<MigrationFile>, applied: seq<AppliedMigration>): seq<MigrationFile> {
    if files == [] then []
    else
      var last := files[|files| - 1];
      Pending(files[..|files| - 1], applied) + (if Checksum(applied, last.version).None? then [last] else [])
  }

  method LoadHistory(applied: seq<AppliedMigration>) returns (byVersion: map<Version, string>, highest: Version)
    ensures forall version :: Checksum(applied, version) == if version in byVersion then Some(byVersion[version]) else None
    ensures highest == Highest(applied)
  {
    byVersion, highest := map[], "";
    var i := 0;
    while i < |applied|
      invariant 0 <= i <= |applied|
      invariant forall version ::
        Checksum(applied[..i], version) == if version in byVersion then Some(byVersion[version]) else None
      invariant highest == Highest(applied[..i])
    {
      assert applied[..i + 1][..i] == applied[..i];
      if applied[i].version !in byVersion {
        byVersion := byVersion[applied[i].version := applied[i].checksum];
      }
      highest := Later(highest, applied[i].version);
      i := i + 1;
    }
    assert applied[..i] == applied;
  }

  method PlanMigrations(discovered: seq<MigrationFile>, applied: seq<AppliedMigration>) returns (r: Result<MigrationPlan>)
    ensures r.Err? ==> r.code == Conflict
    ensures WellSorted(discovered) && UniqueRows(applied) ==>
              (r.Ok? <==> IsHistoryOf(applied, discovered))
    ensures WellSorted(discovered) && UniqueRows(applied) && r.Ok? ==>
              r.value == MigrationPlan(discovered[|applied|..], |applied|)
  {
    var appliedByVersion, highestApplied := LoadHistory(applied);
    var pending: seq<MigrationFile> := [];
    var matched := 0;
    var i := 0;
    while i < |discovered|
      invariant 0 <= i <= |discovered|
      invariant pending == Pending(discovered[..i], applied)
      invariant matched + |pending| == i
      invariant forall k :: 0 <= k < i ==> Acceptable(discovered[k], applied)
    {
      var migration := discovered[i];
      assert discovered[..i + 1][..i] == discovered[..i];
      assert Checksum(applied, migration.version)
          == if migration.version in appliedByVersion then Some(appliedByVersion[migration.version]) else None;
      if migration.version !in appliedByVersion {
        if highestApplied != "" && Before(migration.version, highestApplied) {
          HistoriesAreAcceptable(discovered, applied, i);
          return Err(Conflict);
        }
        pending := pending + [migration];
      } else {
        matched := matched + 1;
        if appliedByVersion[migration.version] != migration.checksum {
          HistoriesAreAcceptable(discovered, applied, i);
          return Err(Conflict);
        }
      }
      i := i + 1;
    }
    assert discovered[..i] == discovered;
    if WellSorted(discovered) && UniqueRows(applied) {
      AcceptableIsAHistory(discovered, applied, matched);
    }
    if matched != |applied| {
      return Err(Conflict);
    }
    return Ok(MigrationPlan(pending, matched));
  }

  lemma {:induction false} ChecksumFinds(applied: seq<AppliedMigration>, version: Version)
    ensures var found := Checksum(applied, version);
            && (found.Some? ==> AppliedMigration(version, found.value) in applied)
            && (found.None? ==> forall k :: 0 <= k < |applied| ==> applied[k].version != version)
  {
    if applied != [] {
      ChecksumFinds(applied[..|applied| - 1], version);
    }
  }

  lemma ChecksumOfRow(applied: seq<AppliedMigration>, k: nat)
    requires UniqueRows(applied) && k < |applied|
    ensures Checksum(applied, applied[k].version) == Some(applied[k].checksum)
  {
    ChecksumFinds(applied, applied[k].version);
    var row := AppliedMigration(applied[k].version, Checksum(applied, applied[k].version).value);
    var j :| 0 <= j < |applied| && applied[j] == row;
    assert RowVersion(applied[j]) == RowVersion(applied[k]);
  }

  lemma {:induction false} HighestIsHighest(applied: seq<AppliedMigration>)
    ensures forall k :: 0 <= k < |applied| ==> !Before(Highest(applied), applied[k].version)
    ensures Highest(applied) != "" ==> exists k :: 0 <= k < |applied| && applied[k].version == Highest(applied)
  {
    if applied != [] {
      var shorter, last := applied[..|applied| - 1], applied[|applied| - 1];
      HighestIsHighest(shorter);
      BeforeIsIrreflexive(Highest(applied));
      forall k | 0 <= k < |applied|
        ensures !Before(Highest(applied), applied[k].version)
      {
        if k < |shorter| && Before(Highest(shorter), last.version) && Before(last.version, shorter[k].version) {
          BeforeIsTransitive(Highest(shorter), last.version, shorter[k].version);
        }
      }
      if Highest(applied) != "" && !Before(Highest(shorter), last.version) {
        var k :| 0 <= k < |shorter| && shorter[k].version == Highest(shorter);
        assert applied[k].version == Highest(applied);
      }
    }
  }

  /** Every file passes the loop's test when the history is a prefix of the files. */
  lemma HistoriesAreAcceptable(files: seq<MigrationFile>, applied: seq<AppliedMigration>, i: nat)
    requires i < |files|
    ensures WellSorted(files) && UniqueRows(applied) && IsHistoryOf(applied, files) ==>
              Acceptable(files[i], applied)
    ensures WellSorted(files) && UniqueRows(applied) && IsHistoryOf(applied, files) ==>
              (Checksum(applied, files[i].version).Some? <==> i < |applied|)
  {
    if WellSorted(files) && UniqueRows(applied) && IsHistoryOf(applied, files) {
      if i < |applied| {
        var k :| 0 <= k < |applied| && applied[k] == RowOf(files[i]);
        ChecksumOfRow(applied, k);
      } else {
        LaterFilesAreBehindNothing(files, applied, i);
      }
    }
  }

  lemma LaterFilesAreBehindNothing(files: seq<MigrationFile>, applied: seq<AppliedMigration>, i: nat)
    requires WellSorted(files) && IsHistoryOf(applied, files) && |applied| <= i < |files|
    ensures Checksum(applied, files[i].version).None? && !Before(files[i].version, Highest(applied))
  {
    ChecksumFinds(applied, files[i].version);
    if Checksum(applied, files[i].version).Some? {
      var row := AppliedMigration(files[i].version, Checksum(applied, files[i].version).value);
      var k :| 0 <= k < |applied| && applied[k] == row;
      var j :| 0 <= j < |applied| && RowOf(files[j]) == applied[k];
      assert Before(VersionOf(files[j]), VersionOf(files[i]));
      BeforeIsIrreflexive(files[i].version);
      assert false;
    }
    if Before(files[i].version, Highest(applied)) {
      HighestIsHighest(applied);
      var k :| 0 <= k < |applied| && applied[k].version == Highest(applied);
      var j :| 0 <= j < |applied| && RowOf(files[j]) == applied[k];
      assert Before(VersionOf(files[j]), VersionOf(files[i]));
      BeforeIsIrreflexive(files[j].version);
      BeforeIsTransitive(files[j].version, files[i].version, files[j].version);
      assert false;
    }
  }

  ghost predicate AllAcceptable(files: seq<MigrationFile>, applied: seq<AppliedMigration>) {
    forall k :: 0 <= k < |files| ==> Acceptable(files[k], applied)
  }

  /** Nothing is found after something that is not: what was applied is a prefix of the files. */
  lemma FoundFilesComeFirst(files: seq<MigrationFile>, applied: seq<AppliedMigration>, i: nat, j: nat)
    requires WellSorted(files) && AllAcceptable(files, applied) && i < j < |files|
    requires Checksum(applied, files[j].version).Some?
    ensures Checksum(applied, files[i].version).Some?
  {
    ChecksumFinds(applied, files[j].version);
    HighestIsHighest(applied);
    var row := AppliedMigration(files[j].version, Checksum(applied, files[j].version).value);
    var k :| 0 <= k < |applied| && applied[k] == row;
    assert Before(VersionOf(files[i]), VersionOf(files[j]));
    var highest := Highest(applied);
    BeforeIsTotal(files[j].version, highest);
    if Before(files[j].version, highest) {
      BeforeIsTransitive(files[i].version, files[j].version, highest);
    }
    assert Before(files[i].version, highest);
    assert Acceptable(files[i], applied);
  }

  /** With `m` files found in front, the pending ones are the rest. */
  lemma {:induction false} PendingIsTheRest(files: seq<MigrationFile>, applied: seq<AppliedMigration>, m: nat)
    requires m <= |files|
    requires forall k :: 0 <= k < |files| ==> (Checksum(applied, files[k].version).Some? <==> k < m)
    ensures Pending(files, applied) == files[m..]
  {
    hide Checksum;
    if files == [] {
    } else {
      var n := |files| - 1;
      assert forall k :: 0 <= k < n ==> files[..n][k] == files[k];
      PendingIsTheRest(files[..n], applied, if m <= n then m else n);
      PendingGrows(files, applied);
      assert m <= n ==> files[m..] == files[..n][m..] + [files[n]];
    }
  }

  lemma PendingGrows(files: seq<MigrationFile>, applied: seq<AppliedMigration>)
    requires files != []
    ensures var n := |files| - 1;
            Pending(files, applied)
            == if Checksum(applied, files[n].version).None? then Pending(files[..n], applied) + [files[n]]
               else Pending(files[..n], applied)
  {
    hide Checksum;
  }

  /** How many files were found. */
  lemma {:induction false} FoundPrefix(files: seq<MigrationFile>, applied: seq<AppliedMigration>) returns (m: nat)
    requires WellSorted(files) && AllAcceptable(files, applied)
    ensures m <= |files|
    ensures forall k :: 0 <= k < |files| ==> (Checksum(applied, files[k].version).Some? <==> k < m)
  {
    m := 0;
    while m < |files| && Checksum(applied, files[m].version).Some?
      invariant m <= |files|
      invariant forall k :: 0 <= k < m ==> Checksum(applied, files[k].version).Some?
    {
      m := m + 1;
    }
    forall k | m <= k < |files|
      ensures Checksum(applied, files[k].version).None?
    {
      if m < k && Checksum(applied, files[k].version).Some? {
        FoundFilesComeFirst(files, applied, m, k);
      }
    }
  }

  function RowSet(rows: seq<AppliedMigration>): set<AppliedMigration> {
    set row | row in rows
  }

  lemma {:induction false} UniqueRowsCount(rows: seq<AppliedMigration>)
    requires UniqueRows(rows)
    ensures |RowSet(rows)| == |rows|
  {
    if rows != [] {
      var shorter, last := rows[..|rows| - 1], rows[|rows| - 1];
      forall i, j | 0 <= i < j < |shorter|
        ensures RowVersion(shorter[i]) != RowVersion(shorter[j])
      {
        assert RowVersion(rows[i]) != RowVersion(rows[j]);
      }
      UniqueRowsCount(shorter);
      forall k | 0 <= k < |shorter|
        ensures shorter[k] != last
      {
        assert RowVersion(rows[k]) != RowVersion(rows[|rows| - 1]);
      }
      assert RowSet(rows) == RowSet(shorter) + {last};
    }
  }

  function Rows(files: seq<MigrationFile>): (rows: seq<AppliedMigration>)
    ensures |rows| == |files| && forall k :: 0 <= k < |files| ==> rows[k] == RowOf(files[k])
  {
    seq(|files|, k requires 0 <= k < |files| => RowOf(files[k]))
  }

  lemma SortedFilesHaveUniqueRows(files: seq<MigrationFile>, n: nat)
    requires WellSorted(files) && n <= |files|
    ensures UniqueRows(Rows(files[..n]))
  {
    var rows := Rows(files[..n]);
    forall i, j | 0 <= i < j < |rows|
      ensures RowVersion(rows[i]) != RowVersion(rows[j])
    {
      assert Before(VersionOf(files[i]), VersionOf(files[j]));
      BeforeIsIrreflexive(files[i].version);
    }
  }

  /** When every file passes, the matched count decides whether the history is a prefix. */
  lemma AcceptableIsAHistory(files: seq<MigrationFile>, applied: seq<AppliedMigration>, matched: nat)
    requires WellSorted(files) && UniqueRows(applied) && AllAcceptable(files, applied)
    requires matched + |Pending(files, applied)| == |files|
    ensures matched == |applied| <==> IsHistoryOf(applied, files)
    ensures matched == |applied| ==> Pending(files, applied) == files[|applied|..]
  {
    hide WellSorted, UniqueRows, AllAcceptable, Pending;
    var m := FoundPrefix(files, applied);
    PendingIsTheRest(files, applied, m);
    assert matched == m;
    if matched == |applied| {
      FoundPrefixIsHistory(files, applied);
    } else if IsHistoryOf(applied, files) {
      HistoryIsFound(files, applied, m);
    }
  }

  lemma HistoryIsFound(files: seq<MigrationFile>, applied: seq<AppliedMigration>, m: nat)
    requires WellSorted(files) && UniqueRows(applied) && IsHistoryOf(applied, files) && m <= |files|
    requires forall k :: 0 <= k < |files| ==> (Checksum(applied, files[k].version).Some? <==> k < m)
    ensures m == |applied|
  {
    hide Checksum, Highest;
    if m < |applied| {
      HistoriesAreAcceptable(files, applied, m);
    } else if m > |applied| {
      HistoriesAreAcceptable(files, applied, |applied|);
    }
  }

  lemma FoundPrefixIsHistory(files: seq<MigrationFile>, applied: seq<AppliedMigration>)
    requires WellSorted(files) && UniqueRows(applied) && AllAcceptable(files, applied) && |applied| <= |files|
    requires forall k :: 0 <= k < |files| ==> (Checksum(applied, files[k].version).Some? <==> k < |applied|)
    ensures IsHistoryOf(applied, files)
  {
    var n := |applied|;
    var rows := Rows(files[..n]);
    forall k | 0 <= k < n
      ensures RowOf(files[k]) in applied
    {
      assert Acceptable(files[k], applied);
      ChecksumFinds(applied, files[k].version);
    }
    SortedFilesHaveUniqueRows(files, n);
    UniqueRowsCount(rows);
    UniqueRowsCount(applied);
    EqualCountsEqualSets(RowSet(rows), RowSet(applied));
    forall k | 0 <= k < n
      ensures exists j :: 0 <= j < n && RowOf(files[j]) == applied[k]
    {
      assert applied[k] in RowSet(rows);
      var j :| 0 <= j < n && rows[j] == applied[k];
    }
  }

  // ---------------------------------------------------------------------------
  // Applying
  // ---------------------------------------------------------------------------

  /** The rows of `schema_migrations` in the order they were committed. */
  class Database {
    var history: seq<AppliedMigration>

    constructor ()
      ensures history == []
    {
      history := [];
    }

    /** One transaction: the script and its history row, whose version is the primary key. */
    method Apply(migration: MigrationFile, works: bool) returns (committed: bool)
      modifies this
      ensures committed <==> works && forall row <- old(history) :: row.version != migration.version
      ensures history == if committed then old(history) + [RowOf(migration)] else old(history)
    {
      if !works || exists row <- history :: row.version == migration.version {
        return false;
      }
      history := history + [RowOf(migration)];
      return true;
    }
  }

  /** The history is the files' rows, in their order, as far as it goes. */
  ghost predicate IsPrefixOf(history: seq<AppliedMigration>, files: seq<MigrationFile>) {
    |history| <= |files| && history == Rows(files[..|history|])
  }

  lemma RowsInOrderAreAHistory(history: seq<AppliedMigration>, files: seq<MigrationFile>)
    requires |history| <= |files| && forall k :: 0 <= k < |history| ==> history[k] == RowOf(files[k])
    ensures IsHistoryOf(history, files)
  {
    forall k | 0 <= k < |history|
      ensures RowOf(files[k]) in history
    {
      assert history[k] in history;
    }
  }

  lemma PrefixesAreHistories(history: seq<AppliedMigration>, files: seq<MigrationFile>)
    requires WellSorted(files) && IsPrefixOf(history, files)
    ensures UniqueRows(history) && IsHistoryOf(history, files)
  {
    hide WellSorted, UniqueRows, IsHistoryOf;
    SortedFilesHaveUniqueRows(files, |history|);
    forall k | 0 <= k < |history|
      ensures history[k] == RowOf(files[k])
    {
      assert files[..|history|][k] == files[k];
    }
    RowsInOrderAreAHistory(history, files);
  }

  lemma PrefixRow(history: seq<AppliedMigration>, files: seq<MigrationFile>, k: nat)
    requires IsPrefixOf(history, files) && k < |history|
    ensures k < |files| && history[k] == RowOf(files[k]) && history[k] in history
  {
    assert files[..|history|][k] == files[k];
  }

  lemma PrefixIsNoLonger(history: seq<AppliedMigration>, files: seq<MigrationFile>)
    requires IsPrefixOf(history, files)
    ensures |history| <= |files|
  {
  }

  lemma NextFileIsNew(history: seq<AppliedMigration>, files: seq<MigrationFile>)
    requires WellSorted(files) && IsPrefixOf(history, files) && |history| < |files|
    ensures forall row <- history :: row.version != files[|history|].version
    ensures IsPrefixOf(history + [RowOf(files[|history|])], files)
  {
    var n := |history|;
    forall row <- history
      ensures row.version != files[n].version
    {
      var k :| 0 <= k < n && history[k] == row;
      assert files[..n][k] == files[k];
      assert Before(VersionOf(files[k]), VersionOf(files[n]));
      BeforeIsIrreflexive(files[n].version);
    }
    assert Rows(files[..n + 1]) == Rows(files[..n]) + [RowOf(files[n])];
  }

  datatype Summary = Summary(applied: nat, alreadyApplied: nat)

  /**
   One run against a database no other run touches meanwhile. `works` says which scripts run through;
   the first that does not ends the run with everything before it committed.
   */
  method RunAlone(database: Database, files: seq<MigrationFile>, works: MigrationFile -> bool)
    returns (r: Result<Summary>)
    requires WellSorted(files)
    modifies database
    ensures UniqueRows(old(database.history)) && !IsHistoryOf(old(database.history), files) ==>
              r == Err(Conflict) && database.history == old(database.history)
    ensures IsPrefixOf(old(database.history), files) ==>
              && IsPrefixOf(database.history, files) && |old(database.history)| <= |database.history|
              && (forall k :: |old(database.history)| <= k < |database.history| ==> works(files[k]))
              && (r.Ok? <==> |database.history| == |files|)
              && (r.Ok? ==> r.value == Summary(|files| - |old(database.history)|, |old(database.history)|))
              && (r.Err? ==> r.code == DependencyFailure && !works(files[|database.history|]))
  {
    hide WellSorted, UniqueRows, IsHistoryOf, IsPrefixOf;
    ghost var before := database.history;
    var planned := PlanMigrations(files, database.history);
    if IsPrefixOf(before, files) {
      PrefixesAreHistories(before, files);
      PrefixIsNoLonger(before, files);
    }
    if planned.Err? {
      return Err(planned.code);
    }
    var pending := planned.value.pending;
    var summary := Summary(0, planned.value.alreadyApplied);
    var i := 0;
    while i < |pending|
      invariant 0 <= i <= |pending| && summary == Summary(i, planned.value.alreadyApplied)
      invariant IsPrefixOf(before, files) ==>
        && IsPrefixOf(database.history, files) && |database.history| == |before| + i
        && (forall k :: |before| <= k < |database.history| ==> works(files[k]))
    {
      if IsPrefixOf(before, files) {
        PrefixIsNoLonger(database.history, files);
        NextFileIsNew(database.history, files);
      }
      var committed := database.Apply(pending[i], works(pending[i]));
      if !committed {
        return Err(DependencyFailure);
      }
      i := i + 1;
      summary := summary.(applied := summary.applied + 1);
    }
    return Ok(summary);
  }

  // ---------------------------------------------------------------------------
  // Many runs, at once, failing and crashing
  // ---------------------------------------------------------------------------

  type RunId = nat

  datatype Shared = Shared(
    files: seq<MigrationFile>,
    history: seq<AppliedMigration>,
    // What every run under way still has to apply.
    runs: map<RunId, seq<MigrationFile>>)

  datatype Event =
    | Deploy(more: seq<MigrationFile>)
    | Begin(run: RunId)
    | Step(run: RunId, works: bool)
    | Crash(run: RunId)

  /** The plan of a run that starts now, by what `PlanMigrations` promises. */
  ghost predicate MayBegin(s: Shared) {
    IsHistoryOf(s.history, s.files)
  }

  ghost function After(s: Shared, event: Event): Shared {
    match event
    case Deploy(more) => if WellSorted(s.files + more) then s.(files := s.files + more) else s
    case Begin(run) =>
      if run in s.runs || !MayBegin(s) then s else s.(runs := s.runs[run := s.files[|s.history|..]])
    case Crash(run) => s.(runs := s.runs - {run})
    case Step(run, works) =>
      if run !in s.runs || s.runs[run] == [] then s
      else
        var migration := s.runs[run][0];
        if works && forall row <- s.history :: row.version != migration.version
        then s.(history := s.history + [RowOf(migration)], runs := s.runs[run := s.runs[run][1..]])
        else s.(runs := s.runs - {run})
  }

  ghost function AfterAll(s: Shared, events: seq<Event>): Shared
    decreases |events|
  {
    if events == [] then s else AfterAll(After(s, events[0]), events[1..])
  }

  /** What a run still has to apply is a stretch of the files that starts no later than the history ends. */
  ghost predicate IsStretch(pending: seq<MigrationFile>, s: Shared) {
    exists from: nat :: StartsAt(pending, s, from)
  }

  ghost predicate StartsAt(pending: seq<MigrationFile>, s: Shared, from: nat) {
    from <= |s.history| && from + |pending| <= |s.files| && pending == s.files[from..from + |pending|]
  }

  ghost predicate Sound(s: Shared) {
    && WellSorted(s.files) && IsPrefixOf(s.history, s.files)
    && forall run <- s.runs :: IsStretch(s.runs[run], s)
  }

  lemma StretchesSurvive(pending: seq<MigrationFile>, s: Shared, t: Shared)
    requires IsStretch(pending, s) && |s.history| <= |t.history| && s.files <= t.files
    ensures IsStretch(pending, t)
  {
    var from: nat :| StartsAt(pending, s, from);
    assert t.files[from..from + |pending|] == s.files[from..from + |pending|];
    assert StartsAt(pending, t, from);
  }

  lemma StartedIsAStretch(pending: seq<MigrationFile>, s: Shared, from: nat)
    requires StartsAt(pending, s, from)
    ensures IsStretch(pending, s)
  {
  }

  /** A migration that was not committed yet is the next one, and what follows it is a stretch again. */
  lemma FirstOfAStretch(pending: seq<MigrationFile>, s: Shared)
    requires Sound(s) && IsStretch(pending, s) && pending != []
    requires forall row <- s.history :: row.version != pending[0].version
    ensures |s.history| < |s.files| && pending[0] == s.files[|s.history|]
    ensures var t := s.(history := s.history + [RowOf(pending[0])]); IsStretch(pending[1..], t)
  {
    var from: nat :| StartsAt(pending, s, from);
    hide IsStretch, WellSorted, IsPrefixOf;
    if from < |s.history| {
      PrefixRow(s.history, s.files, from);
    }
    assert from == |s.history|;
    var t := s.(history := s.history + [RowOf(pending[0])]);
    assert StartsAt(pending[1..], t, from + 1);
    StartedIsAStretch(pending[1..], t, from + 1);
  }

  lemma StepKeepsSound(s: Shared, run: RunId, works: bool)
    requires Sound(s)
    ensures Sound(After(s, Step(run, works)))
  {
    hide IsStretch, WellSorted, IsPrefixOf;
    var t := After(s, Step(run, works));
    if run in s.runs && s.runs[run] != [] && |t.history| > |s.history| {
      FirstOfAStretch(s.runs[run], s);
      NextFileIsNew(s.history, s.files);
      StretchDependsOnHistory(s.runs[run][1..], s.(history := t.history), t);
    }
    forall other <- t.runs
      ensures IsStretch(t.runs[other], t)
    {
      if other != run || t == s {
        StretchesSurvive(s.runs[other], s, t);
      }
    }
  }

  lemma StretchDependsOnHistory(pending: seq<MigrationFile>, s: Shared, t: Shared)
    requires IsStretch(pending, s) && s.history == t.history && s.files == t.files
    ensures IsStretch(pending, t)
  {
    StretchesSurvive(pending, s, t);
  }

  lemma EventKeepsSound(s: Shared, event: Event)
    requires Sound(s)
    ensures Sound(After(s, event))
    ensures s.history <= After(s, event).history
  {
    match event {
      case Step(run, works) => StepKeepsSound(s, run, works);
      case Deploy(more) =>
        var t := After(s, event);
        forall run <- t.runs
          ensures IsStretch(t.runs[run], t)
        {
          StretchesSurvive(s.runs[run], s, t);
        }
        assert t.files[..|s.history|] == s.files[..|s.history|];
      case Begin(run) =>
        var t := After(s, event);
        var pending := s.files[|s.history|..];
        assert StartsAt(pending, t, |s.history|);
        forall other <- t.runs
          ensures IsStretch(t.runs[other], t)
        {
          if other in s.runs {
            StretchesSurvive(s.runs[other], s, t);
          }
        }
      case Crash(run) =>
        var t := After(s, event);
        forall other <- t.runs
          ensures IsStretch(t.runs[other], t)
        {
          StretchesSurvive(s.runs[other], s, t);
        }
    }
  }

  /**
   Whatever runs at once, fails or crashes, the history is a prefix of the files at all times: every
   migration is committed at most once, in order, and never taken back.
   */
  lemma {:induction false} HistoryStaysAPrefix(s: Shared, events: seq<Event>)
    requires Sound(s)
    ensures Sound(AfterAll(s, events)) && s.history <= AfterAll(s, events).history
    decreases |events|
  {
    hide Sound, After;
    if events != [] {
      EventKeepsSound(s, events[0]);
      HistoryStaysAPrefix(After(s, events[0]), events[1..]);
    }
  }

  /** The same from a database nothing was applied to yet, with any files to begin with. */
  lemma HistoryIsAPrefixFromTheStart(files: seq<MigrationFile>, events: seq<Event>)
    requires WellSorted(files)
    ensures var t := AfterAll(Shared(files, [], map[]), events);
            WellSorted(t.files) && IsPrefixOf(t.history, t.files) && IsHistoryOf(t.history, t.files)
  {
    var s, t := Shared(files, [], map[]), AfterAll(Shared(files, [], map[]), events);
    HistoryStaysAPrefix(s, events);
    PrefixesAreHistories(t.history, t.files);
  }

  ghost function Uninterrupted(run: RunId, n: nat): seq<Event> {
    seq(n, _ => Step(run, true))
  }

  /** A run nothing interrupts applies everything that was missing. */
  lemma AFinishedRunHasAppliedEverything(s: Shared, run: RunId)
    requires Sound(s) && run !in s.runs
    ensures AfterAll(After(s, Begin(run)), Uninterrupted(run, |s.files| - |s.history|)).history == Rows(s.files)
  {
    PrefixesAreHistories(s.history, s.files);
    EventKeepsSound(s, Begin(run));
    UninterruptedRun(After(s, Begin(run)), run, |s.files| - |s.history|);
  }

  lemma {:induction false} UninterruptedRun(s: Shared, run: RunId, n: nat)
    requires Sound(s) && run in s.runs && n + |s.history| == |s.files| && s.runs[run] == s.files[|s.history|..]
    ensures AfterAll(s, Uninterrupted(run, n)).history == Rows(s.files)
    decreases n
  {
    if n == 0 {
      assert s.files[..|s.history|] == s.files;
    } else {
      var events := Uninterrupted(run, n);
      NextFileIsNew(s.history, s.files);
      EventKeepsSound(s, events[0]);
      UninterruptedRun(After(s, events[0]), run, n - 1);
      assert events[1..] == Uninterrupted(run, n - 1);
    }
  }
}
