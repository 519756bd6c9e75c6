/**
 Manifests (`domain/Manifest.cpp`): validation, the canonical document, and a reference reader
 that recovers the manifest from the document's bytes.
 */
module Manifest {
  import opened Common
  import opened Decimal
  import opened Ordering
  import opened CanonicalJson
  import opened Text

  const SHA256_HEX_LENGTH: nat := 64
  const MAX_RELATIVE_PATH_LENGTH: nat := 1024
  const MAX_MANIFEST_ENTRIES: nat := 200000

  datatype ManifestEntry = ManifestEntry(
    relativePath: string,
    blobSha256: string,
    sizeBytes: int,
    isExecutable: bool)

  function PathOf(entry: ManifestEntry): string {
    entry.relativePath
  }

  ghost predicate UniquePaths(entries: seq<ManifestEntry>) {
    UniqueBy(entries, PathOf)
  }

  // ---------------------------------------------------------------------------
  // Validation
  // ---------------------------------------------------------------------------

  predicate IsLowercaseHexDigit(c: char) {
    '0' <= c <= '9' || 'a' <= c <= 'f'
  }

  predicate IsSha256Hex(value: string) {
    |value| == SHA256_HEX_LENGTH && forall i :: 0 <= i < |value| ==> IsLowercaseHexDigit(value[i])
  }

  predicate IsSafeSegment(segment: string) {
    && segment != "" && segment != "." && segment != ".."
    && forall i :: 0 <= i < |segment| ==> segment[i] >= ' '
  }

  ghost predicate AllSafe(segments: seq<string>) {
    forall k :: 0 <= k < |segments| ==> IsSafeSegment(segments[k])
  }

  /** A path that names something inside the install directory, whatever platform reads it. */
  ghost predicate IsSafePath(path: string) {
    && 0 < |path| <= MAX_RELATIVE_PATH_LENGTH
    && '\\' !in path
    && !(|path| >= 2 && path[1] == ':' && IsLetter(path[0]))
    && AllSafe(Split(path, '/'))
  }

  method CheckSegment(segment: string) returns (safe: bool)
    ensures safe <==> IsSafeSegment(segment)
  {
    if segment == "" || segment == "." || segment == ".." {
      return false;
    }
    var index := 0;
    while index < |segment|
      invariant 0 <= index <= |segment|
      invariant forall k :: 0 <= k < index ==> segment[k] >= ' '
    {
      if segment[index] < ' ' {
        return false;
      }
      index := index + 1;
    }
    return true;
  }

  lemma AllSafeStep(path: string, start: nat, found: int)
    requires start <= |path| && found == Find(path, '/', start)
    ensures AllSafe(Split(path[start..], '/'))
       <==> if found == NPOS then IsSafeSegment(path[start..])
            else IsSafeSegment(path[start..found]) && AllSafe(Split(path[found + 1..], '/'))
  {
    hide Find, Split, AllSafe, IsSafeSegment;
    SplitAtFound(path, '/', start, found);
    if found == NPOS {
      AllSafeOne(path[start..]);
    } else {
      AllSafeCons(path[start..found], Split(path[found + 1..], '/'));
    }
  }

  lemma AllSafeOne(segment: string)
    ensures AllSafe([segment]) <==> IsSafeSegment(segment)
  {
    assert [segment][0] == segment;
  }

  lemma AllSafeCons(first: string, rest: seq<string>)
    ensures AllSafe([first] + rest) <==> IsSafeSegment(first) && AllSafe(rest)
  {
    var all := [first] + rest;
    assert all[0] == first;
    assert forall k :: 0 <= k < |rest| ==> rest[k] == all[k + 1];
    assert forall k :: 0 < k < |all| ==> all[k] == rest[k - 1];
  }

  ghost predicate SafeFrom(path: string, start: nat)
    requires start <= |path|
  {
    AllSafe(Split(path[start..], '/'))
  }

  method CheckSegments(path: string) returns (safe: bool)
    ensures safe <==> AllSafe(Split(path, '/'))
  {
    assert path[0..] == path;
    var start := 0;
    while true
      invariant 0 <= start <= |path|
      invariant SafeFrom(path, 0) <==> SafeFrom(path, start)
      decreases |path| - start
    {
      var separator := Find(path, '/', start);
      AllSafeStep(path, start, separator);
      if separator == NPOS {
        safe := CheckSegment(path[start..]);
        return;
      }
      safe := CheckSegment(path[start..separator]);
      if !safe {
        return;
      }
      start := separator + 1;
    }
  }

  method ValidateRelativePath(path: string) returns (r: Result<()>)
    ensures r == if IsSafePath(path) then Ok(()) else Err(InvalidInput)
  {
    if path == "" || |path| > MAX_RELATIVE_PATH_LENGTH {
      return Err(InvalidInput);
    }
    if path[0] == '/' {
      SplitFirst(path, '/');
      return Err(InvalidInput);
    }
    if '\\' in path {
      return Err(InvalidInput);
    }
    if |path| >= 2 && path[1] == ':' && IsLetter(path[0]) {
      return Err(InvalidInput);
    }
    var safe := CheckSegments(path);
    return if safe then Ok(()) else Err(InvalidInput);
  }

  ghost predicate IsValidEntry(entry: ManifestEntry) {
    IsSafePath(entry.relativePath) && IsSha256Hex(entry.blobSha256) && entry.sizeBytes >= 0
  }

  ghost predicate IsValidManifest(entries: seq<ManifestEntry>, entrypoint: string) {
    && 0 < |entries| <= MAX_MANIFEST_ENTRIES
    && (forall k :: 0 <= k < |entries| ==> IsValidEntry(entries[k]))
    && UniquePaths(entries)
    && (exists k :: 0 <= k < |entries| && entries[k].relativePath == entrypoint)
  }

  /** A repeated path is a conflict, but only once everything before it is well formed. */
  method ValidateManifest(entries: seq<ManifestEntry>, entrypoint: string) returns (r: Result<()>)
    ensures r.Ok? <==> IsValidManifest(entries, entrypoint)
    ensures r.Err? ==> r.code == InvalidInput || (r.code == Conflict && !UniquePaths(entries))
    ensures && 0 < |entries| <= MAX_MANIFEST_ENTRIES && IsSafePath(entrypoint)
            && (forall k :: 0 <= k < |entries| ==> IsValidEntry(entries[k]))
            && !UniquePaths(entries)
            ==> r == Err(Conflict)
  {
    if entries == [] || |entries| > MAX_MANIFEST_ENTRIES {
      return Err(InvalidInput);
    }
    var check := ValidateRelativePath(entrypoint);
    if check.Err? {
      return check;
    }

    var seen: set<string> := {};
    var index := 0;
    while index < |entries|
      invariant 0 <= index <= |entries|
      invariant forall k :: 0 <= k < index ==> IsValidEntry(entries[k])
      invariant UniquePaths(entries[..index])
      invariant forall path :: path in seen <==> exists k :: 0 <= k < index && entries[k].relativePath == path
    {
      var entry := entries[index];
      check := ValidateRelativePath(entry.relativePath);
      if check.Err? {
        return check;
      }
      if !IsSha256Hex(entry.blobSha256) || entry.sizeBytes < 0 {
        return Err(InvalidInput);
      }
      if entry.relativePath in seen {
        var k :| 0 <= k < index && entries[k].relativePath == entry.relativePath;
        assert PathOf(entries[k]) == PathOf(entries[index]);
        return Err(Conflict);
      }
      seen := seen + {entry.relativePath};
      index := index + 1;
      assert UniquePaths(entries[..index]);
    }
    assert entries[..index] == entries;

    if entrypoint !in seen {
      return Err(InvalidInput);
    }
    return Ok(());
  }

  // ---------------------------------------------------------------------------
  // The canonical document
  // ---------------------------------------------------------------------------

  const SCHEMA_KEY := "{\"schema\":1,\"entrypoint\":"
  const ARGS_KEY := ",\"launchArgs\":"
  const FILES_KEY := ",\"files\":["
  const DOCUMENT_END := "]}"
  const PATH_KEY := "{\"path\":"
  const SHA256_KEY := ",\"sha256\":"
  const SIZE_KEY := ",\"size\":"
  const EXECUTABLE_KEY := ",\"executable\":"

  function BoolText(b: bool): string {
    if b then "true" else "false"
  }

  function NamePieces(e: ManifestEntry, more: seq<string>): seq<string> {
    [PATH_KEY] + ([Quoted(e.relativePath)] + ([SHA256_KEY] + ([Quoted(e.blobSha256)] + more)))
  }

  function FactPieces(e: ManifestEntry, more: seq<string>): seq<string> {
    [SIZE_KEY] + ([PrintInt(e.sizeBytes)] + ([EXECUTABLE_KEY] + ([BoolText(e.isExecutable)] + (["}"] + more))))
  }

  /** The parts of one file object, followed by `more`. */
  function EntryPieces(e: ManifestEntry, more: seq<string>): seq<string> {
    NamePieces(e, FactPieces(e, more))
  }

  function EntryTexts(entries: seq<ManifestEntry>): (texts: seq<string>)
    ensures |texts| == |entries|
  {
    if entries == [] then [] else [Concat(EntryPieces(entries[0], []))] + EntryTexts(entries[1..])
  }

  function CommaSeparated(texts: seq<string>): string {
    if texts == [] then ""
    else if |texts| == 1 then texts[0]
    else texts[0] + ("," + CommaSeparated(texts[1..]))
  }

  function OpeningPieces(entrypoint: string, launchArgs: string, more: seq<string>): seq<string> {
    [SCHEMA_KEY] + ([Quoted(entrypoint)] + ([ARGS_KEY] + ([Quoted(launchArgs)] + ([FILES_KEY] + more))))
  }

  function DocumentText(entries: seq<ManifestEntry>, entrypoint: string, launchArgs: string): string {
    Concat(OpeningPieces(entrypoint, launchArgs, [CommaSeparated(EntryTexts(entries))] + [DOCUMENT_END]))
  }

  ghost predicate IsSortOf(sorted: seq<ManifestEntry>, entries: seq<ManifestEntry>) {
    SortedBy(sorted, PathOf) && multiset(sorted) == multiset(entries)
  }

  /** The one canonical document of a manifest without repeated paths. */
  function CanonicalText(entries: seq<ManifestEntry>, entrypoint: string, launchArgs: string): string {
    DocumentText(Sorted(entries, PathOf), entrypoint, launchArgs)
  }

  lemma {:induction false} CommaSeparatedAppends(texts: seq<string>, last: string)
    ensures CommaSeparated(texts + [last]) == CommaSeparated(texts) + ((if texts == [] then "" else ",") + last)
  {
    if texts == [] {
      assert texts + [last] == [last];
    } else {
      assert (texts + [last])[1..] == texts[1..] + [last];
      CommaSeparatedAppends(texts[1..], last);
    }
  }

  lemma {:induction false} EntryTextsAt(entries: seq<ManifestEntry>, k: nat)
    requires k < |entries|
    ensures EntryTexts(entries)[k] == Concat(EntryPieces(entries[k], []))
  {
    if k > 0 {
      EntryTextsAt(entries[1..], k - 1);
    }
  }

  method AppendName(document: StringBuffer, entry: ManifestEntry)
    requires document.Valid()
    modifies document
    ensures document.Valid()
    ensures forall more {:trigger document.pieces + more} ::
              document.pieces + more == old(document.pieces) + NamePieces(entry, more)
  {
    document.Append(PATH_KEY);
    AppendCanonicalJsonString(document, entry.relativePath);
    document.Append(SHA256_KEY);
    AppendCanonicalJsonString(document, entry.blobSha256);
  }

  method AppendFacts(document: StringBuffer, entry: ManifestEntry)
    requires document.Valid()
    modifies document
    ensures document.Valid()
    ensures forall more {:trigger document.pieces + more} ::
              document.pieces + more == old(document.pieces) + FactPieces(entry, more)
  {
    document.Append(SIZE_KEY);
    document.Append(PrintInt(entry.sizeBytes));
    document.Append(EXECUTABLE_KEY);
    document.Append(BoolText(entry.isExecutable));
    document.Append("}");
  }

  method AppendEntry(document: StringBuffer, entry: ManifestEntry)
    requires document.Valid()
    modifies document
    ensures document.Valid()
    ensures document.text == old(document.text) + Concat(EntryPieces(entry, []))
  {
    AppendName(document, entry);
    AppendFacts(document, entry);
    assert document.pieces == document.pieces + [] == old(document.pieces) + EntryPieces(entry, []);
    ConcatJoins(old(document.pieces), EntryPieces(entry, []));
  }

  /** The text once `count` entries have been written behind `before`. */
  ghost function FilesWritten(before: string, texts: seq<string>, count: nat): string
    requires count <= |texts|
  {
    before + CommaSeparated(texts[..count])
  }

  lemma FilesWrittenAdvances(before: string, texts: seq<string>, count: nat)
    requires count < |texts|
    ensures FilesWritten(before, texts, count + 1)
         == (if count == 0 then FilesWritten(before, texts, count) else FilesWritten(before, texts, count) + ",")
            + texts[count]
  {
    CommaSeparatedAppends(texts[..count], texts[count]);
    assert texts[..count + 1] == texts[..count] + [texts[count]];
    assert count == 0 <==> texts[..count] == [];
  }

  method AppendFiles(document: StringBuffer, sorted: seq<ManifestEntry>)
    requires document.Valid()
    modifies document
    ensures document.Valid() && document.pieces == old(document.pieces) + [CommaSeparated(EntryTexts(sorted))]
  {
    ghost var before, pieces, texts := document.text, document.pieces, EntryTexts(sorted);
    var first := true;
    var index := 0;
    while index < |sorted|
      invariant 0 <= index <= |sorted|
      invariant first <==> index == 0
      invariant document.Valid() && document.text == FilesWritten(before, texts, index)
    {
      FilesWrittenAdvances(before, texts, index);
      EntryTextsAt(sorted, index);
      if !first {
        document.Append(",");
      }
      first := false;
      AppendEntry(document, sorted[index]);
      index := index + 1;
    }
    assert texts[..index] == texts;
    ConcatSnoc(pieces, CommaSeparated(texts));
    document.pieces := pieces + [CommaSeparated(texts)];
  }

  method AppendOpening(document: StringBuffer, entrypoint: string, launchArgs: string)
    requires document.Valid() && document.pieces == []
    modifies document
    ensures document.Valid()
    ensures forall more {:trigger document.pieces + more} ::
              document.pieces + more == OpeningPieces(entrypoint, launchArgs, more)
  {
    document.Append(SCHEMA_KEY);
    AppendCanonicalJsonString(document, entrypoint);
    document.Append(ARGS_KEY);
    AppendCanonicalJsonString(document, launchArgs);
    document.Append(FILES_KEY);
  }

  method CanonicalManifestDocument(entries: seq<ManifestEntry>, entrypoint: string, launchArgs: string)
    returns (text: string)
    ensures exists sorted :: IsSortOf(sorted, entries) && text == DocumentText(sorted, entrypoint, launchArgs)
    ensures UniquePaths(entries) ==> text == CanonicalText(entries, entrypoint, launchArgs)
  {
    var sorted := SortBy(entries, PathOf);
    var document := new StringBuffer();
    AppendOpening(document, entrypoint, launchArgs);
    ghost var opening, files := document.pieces, CommaSeparated(EntryTexts(sorted));
    AppendFiles(document, sorted);
    document.Append(DOCUMENT_END);
    text := document.text;
    assert document.pieces == opening + ([files] + [DOCUMENT_END]);
    assert IsSortOf(sorted, entries);
    if UniquePaths(entries) {
      SortedIsASort(entries, PathOf);
      SortedAnswerIsUnique(entries, sorted, Sorted(entries, PathOf), PathOf);
    }
  }

  // ---------------------------------------------------------------------------
  // Reading the document back
  // ---------------------------------------------------------------------------

  datatype ReadManifest = ReadManifest(entrypoint: string, launchArgs: string, entries: seq<ManifestEntry>)

  function ReadBool(s: string): (r: Option<(bool, string)>)
    ensures r.Some? ==> |r.value.1| < |s|
  {
    match Skip("true", s)
    case Some(rest) => Some((true, rest))
    case None =>
      var rest :- Skip("false", s);
      Some((false, rest))
  }

  function ReadEntry(s: string): (r: Option<(ManifestEntry, string)>)
    ensures r.Some? ==> |r.value.1| < |s|
  {
    var s1 :- Skip(PATH_KEY, s);
    var (path, s2) :- ReadString(s1);
    var s3 :- Skip(SHA256_KEY, s2);
    var (sha256, s4) :- ReadString(s3);
    var s5 :- Skip(SIZE_KEY, s4);
    var (size, s6) :- ReadInt(s5);
    var s7 :- Skip(EXECUTABLE_KEY, s6);
    var (executable, s8) :- ReadBool(s7);
    var s9 :- Skip("}", s8);
    Some((ManifestEntry(path, sha256, size, executable), s9))
  }

  /** One or more entries separated by commas. */
  function ReadEntries(s: string): Option<(seq<ManifestEntry>, string)>
    decreases |s|
  {
    var (entry, rest) :- ReadEntry(s);
    match Skip(",", rest)
    case None => Some(([entry], rest))
    case Some(more) =>
      var (entries, after) :- ReadEntries(more);
      Some(([entry] + entries, after))
  }

  function ReadFiles(s: string): Option<(seq<ManifestEntry>, string)> {
    if s != [] && s[0] == ']' then Some(([], s)) else ReadEntries(s)
  }

  function ReadDocument(s: string): Option<ReadManifest> {
    var s1 :- Skip(SCHEMA_KEY, s);
    var (entrypoint, s2) :- ReadString(s1);
    var s3 :- Skip(ARGS_KEY, s2);
    var (launchArgs, s4) :- ReadString(s3);
    var s5 :- Skip(FILES_KEY, s4);
    var (entries, s6) :- ReadFiles(s5);
    var s7 :- Skip(DOCUMENT_END, s6);
    if s7 == "" then Some(ReadManifest(entrypoint, launchArgs, entries)) else None
  }

  lemma ReadBoolUndoesBoolText(b: bool, rest: string)
    ensures ReadBool(BoolText(b) + rest) == Some((b, rest))
  {
    SkipUndoesAppend(BoolText(b), rest);
    if !b {
      assert (BoolText(b) + rest)[..4][0] == 'f';
    }
  }

  lemma ReadEntryUndoesEntryPieces(e: ManifestEntry, more: seq<string>)
    ensures ReadEntry(Concat(EntryPieces(e, more))) == Some((e, Concat(more)))
  {
    var p8 := ["}"] + more;
    var p7 := [BoolText(e.isExecutable)] + p8;
    var p6 := [EXECUTABLE_KEY] + p7;
    var p5 := [PrintInt(e.sizeBytes)] + p6;
    var p4 := [SIZE_KEY] + p5;
    var p3 := [Quoted(e.blobSha256)] + p4;
    var p2 := [SHA256_KEY] + p3;
    var p1 := [Quoted(e.relativePath)] + p2;
    ReadLiteral(PATH_KEY, p1);
    ReadQuoted(e.relativePath, p2);
    ReadLiteral(SHA256_KEY, p3);
    ReadQuoted(e.blobSha256, p4);
    ReadLiteral(SIZE_KEY, p5);
    ReadNumber(e.sizeBytes, EXECUTABLE_KEY, p7);
    ReadLiteral(EXECUTABLE_KEY, p7);
    ConcatCons(BoolText(e.isExecutable), p8);
    ReadBoolUndoesBoolText(e.isExecutable, Concat(p8));
    ReadLiteral("}", more);
  }

  lemma ReadEntryUndoesEntryText(e: ManifestEntry, rest: string)
    ensures var text := Concat(EntryPieces(e, []));
            text != "" && text[0] == '{' && ReadEntry(text + rest) == Some((e, rest))
  {
    ConcatSnoc(EntryPieces(e, []), rest);
    assert EntryPieces(e, []) + [rest] == EntryPieces(e, [rest]);
    ReadEntryUndoesEntryPieces(e, [rest]);
    ConcatCons(rest, []);
    assert Concat([rest]) == rest;
    ConcatCons(PATH_KEY, [Quoted(e.relativePath)] + ([SHA256_KEY] + ([Quoted(e.blobSha256)] + FactPieces(e, []))));
  }

  lemma ReadLiteral(literal: string, more: seq<string>)
    ensures Skip(literal, Concat([literal] + more)) == Some(Concat(more))
  {
    ConcatCons(literal, more);
    SkipUndoesAppend(literal, Concat(more));
  }

  lemma ReadQuoted(value: string, more: seq<string>)
    ensures ReadString(Concat([Quoted(value)] + more)) == Some((value, Concat(more)))
  {
    ConcatCons(Quoted(value), more);
    ReadStringUndoesQuoted(value, Concat(more));
  }

  lemma ReadNumber(n: int, next: string, more: seq<string>)
    requires next != "" && !IsDigit(next[0])
    ensures ReadInt(Concat([PrintInt(n)] + ([next] + more))) == Some((n, Concat([next] + more)))
  {
    ConcatCons(PrintInt(n), [next] + more);
    ConcatCons(next, more);
    ReadIntUndoesPrintInt(n, Concat([next] + more));
  }

  lemma ReadEntriesOfOne(s: string, entry: ManifestEntry, rest: string)
    requires ReadEntry(s) == Some((entry, rest))
    requires rest != "" && rest[0] != ','
    ensures ReadEntries(s) == Some(([entry], rest))
  {
    assert rest[..1][0] != ',';
  }

  lemma ReadEntriesOfMore(s: string, entry: ManifestEntry, more: string, entries: seq<ManifestEntry>, after: string)
    requires ReadEntry(s) == Some((entry, "," + more))
    requires ReadEntries(more) == Some((entries, after))
    ensures ReadEntries(s) == Some(([entry] + entries, after))
  {
    SkipUndoesAppend(",", more);
  }

  ghost predicate Spells(text: string, entry: ManifestEntry) {
    && text != "" && text[0] == '{'
    && forall rest: string {:trigger text + rest} :: ReadEntry(text + rest) == Some((entry, rest))
  }

  lemma EntryTextSpellsTheEntry(entries: seq<ManifestEntry>, k: nat)
    requires k < |entries|
    ensures Spells(EntryTexts(entries)[k], entries[k])
  {
    EntryTextsAt(entries, k);
    forall rest: string {
      ReadEntryUndoesEntryText(entries[k], rest);
    }
  }

  lemma {:induction false} ReadEntriesUndoesCommaSeparated(texts: seq<string>, entries: seq<ManifestEntry>, end: string)
    requires texts != [] && |texts| == |entries| && end != "" && end[0] != ','
    requires forall k :: 0 <= k < |texts| ==> Spells(texts[k], entries[k])
    ensures ReadEntries(CommaSeparated(texts) + end) == Some((entries, end))
  {
    var s := CommaSeparated(texts) + end;
    assert Spells(texts[0], entries[0]);
    if |texts| == 1 {
      assert s == texts[0] + end;
      ReadEntriesOfOne(s, entries[0], end);
      assert entries == [entries[0]];
    } else {
      var more := CommaSeparated(texts[1..]) + end;
      CommaSeparatedSplits(texts, end);
      assert ReadEntry(texts[0] + ("," + more)) == Some((entries[0], "," + more));
      ReadEntriesUndoesCommaSeparated(texts[1..], entries[1..], end);
      ReadEntriesOfMore(s, entries[0], more, entries[1..], end);
      assert [entries[0]] + entries[1..] == entries;
    }
  }

  lemma CommaSeparatedSplits(texts: seq<string>, end: string)
    requires |texts| > 1
    ensures CommaSeparated(texts) + end == texts[0] + ("," + (CommaSeparated(texts[1..]) + end))
  {
  }

  lemma ReadFilesUndoesEntryTexts(entries: seq<ManifestEntry>, end: string)
    requires end != "" && end[0] == ']'
    ensures ReadFiles(CommaSeparated(EntryTexts(entries)) + end) == Some((entries, end))
  {
    if entries == [] {
      assert CommaSeparated(EntryTexts(entries)) + end == end;
    } else {
      var texts := EntryTexts(entries);
      forall k | 0 <= k < |texts| {
        EntryTextSpellsTheEntry(entries, k);
      }
      assert Spells(texts[0], entries[0]);
      ReadEntriesUndoesCommaSeparated(texts, entries, end);
    }
  }

  lemma ReadDocumentUndoesDocumentText(entries: seq<ManifestEntry>, entrypoint: string, launchArgs: string)
    ensures ReadDocument(DocumentText(entries, entrypoint, launchArgs))
         == Some(ReadManifest(entrypoint, launchArgs, entries))
  {
    var files := CommaSeparated(EntryTexts(entries));
    var p6 := [DOCUMENT_END];
    var p5 := [files] + p6;
    var p4 := [FILES_KEY] + p5;
    var p3 := [Quoted(launchArgs)] + p4;
    var p2 := [ARGS_KEY] + p3;
    var p1 := [Quoted(entrypoint)] + p2;
    ReadLiteral(SCHEMA_KEY, p1);
    ReadQuoted(entrypoint, p2);
    ReadLiteral(ARGS_KEY, p3);
    ReadQuoted(launchArgs, p4);
    ReadLiteral(FILES_KEY, p5);
    ConcatCons(files, p6);
    assert Concat(p6) == DOCUMENT_END;
    ReadFilesUndoesEntryTexts(entries, DOCUMENT_END);
    SkipUndoesAppend(DOCUMENT_END, "");
    assert DOCUMENT_END + "" == DOCUMENT_END;
  }

  /**
   The bytes a manifest hash covers identify the manifest up to entry order: equal documents come
   from equal manifests, and reordering the entries changes nothing.
   */
  lemma CanonicalTextIdentifiesTheManifest(
      a: seq<ManifestEntry>, entrypointA: string, argsA: string,
      b: seq<ManifestEntry>, entrypointB: string, argsB: string)
    requires UniquePaths(a)
    ensures CanonicalText(a, entrypointA, argsA) == CanonicalText(b, entrypointB, argsB)
       <==> entrypointA == entrypointB && argsA == argsB && multiset(a) == multiset(b)
  {
    SortedIsASort(a, PathOf);
    SortedIsASort(b, PathOf);
    ReadDocumentUndoesDocumentText(Sorted(a, PathOf), entrypointA, argsA);
    ReadDocumentUndoesDocumentText(Sorted(b, PathOf), entrypointB, argsB);
    if multiset(a) == multiset(b) {
      SortedAnswerIsUnique(a, Sorted(a, PathOf), Sorted(b, PathOf), PathOf);
    }
  }
}
