/**
 Release documents (`domain/LauncherRelease.cpp`, `app/ReleaseDocumentJson.cpp`): the bytes a
 signature covers, and a parser that accepts exactly those bytes.
 */
module Releases {
  import opened Common
  import opened Decimal
  import opened CanonicalJson
  import opened Text
  import opened Manifest
  import opened Semvers

  const RELEASE_DOCUMENT_SCHEMA: int := 1
  const MAX_RELEASE_ARTIFACT_BYTES: int := 4 * 1024 * 1024 * 1024
  const MAX_LAUNCHER_RELEASE_NOTES_LENGTH: nat := 4096

  datatype ReleaseChannel = Stable | Beta

  datatype ReleasePlatform = Windows | Linux | MacOS

  datatype ReleaseArch = X64 | Arm64

  datatype ReleaseDocument = ReleaseDocument(
    schema: int,
    channel: ReleaseChannel,
    version: Semver,
    platform: ReleasePlatform,
    arch: ReleaseArch,
    artifactSha256: string,
    artifactSize: int,
    releasedAt: string,
    notes: string)

  // ---------------------------------------------------------------------------
  // Names
  // ---------------------------------------------------------------------------

  function ChannelName(channel: ReleaseChannel): string {
    match channel
    case Stable => "stable"
    case Beta => "beta"
  }

  function PlatformName(platform: ReleasePlatform): string {
    match platform
    case Windows => "windows"
    case Linux => "linux"
    case MacOS => "macos"
  }

  function ArchName(arch: ReleaseArch): string {
    match arch
    case X64 => "x64"
    case Arm64 => "arm64"
  }

  function ParseChannel(value: string): Option<ReleaseChannel> {
    if value == "stable" then Some(Stable) else if value == "beta" then Some(Beta) else None
  }

  function ParsePlatform(value: string): Option<ReleasePlatform> {
    if value == "windows" then Some(Windows)
    else if value == "linux" then Some(Linux)
    else if value == "macos" then Some(MacOS)
    else None
  }

  function ParseArch(value: string): Option<ReleaseArch> {
    if value == "x64" then Some(X64) else if value == "arm64" then Some(Arm64) else None
  }

  lemma NamesParseBack(channel: ReleaseChannel, platform: ReleasePlatform, arch: ReleaseArch)
    ensures ParseChannel(ChannelName(channel)) == Some(channel)
    ensures ParsePlatform(PlatformName(platform)) == Some(platform)
    ensures ParseArch(ArchName(arch)) == Some(arch)
  {
    assert |"stable"| == 6 && |"beta"| == 4;
    assert |"windows"| == 7 && |"linux"| == 5 && "linux"[0] == 'l' && "macos"[0] == 'm';
    assert |"x64"| == 3 && |"arm64"| == 5;
  }

  // ---------------------------------------------------------------------------
  // Validation
  // ---------------------------------------------------------------------------

  const TIMESTAMP_LENGTH: nat := 20
  const DIGIT_POSITIONS: seq<nat> := [0, 1, 2, 3, 5, 6, 8, 9, 11, 12, 14, 15, 17, 18]

  function TwoDigits(value: string, offset: nat): int
    requires offset + 2 <= |value| && IsDigit(value[offset]) && IsDigit(value[offset + 1])
  {
    10 * DigitValue(value[offset]) + DigitValue(value[offset + 1])
  }

  /** A digit wherever the layout `YYYY-MM-DDTHH:MM:SSZ` has a letter of a number. */
  predicate HasTimestampDigits(value: string)
    requires |value| == TIMESTAMP_LENGTH
  {
    forall i :: 0 <= i < TIMESTAMP_LENGTH && i !in {4, 7, 10, 13, 16, 19} ==> IsDigit(value[i])
  }

  /** Not a calendar: only the shape and the ranges. */
  predicate IsUtcTimestamp(value: string) {
    && |value| == TIMESTAMP_LENGTH
    && value[4] == '-' && value[7] == '-' && value[10] == 'T' && value[13] == ':' && value[16] == ':' && value[19] == 'Z'
    && HasTimestampDigits(value)
    && 1 <= TwoDigits(value, 5) <= 12 && 1 <= TwoDigits(value, 8) <= 31
    && TwoDigits(value, 11) <= 23 && TwoDigits(value, 14) <= 59 && TwoDigits(value, 17) <= 60
  }

  lemma DigitPositionsAreAllOthers(i: nat)
    ensures i in DIGIT_POSITIONS <==> i < TIMESTAMP_LENGTH && i !in {4, 7, 10, 13, 16, 19}
  {
    if i in DIGIT_POSITIONS {
      var k :| 0 <= k < |DIGIT_POSITIONS| && DIGIT_POSITIONS[k] == i;
    } else {
      assert DIGIT_POSITIONS[0] == 0 && DIGIT_POSITIONS[1] == 1 && DIGIT_POSITIONS[2] == 2 && DIGIT_POSITIONS[3] == 3;
      assert DIGIT_POSITIONS[4] == 5 && DIGIT_POSITIONS[5] == 6 && DIGIT_POSITIONS[6] == 8 && DIGIT_POSITIONS[7] == 9;
      assert DIGIT_POSITIONS[8] == 11 && DIGIT_POSITIONS[9] == 12 && DIGIT_POSITIONS[10] == 14;
      assert DIGIT_POSITIONS[11] == 15 && DIGIT_POSITIONS[12] == 17 && DIGIT_POSITIONS[13] == 18;
    }
  }

  method CheckDigits(value: string) returns (ok: bool)
    requires |value| == TIMESTAMP_LENGTH
    ensures ok <==> HasTimestampDigits(value)
  {
    var k := 0;
    while k < |DIGIT_POSITIONS|
      invariant 0 <= k <= |DIGIT_POSITIONS|
      invariant forall j :: 0 <= j < k ==> DIGIT_POSITIONS[j] < TIMESTAMP_LENGTH && IsDigit(value[DIGIT_POSITIONS[j]])
    {
      assert DIGIT_POSITIONS[k] in DIGIT_POSITIONS;
      DigitPositionsAreAllOthers(DIGIT_POSITIONS[k]);
      if !IsDigit(value[DIGIT_POSITIONS[k]]) {
        return false;
      }
      k := k + 1;
    }
    forall i | 0 <= i < TIMESTAMP_LENGTH && i !in {4, 7, 10, 13, 16, 19}
      ensures IsDigit(value[i])
    {
      DigitPositionsAreAllOthers(i);
      var j :| 0 <= j < |DIGIT_POSITIONS| && DIGIT_POSITIONS[j] == i;
    }
    return true;
  }

  method NumberAt(value: string, offset: nat) returns (number: int)
    requires offset + 2 <= |value| && IsDigit(value[offset]) && IsDigit(value[offset + 1])
    ensures number == TwoDigits(value, offset)
  {
    number := 0;
    var i := offset;
    while i < offset + 2
      invariant offset <= i <= offset + 2
      invariant i == offset ==> number == 0
      invariant i == offset + 1 ==> number == DigitValue(value[offset])
      invariant i == offset + 2 ==> number == TwoDigits(value, offset)
    {
      number := number * 10 + DigitValue(value[i]);
      i := i + 1;
    }
  }

  method CheckUtcTimestamp(value: string) returns (ok: bool)
    ensures ok <==> IsUtcTimestamp(value)
  {
    if |value| != TIMESTAMP_LENGTH {
      return false;
    }
    ok := CheckDigits(value);
    if !ok {
      return;
    }
    if value[4] != '-' || value[7] != '-' || value[10] != 'T' || value[13] != ':' || value[16] != ':' || value[19] != 'Z' {
      return false;
    }
    var month := NumberAt(value, 5);
    var day := NumberAt(value, 8);
    var hour := NumberAt(value, 11);
    var minute := NumberAt(value, 14);
    var second := NumberAt(value, 17);
    return month >= 1 && month <= 12 && day >= 1 && day <= 31 && hour <= 23 && minute <= 59 && second <= 60;
  }

  function Padded(n: nat): (digits: string)
    requires n < 100
    ensures |digits| == 2
  {
    [DigitChar(n / 10), DigitChar(n % 10)]
  }

  /** The fields of a moment in `YYYY-MM-DDTHH:MM:SSZ`; a second may be a leap second. */
  datatype Moment = Moment(year: nat, month: nat, day: nat, hour: nat, minute: nat, second: nat) {
    predicate InRange() {
      year <= 9999 && 1 <= month <= 12 && 1 <= day <= 31 && hour <= 23 && minute <= 59 && second <= 60
    }

    function Date(): (text: string)
      requires InRange()
      ensures |text| == 10
    {
      Padded(year / 100) + Padded(year % 100) + "-" + Padded(month) + "-" + Padded(day)
    }

    function Time(): (text: string)
      requires InRange()
      ensures |text| == 8
    {
      Padded(hour) + ":" + Padded(minute) + ":" + Padded(second)
    }

    function Print(): (text: string)
      requires InRange()
      ensures |text| == TIMESTAMP_LENGTH
    {
      Date() + ("T" + (Time() + "Z"))
    }
  }

  predicate IsDate(text: string)
    requires |text| == 10
  {
    && (forall i :: 0 <= i < 10 && i != 4 && i != 7 ==> IsDigit(text[i])) && text[4] == '-' && text[7] == '-'
    && 1 <= TwoDigits(text, 5) <= 12 && 1 <= TwoDigits(text, 8) <= 31
  }

  predicate IsTime(text: string)
    requires |text| == 8
  {
    && (forall i :: 0 <= i < 8 && i != 2 && i != 5 ==> IsDigit(text[i])) && text[2] == ':' && text[5] == ':'
    && TwoDigits(text, 0) <= 23 && TwoDigits(text, 3) <= 59 && TwoDigits(text, 6) <= 60
  }

  lemma TimestampInHalves(value: string)
    requires |value| == TIMESTAMP_LENGTH
    ensures IsUtcTimestamp(value) <==> IsDate(value[..10]) && value[10] == 'T' && IsTime(value[11..19]) && value[19] == 'Z'
    ensures value == value[..10] + ([value[10]] + (value[11..19] + [value[19]]))
  {
    var date, time := value[..10], value[11..19];
    assert forall i :: 0 <= i < 10 ==> value[i] == date[i];
    assert forall i :: 0 <= i < 8 ==> value[i + 11] == time[i];
    assert forall i :: 11 <= i < 19 ==> value[i] == time[i - 11];
  }

  lemma PrintedHalves(m: Moment)
    requires m.InRange()
    ensures IsDate(m.Date()) && IsTime(m.Time())
  {
    var date, time := m.Date(), m.Time();
    assert date[..2] == Padded(m.year / 100) && date[2..4] == Padded(m.year % 100);
    assert date[5..7] == Padded(m.month) && date[8..10] == Padded(m.day);
    TwoDigitsOfPadded(date, 5, m.month);
    TwoDigitsOfPadded(date, 8, m.day);
    assert time[0..2] == Padded(m.hour) && time[3..5] == Padded(m.minute) && time[6..8] == Padded(m.second);
    TwoDigitsOfPadded(time, 0, m.hour);
    TwoDigitsOfPadded(time, 3, m.minute);
    TwoDigitsOfPadded(time, 6, m.second);
  }

  lemma PrintedMomentsAreTimestamps(m: Moment)
    requires m.InRange()
    ensures IsUtcTimestamp(m.Print())
  {
    hide Padded, IsDate, IsTime, Moment.Date, Moment.Time, IsUtcTimestamp;
    PrintedHalves(m);
    TimestampInHalves(m.Print());
    assert m.Print()[..10] == m.Date() && m.Print()[11..19] == m.Time();
  }

  lemma TwoDigitsOfPadded(text: string, offset: nat, n: nat)
    requires offset + 2 <= |text| && n < 100 && text[offset..offset + 2] == Padded(n)
    ensures IsDigit(text[offset]) && IsDigit(text[offset + 1]) && TwoDigits(text, offset) == n
  {
    assert text[offset] == text[offset..offset + 2][0] && text[offset + 1] == text[offset..offset + 2][1];
  }

  lemma PaddedOfTwoDigits(text: string, offset: nat)
    requires offset + 2 <= |text| && IsDigit(text[offset]) && IsDigit(text[offset + 1])
    ensures 0 <= TwoDigits(text, offset) < 100 && Padded(TwoDigits(text, offset)) == text[offset..offset + 2]
  {
  }

  /** The check accepts exactly what some moment in range prints. */
  lemma TimestampsArePrintedMoments(value: string)
    ensures IsUtcTimestamp(value) <==> exists m: Moment :: m.InRange() && m.Print() == value
  {
    if IsUtcTimestamp(value) {
      var m := PrintedFrom(value);
    }
    forall m: Moment | m.InRange() && m.Print() == value
      ensures IsUtcTimestamp(value)
    {
      PrintedMomentsAreTimestamps(m);
    }
  }

  lemma DateFrom(text: string) returns (m: Moment)
    requires |text| == 10 && IsDate(text)
    ensures m == Moment(m.year, m.month, m.day, 0, 0, 0) && m.InRange() && m.Date() == text
  {
    PaddedOfTwoDigits(text, 0);
    PaddedOfTwoDigits(text, 2);
    PaddedOfTwoDigits(text, 5);
    PaddedOfTwoDigits(text, 8);
    m := Moment(100 * TwoDigits(text, 0) + TwoDigits(text, 2), TwoDigits(text, 5), TwoDigits(text, 8), 0, 0, 0);
    assert m.year / 100 == TwoDigits(text, 0) && m.year % 100 == TwoDigits(text, 2);
    hide Padded, TwoDigits;
    assert text == text[0..2] + text[2..4] + "-" + text[5..7] + "-" + text[8..10];
  }

  lemma TimeFrom(text: string) returns (m: Moment)
    requires |text| == 8 && IsTime(text)
    ensures m == Moment(0, 1, 1, m.hour, m.minute, m.second) && m.InRange() && m.Time() == text
  {
    PaddedOfTwoDigits(text, 0);
    PaddedOfTwoDigits(text, 3);
    PaddedOfTwoDigits(text, 6);
    m := Moment(0, 1, 1, TwoDigits(text, 0), TwoDigits(text, 3), TwoDigits(text, 6));
    hide Padded, TwoDigits;
    assert text == text[0..2] + ":" + text[3..5] + ":" + text[6..8];
  }

  lemma PrintedFrom(value: string) returns (m: Moment)
    requires IsUtcTimestamp(value)
    ensures m.InRange() && m.Print() == value
  {
    assert |value| == TIMESTAMP_LENGTH;
    hide Padded, IsUtcTimestamp, IsDate, IsTime;
    TimestampInHalves(value);
    var date := DateFrom(value[..10]);
    var time := TimeFrom(value[11..19]);
    m := Moment(date.year, date.month, date.day, time.hour, time.minute, time.second);
    assert m.Date() == date.Date() && m.Time() == time.Time();
  }

  predicate IsValidDocument(d: ReleaseDocument) {
    && d.schema == RELEASE_DOCUMENT_SCHEMA
    && IsCanonicalVersion(d.version)
    && IsSha256Hex(d.artifactSha256)
    && 0 < d.artifactSize <= MAX_RELEASE_ARTIFACT_BYTES
    && IsUtcTimestamp(d.releasedAt)
    && |d.notes| <= MAX_LAUNCHER_RELEASE_NOTES_LENGTH
  }

  method ValidateReleaseDocument(document: ReleaseDocument) returns (r: Result<()>)
    ensures r == if IsValidDocument(document) then Ok(()) else Err(InvalidInput)
  {
    hide IsUtcTimestamp, IsSha256Hex, CanonicalVersion;
    if document.schema != RELEASE_DOCUMENT_SCHEMA {
      return Err(InvalidInput);
    }
    var canonicalVersion := CanonicalVersion(document.version.major, document.version.minor, document.version.patch);
    if document.version.text != canonicalVersion {
      return Err(InvalidInput);
    }
    if !IsSha256Hex(document.artifactSha256) {
      return Err(InvalidInput);
    }
    if document.artifactSize <= 0 || document.artifactSize > MAX_RELEASE_ARTIFACT_BYTES {
      return Err(InvalidInput);
    }
    var timely := CheckUtcTimestamp(document.releasedAt);
    if !timely {
      return Err(InvalidInput);
    }
    if |document.notes| > MAX_LAUNCHER_RELEASE_NOTES_LENGTH {
      return Err(InvalidInput);
    }
    return Ok(());
  }

  // ---------------------------------------------------------------------------
  // The canonical document
  // ---------------------------------------------------------------------------

  const RELEASE_SCHEMA_KEY := "{\"schema\":"
  const CHANNEL_KEY := ",\"channel\":"
  const VERSION_KEY := ",\"version\":"
  const PLATFORM_KEY := ",\"platform\":"
  const ARCH_KEY := ",\"arch\":"
  const ARTIFACT_KEY := ",\"sha256\":"
  const ARTIFACT_SIZE_KEY := ",\"size\":"
  const RELEASED_KEY := ",\"releasedAt\":"
  const NOTES_KEY := ",\"notes\":"

  /** What a JSON library hands over for each key; a number only where it is one. */
  datatype RawRelease = RawRelease(
    schema: Option<int>,
    channel: string,
    version: string,
    platform: string,
    arch: string,
    sha256: string,
    size: Option<int>,
    releasedAt: string,
    notes: string)

  function RawOf(d: ReleaseDocument): RawRelease {
    RawRelease(Some(d.schema), ChannelName(d.channel), d.version.text, PlatformName(d.platform), ArchName(d.arch),
               d.artifactSha256, Some(d.artifactSize), d.releasedAt, d.notes)
  }

  function WhatPieces(d: ReleaseDocument, more: seq<string>): seq<string> {
    [RELEASE_SCHEMA_KEY] + ([PrintInt(d.schema)]
    + ([CHANNEL_KEY] + ([Quoted(ChannelName(d.channel))] + ([VERSION_KEY] + ([Quoted(d.version.text)] + more)))))
  }

  function WherePieces(d: ReleaseDocument, more: seq<string>): seq<string> {
    [PLATFORM_KEY] + ([Quoted(PlatformName(d.platform))] + ([ARCH_KEY] + ([Quoted(ArchName(d.arch))] + more)))
  }

  function ArtifactPieces(d: ReleaseDocument, more: seq<string>): seq<string> {
    [ARTIFACT_KEY] + ([Quoted(d.artifactSha256)] + ([ARTIFACT_SIZE_KEY] + ([PrintInt(d.artifactSize)] + more)))
  }

  function WhenPieces(d: ReleaseDocument, more: seq<string>): seq<string> {
    [RELEASED_KEY] + ([Quoted(d.releasedAt)] + ([NOTES_KEY] + ([Quoted(d.notes)] + (["}"] + more))))
  }

  /** The nine keys in order, no whitespace, nothing else. */
  function ReleaseText(d: ReleaseDocument): string {
    Concat(WhatPieces(d, WherePieces(d, ArtifactPieces(d, WhenPieces(d, [])))))
  }

  method AppendWhat(out: StringBuffer, d: ReleaseDocument)
    requires out.Valid()
    modifies out
    ensures out.Valid()
    ensures forall more {:trigger out.pieces + more} :: out.pieces + more == old(out.pieces) + WhatPieces(d, more)
  {
    hide PrintInt, Quoted;
    out.Append(RELEASE_SCHEMA_KEY);
    out.Append(PrintInt(d.schema));
    out.Append(CHANNEL_KEY);
    AppendCanonicalJsonString(out, ChannelName(d.channel));
    out.Append(VERSION_KEY);
    AppendCanonicalJsonString(out, d.version.text);
  }

  method AppendWhere(out: StringBuffer, d: ReleaseDocument)
    requires out.Valid()
    modifies out
    ensures out.Valid()
    ensures forall more {:trigger out.pieces + more} :: out.pieces + more == old(out.pieces) + WherePieces(d, more)
  {
    hide Quoted;
    out.Append(PLATFORM_KEY);
    AppendCanonicalJsonString(out, PlatformName(d.platform));
    out.Append(ARCH_KEY);
    AppendCanonicalJsonString(out, ArchName(d.arch));
  }

  method AppendArtifact(out: StringBuffer, d: ReleaseDocument)
    requires out.Valid()
    modifies out
    ensures out.Valid()
    ensures forall more {:trigger out.pieces + more} :: out.pieces + more == old(out.pieces) + ArtifactPieces(d, more)
  {
    hide PrintInt, Quoted;
    out.Append(ARTIFACT_KEY);
    AppendCanonicalJsonString(out, d.artifactSha256);
    out.Append(ARTIFACT_SIZE_KEY);
    out.Append(PrintInt(d.artifactSize));
  }

  method AppendWhen(out: StringBuffer, d: ReleaseDocument)
    requires out.Valid()
    modifies out
    ensures out.Valid()
    ensures forall more {:trigger out.pieces + more} :: out.pieces + more == old(out.pieces) + WhenPieces(d, more)
  {
    hide Quoted;
    out.Append(RELEASED_KEY);
    AppendCanonicalJsonString(out, d.releasedAt);
    out.Append(NOTES_KEY);
    AppendCanonicalJsonString(out, d.notes);
    out.Append("}");
  }

  method CanonicalReleaseDocument(document: ReleaseDocument) returns (text: string)
    ensures text == ReleaseText(document)
  {
    hide WhatPieces, WherePieces, ArtifactPieces, WhenPieces, Concat;
    var out := new StringBuffer();
    AppendWhat(out, document);
    ghost var what := out.pieces;
    AppendWhere(out, document);
    ghost var where_ := out.pieces;
    AppendArtifact(out, document);
    ghost var artifact := out.pieces;
    AppendWhen(out, document);
    ghost var last := WhenPieces(document, []);
    assert out.pieces == out.pieces + [] == artifact + last;
    assert artifact + last == where_ + ArtifactPieces(document, last);
    assert where_ + ArtifactPieces(document, last) == what + WherePieces(document, ArtifactPieces(document, last));
    ghost var rest := WherePieces(document, ArtifactPieces(document, last));
    assert what + rest == [] + WhatPieces(document, rest) == WhatPieces(document, rest);
    text := out.text;
  }

  // ---------------------------------------------------------------------------
  // Reading it back
  // ---------------------------------------------------------------------------

  function ReadWhat(s: string): Option<((int, string, string), string)> {
    var s1 :- Skip(RELEASE_SCHEMA_KEY, s);
    var (schema, s2) :- ReadInt(s1);
    var s3 :- Skip(CHANNEL_KEY, s2);
    var (channel, s4) :- ReadString(s3);
    var s5 :- Skip(VERSION_KEY, s4);
    var (version, s6) :- ReadString(s5);
    Some(((schema, channel, version), s6))
  }

  function ReadWhere(s: string): Option<((string, string), string)> {
    var s1 :- Skip(PLATFORM_KEY, s);
    var (platform, s2) :- ReadString(s1);
    var s3 :- Skip(ARCH_KEY, s2);
    var (arch, s4) :- ReadString(s3);
    Some(((platform, arch), s4))
  }

  function ReadArtifact(s: string): Option<((string, int), string)> {
    var s1 :- Skip(ARTIFACT_KEY, s);
    var (sha256, s2) :- ReadString(s1);
    var s3 :- Skip(ARTIFACT_SIZE_KEY, s2);
    var (size, s4) :- ReadInt(s3);
    Some(((sha256, size), s4))
  }

  function ReadWhen(s: string): Option<(string, string)> {
    var s1 :- Skip(RELEASED_KEY, s);
    var (releasedAt, s2) :- ReadString(s1);
    var s3 :- Skip(NOTES_KEY, s2);
    var (notes, s4) :- ReadString(s3);
    var s5 :- Skip("}", s4);
    if s5 == "" then Some((releasedAt, notes)) else None
  }

  /** A reader of just the canonical grammar, for comparison. */
  function ReadRelease(s: string): Option<RawRelease> {
    var (what, s1) :- ReadWhat(s);
    var (at, s2) :- ReadWhere(s1);
    var (artifact, s3) :- ReadArtifact(s2);
    var (releasedAt, notes) :- ReadWhen(s3);
    Some(RawRelease(Some(what.0), what.1, what.2, at.0, at.1, artifact.0, Some(artifact.1), releasedAt, notes))
  }

  lemma ReadWhatUndoes(d: ReleaseDocument, more: seq<string>)
    ensures ReadWhat(Concat(WhatPieces(d, more)))
         == Some(((d.schema, ChannelName(d.channel), d.version.text), Concat(more)))
  {
    hide Concat, Skip, ReadInt, ReadString, Quoted, PrintInt;
    var p5 := [Quoted(d.version.text)] + more;
    var p4 := [VERSION_KEY] + p5;
    var p3 := [Quoted(ChannelName(d.channel))] + p4;
    ReadLiteral(RELEASE_SCHEMA_KEY, [PrintInt(d.schema)] + ([CHANNEL_KEY] + p3));
    ReadNumber(d.schema, CHANNEL_KEY, p3);
    ReadLiteral(CHANNEL_KEY, p3);
    ReadQuoted(ChannelName(d.channel), p4);
    ReadLiteral(VERSION_KEY, p5);
    ReadQuoted(d.version.text, more);
  }

  lemma ReadWhereUndoes(d: ReleaseDocument, more: seq<string>)
    ensures ReadWhere(Concat(WherePieces(d, more))) == Some(((PlatformName(d.platform), ArchName(d.arch)), Concat(more)))
  {
    hide Concat, Skip, ReadInt, ReadString, Quoted;
    var p3 := [Quoted(ArchName(d.arch))] + more;
    var p2 := [ARCH_KEY] + p3;
    ReadLiteral(PLATFORM_KEY, [Quoted(PlatformName(d.platform))] + p2);
    ReadQuoted(PlatformName(d.platform), p2);
    ReadLiteral(ARCH_KEY, p3);
    ReadQuoted(ArchName(d.arch), more);
  }

  lemma ReadArtifactUndoes(d: ReleaseDocument, next: string, more: seq<string>)
    requires next != "" && !IsDigit(next[0])
    ensures ReadArtifact(Concat(ArtifactPieces(d, [next] + more)))
         == Some(((d.artifactSha256, d.artifactSize), Concat([next] + more)))
  {
    hide Concat, Skip, ReadInt, ReadString, Quoted, PrintInt;
    var p3 := [PrintInt(d.artifactSize)] + ([next] + more);
    var p2 := [ARTIFACT_SIZE_KEY] + p3;
    ReadLiteral(ARTIFACT_KEY, [Quoted(d.artifactSha256)] + p2);
    ReadQuoted(d.artifactSha256, p2);
    ReadLiteral(ARTIFACT_SIZE_KEY, p3);
    ReadNumber(d.artifactSize, next, more);
  }

  lemma ReadWhenUndoes(d: ReleaseDocument)
    ensures ReadWhen(Concat(WhenPieces(d, []))) == Some((d.releasedAt, d.notes))
  {
    assert Concat([]) == "";
    hide Concat, Skip, ReadInt, ReadString, Quoted;
    var p4 := ["}"] + [];
    var p3 := [Quoted(d.notes)] + p4;
    var p2 := [NOTES_KEY] + p3;
    ReadLiteral(RELEASED_KEY, [Quoted(d.releasedAt)] + p2);
    ReadQuoted(d.releasedAt, p2);
    ReadLiteral(NOTES_KEY, p3);
    ReadQuoted(d.notes, p4);
    ReadLiteral("}", []);
  }

  lemma ReadReleaseUndoesReleaseText(d: ReleaseDocument)
    ensures ReadRelease(ReleaseText(d)) == Some(RawOf(d))
  {
    hide ReadWhat, ReadWhere, ReadArtifact, ReadWhen, WhatPieces, WherePieces, ArtifactPieces, Concat;
    var last := WhenPieces(d, []);
    var tail := [Quoted(d.releasedAt)] + ([NOTES_KEY] + ([Quoted(d.notes)] + (["}"] + [])));
    assert last == [RELEASED_KEY] + tail;
    ReadWhenUndoes(d);
    ReadArtifactUndoes(d, RELEASED_KEY, tail);
    ReadWhereUndoes(d, ArtifactPieces(d, last));
    ReadWhatUndoes(d, WherePieces(d, ArtifactPieces(d, last)));
  }

  // ---------------------------------------------------------------------------
  // Parsing
  // ---------------------------------------------------------------------------

  /** A JSON library that reads the bytes of every valid document for what they say; anything else is up to it. */
  ghost predicate ReadsCanonicalDocuments(reader: string -> Option<RawRelease>) {
    forall d: ReleaseDocument | IsValidDocument(d) :: reader(ReleaseText(d)) == Some(RawOf(d))
  }

  lemma TheReferenceReaderDoes()
    ensures ReadsCanonicalDocuments(ReadRelease)
  {
    forall d: ReleaseDocument | IsValidDocument(d)
      ensures ReadRelease(ReleaseText(d)) == Some(RawOf(d))
    {
      ReadReleaseUndoesReleaseText(d);
    }
  }

  /** An answer to `json` accepts nothing but the canonical bytes of a valid document, and those if read right. */
  ghost predicate Answers(json: string, reader: string -> Option<RawRelease>, r: Result<ReleaseDocument>) {
    && (r.Ok? ==> IsValidDocument(r.value) && InRange(r.value.version) && json == ReleaseText(r.value))
    && (r.Err? ==> r.code == InvalidInput)
    && (ReadsCanonicalDocuments(reader) ==>
         forall d: ReleaseDocument | IsValidDocument(d) && json == ReleaseText(d) ::
           r == if InRange(d.version) then Ok(d) else Err(InvalidInput))
  }

  method ParseReleaseDocument(json: string, reader: string -> Option<RawRelease>) returns (r: Result<ReleaseDocument>)
    ensures Answers(json, reader, r)
  {
    hide ReleaseText, IsUtcTimestamp, IsSha256Hex, IsVersion, VersionOf, IsCanonicalVersion;
    var root := reader(json);
    if root.None? {
      return Err(InvalidInput);
    }
    forall d: ReleaseDocument | ReadsCanonicalDocuments(reader) && IsValidDocument(d) && json == ReleaseText(d)
      ensures root == Some(RawOf(d))
      ensures ParseChannel(root.value.channel) == Some(d.channel)
      ensures ParsePlatform(root.value.platform) == Some(d.platform)
      ensures ParseArch(root.value.arch) == Some(d.arch)
      ensures IsVersion(root.value.version) <==> InRange(d.version)
      ensures InRange(d.version) ==> VersionOf(root.value.version) == d.version
    {
      NamesParseBack(d.channel, d.platform, d.arch);
      ParsingUndoesCanonicalVersion(d.version);
    }
    r := Understand(root.value);
    if r.Err? {
      return;
    }
    ParsedVersionIsInRange(root.value.version);
    var valid := ValidateReleaseDocument(r.value);
    if valid.Err? {
      return Err(valid.code);
    }
    var canonical := CanonicalReleaseDocument(r.value);
    if canonical != json {
      return Err(InvalidInput);
    }
  }

  // ---------------------------------------------------------------------------
  // Which valid documents come back
  // ---------------------------------------------------------------------------

  lemma SameTextSameVersion(a: ReleaseDocument, b: ReleaseDocument)
    requires ReleaseText(a) == ReleaseText(b)
    ensures a.version.text == b.version.text
  {
    hide ReleaseText, ReadRelease;
    ReadReleaseUndoesReleaseText(a);
    ReadReleaseUndoesReleaseText(b);
  }

  /** Its own bytes bring a valid document back exactly when its version is in range; no reader helps otherwise. */
  lemma AValidDocumentComesBackIffItsVersionIsInRange(d: ReleaseDocument, reader: string -> Option<RawRelease>,
                                                      r: Result<ReleaseDocument>)
    requires IsValidDocument(d) && Answers(ReleaseText(d), reader, r)
    ensures !InRange(d.version) ==> r == Err(InvalidInput)
    ensures ReadsCanonicalDocuments(reader) ==> (r == Ok(d) <==> InRange(d.version))
  {
    hide ReleaseText, IsUtcTimestamp, IsSha256Hex, IsCanonicalVersion;
    if r.Ok? {
      SameTextSameVersion(d, r.value);
      CanonicalVersionIdentifiesTheComponents(d.version, r.value.version);
    }
  }

  const NEW_YEAR := "2026-01-01T00:00:00Z"

  /** Version 1000000.0.0 of something. */
  function OversizedRelease(): ReleaseDocument {
    ReleaseDocument(RELEASE_DOCUMENT_SCHEMA, Stable,
                    Semver(MAX_VERSION_COMPONENT + 1, 0, 0, CanonicalVersion(MAX_VERSION_COMPONENT + 1, 0, 0)),
                    Linux, X64, seq(SHA256_HEX_LENGTH, _ => '0'), 1, NEW_YEAR, "")
  }

  lemma NewYearIsATimestamp()
    ensures IsUtcTimestamp(NEW_YEAR)
  {
    assert HasTimestampDigits(NEW_YEAR);
    assert TwoDigits(NEW_YEAR, 5) == 1 && TwoDigits(NEW_YEAR, 8) == 1;
  }

  /** Validation passes a document that can be signed and printed but never parsed. */
  lemma AnOversizedReleaseIsValidButNeverParsed(reader: string -> Option<RawRelease>, r: Result<ReleaseDocument>)
    requires Answers(ReleaseText(OversizedRelease()), reader, r)
    ensures IsValidDocument(OversizedRelease()) && r == Err(InvalidInput)
  {
    hide ReleaseText, CanonicalVersion, IsUtcTimestamp;
    NewYearIsATimestamp();
    assert IsValidDocument(OversizedRelease());
    AValidDocumentComesBackIffItsVersionIsInRange(OversizedRelease(), reader, r);
  }

  /** Filling the document field by field. */
  method Understand(root: RawRelease) returns (r: Result<ReleaseDocument>)
    ensures r.Ok? <==> root.schema.Some? && ParseChannel(root.channel).Some? && IsVersion(root.version)
                       && ParsePlatform(root.platform).Some? && ParseArch(root.arch).Some? && root.size.Some?
    ensures r.Ok? ==> r.value == ReleaseDocument(
                        root.schema.value, ParseChannel(root.channel).value, VersionOf(root.version),
                        ParsePlatform(root.platform).value, ParseArch(root.arch).value, root.sha256, root.size.value,
                        root.releasedAt, root.notes)
    ensures r.Err? ==> r.code == InvalidInput
  {
    hide IsVersion, VersionOf, ParseChannel, ParsePlatform, ParseArch;
    if root.schema.None? {
      return Err(InvalidInput);
    }
    var channel := ParseChannel(root.channel);
    if channel.None? {
      return Err(InvalidInput);
    }
    var version := ParseSemver(root.version);
    if version.Err? {
      return Err(version.code);
    }
    var platform := ParsePlatform(root.platform);
    if platform.None? {
      return Err(InvalidInput);
    }
    var arch := ParseArch(root.arch);
    if arch.None? {
      return Err(InvalidInput);
    }
    if root.size.None? {
      return Err(InvalidInput);
    }
    return Ok(ReleaseDocument(root.schema.value, channel.value, version.value, platform.value, arch.value, root.sha256,
                              root.size.value, root.releasedAt, root.notes));
  }

  lemma ParsedVersionIsInRange(input: string)
    requires IsVersion(input)
    ensures InRange(VersionOf(input))
  {
    hide Split, Trim, IsCanonicalDecimal, ValueOf;
  }
}
