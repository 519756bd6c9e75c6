/**
 The run that finalizes a build under a hash its manifest does not have: between reading the sizes
 and finalizing, the blob is collected and recorded anew with another size. It shows that the
 condition `ManifestAgreement` states is not always met.
 */
module WrongHash {
  import opened Common
  import opened Manifest
  import opened StagingFile
  import opened Text
  import opened Protocol
  import opened Backends
  import opened ManifestAgreement
  import opened Scenarios
  import opened LateWrite

  const ENTRYPOINT := "a"

  function OneFile(sha256: Digest, sizeBytes: nat): seq<ManifestEntry> {
    [ManifestEntry(ENTRYPOINT, sha256, sizeBytes, false)]
  }

  lemma OneFileIsAManifest(sha256: Digest, sizeBytes: nat)
    requires IsSha256Hex(sha256)
    ensures IsValidManifest(OneFile(sha256, sizeBytes), ENTRYPOINT)
    ensures Trim(ENTRYPOINT) == ENTRYPOINT && UniquePaths(OneFile(sha256, sizeBytes))
  {
    hide IsSha256Hex;
    assert Find(ENTRYPOINT, '/', 1) == NPOS;
    assert Split(ENTRYPOINT, '/') == [ENTRYPOINT];
    assert IsSafePath(ENTRYPOINT);
    var entries := OneFile(sha256, sizeBytes);
    assert IsValidEntry(entries[0]) && entries[0].relativePath == ENTRYPOINT;
  }

  function Prepared(p: Settings, sha256: Digest, sizeBytes: nat): Action {
    Finalize(BUILD, OneFile(sha256, sizeBytes), ENTRYPOINT, "",
             p.sha256(CanonicalText(OneFile(sha256, sizeBytes), ENTRYPOINT, "")))
  }

  /** A finalization begins and reads the sizes. */
  lemma SizesAreRead(p: Settings, s: State, r: RequestId, sha256: Digest) returns (trace: seq<Event>, t: State)
    requires OnlyAnEmptyBuild(s) && IsSha256Hex(sha256) && sha256 in s.blobs && r !in s.requests
    ensures Run(p, s, trace) == t && t == s.(requests := t.requests)
    ensures Does(t, r, Prepared(p, sha256, s.blobs[sha256].sizeBytes)) && OthersAsBefore(s, t, r)
  {
    hide Run, Apply, Stepped, ProgramOf, CanonicalText, IsSha256Hex, IsValidManifest, Trim;
    var entries := OneFile(sha256, 0);
    OneFileIsAManifest(sha256, 0);
    var event := StartFinalize(r, BUILD, entries, ENTRYPOINT, "");
    FinalizationIsAccepted(p, s, event);
    StartIsApplied(p, s, event);
    var s1 := Apply(p, s, event);
    JustOneEvent(p, s, event);
    SizesStep(p, s1, r, BUILD, entries, ENTRYPOINT, "");
    t := Stepped(p, s1, r, Works);
    JustOneStep(p, s1, r);
    trace := [event] + [Step(r, Works)];
    Then(p, s, [event], s1, [Step(r, Works)], t);
    assert WithStoredSizes(s1, entries) == OneFile(sha256, s.blobs[sha256].sizeBytes);
    MovedProgram(s1.requests, r, AfterSizes(p, s1, BUILD, entries, ENTRYPOINT, ""));
  }

  lemma FinalizationIsAccepted(p: Settings, s: State, event: Event)
    requires event.StartFinalize? && MayFinalize(s, event.buildId, event.entries, event.entrypoint, event.launchArgs)
    ensures ProgramOf(p, s, event)
         == Some(Request(Housekeeping, [ReadSizes(event.buildId, event.entries, Trim(event.entrypoint), event.launchArgs)]))
  {
    hide MayFinalize, Trim;
  }

  /** A ready build whose recorded hash is not that of the manifest it serves. */
  ghost predicate ServesAnotherHash(p: Settings, s: State, build: BuildId) {
    && build in s.builds
    && var row := s.builds[build];
    && row.status == Ready && FilesPresent(s, row.files) && UniquePaths(JoinedEntries(s, row.files))
    && p.sha256(CanonicalText(JoinedEntries(s, row.files), row.entrypoint, row.launchArgs)) != row.manifestSha256
  }

  /** Finalizing after the size has changed. */
  lemma FinalizedWithAnotherSize(p: Settings, s: State, r: RequestId, sha256: Digest, sizeBytes: nat) returns (t: State)
    requires Injective(p.sha256) && OnlyAnEmptyBuild(s) && IsSha256Hex(sha256)
    requires sha256 in s.blobs && s.blobs[sha256].sizeBytes != sizeBytes
    requires Does(s, r, Prepared(p, sha256, sizeBytes))
    ensures Run(p, s, [Step(r, Works)]) == t && ServesAnotherHash(p, t, BUILD)
  {
    hide Run, Stepped, CanonicalText, Injective, IsSha256Hex, IsValidManifest, Trim;
    var entries, action := OneFile(sha256, sizeBytes), Prepared(p, sha256, sizeBytes);
    OneFileIsAManifest(sha256, sizeBytes);
    OneFileIsAManifest(sha256, s.blobs[sha256].sizeBytes);
    FinalizeStep(p, s, r, entries, action);
    t := Stepped(p, s, r, Works);
    JustOneStep(p, s, r);
    assert !SizesStillHold(s, entries) by {
      assert entries[0].blobSha256 == sha256;
    }
    FinalizeAgreesIffSizesStillHold(p, s, BUILD, entries, ENTRYPOINT, "", action.manifestSha256);
    assert JoinedEntries(t, FilesOf(entries)) == OneFile(sha256, s.blobs[sha256].sizeBytes);
    assert JoinedEntries(s, FilesOf(entries)) == OneFile(sha256, s.blobs[sha256].sizeBytes);
  }

  /** Uploading, waiting out the grace period, reading the sizes, and collecting the row. */
  lemma CollectedAfterReading(p: Settings, s: State, user: UserId, content: Content) returns (trace: seq<Event>, t: State)
    requires Initial(s) && Uploadable(p, s, user, content)
    ensures Run(p, s, trace) == t
    ensures t.blobs == map[] && t.accounts == UsageAdded(s.accounts, user, |content|)
    ensures OnlyAnEmptyBuild(t) && NothingPending(t) && t.sessions.Keys == {"1"}
    ensures t.staging == map[] && t.accepted.Keys == {"1"} && t.requests.Keys == {0, 1, 9}
    ensures Does(t, 9, Prepared(p, p.sha256(content), |content|))
  {
    hide Run, IsSha256Hex, UsageAdded, CanonicalText, Prepared;
    var h, wait := p.sha256(content), p.graceSeconds + 1;
    var first, s1 := FirstUpload(p, s, user, content);
    TimePasses(p, s1, wait);
    var s2 := s1.(now := s1.now + wait);
    Then(p, s, first, s1, [Tick(wait)], s2);
    var reading, s3 := SizesAreRead(p, s2, 9, h);
    Then(p, s, first + [Tick(wait)], s2, reading, s3);
    KeysBut(s3.requests, s2.requests, 9);
    var s4 := RowIsListed(p, s3, 1, h);
    Then(p, s, first + [Tick(wait)] + reading, s3, [StartCollection(1, [h])], s4);
    KeysBut(s4.requests, s3.requests, 1);
    t := RowGoes(p, s4, 1, ListingOf(s2, h), s2.now);
    trace := first + [Tick(wait)] + reading + [StartCollection(1, [h])] + [Step(1, Works)];
    Then(p, s, first + [Tick(wait)] + reading + [StartCollection(1, [h])], s4, [Step(1, Works)], t);
    KeysBut(t.requests, s4.requests, 1);
    StillDoes(s3, s4, 1, 9);
    StillDoes(s4, t, 1, 9);
  }

  /** From empty accounts, for every injective hash. */
  lemma ChangedSizeChangesTheHash(p: Settings, s: State, user: UserId, content: Content, rest: Content)
    returns (trace: seq<Event>)
    requires Injective(p.sha256) && Initial(s) && Uploadable(p, s, user, content) && rest != ""
    requires |rest| <= p.maxChunkBytes && |content| + |rest| <= p.maxBlobBytes
    requires 2 * |content| + |rest| <= s.accounts[user].quotaBytes
    ensures ServesAnotherHash(p, Run(p, s, trace), BUILD)
    ensures !AllAgree(p, Run(p, s, trace))
  {
    hide Run, IsSha256Hex, Injective, CanonicalText, Prepared;
    var h, size := p.sha256(content), |content| + |rest|;
    var opening, s1 := CollectedAfterReading(p, s, user, content);
    var s2 := SessionOpens(p, s1, "2", user, h, size);
    var begin := BeginUpload("2", BUILD, user, h, size, 1);
    Then(p, s, opening, s1, [begin], s2);
    var upload, s3 := ShortUploadLands(p, s2, 2, 3, 4, "2", user, content, rest);
    Then(p, s, opening + [begin], s2, upload, s3);
    var t := FinalizedWithAnotherSize(p, s3, 9, h, |content|);
    trace := opening + [begin] + upload + [Step(9, Works)];
    Then(p, s, opening + [begin] + upload, s3, [Step(9, Works)], t);
  }
}
