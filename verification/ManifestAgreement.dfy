/**
 Every ready build serves a manifest that hashes to the value recorded when it was finalized,
 whatever order storage returns its rows in, and a build is finalized at most once.
 */
module ManifestAgreement {
  import opened Manifest
  import opened Ordering
  import opened Text
  import opened StagingFile
  import opened Protocol
  import opened Frames
  import opened Lifecycle
  import opened SerialUploads

  predicate FilesPresent(s: State, files: seq<BuildFile>) {
    forall k :: 0 <= k < |files| ==> files[k].blobSha256 in s.blobs
  }

  /** `filesFor`: the rows of a build joined with the sizes of their blobs. */
  function JoinedEntries(s: State, files: seq<BuildFile>): (entries: seq<ManifestEntry>)
    requires FilesPresent(s, files)
    ensures |entries| == |files|
    ensures forall k :: 0 <= k < |files| ==>
              entries[k] == ManifestEntry(files[k].relativePath, files[k].blobSha256,
                                          s.blobs[files[k].blobSha256].sizeBytes, files[k].isExecutable)
  {
    seq(|files|, k requires 0 <= k < |files| && FilesPresent(s, files) =>
      ManifestEntry(files[k].relativePath, files[k].blobSha256,
                    s.blobs[files[k].blobSha256].sizeBytes, files[k].isExecutable))
  }

  ghost predicate Agrees(p: Settings, s: State, row: BuildRow) {
    row.status == Ready ==>
      && FilesPresent(s, row.files)
      && UniquePaths(JoinedEntries(s, row.files))
      && row.manifestSha256 == p.sha256(CanonicalText(JoinedEntries(s, row.files), row.entrypoint, row.launchArgs))
  }

  ghost predicate AllAgree(p: Settings, s: State) {
    forall b <- s.builds :: Agrees(p, s, s.builds[b])
  }

  /** The sizes a finalization read are still the recorded ones. */
  predicate SizesStillHold(s: State, entries: seq<ManifestEntry>) {
    forall k :: 0 <= k < |entries| ==>
      entries[k].blobSha256 in s.blobs ==> s.blobs[entries[k].blobSha256].sizeBytes == entries[k].sizeBytes
  }

  /** What a finalization under way knows about its manifest. */
  ghost predicate WellPrepared(p: Settings, action: Action) {
    match action
    case ReadSizes(_, entries, _, _) => UniquePaths(entries)
    case Finalize(_, entries, entrypoint, launchArgs, manifestSha256) =>
      UniquePaths(entries) && manifestSha256 == p.sha256(CanonicalText(entries, entrypoint, launchArgs))
    case _ => true
  }

  ghost predicate AllPrepared(p: Settings, s: State) {
    forall action :: Outstanding(s, action) ==> WellPrepared(p, action)
  }

  // ---------------------------------------------------------------------------
  // Finalizing
  // ---------------------------------------------------------------------------

  lemma JoinedBack(s: State, entries: seq<ManifestEntry>)
    requires AllRecorded(s, entries)
    ensures FilesPresent(s, FilesOf(entries))
    ensures JoinedEntries(s, FilesOf(entries)) == WithStoredSizes(s, entries)
    ensures JoinedEntries(s, FilesOf(entries)) == entries <==> SizesStillHold(s, entries)
  {
    assert JoinedEntries(s, FilesOf(entries)) == WithStoredSizes(s, entries);
    var sized := WithStoredSizes(s, entries);
    if SizesStillHold(s, entries) {
      assert sized == entries;
    } else {
      var k :| 0 <= k < |entries| && s.blobs[entries[k].blobSha256].sizeBytes != entries[k].sizeBytes;
      assert sized[k] != entries[k];
    }
  }

  lemma SamePathsStayUnique(a: seq<ManifestEntry>, b: seq<ManifestEntry>)
    requires UniquePaths(a) && |a| == |b|
    requires forall k :: 0 <= k < |a| ==> a[k].relativePath == b[k].relativePath
    ensures UniquePaths(b)
  {
    forall i, j | 0 <= i < j < |b|
      ensures PathOf(b[i]) != PathOf(b[j])
    {
      assert PathOf(a[i]) != PathOf(a[j]);
    }
  }

  lemma DifferentSizesDiffer(a: seq<ManifestEntry>, b: seq<ManifestEntry>)
    requires UniquePaths(a) && |a| == |b| && a != b
    requires forall k :: 0 <= k < |a| ==> a[k].relativePath == b[k].relativePath
    ensures multiset(a) != multiset(b)
  {
    var k :| 0 <= k < |a| && a[k] != b[k];
    forall m | 0 <= m < |b|
      ensures b[m] != a[k]
    {
      assert PathOf(a[m]) == PathOf(a[k]) ==> m == k;
    }
    assert a[k] in multiset(a) && a[k] !in multiset(b);
  }

  /**
   A finalized build agrees with what it will serve exactly when the sizes it read are still the
   recorded ones. A collection and a dishonest re-upload of the same digest in between break it.
   */
  lemma FinalizeAgreesIffSizesStillHold(p: Settings, s: State, build: BuildId, entries: seq<ManifestEntry>,
                                        entrypoint: string, launchArgs: string, manifestSha256: Digest)
    requires Injective(p.sha256)
    requires build in s.builds && s.builds[build].status == Uploading && AllRecorded(s, entries)
    requires WellPrepared(p, Finalize(build, entries, entrypoint, launchArgs, manifestSha256))
    ensures var t := ExecuteFinalize(s, build, entries, entrypoint, launchArgs, manifestSha256).state;
            Agrees(p, t, t.builds[build]) <==> SizesStillHold(s, entries)
  {
    hide CanonicalText, UniquePaths, SizesStillHold;
    var t := ExecuteFinalize(s, build, entries, entrypoint, launchArgs, manifestSha256).state;
    JoinedBack(t, entries);
    StoredSizesDependOnRows(s, t, entries);
    var served := JoinedEntries(t, FilesOf(entries));
    SamePathsStayUnique(entries, served);
    CanonicalTextIdentifiesTheManifest(entries, entrypoint, launchArgs, served, entrypoint, launchArgs);
    if served != entries {
      DifferentSizesDiffer(entries, served);
    }
  }

  lemma StoredSizesDependOnRows(s: State, t: State, entries: seq<ManifestEntry>)
    requires s.blobs == t.blobs
    ensures SizesStillHold(s, entries) <==> SizesStillHold(t, entries)
  {
  }

  /** The half that needs no injectivity. */
  lemma FinalizeAgrees(p: Settings, s: State, action: Action)
    requires action.Finalize? && WellPrepared(p, action) && SizesStillHold(s, action.entries) && AllAgree(p, s)
    ensures AllAgree(p, ExecuteFinalize(s, action.buildId, action.entries, action.entrypoint, action.launchArgs,
                                        action.manifestSha256).state)
  {
    hide CanonicalText, UniquePaths, SizesStillHold, Agrees, WellPrepared, AllRecorded, FilesOf;
    var t := ExecuteFinalize(s, action.buildId, action.entries, action.entrypoint, action.launchArgs,
                             action.manifestSha256).state;
    forall b <- t.builds
      ensures Agrees(p, t, t.builds[b])
    {
      if b in s.builds && t.builds[b] == s.builds[b] {
        SameSizesStillAgree(p, s, t, t.builds[b]);
      } else {
        FinalizedRowAgrees(p, s, t, action);
      }
    }
  }

  lemma FinalizedRowAgrees(p: Settings, s: State, t: State, action: Action)
    requires action.Finalize? && WellPrepared(p, action) && SizesStillHold(s, action.entries)
    requires AllRecorded(s, action.entries) && t.blobs == s.blobs
    ensures Agrees(p, t, BuildRow(Ready, FilesOf(action.entries), action.manifestSha256, action.entrypoint,
                                  action.launchArgs))
  {
    hide CanonicalText, UniquePaths;
    JoinedBack(t, action.entries);
  }

  /** A row agrees as long as the sizes of its files stay. */
  lemma SameSizesStillAgree(p: Settings, s: State, t: State, row: BuildRow)
    requires Agrees(p, s, row)
    requires forall k :: 0 <= k < |row.files| && row.files[k].blobSha256 in s.blobs ==>
               row.files[k].blobSha256 in t.blobs
               && t.blobs[row.files[k].blobSha256].sizeBytes == s.blobs[row.files[k].blobSha256].sizeBytes
    ensures Agrees(p, t, row)
  {
    hide CanonicalText, UniquePaths;
    if row.status == Ready {
      assert JoinedEntries(t, row.files) == JoinedEntries(s, row.files);
    }
  }

  // ---------------------------------------------------------------------------
  // Runs
  // ---------------------------------------------------------------------------

  /** A finalization finds the sizes it read. */
  ghost predicate Settled(s: State, event: Event) {
    event.Step? && event.request in s.requests && s.requests[event.request].program != [] ==>
      var head := s.requests[event.request].program[0];
      head.Finalize? ==> SizesStillHold(s, head.entries)
  }

  ghost predicate SettledRun(p: Settings, s: State, events: seq<Event>)
    decreases |events|
  {
    events == [] || (Settled(s, events[0]) && SettledRun(p, Apply(p, s, events[0]), events[1..]))
  }

  lemma LeadingToFinalize(p: Settings, s: State, action: Action, io: Io, next: Action)
    requires WellPrepared(p, action) && next in Execute(p, s, action, io).next
    ensures WellPrepared(p, next)
  {
    hide ExecuteReserve, ExecuteWrite, ExecuteCheckRow, ExecuteCharge, ExecuteCommit, ExecuteRecord, Released;
    hide WithStatus, WithoutStaging, ExecuteCollectRow, ExecuteFinalize, CanonicalText, UniquePaths;
    if action.ReadSizes? {
      SamePathsStayUnique(action.entries, WithStoredSizes(s, action.entries));
    }
  }

  lemma PreparationsAreKept(p: Settings, s: State, event: Event)
    requires AllPrepared(p, s)
    ensures AllPrepared(p, Apply(p, s, event))
  {
    hide Apply, Execute, Outstanding, WellPrepared;
    var t := Apply(p, s, event);
    forall action | Outstanding(t, action)
      ensures WellPrepared(p, action)
    {
      if Outstanding(s, action) {
      } else if event.Step? {
        StepFrame(p, s, event);
        if t != s {
          var r := event.request;
          HeadIsOutstanding(s, r);
          OutstandingAfterStep(p, s, r, event.io, action);
          LeadingToFinalize(p, s, s.requests[r].program[0], event.io, action);
        }
      } else {
        OutstandingAfterOther(p, s, event, action);
        NewActionsArePrepared(p, s, event, action);
      }
    }
  }

  lemma NewActionsArePrepared(p: Settings, s: State, event: Event, action: Action)
    requires (event.StartFinalize? && action.ReadSizes? && action.entries == event.entries
              && MayFinalize(s, event.buildId, event.entries, event.entrypoint, event.launchArgs))
          || (!action.ReadSizes? && !action.Finalize?)
    ensures WellPrepared(p, action)
  {
    hide CanonicalText, UniquePaths, Trim;
  }

  /** A build's own files keep their rows, and rows never change. */
  lemma ReferencedRowsStay(p: Settings, s: State, action: Action, io: Io, h: Digest)
    requires h in s.blobs && Referenced(s, h)
    ensures var t := Execute(p, s, action, io).state; h in t.blobs && t.blobs[h] == s.blobs[h]
  {
    hide ExecuteReserve, ExecuteWrite, ExecuteCheckRow, ExecuteCharge, ExecuteCommit, Released;
    hide WithStatus, WithoutStaging, ExecuteReadSizes, ExecuteFinalize, Referenced, Awaited;
  }

  lemma StepKeepsAgreement(p: Settings, s: State, action: Action, io: Io)
    requires AllAgree(p, s) && WellPrepared(p, action)
    requires action.Finalize? ==> SizesStillHold(s, action.entries)
    ensures AllAgree(p, Execute(p, s, action, io).state)
  {
    hide Execute, Agrees, WellPrepared, SizesStillHold;
    var t := Execute(p, s, action, io).state;
    if action.Finalize? {
      FinalizeCallsExecuted(p, s, action, io);
      FinalizeAgrees(p, s, action);
    } else {
      ExecuteFrame(p, s, action, io);
      forall b <- t.builds
        ensures Agrees(p, t, t.builds[b])
      {
        forall k | 0 <= k < |s.builds[b].files| && s.builds[b].files[k].blobSha256 in s.blobs
          ensures var h := s.builds[b].files[k].blobSha256; h in t.blobs && t.blobs[h] == s.blobs[h]
        {
          ReferencedIn(s, b, k);
          ReferencedRowsStay(p, s, action, io, s.builds[b].files[k].blobSha256);
        }
        SameSizesStillAgree(p, s, t, s.builds[b]);
      }
    }
  }

  lemma OnlyStepsMakeReady(p: Settings, s: State, event: Event, build: BuildId)
    requires !event.Step? && build in Apply(p, s, event).builds && Apply(p, s, event).builds[build].status == Ready
    ensures build in s.builds && Apply(p, s, event).builds[build] == s.builds[build]
  {
    hide Started, ProgramOf, BegunUpload, WithQuota, Crashed, Stepped, Execute;
  }

  lemma OtherEventKeepsAgreement(p: Settings, s: State, event: Event)
    requires AllAgree(p, s) && !event.Step?
    ensures AllAgree(p, Apply(p, s, event))
  {
    hide Apply, UniquePaths, CanonicalText;
    var t := Apply(p, s, event);
    OtherEventFrame(p, s, event);
    forall b <- t.builds
      ensures Agrees(p, t, t.builds[b])
    {
      if t.builds[b].status == Ready {
        OnlyStepsMakeReady(p, s, event, b);
        SameSizesStillAgree(p, s, t, t.builds[b]);
      }
    }
  }

  lemma SameTablesStillAgree(p: Settings, s: State, t: State)
    requires AllAgree(p, s) && t.builds == s.builds && t.blobs == s.blobs
    ensures AllAgree(p, t)
  {
    hide Agrees;
    forall b <- t.builds
      ensures Agrees(p, t, t.builds[b])
    {
      SameSizesStillAgree(p, s, t, s.builds[b]);
    }
  }

  lemma {:induction false} ManifestsAlwaysAgree(p: Settings, s: State, events: seq<Event>)
    requires AllAgree(p, s) && AllPrepared(p, s) && SettledRun(p, s, events)
    ensures AllAgree(p, Run(p, s, events)) && AllPrepared(p, Run(p, s, events))
    decreases |events|
  {
    hide Apply, Execute, AllAgree, WellPrepared, Outstanding, SizesStillHold;
    if events != [] {
      var event := events[0];
      PreparationsAreKept(p, s, event);
      if event.Step? {
        StepFrame(p, s, event);
        if Apply(p, s, event) != s {
          var head := s.requests[event.request].program[0];
          HeadIsOutstanding(s, event.request);
          StepKeepsAgreement(p, s, head, event.io);
          SameTablesStillAgree(p, Execute(p, s, head, event.io).state, Apply(p, s, event));
        }
      } else {
        OtherEventKeepsAgreement(p, s, event);
      }
      ManifestsAlwaysAgree(p, Apply(p, s, event), events[1..]);
    }
  }

  // ---------------------------------------------------------------------------
  // Exactly when manifests agree
  // ---------------------------------------------------------------------------

  /** If this event makes a build ready, the sizes it read are still recorded. */
  ghost predicate FinalizesCurrentSizes(s: State, event: Event) {
    event.Step? && event.request in s.requests && s.requests[event.request].program != [] ==>
      var head := s.requests[event.request].program[0];
      (head.Finalize? && head.buildId in s.builds && s.builds[head.buildId].status == Uploading
       && AllRecorded(s, head.entries)) ==>
        SizesStillHold(s, head.entries)
  }

  ghost predicate SizesAlwaysCurrent(p: Settings, s: State, events: seq<Event>)
    decreases |events|
  {
    events == [] || (FinalizesCurrentSizes(s, events[0]) && SizesAlwaysCurrent(p, Apply(p, s, events[0]), events[1..]))
  }

  ghost predicate AlwaysAgree(p: Settings, s: State, events: seq<Event>)
    decreases |events|
  {
    AllAgree(p, s) && (events == [] || AlwaysAgree(p, Apply(p, s, events[0]), events[1..]))
  }

  lemma FinalizeKeepsAgreementIffCurrent(p: Settings, s: State, r: RequestId, io: Io)
    requires Injective(p.sha256) && AllAgree(p, s) && r in s.requests && s.requests[r].program != []
    requires s.requests[r].program[0].Finalize? && WellPrepared(p, s.requests[r].program[0])
    ensures AllAgree(p, Stepped(p, s, r, io)) <==> FinalizesCurrentSizes(s, Step(r, io))
  {
    hide Execute, Agrees, WellPrepared, SizesStillHold, Injective, AllRecorded;
    var head, t := s.requests[r].program[0], Stepped(p, s, r, io);
    var after := Execute(p, s, head, io).state;
    FinalizeCallsExecuted(p, s, head, io);
    if head.buildId in s.builds && s.builds[head.buildId].status == Uploading && AllRecorded(s, head.entries) {
      if SizesStillHold(s, head.entries) {
        FinalizeAgrees(p, s, head);
        SameTablesStillAgree(p, after, t);
      } else {
        FinalizeAgreesIffSizesStillHold(p, s, head.buildId, head.entries, head.entrypoint, head.launchArgs,
                                        head.manifestSha256);
        AgreementDependsOnRows(p, after, t, t.builds[head.buildId]);
      }
    } else {
      assert after == s;
      SameTablesStillAgree(p, s, t);
    }
  }

  lemma AgreementDependsOnRows(p: Settings, s: State, t: State, row: BuildRow)
    requires s.blobs == t.blobs && !Agrees(p, s, row)
    ensures !Agrees(p, t, row)
  {
    hide CanonicalText, UniquePaths;
    if FilesPresent(s, row.files) {
      assert JoinedEntries(t, row.files) == JoinedEntries(s, row.files);
    }
  }

  lemma EventAgreesIffSizesAreCurrent(p: Settings, s: State, event: Event)
    requires Injective(p.sha256) && AllAgree(p, s) && AllPrepared(p, s)
    ensures AllAgree(p, Apply(p, s, event)) <==> FinalizesCurrentSizes(s, event)
  {
    hide Apply, Execute, AllAgree, WellPrepared, Outstanding, SizesStillHold, Injective, AllRecorded;
    if !event.Step? {
      OtherEventKeepsAgreement(p, s, event);
    } else {
      StepFrame(p, s, event);
      if event.request in s.requests && s.requests[event.request].program != [] {
        var head := s.requests[event.request].program[0];
        HeadIsOutstanding(s, event.request);
        if head.Finalize? {
          FinalizeKeepsAgreementIffCurrent(p, s, event.request, event.io);
        } else {
          StepKeepsAgreement(p, s, head, event.io);
          SameTablesStillAgree(p, Execute(p, s, head, event.io).state, Apply(p, s, event));
        }
      }
    }
  }

  /** Manifests agree throughout a run exactly when every finalization finds the sizes it read. */
  lemma {:induction false} AgreeThroughoutIffSizesAreCurrent(p: Settings, s: State, events: seq<Event>)
    requires Injective(p.sha256) && AllAgree(p, s) && AllPrepared(p, s)
    ensures AlwaysAgree(p, s, events) <==> SizesAlwaysCurrent(p, s, events)
    decreases |events|
  {
    hide Apply, AllAgree, AllPrepared, FinalizesCurrentSizes, Injective;
    if events != [] {
      EventAgreesIffSizesAreCurrent(p, s, events[0]);
      PreparationsAreKept(p, s, events[0]);
      if AllAgree(p, Apply(p, s, events[0])) {
        AgreeThroughoutIffSizesAreCurrent(p, Apply(p, s, events[0]), events[1..]);
      } else {
        assert !AlwaysAgree(p, Apply(p, s, events[0]), events[1..]);
      }
    }
  }

  /** Whatever order the rows come back in, the served bytes hash to the recorded value. */
  lemma ServedManifestHashesToItsRecord(p: Settings, s: State, events: seq<Event>, build: BuildId,
                                        rows: seq<ManifestEntry>)
    requires Initial(s) && SettledRun(p, s, events)
    requires var t := Run(p, s, events);
             && build in t.builds && t.builds[build].status == Ready
             && (FilesPresent(t, t.builds[build].files) ==>
                  multiset(rows) == multiset(JoinedEntries(t, t.builds[build].files)))
    ensures var row := Run(p, s, events).builds[build];
            UniquePaths(rows) && p.sha256(CanonicalText(rows, row.entrypoint, row.launchArgs)) == row.manifestSha256
  {
    hide CanonicalText;
    ManifestsAlwaysAgree(p, s, events);
    var t := Run(p, s, events);
    var row := t.builds[build];
    assert Agrees(p, t, row);
    var joined := JoinedEntries(t, row.files);
    UniqueKeysSurvivePermutation(joined, rows, PathOf);
    CanonicalTextIdentifiesTheManifest(joined, row.entrypoint, row.launchArgs, rows, row.entrypoint, row.launchArgs);
  }

  // ---------------------------------------------------------------------------
  // Finalized at most once
  // ---------------------------------------------------------------------------

  lemma StepsFreezeReadyBuilds(p: Settings, s: State, action: Action, io: Io, build: BuildId)
    requires build in s.builds && s.builds[build].status == Ready
    ensures var t := Execute(p, s, action, io).state; build in t.builds && t.builds[build] == s.builds[build]
  {
    hide Execute, FilesOf, AllRecorded;
    ExecuteFrame(p, s, action, io);
    if action.Finalize? {
      FinalizeCallsExecuted(p, s, action, io);
    }
  }

  ghost predicate KeepsReady(s: State, t: State, build: BuildId) {
    build in s.builds && s.builds[build].status == Ready ==> build in t.builds && t.builds[build] == s.builds[build]
  }

  lemma CreatingFreezesReadyBuilds(s: State, created: BuildId, build: BuildId)
    ensures KeepsReady(s, WithBuild(s, created), build)
  {
  }

  lemma FailingFreezesReadyBuilds(s: State, failed: BuildId, build: BuildId)
    ensures KeepsReady(s, WithFailedBuild(s, failed), build)
  {
  }

  lemma RemovingFreezesOtherBuilds(s: State, removed: BuildId, build: BuildId)
    requires removed != build
    ensures KeepsReady(s, WithoutBuild(s, removed), build)
  {
  }

  lemma ReadyBuildsAreFrozen(p: Settings, s: State, event: Event, build: BuildId)
    requires event != RemoveBuild(build)
    ensures KeepsReady(s, Apply(p, s, event), build)
  {
    match event {
      case CreateBuild(changed) => CreatingFreezesReadyBuilds(s, changed, build);
      case MarkFailed(changed) => FailingFreezesReadyBuilds(s, changed, build);
      case RemoveBuild(changed) => RemovingFreezesOtherBuilds(s, changed, build);
      case Step(r, io) =>
        hide Apply, Execute;
        StepFrame(p, s, event);
        if Apply(p, s, event) != s && build in s.builds && s.builds[build].status == Ready {
          StepsFreezeReadyBuilds(p, s, s.requests[r].program[0], io, build);
        }
      case _ =>
        hide Apply;
        OtherEventFrame(p, s, event);
    }
  }

  lemma {:induction false} ABuildIsFinalizedAtMostOnce(p: Settings, s: State, events: seq<Event>, build: BuildId)
    requires build in s.builds && s.builds[build].status == Ready
    requires forall k :: 0 <= k < |events| ==> events[k] != RemoveBuild(build)
    ensures build in Run(p, s, events).builds && Run(p, s, events).builds[build] == s.builds[build]
    decreases |events|
  {
    hide Apply;
    if events != [] {
      ReadyBuildsAreFrozen(p, s, events[0], build);
      ABuildIsFinalizedAtMostOnce(p, Apply(p, s, events[0]), events[1..], build);
    }
  }

  // ---------------------------------------------------------------------------
  // Serial runs are settled
  // ---------------------------------------------------------------------------

  ghost predicate HonestPlan(p: Settings, action: Action) {
    action.Finalize? ==>
      forall k :: 0 <= k < |action.entries| ==>
        action.entries[k].sizeBytes >= 0
        && HonestSize(p, action.entries[k].blobSha256, action.entries[k].sizeBytes)
  }

  ghost predicate HonestPlans(p: Settings, s: State) {
    forall action :: Outstanding(s, action) ==> HonestPlan(p, action)
  }

  lemma SizesReadAreHonest(p: Settings, s: State, action: Action, io: Io, next: Action)
    requires HonestRows(p, s) && next in Execute(p, s, action, io).next
    ensures HonestPlan(p, next)
  {
    hide ExecuteReserve, ExecuteWrite, ExecuteCheckRow, ExecuteCharge, ExecuteCommit, ExecuteRecord, Released;
    hide WithStatus, WithoutStaging, ExecuteCollectRow, ExecuteFinalize, CanonicalText, HonestSize;
  }

  lemma HonestPlansAreKept(p: Settings, s: State, event: Event)
    requires HonestRows(p, s) && HonestPlans(p, s)
    ensures HonestPlans(p, Apply(p, s, event))
  {
    hide Apply, Execute, Outstanding, HonestRows, HonestPlan;
    var t := Apply(p, s, event);
    forall action | Outstanding(t, action)
      ensures HonestPlan(p, action)
    {
      if Outstanding(s, action) {
      } else if event.Step? {
        StepFrame(p, s, event);
        if t != s {
          OutstandingAfterStep(p, s, event.request, event.io, action);
          SizesReadAreHonest(p, s, s.requests[event.request].program[0], event.io, action);
        }
      } else {
        OutstandingAfterOther(p, s, event, action);
        OnlyFinalizeIsAPlan(p, action);
      }
    }
  }

  lemma OnlyFinalizeIsAPlan(p: Settings, action: Action)
    requires !action.Finalize?
    ensures HonestPlan(p, action)
  {
  }

  lemma HonestPlansAreSettled(p: Settings, s: State, event: Event)
    requires Injective(p.sha256) && HonestRows(p, s) && HonestPlans(p, s)
    ensures Settled(s, event)
  {
    hide Injective, HonestSize, Outstanding;
    if event.Step? && event.request in s.requests && s.requests[event.request].program != [] {
      var head := s.requests[event.request].program[0];
      HeadIsOutstanding(s, event.request);
      if head.Finalize? {
        assert HonestPlan(p, head);
        forall k | 0 <= k < |head.entries| && head.entries[k].blobSha256 in s.blobs
          ensures s.blobs[head.entries[k].blobSha256].sizeBytes == head.entries[k].sizeBytes
        {
          var h := head.entries[k].blobSha256;
          HonestSizesAgree(p, h, s.blobs[h].sizeBytes, head.entries[k].sizeBytes);
        }
      }
    }
  }

  /** When chunks are handled one at a time, no finalization ever finds other sizes than it read. */
  lemma {:induction false} SerialRunsAreSettled(p: Settings, s: State, events: seq<Event>)
    requires Injective(p.sha256) && SerialState(p, s) && HonestPlans(p, s) && SerialRun(p, s, events)
    ensures SettledRun(p, s, events)
    decreases |events|
  {
    hide Apply, Injective, HonestRows, HonestPlans, SerialEvent, Settled;
    if events != [] {
      HonestPlansAreSettled(p, s, events[0]);
      HonestPlansAreKept(p, s, events[0]);
      SerialEventKeepsOrder(p, s, events[0]);
      SerialRunsAreSettled(p, Apply(p, s, events[0]), events[1..]);
    }
  }
}
