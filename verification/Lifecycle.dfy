/**
 How long a blob lives. Every file of every build always has a recorded row, and the collector
 takes a row only when nothing references it, nothing awaits it and its grace period is over. Every
 row has its stored file as long as a collection and an upload of one digest exclude each other,
 and throughout a run exactly as long as no file is removed under a row and no row recorded without
 its file. `LostFile` has the run that fails.
 */
module Lifecycle {
  import opened Manifest
  import opened StagingFile
  import opened Protocol
  import opened Frames
  import opened UploadSafety

  // ---------------------------------------------------------------------------
  // Rows behind builds
  // ---------------------------------------------------------------------------

  /** The foreign key from `build_files` to `blobs`. */
  ghost predicate FilesAreRecorded(s: State) {
    forall h :: Referenced(s, h) ==> h in s.blobs
  }

  lemma ReferencedIn(s: State, build: BuildId, k: nat)
    requires build in s.builds && k < |s.builds[build].files|
    ensures Referenced(s, s.builds[build].files[k].blobSha256)
  {
  }

  lemma FewerFilesStayRecorded(s: State, t: State)
    requires FilesAreRecorded(s) && s.blobs.Keys <= t.blobs.Keys
    requires forall b <- t.builds ::
               (b in s.builds && t.builds[b].files == s.builds[b].files)
               || forall k :: 0 <= k < |t.builds[b].files| ==> t.builds[b].files[k].blobSha256 in t.blobs
    ensures FilesAreRecorded(t)
  {
    forall h | Referenced(t, h)
      ensures h in t.blobs
    {
      var b :| b in t.builds && exists k :: 0 <= k < |t.builds[b].files| && t.builds[b].files[k].blobSha256 == h;
      var k :| 0 <= k < |t.builds[b].files| && t.builds[b].files[k].blobSha256 == h;
      if b in s.builds && t.builds[b].files == s.builds[b].files {
        ReferencedIn(s, b, k);
      }
    }
  }

  lemma CollectKeepsFilesRecorded(p: Settings, s: State, blob: CollectableBlob)
    requires FilesAreRecorded(s)
    ensures FilesAreRecorded(ExecuteCollectRow(p, s, blob).state)
  {
    hide Awaited;
    var t := ExecuteCollectRow(p, s, blob).state;
    assert forall h :: Referenced(t, h) ==> Referenced(s, h);
  }

  lemma FinalizeKeepsFilesRecorded(s: State, action: Action)
    requires FilesAreRecorded(s) && action.Finalize?
    ensures FilesAreRecorded(ExecuteFinalize(s, action.buildId, action.entries, action.entrypoint,
                                             action.launchArgs, action.manifestSha256).state)
  {
    hide FilesAreRecorded, AllRecorded;
    var t := ExecuteFinalize(s, action.buildId, action.entries, action.entrypoint,
                             action.launchArgs, action.manifestSha256).state;
    if t != s {
      RecordedEntriesAreRecordedFiles(s, action.entries);
      assert t.builds[action.buildId].files == FilesOf(action.entries);
      FewerFilesStayRecorded(s, t);
    }
  }

  lemma RecordedEntriesAreRecordedFiles(s: State, entries: seq<ManifestEntry>)
    requires AllRecorded(s, entries)
    ensures forall k :: 0 <= k < |FilesOf(entries)| ==> FilesOf(entries)[k].blobSha256 in s.blobs
  {
  }

  lemma RecordKeepsFilesRecorded(s: State, session: Session)
    requires FilesAreRecorded(s)
    ensures FilesAreRecorded(ExecuteRecord(s, session).state)
  {
    hide FilesAreRecorded;
    FewerFilesStayRecorded(s, ExecuteRecord(s, session).state);
  }

  lemma ExecuteKeepsFilesRecorded(p: Settings, s: State, action: Action, io: Io)
    requires FilesAreRecorded(s)
    ensures FilesAreRecorded(Execute(p, s, action, io).state)
  {
    hide ExecuteReserve, ExecuteWrite, ExecuteCheckRow, ExecuteCharge, ExecuteCommit, ExecuteRecord, Released;
    hide WithStatus, WithoutStaging, ExecuteCollectRow, ExecuteReadSizes, ExecuteFinalize, FilesAreRecorded;
    match action {
      case CollectRow(blob, _) => CollectKeepsFilesRecorded(p, s, blob);
      case Record(session) => RecordKeepsFilesRecorded(s, session);
      case Finalize(_, _, _, _, _) => FinalizeKeepsFilesRecorded(s, action);
      case _ =>
        hide Execute;
        ExecuteFrame(p, s, action, io);
        SameTablesStayRecorded(s, Execute(p, s, action, io).state);
    }
  }

  lemma SameTablesStayRecorded(s: State, t: State)
    requires FilesAreRecorded(s) && t.blobs == s.blobs && t.builds == s.builds
    ensures FilesAreRecorded(t)
  {
    FewerFilesStayRecorded(s, t);
  }

  ghost predicate FilesKeptOrGone(s: State, t: State) {
    forall b <- t.builds :: (b in s.builds && t.builds[b].files == s.builds[b].files) || t.builds[b].files == []
  }

  lemma CreatingKeepsFiles(s: State, build: BuildId)
    ensures FilesKeptOrGone(s, WithBuild(s, build))
  {
  }

  lemma FailingKeepsFiles(s: State, build: BuildId)
    ensures FilesKeptOrGone(s, WithFailedBuild(s, build))
  {
    var t := WithFailedBuild(s, build);
    assert t.builds == s.builds || t.builds == s.builds[build := s.builds[build].(status := Failed)];
    hide WithFailedBuild;
  }

  lemma RemovingKeepsFiles(s: State, build: BuildId)
    ensures FilesKeptOrGone(s, WithoutBuild(s, build))
  {
  }

  lemma OtherEventFiles(p: Settings, s: State, event: Event)
    requires !event.Step?
    ensures FilesKeptOrGone(s, Apply(p, s, event))
  {
    match event {
      case CreateBuild(build) => CreatingKeepsFiles(s, build);
      case MarkFailed(build) => FailingKeepsFiles(s, build);
      case RemoveBuild(build) => RemovingKeepsFiles(s, build);
      case _ =>
        hide Apply;
        OtherEventFrame(p, s, event);
    }
  }

  lemma OtherEventKeepsFilesRecorded(p: Settings, s: State, event: Event)
    requires FilesAreRecorded(s) && !event.Step?
    ensures FilesAreRecorded(Apply(p, s, event))
  {
    hide Apply, FilesAreRecorded;
    OtherEventFrame(p, s, event);
    OtherEventFiles(p, s, event);
    FewerFilesStayRecorded(s, Apply(p, s, event));
  }

  /** Whatever interleaves or crashes, every file of every build has its row. */
  lemma {:induction false} BuildFilesAreAlwaysRecorded(p: Settings, s: State, events: seq<Event>)
    requires FilesAreRecorded(s)
    ensures FilesAreRecorded(Run(p, s, events))
    decreases |events|
  {
    hide Apply, Execute, FilesAreRecorded;
    if events != [] {
      var event := events[0];
      if event.Step? {
        StepFrame(p, s, event);
        if Apply(p, s, event) != s {
          var head := s.requests[event.request].program[0];
          ExecuteKeepsFilesRecorded(p, s, head, event.io);
          SameTablesStayRecorded(Execute(p, s, head, event.io).state, Apply(p, s, event));
        }
      } else {
        OtherEventKeepsFilesRecorded(p, s, event);
      }
      BuildFilesAreAlwaysRecorded(p, Apply(p, s, event), events[1..]);
    }
  }

  lemma OnlyCollectRowTakesRows(p: Settings, s: State, action: Action, io: Io, h: Digest)
    requires h in s.blobs && h !in Execute(p, s, action, io).state.blobs
    ensures action.CollectRow? && action.blob.sha256 == h && Collectable(p, s, h)
  {
    hide ExecuteReserve, ExecuteWrite, ExecuteCheckRow, ExecuteCharge, ExecuteCommit, Released;
    hide WithStatus, WithoutStaging, ExecuteReadSizes, ExecuteFinalize, Collectable;
  }

  /** A row goes only when the collector may take it, whatever it once listed. */
  lemma RowsLeaveOnlyWhenCollectable(p: Settings, s: State, event: Event, h: Digest)
    requires h in s.blobs && h !in Apply(p, s, event).blobs
    ensures h in s.blobs && s.blobs[h].createdAt + p.graceSeconds < s.now && !Referenced(s, h) && !Awaited(s, h)
    ensures event.Step? && event.request in s.requests && s.requests[event.request].program != []
    ensures var head := s.requests[event.request].program[0]; head.CollectRow? && head.blob.sha256 == h
  {
    hide Apply, Execute;
    if event.Step? {
      StepFrame(p, s, event);
      OnlyCollectRowTakesRows(p, s, s.requests[event.request].program[0], event.io, h);
    } else {
      OtherEventFrame(p, s, event);
    }
  }

  // ---------------------------------------------------------------------------
  // Files behind rows
  // ---------------------------------------------------------------------------

  ghost predicate RowsAreBacked(s: State) {
    s.blobs.Keys <= s.stored.Keys
  }

  /** An upload of `h` has committed its file and not yet tried to record the row. */
  ghost predicate Recording(s: State, h: Digest) {
    exists session :: Outstanding(s, Record(session)) && session.blobSha256 == h
  }

  /** A collector has deleted the row of `h` and not yet removed the file. */
  ghost predicate Discarding(s: State, h: Digest) {
    Outstanding(s, DiscardBlob(h))
  }

  ghost predicate Backed(s: State) {
    && RowsAreBacked(s)
    && (forall h :: Recording(s, h) ==> h in s.stored)
    && (forall h :: Discarding(s, h) ==> h !in s.blobs && !Recording(s, h))
  }

  /** Committing and recording a digest excludes deleting its row and discarding its file. */
  ghost predicate Exclusive(p: Settings, s: State, event: Event) {
    event.Step? && event.request in s.requests && s.requests[event.request].program != [] ==>
      match s.requests[event.request].program[0]
      case Commit(session) => !Discarding(s, session.blobSha256)
      case CollectRow(blob, _) => !Recording(s, blob.sha256)
      case _ => true
  }

  ghost predicate ExclusiveRun(p: Settings, s: State, events: seq<Event>)
    decreases |events|
  {
    events == [] || (Exclusive(p, s, events[0]) && ExclusiveRun(p, Apply(p, s, events[0]), events[1..]))
  }

  /** Which calls lead to a record or a discard. */
  lemma LeadingTo(p: Settings, s: State, action: Action, io: Io, next: Action)
    requires next in Execute(p, s, action, io).next && (next.Record? || next.DiscardBlob?)
    ensures next.Record? ==>
              && action == Commit(next.session)
              && next.session.blobSha256 in Execute(p, s, action, io).state.stored
    ensures next.DiscardBlob? ==>
              && action.CollectRow? && action.blob.sha256 == next.sha256
              && next.sha256 !in Execute(p, s, action, io).state.blobs
  {
    hide ExecuteReserve, ExecuteWrite, ExecuteCheckRow, ExecuteCharge, ExecuteRecord, Released;
    hide WithStatus, WithoutStaging, ExecuteReadSizes, ExecuteFinalize, Collectable, IsSha256Hex;
  }

  lemma RecordingAfterStep(p: Settings, s: State, r: RequestId, io: Io, h: Digest)
    requires r in s.requests && s.requests[r].program != [] && Recording(Stepped(p, s, r, io), h)
    ensures var head := s.requests[r].program[0];
            Recording(s, h)
            || (head.Commit? && head.session.blobSha256 == h && h in Execute(p, s, head, io).state.stored)
  {
    hide Execute, Stepped, Outstanding;
    var session :| Outstanding(Stepped(p, s, r, io), Record(session)) && session.blobSha256 == h;
    OutstandingAfterStep(p, s, r, io, Record(session));
    if !Outstanding(s, Record(session)) {
      LeadingTo(p, s, s.requests[r].program[0], io, Record(session));
    }
  }

  lemma DiscardingAfterStep(p: Settings, s: State, r: RequestId, io: Io, h: Digest)
    requires r in s.requests && s.requests[r].program != [] && Discarding(Stepped(p, s, r, io), h)
    ensures var head := s.requests[r].program[0];
            Discarding(s, h)
            || (head.CollectRow? && head.blob.sha256 == h && h !in Execute(p, s, head, io).state.blobs)
  {
    hide Execute, Stepped, Outstanding;
    OutstandingAfterStep(p, s, r, io, DiscardBlob(h));
    if !Outstanding(s, DiscardBlob(h)) {
      LeadingTo(p, s, s.requests[r].program[0], io, DiscardBlob(h));
    }
  }

  /** What one call does to rows and files. */
  lemma ExecuteMovesRowsAndFiles(p: Settings, s: State, action: Action, io: Io)
    ensures var t := Execute(p, s, action, io).state;
            && (action.Record? ==> t.blobs.Keys == s.blobs.Keys + {action.session.blobSha256})
            && (!action.Record? ==> t.blobs.Keys <= s.blobs.Keys)
            && (action.DiscardBlob? ==> t.stored.Keys == s.stored.Keys - {action.sha256})
            && (!action.DiscardBlob? ==> s.stored.Keys <= t.stored.Keys)
  {
    hide ExecuteReserve, ExecuteWrite, ExecuteCheckRow, ExecuteCharge, Released;
    hide WithStatus, WithoutStaging, ExecuteReadSizes, ExecuteFinalize, Collectable, IsSha256Hex;
  }

  lemma HeadIsUnderWay(s: State, r: RequestId)
    requires r in s.requests && s.requests[r].program != []
    ensures var head := s.requests[r].program[0];
            && (head.Record? ==> Recording(s, head.session.blobSha256))
            && (head.DiscardBlob? ==> Discarding(s, head.sha256))
  {
    HeadIsOutstanding(s, r);
  }

  lemma StepKeepsBacked(p: Settings, s: State, r: RequestId, io: Io)
    requires Backed(s) && r in s.requests && s.requests[r].program != [] && Exclusive(p, s, Step(r, io))
    ensures Backed(Stepped(p, s, r, io))
  {
    hide Execute, Stepped, Outstanding, Recording, Discarding;
    var head := s.requests[r].program[0];
    var t := Stepped(p, s, r, io);
    HeadIsOutstanding(s, r);
    HeadIsUnderWay(s, r);
    ExecuteMovesRowsAndFiles(p, s, head, io);
    forall h | Recording(t, h)
      ensures h in t.stored
    {
      RecordingAfterStep(p, s, r, io, h);
    }
    forall h | Discarding(t, h)
      ensures h !in t.blobs && !Recording(t, h)
    {
      DiscardingAfterStep(p, s, r, io, h);
      if Recording(t, h) {
        RecordingAfterStep(p, s, r, io, h);
      }
    }
  }

  lemma OtherEventKeepsBacked(p: Settings, s: State, event: Event)
    requires Backed(s) && !event.Step?
    ensures Backed(Apply(p, s, event))
  {
    hide Apply, Outstanding;
    OtherEventFrame(p, s, event);
    var t := Apply(p, s, event);
    forall action | Outstanding(t, action) && (action.Record? || action.DiscardBlob?)
      ensures Outstanding(s, action)
    {
      if !Outstanding(s, action) {
        OutstandingAfterOther(p, s, event, action);
      }
    }
    assert forall h :: Recording(t, h) ==> Recording(s, h);
  }

  /** Crashes between any two calls included. */
  lemma {:induction false} EveryRowKeepsItsFile(p: Settings, s: State, events: seq<Event>)
    requires Backed(s) && ExclusiveRun(p, s, events)
    ensures Backed(Run(p, s, events))
    decreases |events|
  {
    hide Apply, Execute, Backed, Exclusive, Stepped;
    if events != [] {
      var event := events[0];
      if event.Step? {
        StepFrame(p, s, event);
        if event.request in s.requests && s.requests[event.request].program != [] {
          StepKeepsBacked(p, s, event.request, event.io);
        }
      } else {
        OtherEventKeepsBacked(p, s, event);
      }
      EveryRowKeepsItsFile(p, Apply(p, s, event), events[1..]);
    }
  }

  /** The whole chain from a build's manifest to bytes on disk. */
  lemma EveryBuildFileIsOnDisk(p: Settings, s: State, events: seq<Event>, build: BuildId, k: nat)
    requires Initial(s) && ExclusiveRun(p, s, events)
    requires var t := Run(p, s, events); build in t.builds && k < |t.builds[build].files|
    ensures var t := Run(p, s, events);
            var h := t.builds[build].files[k].blobSha256;
            h in t.blobs && h in t.stored && p.sha256(t.stored[h]) == h
  {
    BuildFilesAreAlwaysRecorded(p, s, events);
    EveryRowKeepsItsFile(p, s, events);
    ContentStaysAddressedByItsHash(p, s, events);
    ReferencedIn(Run(p, s, events), build, k);
  }

  // ---------------------------------------------------------------------------
  // Where the exclusion is needed
  // ---------------------------------------------------------------------------

  /** Removing a file leaves every row backed exactly when no upload has recorded the digest again. */
  lemma DiscardKeepsRowsBackedIffNoRow(p: Settings, s: State, h: Digest, io: Io)
    requires RowsAreBacked(s)
    ensures RowsAreBacked(Execute(p, s, DiscardBlob(h), io).state) <==> h !in s.blobs
  {
  }

  /** Recording a row leaves every row backed exactly when no collector has removed the file meanwhile. */
  lemma RecordKeepsRowsBackedIffFileStored(p: Settings, s: State, session: Session, io: Io)
    requires RowsAreBacked(s)
    ensures RowsAreBacked(Execute(p, s, Record(session), io).state) <==> session.blobSha256 in s.stored
  {
  }

  // ---------------------------------------------------------------------------
  // Exactly when every row keeps its file
  // ---------------------------------------------------------------------------

  /** No file is removed that has a row again, and no row is recorded whose file has gone. */
  ghost predicate RespectsRows(s: State, event: Event) {
    event.Step? && event.request in s.requests && s.requests[event.request].program != [] ==>
      match s.requests[event.request].program[0]
      case DiscardBlob(h) => h !in s.blobs
      case Record(session) => session.blobSha256 in s.stored
      case _ => true
  }

  ghost predicate RowsAlwaysRespected(p: Settings, s: State, events: seq<Event>)
    decreases |events|
  {
    events == [] || (RespectsRows(s, events[0]) && RowsAlwaysRespected(p, Apply(p, s, events[0]), events[1..]))
  }

  ghost predicate RowsAlwaysBacked(p: Settings, s: State, events: seq<Event>)
    decreases |events|
  {
    RowsAreBacked(s) && (events == [] || RowsAlwaysBacked(p, Apply(p, s, events[0]), events[1..]))
  }

  lemma EventKeepsRowsBackedIffRespected(p: Settings, s: State, event: Event)
    requires RowsAreBacked(s)
    ensures RowsAreBacked(Apply(p, s, event)) <==> RespectsRows(s, event)
  {
    hide Apply, Execute;
    if !event.Step? {
      OtherEventFrame(p, s, event);
    } else {
      StepFrame(p, s, event);
      if event.request in s.requests && s.requests[event.request].program != [] {
        var head := s.requests[event.request].program[0];
        var t := Execute(p, s, head, event.io).state;
        ExecuteMovesRowsAndFiles(p, s, head, event.io);
        assert RowsAreBacked(Apply(p, s, event)) <==> RowsAreBacked(t);
        match head
        case DiscardBlob(h) => DiscardKeepsRowsBackedIffNoRow(p, s, h, event.io);
        case Record(session) => RecordKeepsRowsBackedIffFileStored(p, s, session, event.io);
        case _ =>
      }
    }
  }

  /** Rows keep their files throughout a run exactly when collectors and uploads respect each other. */
  lemma {:induction false} RowsBackedThroughoutIffRespected(p: Settings, s: State, events: seq<Event>)
    requires RowsAreBacked(s)
    ensures RowsAlwaysBacked(p, s, events) <==> RowsAlwaysRespected(p, s, events)
    decreases |events|
  {
    hide Apply, RowsAreBacked, RespectsRows;
    if events != [] {
      EventKeepsRowsBackedIffRespected(p, s, events[0]);
      if RowsAreBacked(Apply(p, s, events[0])) {
        RowsBackedThroughoutIffRespected(p, Apply(p, s, events[0]), events[1..]);
      } else {
        assert !RowsAlwaysBacked(p, Apply(p, s, events[0]), events[1..]);
      }
    }
  }
}
