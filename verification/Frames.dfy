/** What single calls and events leave alone, and which calls can still be outstanding after them. */
module Frames {
  import opened Text
  import opened StagingFile
  import opened Protocol

  // ---------------------------------------------------------------------------
  // Who changes what
  // ---------------------------------------------------------------------------

  lemma ExecuteFrame(p: Settings, s: State, action: Action, io: Io)
    ensures var t := Execute(p, s, action, io).state;
            && t.now == s.now && t.requests == s.requests && t.leaked == s.leaked
            && t.accounts.Keys == s.accounts.Keys
            && (!action.Charge? && !action.Release? ==> t.accounts == s.accounts)
            && (!action.Record? && !action.CollectRow? ==> t.blobs == s.blobs)
            && (!action.Finalize? ==> t.builds == s.builds)
            && (!action.Commit? && !action.DiscardBlob? ==> t.stored == s.stored)
            && (!action.Reserve? ==> t.accepted == s.accepted)
            && (!action.Write? && !action.Commit? && !action.DiscardStaging? ==> t.staging == s.staging)
            && (!action.Reserve? && !action.MarkCompleted? && !action.MarkAborted? && !action.DeleteSession?
                ==> t.sessions == s.sessions)
    ensures action.Finalize? || action.Release? || action.MarkCompleted? || action.MarkAborted?
            || action.DiscardStaging? || action.DeleteSession? || action.DiscardBlob?
            ==> Execute(p, s, action, io).next == []
  {
    hide ExecuteReserve, ExecuteWrite, ExecuteCheckRow, ExecuteCharge, ExecuteCommit, ExecuteRecord, Released;
    hide WithStatus, WithoutStaging, ExecuteCollectRow, ExecuteReadSizes, ExecuteFinalize;
  }

  /** Which function each call is. */
  lemma UploadCallsExecuted(p: Settings, s: State, action: Action, io: Io)
    ensures match action
            case Reserve(id, offset, data) => Execute(p, s, action, io) == ExecuteReserve(s, id, offset, data)
            case Write(session, at, bytes) => Execute(p, s, action, io) == ExecuteWrite(s, session, at, bytes, io)
            case CheckRow(session) => Execute(p, s, action, io) == ExecuteCheckRow(s, session)
            case Charge(session) => Execute(p, s, action, io) == ExecuteCharge(s, session)
            case Commit(session) => Execute(p, s, action, io) == ExecuteCommit(p, s, session, io)
            case Record(session) => Execute(p, s, action, io) == ExecuteRecord(s, session)
            case Release(user, bytes) => Execute(p, s, action, io) == Outcome(Released(s, user, bytes), [])
            case _ => true
  {
    hide ExecuteReserve, ExecuteWrite, ExecuteCheckRow, ExecuteCharge, ExecuteCommit, ExecuteRecord, Released;
    hide WithStatus, WithoutStaging, ExecuteCollectRow, ExecuteReadSizes, ExecuteFinalize;
  }

  lemma CleanupCallsExecuted(p: Settings, s: State, action: Action, io: Io)
    ensures match action
            case MarkCompleted(id) => Execute(p, s, action, io) == Outcome(WithStatus(s, id, Completed), [])
            case MarkAborted(id) => Execute(p, s, action, io) == Outcome(WithStatus(s, id, Aborted), [])
            case DiscardStaging(id) => Execute(p, s, action, io) == Outcome(WithoutStaging(s, id), [])
            case DeleteSession(id) => Execute(p, s, action, io) == Outcome(s.(sessions := s.sessions - {id}), [])
            case DiscardBlob(h) => Execute(p, s, action, io) == Outcome(s.(stored := s.stored - {h}), [])
            case CollectRow(blob, _) => Execute(p, s, action, io) == ExecuteCollectRow(p, s, blob)
            case _ => true
  {
    hide ExecuteReserve, ExecuteWrite, ExecuteCheckRow, ExecuteCharge, ExecuteCommit, ExecuteRecord, Released;
    hide WithStatus, WithoutStaging, ExecuteCollectRow, ExecuteReadSizes, ExecuteFinalize;
  }

  lemma FinalizeCallsExecuted(p: Settings, s: State, action: Action, io: Io)
    ensures match action
            case ReadSizes(build, entries, entrypoint, launchArgs) =>
              Execute(p, s, action, io) == ExecuteReadSizes(p, s, build, entries, entrypoint, launchArgs)
            case Finalize(build, entries, entrypoint, launchArgs, manifestSha256) =>
              Execute(p, s, action, io) == ExecuteFinalize(s, build, entries, entrypoint, launchArgs, manifestSha256)
            case _ => true
  {
    hide ExecuteReserve, ExecuteWrite, ExecuteCheckRow, ExecuteCharge, ExecuteCommit, ExecuteRecord, Released;
    hide WithStatus, WithoutStaging, ExecuteCollectRow, ExecuteReadSizes, ExecuteFinalize;
  }

  ghost predicate OnlyStatusesChange(before: map<SessionId, Session>, after: map<SessionId, Session>) {
    forall id <- after :: id in before && after[id] == before[id].(status := after[id].status)
  }

  lemma MarkingChangesOneStatus(s: State, id: SessionId, status: SessionStatus)
    ensures OnlyStatusesChange(s.sessions, WithStatus(s, id, status).sessions)
  {
    var after := WithStatus(s, id, status).sessions;
    assert after == s.sessions || (id in s.sessions && after == s.sessions[id := s.sessions[id].(status := status)]);
    hide WithStatus;
  }

  /** Apart from reserving, a call only changes the status of a session, or deletes it. */
  lemma SessionsOnlyChangeStatus(p: Settings, s: State, action: Action, io: Io)
    requires !action.Reserve?
    ensures OnlyStatusesChange(s.sessions, Execute(p, s, action, io).state.sessions)
  {
    hide Execute, WithStatus;
    match action
    case MarkCompleted(id) =>
      CleanupCallsExecuted(p, s, action, io);
      MarkingChangesOneStatus(s, id, Completed);
    case MarkAborted(id) =>
      CleanupCallsExecuted(p, s, action, io);
      MarkingChangesOneStatus(s, id, Aborted);
    case DeleteSession(id) => CleanupCallsExecuted(p, s, action, io);
    case _ => ExecuteFrame(p, s, action, io);
  }

  lemma OtherEventRequests(p: Settings, s: State, event: Event)
    requires !event.Step?
    ensures var t := Apply(p, s, event);
            && (!StartsRequest(event) && !event.Crash? ==> t.requests == s.requests)
            && (StartsRequest(event) ==>
                 t.requests == s.requests
                 || (event.request !in s.requests && event.request in t.requests
                     && t.requests == s.requests[event.request := t.requests[event.request]]))
            && (event.Crash? ==> t.requests == s.requests - {event.request})
            && (event.Crash? && event.request !in s.requests ==> t == s)
  {
    hide Started, ProgramOf, BegunUpload, WithBuild, WithFailedBuild, WithoutBuild, WithQuota;
    hide Crashed, Stepped, Execute;
  }

  lemma OtherEventAccounts(p: Settings, s: State, event: Event)
    requires !event.Step?
    ensures var t := Apply(p, s, event);
            && (!event.SetQuota? ==> t.accounts == s.accounts)
            && t.accounts.Keys == s.accounts.Keys
            && (forall user <- s.accounts :: t.accounts[user].usedBytes == s.accounts[user].usedBytes)
  {
    hide Started, ProgramOf, BegunUpload, WithBuild, WithFailedBuild, WithoutBuild, WithQuota;
    hide Crashed, Stepped, Execute;
  }

  lemma OtherEventStorage(p: Settings, s: State, event: Event)
    requires !event.Step?
    ensures var t := Apply(p, s, event);
            && t.now >= s.now && (!event.Tick? ==> t.now == s.now)
            && t.blobs == s.blobs && t.stored == s.stored && t.staging == s.staging
  {
    hide Started, ProgramOf, BegunUpload, WithBuild, WithFailedBuild, WithoutBuild, WithQuota;
    hide Crashed, Stepped, Execute, StartsRequest;
  }

  lemma OtherEventTables(p: Settings, s: State, event: Event)
    requires !event.Step?
    ensures var t := Apply(p, s, event);
            && (!event.BeginUpload? ==> t.accepted == s.accepted)
            && (!event.BeginUpload? && !event.RemoveBuild? ==> t.sessions == s.sessions)
            && (!event.CreateBuild? && !event.MarkFailed? && !event.RemoveBuild? ==> t.builds == s.builds)
            && (!event.Crash? ==> t.leaked == s.leaked)
  {
    hide Started, ProgramOf, BegunUpload, WithBuild, WithFailedBuild, WithoutBuild, WithQuota;
    hide Crashed, Stepped, Execute, StartsRequest;
  }

  /** Events other than steps: what they leave alone, and the shape of what they change. */
  lemma OtherEventFrame(p: Settings, s: State, event: Event)
    requires !event.Step?
    ensures var t := Apply(p, s, event);
            && t.now >= s.now && (!event.Tick? ==> t.now == s.now)
            && t.blobs == s.blobs && t.stored == s.stored && t.staging == s.staging
            && (!event.BeginUpload? ==> t.accepted == s.accepted)
            && (!event.BeginUpload? && !event.RemoveBuild? ==> t.sessions == s.sessions)
            && (!event.CreateBuild? && !event.MarkFailed? && !event.RemoveBuild? ==> t.builds == s.builds)
            && (!event.Crash? ==> t.leaked == s.leaked)
            && (!event.SetQuota? ==> t.accounts == s.accounts)
            && t.accounts.Keys == s.accounts.Keys
            && (forall user <- s.accounts :: t.accounts[user].usedBytes == s.accounts[user].usedBytes)
            && (!StartsRequest(event) && !event.Crash? ==> t.requests == s.requests)
            && (StartsRequest(event) ==>
                 t.requests == s.requests
                 || (event.request !in s.requests && event.request in t.requests
                     && t.requests == s.requests[event.request := t.requests[event.request]]))
            && (event.Crash? ==> t.requests == s.requests - {event.request})
            && (event.Crash? && event.request !in s.requests ==> t == s)
  {
    hide Apply;
    OtherEventRequests(p, s, event);
    OtherEventAccounts(p, s, event);
    OtherEventStorage(p, s, event);
    OtherEventTables(p, s, event);
  }

  lemma StepFrame(p: Settings, s: State, event: Event)
    requires event.Step?
    ensures Apply(p, s, event)
         == if event.request in s.requests && s.requests[event.request].program != []
            then Stepped(p, s, event.request, event.io) else s
  {
    hide Stepped;
  }

  // ---------------------------------------------------------------------------
  // What is still to be executed
  // ---------------------------------------------------------------------------

  /** `action` is somewhere in the program of some request. */
  ghost predicate Outstanding(s: State, action: Action) {
    exists r <- s.requests :: action in s.requests[r].program
  }

  lemma HeadIsOutstanding(s: State, r: RequestId)
    requires r in s.requests && s.requests[r].program != []
    ensures Outstanding(s, s.requests[r].program[0])
  {
    assert s.requests[r].program[0] in s.requests[r].program;
  }

  lemma OutstandingAfterStep(p: Settings, s: State, r: RequestId, io: Io, action: Action)
    requires r in s.requests && s.requests[r].program != []
    requires Outstanding(Stepped(p, s, r, io), action)
    ensures Outstanding(s, action) || action in Execute(p, s, s.requests[r].program[0], io).next
  {
    hide Execute;
    var next := Stepped(p, s, r, io);
    var q :| q in next.requests && action in next.requests[q].program;
    if q == r {
      if action in s.requests[r].program[1..] {
        assert action in s.requests[r].program;
      }
    } else {
      assert action in s.requests[q].program;
    }
  }

  lemma {:induction false} SweepOnlyDiscardsAndDeletes(expired: seq<SessionId>, action: Action)
    requires action in SweepProgram(expired)
    ensures action.DiscardStaging? || action.DeleteSession?
  {
    if expired != [] && action !in [DiscardStaging(expired[0]), DeleteSession(expired[0])] {
      SweepOnlyDiscardsAndDeletes(expired[1..], action);
    }
  }

  lemma {:induction false} CollectionOnlyCollects(s: State, listed: seq<Digest>, action: Action)
    requires forall k :: 0 <= k < |listed| ==> listed[k] in s.blobs
    requires action in CollectionProgram(s, listed)
    ensures action.CollectRow? && action.listedAt == s.now && action.blob.sha256 in s.blobs
    ensures s.blobs[action.blob.sha256].sizeBytes == action.blob.sizeBytes
    ensures s.blobs[action.blob.sha256].uploadedBy == action.blob.uploadedBy
  {
    if listed != [] {
      var row := s.blobs[listed[0]];
      if action != CollectRow(CollectableBlob(listed[0], row.sizeBytes, row.uploadedBy), s.now) {
        CollectionOnlyCollects(s, listed[1..], action);
      }
    }
  }

  /** The calls an event other than a step can put in front of a new request. */
  lemma OutstandingAfterOther(p: Settings, s: State, event: Event, action: Action)
    requires !event.Step?
    requires Outstanding(Apply(p, s, event), action) && !Outstanding(s, action)
    ensures || (event.StartChunk? && action == Reserve(event.sessionId, event.offset, event.data))
            || (event.StartAbort? && action in AbortProgram(event.sessionId))
            || (event.StartSweep? && (action.DiscardStaging? || action.DeleteSession?))
            || (event.StartFinalize?
                && action == ReadSizes(event.buildId, event.entries, Trim(event.entrypoint), event.launchArgs)
                && MayFinalize(s, event.buildId, event.entries, event.entrypoint, event.launchArgs))
            || (event.StartCollection? && action.CollectRow? && action.listedAt == s.now
                && action.blob.sha256 in s.blobs
                && s.blobs[action.blob.sha256].sizeBytes == action.blob.sizeBytes
                && s.blobs[action.blob.sha256].uploadedBy == action.blob.uploadedBy)
  {
    hide BegunUpload, WithoutBuild, Crashed, ChunkIsPlausible, IsExpired, MayFinalize, SweepProgram;
    hide CollectionProgram, Trim, Referenced, Awaited, Stepped, Execute;
    var next := Apply(p, s, event);
    var q :| q in next.requests && action in next.requests[q].program;
    if q !in s.requests {
      match event
      case StartSweep(r, expired) => SweepOnlyDiscardsAndDeletes(expired, action);
      case StartCollection(r, listed) => CollectionOnlyCollects(s, listed, action);
      case _ =>
    }
  }
}
