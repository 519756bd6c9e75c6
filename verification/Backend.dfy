/**
 The repositories and the blob store the upload and retention services call, one method per
 statement. Each is tied to the call of `Protocol` it is, as a step of the request that makes it.
 */
module Backends {
  import opened Common
  import opened Manifest
  import opened StagingFile
  import opened BlobStores
  import opened Protocol
  import opened Frames
  import opened Uninterrupted

  /** The requests once `r` has made its call and `next` is what follows from the outcome. */
  ghost function Moved(requests: map<RequestId, Request>, r: RequestId, next: seq<Action>): map<RequestId, Request>
    requires r in requests && requests[r].program != []
  {
    requests[r := requests[r].(program := next + requests[r].program[1..])]
  }

  ghost predicate Calls(requests: map<RequestId, Request>, r: RequestId, action: Action) {
    r in requests && requests[r].program != [] && requests[r].program[0] == action
  }

  /** A call with this outcome is this step. */
  lemma OutcomeIsStep(p: Settings, s: State, r: RequestId, io: Io, o: Outcome)
    requires r in s.requests && s.requests[r].program != [] && Execute(p, s, s.requests[r].program[0], io) == o
    ensures Stepped(p, s, r, io) == o.state.(requests := Moved(s.requests, r, o.next))
  {
    hide Execute;
  }

  lemma OneMoreEvent(p: Settings, origin: State, trace: seq<Event>, s: State, event: Event)
    requires Run(p, origin, trace) == s
    ensures Run(p, origin, trace + [event]) == Apply(p, s, event)
  {
    hide Apply;
    RunsCompose(p, origin, trace, [event]);
    assert Run(p, s, [event]) == Run(p, Apply(p, s, event), [event][1..]);
  }

  lemma OneMoreAlone(p: Settings, origin: State, trace: seq<Event>, s: State, event: Event)
    requires Run(p, origin, trace) == s
    ensures OneAtATime(p, origin, trace) && Alone(s, event) ==> OneAtATime(p, origin, trace + [event])
  {
    hide Run, OneAtATime, Alone;
    if OneAtATime(p, origin, trace) && Alone(s, event) {
      OneAtATimeGrows(p, origin, trace, event);
    }
  }

  lemma StartIsApplied(p: Settings, s: State, event: Event)
    requires StartsRequest(event) && event.request !in s.requests && ProgramOf(p, s, event).Some?
    ensures Apply(p, s, event) == s.(requests := s.requests[event.request := ProgramOf(p, s, event).value])
  {
    hide ProgramOf;
  }

  lemma RemovalIsApplied(p: Settings, s: State, build: BuildId)
    ensures Apply(p, s, RemoveBuild(build))
         == s.(builds := s.builds - {build}, sessions := SessionsElsewhere(s.sessions, build))
    ensures OwnIds(s.sessions) ==> OwnIds(SessionsElsewhere(s.sessions, build))
  {
  }

  /** A fresh id, a build still open, a well-formed digest nobody is uploading for it. */
  ghost predicate MayOpen(p: Settings, s: State, id: SessionId, build: BuildId, user: UserId, sha256: Digest, size: nat) {
    && id !in s.accepted && id !in s.sessions && id !in s.staging
    && build in s.builds && s.builds[build].status == Uploading && user in s.accounts
    && IsSha256Hex(sha256) && size <= p.maxBlobBytes && !HasOpenSession(s, build, sha256)
  }

  lemma OpeningIsApplied(p: Settings, s: State, id: SessionId, build: BuildId, user: UserId, sha256: Digest,
                         size: nat, ttl: nat)
    requires MayOpen(p, s, id, build, user, sha256, size)
    ensures Apply(p, s, BeginUpload(id, build, user, sha256, size, ttl))
         == s.(sessions := s.sessions[id := Session(id, build, user, sha256, size, 0, Pending, s.now + ttl)],
               accepted := s.accepted[id := []])
    ensures OwnIds(s.sessions) ==>
              OwnIds(s.sessions[id := Session(id, build, user, sha256, size, 0, Pending, s.now + ttl)])
  {
    hide IsSha256Hex, HasOpenSession;
  }

  lemma OneMoreStep(p: Settings, origin: State, trace: seq<Event>, s: State, r: RequestId, io: Io)
    requires Run(p, origin, trace) == s && r in s.requests && s.requests[r].program != []
    ensures Run(p, origin, trace + [Step(r, io)]) == Stepped(p, s, r, io)
  {
    hide Apply, Stepped;
    OneMoreEvent(p, origin, trace, s, Step(r, io));
    StepFrame(p, s, Step(r, io));
  }

  lemma MovedProgram(requests: map<RequestId, Request>, r: RequestId, next: seq<Action>)
    requires r in requests && requests[r].program != []
    ensures r in Moved(requests, r, next)
    ensures Moved(requests, r, next)[r].program == next + requests[r].program[1..]
  {
  }

  // ---------------------------------------------------------------------------
  // What the statements change
  // ---------------------------------------------------------------------------

  /** The session as `reserveBytes` returns it, if it hands out the range. */
  function Reservation(sessions: map<SessionId, Session>, now: int, id: SessionId, offset: int, data: Content): Option<Session> {
    if && id in sessions
       && sessions[id].status == Pending && sessions[id].expiresAt > now && sessions[id].receivedBytes == offset
       && sessions[id].receivedBytes + |data| <= sessions[id].declaredSizeBytes
    then Some(sessions[id].(receivedBytes := sessions[id].receivedBytes + |data|))
    else None
  }

  /** What `countOpenForUser` counts. */
  function OpenSessions(sessions: map<SessionId, Session>, now: int, user: UserId): set<SessionId> {
    set id | id in sessions && sessions[id].userId == user && sessions[id].status == Pending && sessions[id].expiresAt > now
  }

  function WithReservation(sessions: map<SessionId, Session>, id: SessionId, reserved: Option<Session>): map<SessionId, Session> {
    if reserved.Some? then sessions[id := reserved.value] else sessions
  }

  function WithChunk(accepted: map<SessionId, seq<Chunk>>, id: SessionId, chunk: Chunk, reserved: Option<Session>)
    : map<SessionId, seq<Chunk>>
  {
    if reserved.Some? then accepted[id := (if id in accepted then accepted[id] else []) + [chunk]] else accepted
  }

  /** The id in a row is its key. */
  ghost predicate OwnIds(sessions: map<SessionId, Session>) {
    forall id <- sessions :: sessions[id].id == id
  }

  /** The sessions a removed build leaves. */
  function SessionsElsewhere(sessions: map<SessionId, Session>, build: BuildId): map<SessionId, Session> {
    map id | id in sessions && sessions[id].buildId != build :: sessions[id]
  }

  /** A pending session changes its status; any other keeps it. */
  function StatusSet(sessions: map<SessionId, Session>, id: SessionId, status: SessionStatus): map<SessionId, Session> {
    if id in sessions && sessions[id].status == Pending then sessions[id := sessions[id].(status := status)] else sessions
  }

  predicate MayCharge(accounts: map<UserId, Account>, user: UserId, bytes: nat) {
    user in accounts && accounts[user].usedBytes + bytes <= accounts[user].quotaBytes
  }

  function UsageAdded(accounts: map<UserId, Account>, user: UserId, bytes: nat): map<UserId, Account> {
    if MayCharge(accounts, user, bytes)
    then accounts[user := accounts[user].(usedBytes := accounts[user].usedBytes + bytes)]
    else accounts
  }

  function UsageSubtracted(accounts: map<UserId, Account>, user: UserId, bytes: nat): map<UserId, Account> {
    if user !in accounts then accounts
    else
      var used := accounts[user].usedBytes - bytes;
      accounts[user := accounts[user].(usedBytes := if used < 0 then 0 else used)]
  }

  function RowInserted(blobs: map<Digest, BlobRow>, sha256: Digest, row: BlobRow): map<Digest, BlobRow> {
    if sha256 in blobs then blobs else blobs[sha256 := row]
  }

  function RowDeleted(blobs: map<Digest, BlobRow>, sha256: Digest, deleted: bool): map<Digest, BlobRow> {
    if deleted then blobs - {sha256} else blobs
  }

  // ---------------------------------------------------------------------------
  // What follows
  // ---------------------------------------------------------------------------

  function AfterReserve(reserved: Option<Session>, offset: int, data: Content): seq<Action> {
    if reserved.Some? then [Write(reserved.value, offset, data)] else []
  }

  function AfterWrite(session: Session, ok: bool): seq<Action> {
    if !ok then AbortProgram(session.id) else if session.Complete() then [CheckRow(session)] else []
  }

  function AfterCheck(session: Session, held: bool): seq<Action> {
    if held then [DiscardStaging(session.id), MarkCompleted(session.id)] else [Charge(session)]
  }

  function AfterCharge(session: Session, charged: bool): seq<Action> {
    if charged then [Commit(session)] else [DiscardStaging(session.id), MarkAborted(session.id)]
  }

  function AfterCommit(session: Session, ok: bool): seq<Action> {
    if ok then [Record(session)] else [Release(session.userId, session.declaredSizeBytes), MarkAborted(session.id)]
  }

  function AfterRecord(session: Session, stored: bool): seq<Action> {
    if stored then [MarkCompleted(session.id)]
    else [Release(session.userId, session.declaredSizeBytes), MarkCompleted(session.id)]
  }

  function AfterCollect(blob: CollectableBlob, deleted: bool): seq<Action> {
    if !deleted then []
    else if blob.uploadedBy == "" then [DiscardBlob(blob.sha256)]
    else [DiscardBlob(blob.sha256), Release(blob.uploadedBy, blob.sizeBytes)]
  }

  // ---------------------------------------------------------------------------
  // Steps, by what they change
  // ---------------------------------------------------------------------------

  lemma ReserveStep(p: Settings, s: State, r: RequestId, id: SessionId, offset: int, data: Content)
    requires Calls(s.requests, r, Reserve(id, offset, data))
    ensures var reserved := Reservation(s.sessions, s.now, id, offset, data);
            Stepped(p, s, r, Works)
            == s.(sessions := WithReservation(s.sessions, id, reserved),
                  accepted := WithChunk(s.accepted, id, Chunk(offset, data), reserved),
                  requests := Moved(s.requests, r, AfterReserve(reserved, offset, data)))
  {
    hide Execute, Stepped;
    UploadCallsExecuted(p, s, Reserve(id, offset, data), Works);
    OutcomeIsStep(p, s, r, Works, ExecuteReserve(s, id, offset, data));
  }

  lemma WriteStep(p: Settings, s: State, r: RequestId, session: Session, offset: int, data: Content, io: Io)
    requires Calls(s.requests, r, Write(session, offset, data)) && offset >= 0
    ensures Stepped(p, s, r, io)
         == s.(staging := StagingAfterWrite(s.staging, session.id, offset, data, io),
               requests := Moved(s.requests, r, AfterWrite(session, WriteSucceeds(s.staging, session.id, offset, data, io))))
  {
    hide Execute, Stepped, Moved, ExecuteWrite, AfterWrite, StagingAfterWrite, WriteSucceeds;
    UploadCallsExecuted(p, s, Write(session, offset, data), io);
    WriteOutcome(s, session, offset, data, io);
    OutcomeIsStep(p, s, r, io, ExecuteWrite(s, session, offset, data, io));
  }

  lemma WriteOutcome(s: State, session: Session, offset: int, data: Content, io: Io)
    requires offset >= 0
    ensures ExecuteWrite(s, session, offset, data, io)
         == Outcome(s.(staging := StagingAfterWrite(s.staging, session.id, offset, data, io)),
                    AfterWrite(session, WriteSucceeds(s.staging, session.id, offset, data, io)))
  {
    hide StagingFile.WriteAt, AbortProgram;
  }

  lemma CheckRowStep(p: Settings, s: State, r: RequestId, session: Session)
    requires Calls(s.requests, r, CheckRow(session))
    ensures Stepped(p, s, r, Works)
         == s.(requests := Moved(s.requests, r, AfterCheck(session, session.blobSha256 in s.blobs)))
  {
    hide Execute, Stepped;
    UploadCallsExecuted(p, s, CheckRow(session), Works);
    OutcomeIsStep(p, s, r, Works, ExecuteCheckRow(s, session));
  }

  lemma ChargeStep(p: Settings, s: State, r: RequestId, session: Session)
    requires Calls(s.requests, r, Charge(session))
    ensures var user, bytes := session.userId, session.declaredSizeBytes;
            Stepped(p, s, r, Works)
            == s.(accounts := UsageAdded(s.accounts, user, bytes),
                  requests := Moved(s.requests, r, AfterCharge(session, MayCharge(s.accounts, user, bytes))))
  {
    hide Execute, Stepped;
    UploadCallsExecuted(p, s, Charge(session), Works);
    OutcomeIsStep(p, s, r, Works, ExecuteCharge(s, session));
  }

  lemma CommitStep(p: Settings, s: State, r: RequestId, session: Session, io: Io)
    requires Calls(s.requests, r, Commit(session))
    ensures var id, h := session.id, session.blobSha256;
            var ok := CommitSucceeds(s.staging, id, h, io, p.sha256);
            Stepped(p, s, r, io)
            == s.(staging := StagingAfterCommit(s.staging, id, h),
                  stored := StoredAfterCommit(s.stored, s.staging, id, h, ok),
                  requests := Moved(s.requests, r, AfterCommit(session, ok)))
  {
    hide Execute, Stepped, IsSha256Hex;
    UploadCallsExecuted(p, s, Commit(session), io);
    OutcomeIsStep(p, s, r, io, ExecuteCommit(p, s, session, io));
  }

  lemma RecordStep(p: Settings, s: State, r: RequestId, session: Session)
    requires Calls(s.requests, r, Record(session))
    ensures var row := BlobRow(session.declaredSizeBytes, session.userId, s.now);
            Stepped(p, s, r, Works)
            == s.(blobs := RowInserted(s.blobs, session.blobSha256, row),
                  requests := Moved(s.requests, r, AfterRecord(session, session.blobSha256 !in s.blobs)))
  {
    hide Execute, Stepped;
    UploadCallsExecuted(p, s, Record(session), Works);
    OutcomeIsStep(p, s, r, Works, ExecuteRecord(s, session));
  }

  lemma ReleaseStep(p: Settings, s: State, r: RequestId, user: UserId, bytes: nat)
    requires Calls(s.requests, r, Release(user, bytes))
    ensures Stepped(p, s, r, Works)
         == s.(accounts := UsageSubtracted(s.accounts, user, bytes), requests := Moved(s.requests, r, []))
  {
    hide Execute, Stepped;
    UploadCallsExecuted(p, s, Release(user, bytes), Works);
    OutcomeIsStep(p, s, r, Works, Outcome(Released(s, user, bytes), []));
  }

  lemma MarkStep(p: Settings, s: State, r: RequestId, id: SessionId, status: SessionStatus)
    requires (Calls(s.requests, r, MarkCompleted(id)) && status == Completed)
          || (Calls(s.requests, r, MarkAborted(id)) && status == Aborted)
    ensures Stepped(p, s, r, Works)
         == s.(sessions := StatusSet(s.sessions, id, status), requests := Moved(s.requests, r, []))
  {
    hide Execute, Stepped;
    CleanupCallsExecuted(p, s, s.requests[r].program[0], Works);
    OutcomeIsStep(p, s, r, Works, Outcome(WithStatus(s, id, status), []));
  }

  lemma RemovalStep(p: Settings, s: State, r: RequestId, action: Action)
    requires Calls(s.requests, r, action)
    ensures action.DiscardStaging? ==>
              Stepped(p, s, r, Works) == s.(staging := s.staging - {action.sessionId}, requests := Moved(s.requests, r, []))
    ensures action.DeleteSession? ==>
              Stepped(p, s, r, Works) == s.(sessions := s.sessions - {action.sessionId}, requests := Moved(s.requests, r, []))
    ensures action.DiscardBlob? ==>
              Stepped(p, s, r, Works) == s.(stored := s.stored - {action.sha256}, requests := Moved(s.requests, r, []))
  {
    hide Execute, Stepped;
    CleanupCallsExecuted(p, s, action, Works);
    OutcomeIsStep(p, s, r, Works, Execute(p, s, action, Works));
  }

  lemma CollectStep(p: Settings, s: State, r: RequestId, blob: CollectableBlob, listedAt: int)
    requires Calls(s.requests, r, CollectRow(blob, listedAt))
    ensures var deleted := Collectable(p, s, blob.sha256);
            Stepped(p, s, r, Works)
            == s.(blobs := RowDeleted(s.blobs, blob.sha256, deleted),
                  requests := Moved(s.requests, r, AfterCollect(blob, deleted)))
  {
    hide Execute, Stepped, Referenced, Awaited;
    CleanupCallsExecuted(p, s, CollectRow(blob, listedAt), Works);
    OutcomeIsStep(p, s, r, Works, ExecuteCollectRow(p, s, blob));
  }

  ghost function AfterSizes(p: Settings, s: State, build: BuildId, entries: seq<ManifestEntry>, entrypoint: string,
                            launchArgs: string): seq<Action>
  {
    if !AllRecorded(s, entries) then []
    else
      var sized := WithStoredSizes(s, entries);
      [Finalize(build, sized, entrypoint, launchArgs, p.sha256(CanonicalText(sized, entrypoint, launchArgs)))]
  }

  lemma SizesStep(p: Settings, s: State, r: RequestId, build: BuildId, entries: seq<ManifestEntry>, entrypoint: string,
                  launchArgs: string)
    requires Calls(s.requests, r, ReadSizes(build, entries, entrypoint, launchArgs))
    ensures Stepped(p, s, r, Works)
         == s.(requests := Moved(s.requests, r, AfterSizes(p, s, build, entries, entrypoint, launchArgs)))
  {
    hide Execute, Stepped, CanonicalText;
    FinalizeCallsExecuted(p, s, ReadSizes(build, entries, entrypoint, launchArgs), Works);
    OutcomeIsStep(p, s, r, Works, ExecuteReadSizes(p, s, build, entries, entrypoint, launchArgs));
  }

  predicate MayBecomeReady(builds: map<BuildId, BuildRow>, blobs: map<Digest, BlobRow>, build: BuildId, files: seq<BuildFile>) {
    build in builds && builds[build].status == Uploading
    && forall k :: 0 <= k < |files| ==> files[k].blobSha256 in blobs
  }

  lemma FinalizeStep(p: Settings, s: State, r: RequestId, entries: seq<ManifestEntry>, action: Action)
    requires action.Finalize? && action.entries == entries && Calls(s.requests, r, action)
    ensures var row := BuildRow(Ready, FilesOf(entries), action.manifestSha256, action.entrypoint, action.launchArgs);
            Stepped(p, s, r, Works)
            == s.(builds := if MayBecomeReady(s.builds, s.blobs, action.buildId, FilesOf(entries))
                            then s.builds[action.buildId := row] else s.builds,
                  requests := Moved(s.requests, r, []))
  {
    hide Execute, Stepped;
    FinalizeCallsExecuted(p, s, action, Works);
    FilesRecordedAsEntries(s, entries);
    OutcomeIsStep(p, s, r, Works, Execute(p, s, action, Works));
  }

  lemma FilesRecordedAsEntries(s: State, entries: seq<ManifestEntry>)
    ensures AllRecorded(s, entries) <==> forall k :: 0 <= k < |entries| ==> FilesOf(entries)[k].blobSha256 in s.blobs
  {
    assert forall k :: 0 <= k < |entries| ==> FilesOf(entries)[k].blobSha256 == entries[k].blobSha256;
  }

  /** The two subqueries of the collector's statements. */
  lemma SubqueriesDecide(s: State, h: Digest)
    ensures Referenced(s, h)
       <==> exists b <- s.builds :: exists k :: 0 <= k < |s.builds[b].files| && s.builds[b].files[k].blobSha256 == h
    ensures Awaited(s, h) <==> exists id <- s.sessions :: s.sessions[id].blobSha256 == h && s.sessions[id].status == Pending
  {
  }

  class Backend {
    const p: Settings
    const store: BlobStore

    var now: int
    var accounts: map<UserId, Account>
    var sessions: map<SessionId, Session>
    var blobs: map<Digest, BlobRow>
    var builds: map<BuildId, BuildRow>

    // The requests under way and the history the machine keeps.
    ghost var requests: map<RequestId, Request>
    ghost var accepted: map<SessionId, seq<Chunk>>
    ghost var leaked: map<UserId, nat>

    // Where the machine started, and everything that has happened to it since.
    ghost const origin: State
    ghost var trace: seq<Event>

    constructor (p: Settings, accounts: map<UserId, Account>)
      ensures this.p == p && fresh(store) && Quiet() && trace == []
      ensures origin == State(0, accounts, map[], map[], map[], map[], map[], map[], map[], map[])
    {
      this.p := p;
      store := new BlobStore();
      now, this.accounts, sessions, blobs, builds := 0, accounts, map[], map[], map[];
      requests, accepted, leaked := map[], map[], map[];
      origin := State(0, accounts, map[], map[], map[], map[], map[], map[], map[], map[]);
      trace := [];
    }

    /** Whatever has been called so far was a run of the machine, and this is where it led. */
    ghost predicate Valid()
      reads this, store
    {
      store.Valid() && OwnIds(sessions) && Run(p, origin, trace) == Snapshot()
    }

    /** Whatever has been called so far was called one thing after another, and nothing is under way. */
    ghost predicate Quiet()
      reads this, store
    {
      Valid() && OneAtATime(p, origin, trace) && Idle(requests)
    }

    /** A whole call from quiet to its end. */
    lemma StaysQuiet(before: seq<Event>, event: Event)
      requires Valid() && StartsRequest(event) && Extends(before, event, trace)
      requires OneAtATime(p, origin, before) && Idle(Run(p, origin, before).requests)
      requires event.request in requests && requests[event.request].program == []
      ensures Quiet()
    {
      hide Run, OneAtATime, Extends, Idle;
      FinishedCallLeavesIdle(p, origin, before, event, trace);
    }

    /** The machine's view of everything. */
    ghost function Snapshot(): State
      reads this, store
    {
      State(now, accounts, sessions, blobs, builds, store.staging, store.stored, requests, accepted, leaked)
    }

    /** The call is made: its request moves on, and the step joins the trace. */
    ghost method Advance(s: State, r: RequestId, next: seq<Action>, io: Io)
      requires r in requests && requests[r].program != [] && r in s.requests && s.requests[r].program != []
      requires Run(p, origin, trace) == s
      requires Stepped(p, s, r, io) == Snapshot().(requests := Moved(requests, r, next))
      modifies this`requests, this`trace
      ensures requests == Moved(old(requests), r, next) && trace == old(trace) + [Step(r, io)]
      ensures Run(p, origin, trace) == Snapshot()
      ensures r in requests && requests[r].program == next + old(requests)[r].program[1..]
    {
      hide Stepped, Run, Moved;
      MovedProgram(requests, r, next);
      OneMoreStep(p, origin, trace, s, r, io);
      requests, trace := Moved(requests, r, next), trace + [Step(r, io)];
    }

    /** A request begins, or something else happens: the event joins the trace. */
    ghost method Happen(s: State, event: Event)
      requires Run(p, origin, trace) == s && Apply(p, s, event) == Snapshot()
      modifies this`trace
      ensures trace == old(trace) + [event] && Run(p, origin, trace) == Snapshot()
      ensures old(OneAtATime(p, origin, trace)) && Alone(s, event) ==> OneAtATime(p, origin, trace)
    {
      hide Apply, Run, OneAtATime, Alone;
      OneMoreEvent(p, origin, trace, s, event);
      OneMoreAlone(p, origin, trace, s, event);
      trace := trace + [event];
    }

    /** A request sets out with its first calls. */
    ghost method Begin(event: Event)
      requires Valid() && StartsRequest(event) && event.request !in requests
      requires ProgramOf(p, Snapshot(), event).Some?
      modifies this`requests, this`trace
      ensures Valid() && trace == old(trace) + [event] && event.request in requests
      ensures requests[event.request] == ProgramOf(p, old(Snapshot()), event).value
    {
      hide Run, ProgramOf;
      var s := Snapshot();
      StartIsApplied(p, s, event);
      requests := requests[event.request := ProgramOf(p, s, event).value];
      Happen(s, event);
    }

    // -------------------------------------------------------------------------
    // What happens around the services
    // -------------------------------------------------------------------------

    method PassTime(seconds: nat)
      requires Valid()
      modifies this`now, this`trace
      ensures Valid() && trace == old(trace) + [Tick(seconds)] && now == old(now) + seconds
      ensures old(Quiet()) ==> Quiet()
    {
      hide Run, OneAtATime, Idle;
      ghost var s := Snapshot();
      now := now + seconds;
      Happen(s, Tick(seconds));
    }

    method ChangeQuota(user: UserId, quotaBytes: nat)
      requires Valid() && user in accounts
      modifies this`accounts, this`trace
      ensures Valid() && trace == old(trace) + [SetQuota(user, quotaBytes)]
      ensures old(Quiet()) ==> Quiet()
      ensures accounts == old(accounts)[user := Account(quotaBytes, old(accounts)[user].usedBytes)]
    {
      hide Run, OneAtATime, Idle;
      ghost var s := Snapshot();
      accounts := accounts[user := accounts[user].(quotaBytes := quotaBytes)];
      Happen(s, SetQuota(user, quotaBytes));
    }

    /** A build id is a fresh uuid. */
    method AddBuild(build: BuildId)
      requires Valid() && build !in builds
      modifies this`builds, this`trace
      ensures Valid() && trace == old(trace) + [CreateBuild(build)]
      ensures old(Quiet()) ==> Quiet()
      ensures builds == old(builds)[build := BuildRow(Uploading, [], "", "", "")]
    {
      hide Run, OneAtATime, Idle;
      ghost var s := Snapshot();
      builds := builds[build := BuildRow(Uploading, [], "", "", "")];
      Happen(s, CreateBuild(build));
    }

    /** `markFailed`: never a ready build. */
    method FailBuild(build: BuildId) returns (failed: bool)
      requires Valid()
      modifies this`builds, this`trace
      ensures Valid() && trace == old(trace) + [MarkFailed(build)]
      ensures old(Quiet()) ==> Quiet()
      ensures failed <==> build in old(builds) && old(builds)[build].status != Ready
      ensures builds == if failed then old(builds)[build := old(builds)[build].(status := Failed)] else old(builds)
    {
      hide Run, OneAtATime, Idle;
      ghost var s := Snapshot();
      failed := build in builds && builds[build].status != Ready;
      if failed {
        builds := builds[build := builds[build].(status := Failed)];
      }
      Happen(s, MarkFailed(build));
    }

    /** `remove`: the build's upload sessions go with it. */
    method DropBuild(build: BuildId)
      requires Valid()
      modifies this`builds, this`sessions, this`trace
      ensures Valid() && trace == old(trace) + [RemoveBuild(build)] && builds == old(builds) - {build}
      ensures old(Quiet()) ==> Quiet()
      ensures sessions == SessionsElsewhere(old(sessions), build)
    {
      hide Run, OneAtATime, Idle, Apply, SessionsElsewhere;
      ghost var s := Snapshot();
      RemovalIsApplied(p, s, build);
      builds, sessions := builds - {build}, SessionsElsewhere(sessions, build);
      Happen(s, RemoveBuild(build));
    }

    // -------------------------------------------------------------------------
    // Upload sessions
    // -------------------------------------------------------------------------

    /** The session in flight for this content of this build, if there is one. */
    method FindOpen(build: BuildId, sha256: Digest) returns (open: Option<Session>)
      ensures open.Some? <==> HasOpenSession(Snapshot(), build, sha256)
      ensures open.Some? ==>
                && open.value in sessions.Values
                && open.value.buildId == build && open.value.blobSha256 == sha256 && open.value.status == Pending
    {
      var candidates := set id | id in sessions && sessions[id].buildId == build && sessions[id].blobSha256 == sha256
                                 && sessions[id].status == Pending;
      if candidates == {} {
        assert forall id <- sessions :: id !in candidates;
        return None;
      }
      var id :| id in candidates;
      return Some(sessions[id]);
    }

    method InsertSession(session: Session)
      modifies this`sessions, this`accepted
      ensures sessions == old(sessions)[session.id := session] && accepted == old(accepted)[session.id := []]
    {
      sessions, accepted := sessions[session.id := session], accepted[session.id := []];
    }

    /** The insert behind `create`, when nothing is in flight. A session id is a fresh uuid. */
    method CreateSession(id: SessionId, build: BuildId, user: UserId, sha256: Digest, sizeBytes: nat, ttl: nat)
      returns (session: Session)
      requires Valid() && MayOpen(p, Snapshot(), id, build, user, sha256, sizeBytes)
      modifies this`sessions, this`accepted, this`trace
      ensures Valid() && trace == old(trace) + [BeginUpload(id, build, user, sha256, sizeBytes, ttl)]
      ensures old(Quiet()) ==> Quiet()
      ensures session == Session(id, build, user, sha256, sizeBytes, 0, Pending, now + ttl)
      ensures sessions == old(sessions)[id := session]
    {
      hide Run, OneAtATime, Idle, Apply, MayOpen, OwnIds;
      ghost var s := Snapshot();
      OpeningIsApplied(p, s, id, build, user, sha256, sizeBytes, ttl);
      session := Session(id, build, user, sha256, sizeBytes, 0, Pending, now + ttl);
      InsertSession(session);
      Happen(s, BeginUpload(id, build, user, sha256, sizeBytes, ttl));
    }

    /** The conditional update behind `reserveBytes`. */
    method HandOut(id: SessionId, offset: int, data: Content) returns (reserved: Option<Session>)
      modifies this`sessions, this`accepted
      ensures reserved == Reservation(old(sessions), now, id, offset, data)
      ensures sessions == WithReservation(old(sessions), id, reserved)
      ensures accepted == WithChunk(old(accepted), id, Chunk(offset, data), reserved)
      ensures old(OwnIds(sessions)) ==> OwnIds(sessions)
    {
      if id !in sessions {
        return None;
      }
      var session := sessions[id];
      if session.status != Pending || session.expiresAt <= now || session.receivedBytes != offset
         || session.receivedBytes + |data| > session.declaredSizeBytes {
        return None;
      }
      session := session.(receivedBytes := session.receivedBytes + |data|);
      sessions := sessions[id := session];
      accepted := accepted[id := (if id in accepted then accepted[id] else []) + [Chunk(offset, data)]];
      return Some(session);
    }

    method ReserveBytes(id: SessionId, offset: int, data: Content, ghost r: RequestId) returns (reserved: Option<Session>)
      requires Valid() && Calls(requests, r, Reserve(id, offset, data))
      modifies this`sessions, this`accepted, this`requests, this`trace
      ensures Valid() && trace == old(trace) + [Step(r, Works)]
      ensures reserved == Reservation(old(sessions), now, id, offset, data)
      ensures sessions == WithReservation(old(sessions), id, reserved)
      ensures r in requests && requests[r].program == AfterReserve(reserved, offset, data) + old(requests)[r].program[1..]
    {
      hide Run, Stepped, Moved, OwnIds, Reservation, WithReservation, WithChunk, AfterReserve;
      ghost var s := Snapshot();
      ReserveStep(p, s, r, id, offset, data);
      reserved := HandOut(id, offset, data);
      Advance(s, r, AfterReserve(reserved, offset, data), Works);
    }

    method SetStatus(id: SessionId, status: SessionStatus)
      modifies this`sessions
      ensures sessions == StatusSet(old(sessions), id, status)
      ensures old(OwnIds(sessions)) ==> OwnIds(sessions)
    {
      if id in sessions && sessions[id].status == Pending {
        sessions := sessions[id := sessions[id].(status := status)];
      }
    }

    method MarkSession(id: SessionId, status: SessionStatus, ghost r: RequestId)
      requires Valid()
      requires (Calls(requests, r, MarkCompleted(id)) && status == Completed)
            || (Calls(requests, r, MarkAborted(id)) && status == Aborted)
      modifies this`sessions, this`requests, this`trace
      ensures Valid() && trace == old(trace) + [Step(r, Works)]
      ensures sessions == StatusSet(old(sessions), id, status)
      ensures r in requests && requests[r].program == [] + old(requests)[r].program[1..]
    {
      hide Run, Stepped, Moved, StatusSet, OwnIds;
      ghost var s := Snapshot();
      MarkStep(p, s, r, id, status);
      SetStatus(id, status);
      Advance(s, r, [], Works);
    }

    method DeleteById(id: SessionId, ghost r: RequestId) returns (deleted: bool)
      requires Valid() && Calls(requests, r, DeleteSession(id))
      modifies this`sessions, this`requests, this`trace
      ensures Valid() && trace == old(trace) + [Step(r, Works)]
      ensures r in requests && requests[r].program == [] + old(requests)[r].program[1..]
      ensures (deleted <==> id in old(sessions)) && sessions == old(sessions) - {id}
    {
      hide Run, Stepped, Moved;
      ghost var s := Snapshot();
      RemovalStep(p, s, r, DeleteSession(id));
      deleted := id in sessions;
      sessions := sessions - {id};
      Advance(s, r, [], Works);
    }

    // -------------------------------------------------------------------------
    // Staging and storage
    // -------------------------------------------------------------------------

    method WriteStaging(session: Session, offset: int, data: Content, io: Io, ghost r: RequestId)
      returns (written: Result<()>)
      requires Valid() && Calls(requests, r, Write(session, offset, data)) && offset >= 0
      modifies this`requests, this`trace, store
      ensures Valid() && trace == old(trace) + [Step(r, io)]
      ensures r in requests && requests[r].program == AfterWrite(session, written.Ok?) + old(requests)[r].program[1..]
      ensures written == if WriteSucceeds(old(store.staging), session.id, offset, data, io) then Ok(())
                         else Err(WriteRefusal(offset, io))
      ensures store.staging == StagingAfterWrite(old(store.staging), session.id, offset, data, io)
      ensures store.stored == old(store.stored)
    {
      hide Run, Stepped, Moved, StagingAfterWrite, WriteSucceeds, WriteRefusal, AfterWrite;
      ghost var s := Snapshot();
      WriteStep(p, s, r, session, offset, data, io);
      written := store.WriteAt(session.id, offset, data, io);
      Advance(s, r, AfterWrite(session, written.Ok?), io);
    }

    method CommitStaging(session: Session, io: Io, ghost r: RequestId) returns (committed: Result<()>)
      requires Valid() && Calls(requests, r, Commit(session))
      modifies this`requests, this`trace, store
      ensures Valid() && trace == old(trace) + [Step(r, io)]
      ensures r in requests && requests[r].program == AfterCommit(session, committed.Ok?) + old(requests)[r].program[1..]
      ensures committed == if CommitSucceeds(old(store.staging), session.id, session.blobSha256, io, p.sha256) then Ok(())
                           else Err(CommitRefusal(old(store.staging), session.id, session.blobSha256, p.sha256))
      ensures store.staging == StagingAfterCommit(old(store.staging), session.id, session.blobSha256)
      ensures store.stored
           == StoredAfterCommit(old(store.stored), old(store.staging), session.id, session.blobSha256, committed.Ok?)
    {
      hide Run, Stepped, Moved, CommitSucceeds, CommitRefusal, StagingAfterCommit, StoredAfterCommit, AfterCommit;
      ghost var s := Snapshot();
      CommitStep(p, s, r, session, io);
      committed := store.Commit(session.id, session.blobSha256, io, p.sha256);
      Advance(s, r, AfterCommit(session, committed.Ok?), io);
    }

    method Discard(id: SessionId, ghost r: RequestId)
      requires Valid() && Calls(requests, r, DiscardStaging(id))
      modifies this`requests, this`trace, store
      ensures Valid() && trace == old(trace) + [Step(r, Works)]
      ensures r in requests && requests[r].program == [] + old(requests)[r].program[1..]
      ensures store.staging == old(store.staging) - {id} && store.stored == old(store.stored)
    {
      hide Run, Stepped, Moved;
      ghost var s := Snapshot();
      RemovalStep(p, s, r, DiscardStaging(id));
      store.Discard(id);
      Advance(s, r, [], Works);
    }

    method RemoveBlobFile(sha256: Digest, ghost r: RequestId)
      requires Valid() && Calls(requests, r, DiscardBlob(sha256))
      modifies this`requests, this`trace, store
      ensures Valid() && trace == old(trace) + [Step(r, Works)]
      ensures r in requests && requests[r].program == [] + old(requests)[r].program[1..]
      ensures store.staging == old(store.staging) && store.stored == old(store.stored) - {sha256}
    {
      hide Run, Stepped, Moved;
      ghost var s := Snapshot();
      RemovalStep(p, s, r, DiscardBlob(sha256));
      store.DiscardBlob(sha256);
      Advance(s, r, [], Works);
    }

    // -------------------------------------------------------------------------
    // Blobs and quota
    // -------------------------------------------------------------------------

    method FindBySha256(session: Session, ghost r: RequestId) returns (held: bool)
      requires Valid() && Calls(requests, r, CheckRow(session))
      modifies this`requests, this`trace
      ensures Valid() && trace == old(trace) + [Step(r, Works)]
      ensures held == (session.blobSha256 in blobs)
      ensures r in requests && requests[r].program == AfterCheck(session, held) + old(requests)[r].program[1..]
    {
      hide Run, Stepped, Moved, AfterCheck;
      ghost var s := Snapshot();
      CheckRowStep(p, s, r, session);
      held := session.blobSha256 in blobs;
      Advance(s, r, AfterCheck(session, held), Works);
    }

    /** The conditional update behind `chargeUpload`. */
    method AddUsage(user: UserId, bytes: nat) returns (charged: bool)
      modifies this`accounts
      ensures charged == MayCharge(old(accounts), user, bytes)
      ensures accounts == UsageAdded(old(accounts), user, bytes)
    {
      if user !in accounts || accounts[user].usedBytes + bytes > accounts[user].quotaBytes {
        return false;
      }
      accounts := accounts[user := accounts[user].(usedBytes := accounts[user].usedBytes + bytes)];
      return true;
    }

    method ChargeUpload(session: Session, ghost r: RequestId) returns (charged: bool)
      requires Valid() && Calls(requests, r, Charge(session))
      modifies this`accounts, this`requests, this`trace
      ensures Valid() && trace == old(trace) + [Step(r, Works)]
      ensures charged == MayCharge(old(accounts), session.userId, session.declaredSizeBytes)
      ensures accounts == UsageAdded(old(accounts), session.userId, session.declaredSizeBytes)
      ensures r in requests && requests[r].program == AfterCharge(session, charged) + old(requests)[r].program[1..]
    {
      hide Run, Stepped, Moved, MayCharge, UsageAdded, AfterCharge;
      ghost var s := Snapshot();
      ChargeStep(p, s, r, session);
      charged := AddUsage(session.userId, session.declaredSizeBytes);
      Advance(s, r, AfterCharge(session, charged), Works);
    }

    /** The clamped update behind `releaseUpload`. */
    method SubtractUsage(user: UserId, bytes: nat)
      modifies this`accounts
      ensures accounts == UsageSubtracted(old(accounts), user, bytes)
    {
      if user in accounts {
        var used := accounts[user].usedBytes - bytes;
        accounts := accounts[user := accounts[user].(usedBytes := if used < 0 then 0 else used)];
      }
    }

    method ReleaseUpload(user: UserId, bytes: nat, ghost r: RequestId)
      requires Valid() && Calls(requests, r, Release(user, bytes))
      modifies this`accounts, this`requests, this`trace
      ensures Valid() && trace == old(trace) + [Step(r, Works)]
      ensures r in requests && requests[r].program == [] + old(requests)[r].program[1..]
    {
      hide Run, Stepped, Moved, UsageSubtracted;
      ghost var s := Snapshot();
      ReleaseStep(p, s, r, user, bytes);
      SubtractUsage(user, bytes);
      Advance(s, r, [], Works);
    }

    /** The insert behind `record`, which does nothing on a conflict. */
    method InsertBlob(sha256: Digest, row: BlobRow) returns (stored: bool)
      modifies this`blobs
      ensures stored == (sha256 !in old(blobs))
      ensures blobs == RowInserted(old(blobs), sha256, row) && sha256 in blobs
    {
      if sha256 in blobs {
        return false;
      }
      blobs := blobs[sha256 := row];
      return true;
    }

    method RecordBlob(session: Session, ghost r: RequestId) returns (stored: bool)
      requires Valid() && Calls(requests, r, Record(session))
      modifies this`blobs, this`requests, this`trace
      ensures Valid() && trace == old(trace) + [Step(r, Works)]
      ensures r in requests && requests[r].program == AfterRecord(session, stored) + old(requests)[r].program[1..]
      ensures stored == (session.blobSha256 !in old(blobs)) && session.blobSha256 in blobs
      ensures blobs == RowInserted(old(blobs), session.blobSha256, BlobRow(session.declaredSizeBytes, session.userId, now))
    {
      hide Run, Stepped, Moved, AfterRecord, RowInserted;
      ghost var s := Snapshot();
      RecordStep(p, s, r, session);
      stored := InsertBlob(session.blobSha256, BlobRow(session.declaredSizeBytes, session.userId, now));
      Advance(s, r, AfterRecord(session, stored), Works);
    }

    /** The conditional delete behind `deleteIfUnreferenced`. */
    method DeleteRow(sha256: Digest) returns (deleted: bool)
      modifies this`blobs
      ensures deleted == Collectable(p, old(Snapshot()), sha256)
      ensures blobs == RowDeleted(old(blobs), sha256, deleted)
    {
      hide Referenced, Awaited;
      SubqueriesDecide(Snapshot(), sha256);
      deleted := sha256 in blobs
                 && blobs[sha256].createdAt + p.graceSeconds < now
                 && !(exists b <- builds :: exists k :: 0 <= k < |builds[b].files| && builds[b].files[k].blobSha256 == sha256)
                 && !(exists id <- sessions :: sessions[id].blobSha256 == sha256 && sessions[id].status == Pending);
      if deleted {
        blobs := blobs - {sha256};
      }
    }

    method DeleteIfUnreferenced(blob: CollectableBlob, ghost listedAt: int, ghost r: RequestId) returns (deleted: bool)
      requires Valid() && Calls(requests, r, CollectRow(blob, listedAt))
      modifies this`blobs, this`requests, this`trace
      ensures Valid() && trace == old(trace) + [Step(r, Works)]
      ensures deleted == Collectable(p, old(Snapshot()), blob.sha256)
      ensures blobs == RowDeleted(old(blobs), blob.sha256, deleted)
      ensures r in requests && requests[r].program == AfterCollect(blob, deleted) + old(requests)[r].program[1..]
    {
      hide Run, Stepped, Moved, Collectable, AfterCollect, RowDeleted;
      ghost var s := Snapshot();
      CollectStep(p, s, r, blob, listedAt);
      deleted := DeleteRow(blob.sha256);
      Advance(s, r, AfterCollect(blob, deleted), Works);
    }

    // -------------------------------------------------------------------------
    // Builds
    // -------------------------------------------------------------------------

    /** `findMany`: the sizes of those digests that have a row. */
    method FindMany(digests: seq<Digest>) returns (sizes: map<Digest, nat>)
      ensures sizes.Keys == set h | h in digests && h in blobs
      ensures forall h <- sizes :: h in blobs && sizes[h] == blobs[h].sizeBytes
    {
      sizes := map h | h in digests && h in blobs :: blobs[h].sizeBytes;
    }

    /** The sizes have been read: what is to be finalized now carries them, unless a blob was missing. */
    ghost method SizesRead(build: BuildId, entries: seq<ManifestEntry>, entrypoint: string, launchArgs: string, r: RequestId)
      requires Valid() && Calls(requests, r, ReadSizes(build, entries, entrypoint, launchArgs))
      modifies this`requests, this`trace
      ensures Valid() && trace == old(trace) + [Step(r, Works)]
      ensures r in requests
           && requests[r].program
              == AfterSizes(p, old(Snapshot()), build, entries, entrypoint, launchArgs) + old(requests)[r].program[1..]
    {
      hide Run, Stepped, Moved, AfterSizes;
      var s := Snapshot();
      SizesStep(p, s, r, build, entries, entrypoint, launchArgs);
      Advance(s, r, AfterSizes(p, s, build, entries, entrypoint, launchArgs), Works);
    }

    /** One statement: gated on the status, undone by the foreign key. */
    method UpdateBuild(build: BuildId, row: BuildRow) returns (finalized: bool)
      modifies this`builds
      ensures finalized == MayBecomeReady(old(builds), blobs, build, row.files)
      ensures builds == if finalized then old(builds)[build := row] else old(builds)
    {
      finalized := build in builds && builds[build].status == Uploading
                   && forall k :: 0 <= k < |row.files| ==> row.files[k].blobSha256 in blobs;
      if finalized {
        builds := builds[build := row];
      }
    }

    method FinalizeRow(build: BuildId, entries: seq<ManifestEntry>, entrypoint: string, launchArgs: string,
                       manifestSha256: Digest, ghost r: RequestId) returns (finalized: bool)
      requires Valid() && Calls(requests, r, Finalize(build, entries, entrypoint, launchArgs, manifestSha256))
      modifies this`builds, this`requests, this`trace
      ensures Valid() && trace == old(trace) + [Step(r, Works)]
      ensures r in requests && requests[r].program == [] + old(requests)[r].program[1..]
      ensures finalized == MayBecomeReady(old(builds), blobs, build, FilesOf(entries))
      ensures finalized ==>
                build in builds
                && builds[build] == BuildRow(Ready, FilesOf(entries), manifestSha256, entrypoint, launchArgs)
    {
      hide Run, Stepped, Moved, MayBecomeReady, FilesOf;
      ghost var s := Snapshot();
      FinalizeStep(p, s, r, entries, Finalize(build, entries, entrypoint, launchArgs, manifestSha256));
      finalized := UpdateBuild(build, BuildRow(Ready, FilesOf(entries), manifestSha256, entrypoint, launchArgs));
      Advance(s, r, [], Works);
    }
  }
}
